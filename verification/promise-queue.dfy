/**
 `PromiseQueue` of `agent-base/agentd/drivers/claude.mjs`: pushes meet the
 promises `next()` handed out, each promise by its number.
 */
module PromiseQueues {
  /** What has become of one `next()`. */
  datatype Slot<T> = Waiting | Given(item: T) | Closed

  /** `waiters` are the numbers of the waiting promises, `slots` all promises, and
      `pushed` the items accepted so far. */
  datatype Queue<T> = Queue(items: seq<T>, waiters: seq<nat>, closed: bool, slots: seq<Slot<T>>, pushed: seq<T>)

  function Settle<T>(slots: seq<Slot<T>>, waiter: nat, s: Slot<T>): (r: seq<Slot<T>>)
    ensures |r| == |slots|
    ensures forall i :: 0 <= i < |r| ==> r[i] == if i == waiter then s else slots[i]
  {
    if waiter < |slots| then slots[waiter := s] else slots
  }

  function SettleAll<T>(slots: seq<Slot<T>>, waiters: seq<nat>, s: Slot<T>): (r: seq<Slot<T>>)
    ensures |r| == |slots|
    ensures forall i :: 0 <= i < |r| ==> r[i] == if i in waiters then s else slots[i]
    decreases |waiters|
  {
    if waiters == [] then slots else SettleAll(Settle(slots, waiters[0], s), waiters[1..], s)
  }

  function AfterPush<T>(q: Queue<T>, item: T): Queue<T> {
    if q.closed then q
    else
      var q := q.(pushed := q.pushed + [item]);
      if q.waiters != [] then q.(waiters := q.waiters[1..], slots := Settle(q.slots, q.waiters[0], Given(item)))
      else q.(items := q.items + [item])
  }

  function AfterClose<T>(q: Queue<T>): Queue<T> {
    q.(closed := true, waiters := [], slots := SettleAll(q.slots, q.waiters, Closed))
  }

  function AfterNext<T>(q: Queue<T>): Queue<T> {
    if q.items != [] then q.(items := q.items[1..], slots := q.slots + [Given(q.items[0])])
    else if q.closed then q.(slots := q.slots + [Closed])
    else q.(waiters := q.waiters + [|q.slots|], slots := q.slots + [Waiting])
  }

  function NewQueue<T>(): Queue<T> { Queue([], [], false, [], []) }

  datatype Step<T> = DoPush(item: T) | DoClose | DoNext

  function Apply<T>(q: Queue<T>, step: Step<T>): Queue<T> {
    match step
    case DoPush(item) => AfterPush(q, item)
    case DoClose => AfterClose(q)
    case DoNext => AfterNext(q)
  }

  function Run<T>(steps: seq<Step<T>>): Queue<T> {
    if steps == [] then NewQueue() else Apply(Run(steps[..|steps| - 1]), steps[|steps| - 1])
  }

  // ---- what every run keeps -----------------------------------------------------------

  /** What the `i`-th `next()` is due: the `i`-th accepted push, then the close. */
  function Due<T>(q: Queue<T>, i: nat): Slot<T> {
    if i < |q.pushed| then Given(q.pushed[i]) else if q.closed then Closed else Waiting
  }

  predicate Valid<T(==)>(q: Queue<T>) {
    && (forall i :: 0 <= i < |q.slots| ==> q.slots[i] == Due(q, i))
    && |q.items| == (if |q.pushed| > |q.slots| then |q.pushed| - |q.slots| else 0)
    && (forall i :: 0 <= i < |q.items| ==> q.items[i] == q.pushed[|q.slots| + i])
    && |q.waiters| == (if q.closed || |q.pushed| >= |q.slots| then 0 else |q.slots| - |q.pushed|)
    && (forall i :: 0 <= i < |q.waiters| ==> q.waiters[i] == |q.pushed| + i)
  }

  lemma StepKeepsValid<T>(q: Queue<T>, step: Step<T>)
    requires Valid(q)
    ensures Valid(Apply(q, step))
  {
    hide SettleAll, Settle;
    if step.DoClose? {
      assert forall i :: 0 <= i < |q.slots| ==> (i in q.waiters <==> !q.closed && |q.pushed| <= i) by { WaitersAre(q); }
    }
  }

  lemma WaitersAre<T>(q: Queue<T>)
    requires Valid(q)
    ensures forall i :: 0 <= i < |q.slots| ==> (i in q.waiters <==> !q.closed && |q.pushed| <= i)
  {
    forall i | 0 <= i < |q.slots| && !q.closed && |q.pushed| <= i ensures i in q.waiters {
      assert q.waiters[i - |q.pushed|] == i;
    }
  }

  lemma {:induction false} RunIsValid<T>(steps: seq<Step<T>>)
    ensures Valid(Run(steps))
  {
    if steps != [] {
      RunIsValid(steps[..|steps| - 1]);
      StepKeepsValid(Run(steps[..|steps| - 1]), steps[|steps| - 1]);
      hide Valid, Apply;
    }
  }

  /** The items pushed before the first close. */
  function Pushes<T>(steps: seq<Step<T>>): seq<T> {
    if steps == [] then []
    else
      var before, last := Pushes(steps[..|steps| - 1]), steps[|steps| - 1];
      if last.DoPush? && forall i :: 0 <= i < |steps| ==> !steps[i].DoClose? then before + [last.item] else before
  }

  /** How many answers were asked for. */
  function Asked<T>(steps: seq<Step<T>>): nat {
    if steps == [] then 0 else Asked(steps[..|steps| - 1]) + if steps[|steps| - 1].DoNext? then 1 else 0
  }

  /** In every run exactly what was pushed before the first close is accepted, and each
      `next()` has its answer or waits for it. */
  lemma {:induction false} AcceptedUntilClosed<T>(steps: seq<Step<T>>)
    ensures var q := Run(steps);
      && q.pushed == Pushes(steps) && |q.slots| == Asked(steps)
      && (q.closed <==> exists i :: 0 <= i < |steps| && steps[i].DoClose?)
  {
    if steps != [] {
      var init, last := steps[..|steps| - 1], steps[|steps| - 1];
      AcceptedUntilClosed(init);
      assert forall i :: 0 <= i < |init| ==> init[i] == steps[i];
      if exists i :: 0 <= i < |steps| && steps[i].DoClose? {
        var i :| 0 <= i < |steps| && steps[i].DoClose?;
        if i < |init| { assert init[i].DoClose?; }
      }
      hide SettleAll, Settle;
    }
  }

  /** In every run the answers of `next()` are the accepted pushes in order, then
      closed for good once the queue is; and items and waiters never stand together. */
  lemma AnswersAreThePushes<T>(steps: seq<Step<T>>)
    ensures var q := Run(steps);
      && (forall i :: 0 <= i < |q.slots| ==> q.slots[i] == Due(q, i))
      && (q.items == [] || q.waiters == [])
  {
    RunIsValid(steps);
    hide Run;
  }

  /** Once closed, a queue is closed for good: whatever follows, it takes nothing
      more, every answer given stays, and every later one is that it is closed. */
  lemma {:induction false} ClosedForGood<T>(steps: seq<Step<T>>, more: seq<Step<T>>)
    requires Run(steps).closed
    ensures var q, q' := Run(steps), Run(steps + more);
      && q'.closed && q'.pushed == q.pushed && |q'.slots| >= |q.slots|
      && (forall i :: 0 <= i < |q.slots| ==> q'.slots[i] == q.slots[i] && !q.slots[i].Waiting?)
      && (forall i :: |q.pushed| <= i < |q'.slots| ==> q'.slots[i].Closed?)
  {
    RunIsValid(steps);
    RunIsValid(steps + more);
    if more == [] {
      assert steps + more == steps;
    } else {
      assert (steps + more)[..|steps + more| - 1] == steps + more[..|more| - 1];
      ClosedForGood(steps, more[..|more| - 1]);
      hide SettleAll, Settle;
    }
  }

  // ---- the class ----------------------------------------------------------------------

  class PromiseQueue<T(==)> {
    var items: seq<T>
    var waiters: seq<nat>
    var closed: bool
    /** Every promise handed out. */
    var slots: seq<Slot<T>>
    /** Every item accepted. */
    ghost var pushed: seq<T>

    ghost function View(): Queue<T>
      reads this
    {
      Queue(items, waiters, closed, slots, pushed)
    }

    constructor ()
      ensures View() == NewQueue() && Valid(View())
    {
      items, waiters, closed, slots, pushed := [], [], false, [], [];
    }

    method Push(item: T) returns (ok: bool)
      requires Valid(View())
      modifies this
      ensures View() == AfterPush(old(View()), item) && Valid(View())
      ensures ok <==> !old(closed)
    {
      StepKeepsValid(View(), DoPush(item));
      hide Valid;
      if closed { return false; }
      pushed := pushed + [item];
      if |waiters| > 0 {
        slots := Settle(slots, waiters[0], Given(item));
        waiters := waiters[1..];
      } else {
        items := items + [item];
      }
      return true;
    }

    method Close()
      requires Valid(View())
      modifies this
      ensures View() == AfterClose(old(View())) && Valid(View())
    {
      StepKeepsValid(View(), DoClose);
      hide Valid;
      closed := true;
      while |waiters| > 0
        invariant View() == old(View()).(closed := true, waiters := waiters, slots := slots)
        invariant SettleAll(slots, waiters, Slot.Closed) == SettleAll(old(slots), old(waiters), Slot.Closed)
        decreases |waiters|
      {
        slots := Settle(slots, waiters[0], Slot.Closed);
        waiters := waiters[1..];
      }
    }

    method Next() returns (slot: nat)
      requires Valid(View())
      modifies this
      ensures View() == AfterNext(old(View())) && Valid(View())
      ensures slot == |old(slots)|
    {
      StepKeepsValid(View(), DoNext);
      hide Valid;
      slot := |slots|;
      if |items| > 0 {
        slots := slots + [Given(items[0])];
        items := items[1..];
      } else if closed {
        slots := slots + [Slot.Closed];
      } else {
        waiters := waiters + [slot];
        slots := slots + [Waiting];
      }
    }
  }
}
