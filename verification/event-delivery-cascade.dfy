/**
 The size-refusal cascade: against a control plane that refuses exactly the
 bodies over a cap every stub fits alone, flushing empties a queue of durable
 events, delivers each once and in order, and stubs exactly those that do not
 fit alone.
 */
module EventDeliveryCascade {
  import opened Wrappers
  import opened EventDelivery
  import opened EventDeliverySafety

  /** The event's body when it is sent by itself is within the cap. */
  predicate Fits(cfg: Config, cap: nat, e: Event) {
    e.json.Some? && |Head(cfg)| + 2 + |e.json.value| <= cap
  }

  ghost predicate StubFits(cfg: Config, cap: nat, e: Event) {
    if e.stub then Fits(cfg, cap, e) else forall size :: Fits(cfg, cap, StubFor(cfg, e, size))
  }

  function CapAnswer(cfg: Config, cap: nat, b: Batch): Answer {
    Status(if |Body(cfg, b.parts)| > cap then 413 else 200, false)
  }

  /** What is to arrive for an event: itself, or its stub when it has no JSON or
      is too large by itself. */
  function Deliverable(cfg: Config, cap: nat, e: Event): Event {
    if e.stub || Fits(cfg, cap, e) then e
    else StubFor(cfg, e, if e.json.None? then None else Some(|e.json.value|))
  }

  function Deliverables(cfg: Config, cap: nat, q: seq<Event>): seq<Event> {
    seq(|q|, i requires 0 <= i < |q| => Deliverable(cfg, cap, q[i]))
  }

  /** A queue of durable events whose terminal event, if any, is the last. */
  ghost predicate Sendable(cfg: Config, cap: nat, q: seq<Event>) {
    && Ascending(q) && WellFormed(q) && AllDurable(q)
    && (forall i :: 0 <= i < |q| ==> StubFits(cfg, cap, q[i]))
    && (forall i :: 0 <= i < |q| - 1 ==> !Terminal(q[i]))
  }

  ghost predicate Ready(cfg: Config, cap: nat, p: Pusher) {
    Sendable(cfg, cap, p.queue) && p.awaiting.None? && p.batchLimit >= 1 && (p.queue != [] ==> !p.stopped)
  }

  function Unstubbed(q: seq<Event>): nat {
    if q == [] then 0 else (if q[0].stub then 0 else 1) + Unstubbed(q[1..])
  }

  /** Each event is as it was, or became a stub under its own seq. */
  ghost predicate StubbedFrom(cfg: Config, q': seq<Event>, q: seq<Event>) {
    |q'| == |q| && forall i :: 0 <= i < |q| ==> q'[i] == q[i] || (!q[i].stub && exists size :: q'[i] == StubFor(cfg, q[i], size))
  }

  lemma {:induction false} StubbingCounts(cfg: Config, q': seq<Event>, q: seq<Event>)
    requires StubbedFrom(cfg, q', q)
    ensures Unstubbed(q') <= Unstubbed(q)
    ensures Unstubbed(q') == Unstubbed(q) ==> q' == q
  {
    if q != [] {
      assert StubbedFrom(cfg, q'[1..], q[1..]);
      StubbingCounts(cfg, q'[1..], q[1..]);
      assert q' == [q'[0]] + q'[1..] && q == [q[0]] + q[1..];
    }
  }

  /** On durable events `nextBatch` only replaces those without JSON. */
  lemma {:induction false} GatherStubs(cfg: Config, limit: nat, budget: nat, q: seq<Event>, b: Batch)
    requires |b.events| <= |q| && AllDurable(q) && WellFormed(q)
    ensures var q' := Gather(cfg, limit, budget, q, b).1;
      |q'| == |q| && forall i :: 0 <= i < |q| ==> q'[i] == q[i] || (q[i].json.None? && q'[i] == StubFor(cfg, q[i], None))
    decreases |q| - |b.events|
  {
    var i := |b.events|;
    if i < |q| && i < limit {
      var e := if q[i].json.None? then StubFor(cfg, q[i], None) else q[i];
      if !(i > 0 && b.bytes + SizeIn(b, e) > budget) {
        GatherStubs(cfg, limit, budget, q[i := e], Add(b, e));
      }
    }
  }

  lemma SendableAfterStubs(cfg: Config, cap: nat, q': seq<Event>, q: seq<Event>)
    requires Sendable(cfg, cap, q) && StubbedFrom(cfg, q', q)
    ensures Sendable(cfg, cap, q')
  {}

  /** An event of a batch within the cap is within it by itself. */
  lemma {:induction false} PartFits(cfg: Config, parts: seq<string>, i: nat)
    requires i < |parts|
    ensures |Join(parts)| >= |parts[i]|
  {
    if |parts| > 1 && i < |parts| - 1 {
      PartFits(cfg, parts[..|parts| - 1], i);
    }
  }

  lemma {:induction false} DropPrefix(q: seq<Event>, n: nat)
    requires 0 < n <= |q| && Ascending(q)
    ensures DropAcked(q, q[n - 1].seqNo) == q[n..]
  {
    if n == 1 {
      assert q[1..] != [] ==> q[1].seqNo > q[0].seqNo;
    } else {
      DropPrefix(q[1..], n - 1);
    }
  }

  // ---- one flush and its answer ---------------------------------------------------------

  /** The flush of a ready pusher: a head of the queue goes out, and the queue
      differs only by the stubs of events without JSON. */
  lemma {:induction false} FlushReady(cfg: Config, cap: nat, p: Pusher)
    requires Ready(cfg, cap, p) && p.queue != []
    ensures var p1 := Flush(cfg, p);
      && p1.awaiting.Some? && p1.awaiting.value.events != [] && p1.awaiting.value.events <= p1.queue
      && Exact(cfg, p1.awaiting.value) && |p1.awaiting.value.events| <= p.batchLimit
      && StubbedFrom(cfg, p1.queue, p.queue) && Deliverables(cfg, cap, p1.queue) == Deliverables(cfg, cap, p.queue)
      && p1.batchLimit == p.batchLimit && !p1.stopped
  {
    var q, e0 := p.queue, EmptyBatch(cfg);
    NextBatchFacts(cfg, p.batchLimit, p.batchBytes, q);
    GatherStubs(cfg, p.batchLimit, p.batchBytes, q, e0);
    GatherEmpty(cfg, p.batchLimit, p.batchBytes, q);
    assert q[0] in q && !q[0].ephemeral;
  }

  /** An accepted batch: each event in it is what was to arrive for it. */
  lemma {:induction false} AcceptedAsDeliverable(cfg: Config, cap: nat, b: Batch)
    requires Exact(cfg, b) && |Body(cfg, b.parts)| <= cap
    ensures Deliverables(cfg, cap, b.events) == b.events
  {
    forall i | 0 <= i < |b.events| ensures Fits(cfg, cap, b.events[i]) {
      PartFits(cfg, b.parts, i);
    }
  }

  lemma {:induction false} AcceptedQueue(cfg: Config, cap: nat, p: Pusher, b: Batch)
    requires Sendable(cfg, cap, p.queue) && p.awaiting == Some(b) && !p.stopped
    requires b.events != [] && b.events <= p.queue && Accepts(CapAnswer(cfg, cap, b))
    ensures var p2 := Respond(cfg, p, b, CapAnswer(cfg, cap, b));
      p2.queue == p.queue[|b.events|..] && p2.awaiting.None? && p2.batchLimit >= Min(p.batchLimit, MAX_BATCH) && (p2.queue != [] ==> !p2.stopped)
  {
    if HasTerminal(b) {
      var e :| e in b.events && Terminal(e);
      var i :| 0 <= i < |b.events| && b.events[i] == e;
      assert Terminal(p.queue[i]);
    } else {
      DropPrefix(p.queue, |b.events|);
    }
  }

  lemma SendableSuffix(cfg: Config, cap: nat, q: seq<Event>, n: nat)
    requires Sendable(cfg, cap, q) && n <= |q|
    ensures Sendable(cfg, cap, q[n..])
  {}

  lemma {:induction false} AcceptShrinks(cfg: Config, cap: nat, p: Pusher, b: Batch)
    requires Sendable(cfg, cap, p.queue) && p.awaiting == Some(b) && !p.stopped && p.batchLimit >= 1
    requires b.events != [] && b.events <= p.queue && Exact(cfg, b) && |Body(cfg, b.parts)| <= cap
    ensures var p2 := Respond(cfg, p, b, CapAnswer(cfg, cap, b));
      && Ready(cfg, cap, p2) && |p2.queue| < |p.queue|
      && Deliverables(cfg, cap, p.queue) == b.events + Deliverables(cfg, cap, p2.queue)
  {
    var n := |b.events|;
    AcceptedAsDeliverable(cfg, cap, b);
    AcceptedQueue(cfg, cap, p, b);
    SendableSuffix(cfg, cap, p.queue, n);
    assert Deliverables(cfg, cap, p.queue) == Deliverables(cfg, cap, b.events) + Deliverables(cfg, cap, p.queue[n..]);
  }

  lemma {:induction false} RefusalNarrows(cfg: Config, cap: nat, p: Pusher, b: Batch)
    requires Sendable(cfg, cap, p.queue) && p.awaiting == Some(b) && !p.stopped && p.batchLimit >= |b.events|
    requires b.events != [] && b.events <= p.queue && Exact(cfg, b) && |Body(cfg, b.parts)| > cap
    ensures var p2 := Respond(cfg, p, b, CapAnswer(cfg, cap, b));
      && Ready(cfg, cap, p2) && StubbedFrom(cfg, p2.queue, p.queue)
      && Deliverables(cfg, cap, p2.queue) == Deliverables(cfg, cap, p.queue)
      && (p2.queue == p.queue ==> p2.batchLimit < p.batchLimit)
  {
    if |b.events| == 1 {
      var first := p.queue[0];
      assert b.events[0] == first && Join(b.parts) == b.parts[0];
      assert !Fits(cfg, cap, first);
      assert !first.stub by { assert StubFits(cfg, cap, first); }
      assert IndexOf(p.queue, first.seqNo) == 0;
      var stub := StubFor(cfg, first, Some(b.sizes[0]));
      assert Respond(cfg, p, b, CapAnswer(cfg, cap, b)).queue == p.queue[0 := stub];
      assert p.queue[0 := stub][0] == StubFor(cfg, p.queue[0], Some(b.sizes[0]));
      SendableAfterStubs(cfg, cap, p.queue[0 := stub], p.queue);
    }
  }

  // ---- flushing until the queue is empty ------------------------------------------------

  /** What the control plane takes, in order, when every flush is answered by it
      until the queue is empty. */
  ghost function Delivered(cfg: Config, cap: nat, p: Pusher): seq<Event>
    requires Ready(cfg, cap, p)
    decreases |p.queue|, Unstubbed(p.queue), p.batchLimit
  {
    if p.queue == [] then []
    else
      CycleShrinks(cfg, cap, p);
      var p1 := Flush(cfg, p);
      var b := p1.awaiting.value;
      var a := CapAnswer(cfg, cap, b);
      (if Accepts(a) then b.events else []) + Delivered(cfg, cap, Respond(cfg, p1, b, a))
  }

  lemma {:induction false} CycleShrinks(cfg: Config, cap: nat, p: Pusher)
    requires Ready(cfg, cap, p) && p.queue != []
    ensures Flush(cfg, p).awaiting.Some?
    ensures var p1 := Flush(cfg, p);
      var b := p1.awaiting.value;
      var p2 := Respond(cfg, p1, b, CapAnswer(cfg, cap, b));
      && Ready(cfg, cap, p2)
      && (|p2.queue| < |p.queue| || (|p2.queue| == |p.queue| &&
           (Unstubbed(p2.queue) < Unstubbed(p.queue) || (Unstubbed(p2.queue) == Unstubbed(p.queue) && p2.batchLimit < p.batchLimit))))
      && Deliverables(cfg, cap, p.queue) ==
           (if Accepts(CapAnswer(cfg, cap, b)) then b.events else []) + Deliverables(cfg, cap, p2.queue)
  {
    FlushReady(cfg, cap, p);
    var p1 := Flush(cfg, p);
    var b := p1.awaiting.value;
    SendableAfterStubs(cfg, cap, p1.queue, p.queue);
    StubbingCounts(cfg, p1.queue, p.queue);
    if |Body(cfg, b.parts)| > cap {
      RefusalNarrows(cfg, cap, p1, b);
      StubbingCounts(cfg, Respond(cfg, p1, b, CapAnswer(cfg, cap, b)).queue, p1.queue);
    } else {
      AcceptShrinks(cfg, cap, p1, b);
    }
  }

  /** The cascade ends (`Delivered` is defined by it) with every queued event
      delivered exactly once and in order, each as it is unless it does not fit
      the cap by itself, and then as its stub. */
  lemma {:induction false} CascadeDelivers(cfg: Config, cap: nat, p: Pusher)
    requires Ready(cfg, cap, p)
    ensures Delivered(cfg, cap, p) == Deliverables(cfg, cap, p.queue)
    decreases |p.queue|, Unstubbed(p.queue), p.batchLimit
  {
    if p.queue != [] {
      CycleShrinks(cfg, cap, p);
      var p1 := Flush(cfg, p);
      var b := p1.awaiting.value;
      CascadeDelivers(cfg, cap, Respond(cfg, p1, b, CapAnswer(cfg, cap, b)));
    }
  }
}
