/**
 In every run of the Codex turn bookkeeping, however failures and starts race: a
 turn is adopted only in the generation it was asked for in, a superseded turn
 is always cancelled, and exactly when a live one is cancelled by mistake.
 */
module CodexTurnsAdoption {
  import opened Wrappers
  import opened CodexTurns
  import opened CodexTurnsSafety

  predicate NonDecreasing(gens: seq<nat>) { forall i, j :: 0 <= i < j < |gens| ==> gens[i] <= gens[j] }

  predicate AllUpTo(gens: seq<nat>, gen: nat) { forall i :: 0 <= i < |gens| ==> gens[i] <= gen }

  predicate AscendingRequests(q: seq<nat>) { forall i, j :: 0 <= i < j < |q| ==> q[i] < q[j] }

  /** Every turn still to start has its slot, and none of them has failed. */
  predicate Slotted(w: World) {
    && (forall r :: r in w.waiting ==> r < |w.gens| && HasRequest(w.d.openingTurns, r) && r !in w.failing)
    && forall r :: r in w.failing ==> r < |w.gens|
  }

  predicate Lagging(w: World) {
    && NonDecreasing(w.gens) && AllUpTo(w.gens, w.d.abortGen)
    && InOrder(w.d.openingTurns) && SlotsMatch(w)
    && AscendingRequests(w.waiting) && Slotted(w)
    && AdoptedRight(w)
  }

  // ---- one step -------------------------------------------------------------------------------

  lemma SameLagging(w: World, w': World)
    requires Lagging(w) && SameSlots(w, w'.(d := w'.d.(abortGen := w.d.abortGen))) && w'.d.abortGen >= w.d.abortGen
    ensures Lagging(w')
  {
    hide HasRequest;
  }

  lemma StartTurnLagging(w: World, text: Text)
    requires Lagging(w)
    ensures Lagging(StartTurn(w, text))
  {
    var slot := Opening(|w.gens|, w.d.abortGen);
    var slots := w.d.openingTurns + [slot];
    HasLast(slots);
    assert slots[..|slots| - 1] == w.d.openingTurns;
    var waiting := w.waiting + [|w.gens|];
    forall i | 0 <= i < |w.waiting| ensures w.waiting[i] < |w.gens| { assert w.waiting[i] in w.waiting; }
    forall x | x in waiting ensures x in w.waiting || x == |w.gens| {}
    hide HasRequest;
    assert Slotted(StartTurn(w, text));
  }

  lemma DispatchLagging(w: World, text: Text)
    requires Lagging(w)
    ensures Lagging(Dispatch(w, text))
  {
    if !w.d.turnActive {
      StartTurnLagging(w, text);
    } else {
      SameLagging(w, Dispatch(w, text));
    }
    hide Lagging;
  }

  lemma FlushLagging(w: World)
    requires Lagging(w)
    ensures Lagging(FlushSteers(w))
  {
    FlushSlots(w);
    SameLagging(w, FlushSteers(w));
    hide Lagging, FlushSteers;
  }

  /** The oldest slot is that of the turn that starts, or of an earlier request. */
  lemma OldestSlot(w: World)
    requires Lagging(w) && w.waiting != []
    ensures w.d.openingTurns != [] && w.d.openingTurns[0].request <= w.waiting[0] < |w.gens|
    ensures w.d.openingTurns[0].gen <= w.gens[w.waiting[0]] <= w.d.abortGen
    ensures w.d.openingTurns[0].request != w.waiting[0] ==> w.d.openingTurns[0].request !in w.waiting
  {
    assert w.waiting[0] in w.waiting;
    var slots := w.d.openingTurns;
    var i :| 0 <= i < |slots| && slots[i].request == w.waiting[0];
    assert i > 0 ==> slots[0].request < slots[i].request;
  }

  /** Once it has started, its slot or the older one is taken. */
  lemma TakeOldest(w: World)
    requires Lagging(w) && w.waiting != [] && w.d.openingTurns != []
    ensures Lagging(w.(waiting := w.waiting[1..], d := w.d.(openingTurns := w.d.openingTurns[1..])))
  {
    OldestSlot(w);
    var slots := w.d.openingTurns;
    HasFirst(slots);
    OrderTail(slots);
    forall r | r in w.waiting[1..] ensures HasRequest(slots[1..], r) && r in w.waiting {
      var i :| 0 <= i < |w.waiting| - 1 && w.waiting[1..][i] == r;
      assert w.waiting[0] < w.waiting[i + 1] == r;
    }
    hide HasRequest;
  }

  lemma StartedLagging(w: World)
    requires Lagging(w) && w.waiting != []
    ensures Lagging(Next(w, Started))
  {
    var slots, id := w.d.openingTurns, w.waiting[0];
    OldestSlot(w);
    TakeOldest(w);
    var w1 := w.(waiting := w.waiting[1..], d := w.d.(openingTurns := slots[1..]));
    if slots[0].gen == w.d.abortGen {
      var w2 := w1.(d := w1.d.(turnActive := true, currentTurnId := Some(id), turnGen := slots[0].gen),
                    adopted := w.adopted + [Opening(id, w.d.abortGen)]);
      Adopting(w1, w2, id);
      FlushLagging(w2);
      hide Lagging, FlushSteers;
    } else {
      hide HasRequest, FlushSteers;
    }
  }

  lemma Adopting(w: World, w': World, id: nat)
    requires Lagging(w) && id < |w.gens| && w.gens[id] == w.d.abortGen
    requires w' == w.(d := w'.d, adopted := w.adopted + [Opening(id, w.d.abortGen)])
    requires w'.d.openingTurns == w.d.openingTurns && w'.d.abortGen == w.d.abortGen
    ensures Lagging(w')
  {
    hide HasRequest;
  }

  lemma AnsweredLagging(w: World, r: nat)
    requires Lagging(w) && r < |w.gens|
    ensures Lagging(StartAnswered(w, r))
  {
    if w.d.abortGen == w.gens[r] && !w.d.finished && w.d.currentTurnId.None? {
      var w1 := w.(d := w.d.(currentTurnId := Some(r)), adopted := w.adopted + [Opening(r, w.d.abortGen)]);
      Adopting(w, w1, r);
      FlushLagging(w1);
    }
    hide Lagging, FlushSteers;
  }

  lemma {:induction false} WithoutIsLess(q: seq<nat>, r: nat)
    requires AscendingRequests(q)
    ensures AscendingRequests(Without(q, r)) && r !in Without(q, r) && forall x :: x in Without(q, r) ==> x in q
  {
    if q != [] && q[0] != r {
      var rest := Without(q[1..], r);
      WithoutIsLess(q[1..], r);
      forall x | x in rest ensures q[0] < x { assert x in q[1..]; }
    }
  }

  lemma FailLagging(w: World, r: nat)
    requires Lagging(w) && r in w.waiting
    ensures Lagging(Next(w, StartFails(r)))
  {
    WithoutIsLess(w.waiting, r);
    hide HasRequest, Without;
  }

  lemma ReleaseLagging(w: World, r: nat)
    requires Lagging(w) && r in w.failing
    ensures Lagging(w.(d := w.d.(openingTurns := WithoutRequest(w.d.openingTurns, r)), failing := w.failing - {r}))
  {
    var kept := WithoutRequest(w.d.openingTurns, r);
    KeptInOrder(w.d.openingTurns, r);
    assert forall i :: 0 <= i < |kept| ==> kept[i] in w.d.openingTurns;
    forall x | x in w.waiting ensures HasRequest(kept, x) { KeptHas(w.d.openingTurns, r, x); }
    hide WithoutRequest, HasRequest;
  }

  lemma SteerFailedLagging(w: World, i: nat)
    requires Lagging(w) && i < |w.steers|
    ensures Lagging(SteerFailed(w, i))
  {
    hide Lagging, StartTurn;
    var w1 := w.(steers := w.steers[..i] + w.steers[i + 1..]);
    SameLagging(w, w1);
    var w2 := w1.(d := w1.d.(turnActive := false, currentTurnId := None));
    SameLagging(w1, w2);
    StartTurnLagging(w2, w.steers[i]);
  }

  lemma StepLagging(w: World, step: Step)
    requires Lagging(w) && Enabled(w, step)
    ensures Lagging(Next(w, step))
  {
    hide Lagging, Dispatch, TurnStarted, StartAnswered, SteerFailed, WithoutRequest;
    match step
    case Queue =>
      SameLagging(w, w.(queued := w.queued + 1));
      DispatchLagging(w.(queued := w.queued + 1), Text(w.queued, w.d.abortGen));
    case Started => StartedLagging(w);
    case Answered(r) => AnsweredLagging(w, r);
    case StartFails(r) => FailLagging(w, r);
    case FailureSeen(r) =>
      ReleaseLagging(w, r);
      var w1 := w.(d := w.d.(openingTurns := WithoutRequest(w.d.openingTurns, r)), failing := w.failing - {r});
      SameLagging(w1, Next(w, step));
    case SteerFails(i) => SteerFailedLagging(w, i);
    case _ => SameLagging(w, Next(w, step));
  }

  lemma {:induction false} RunLagging(w: World, steps: seq<Step>)
    requires Lagging(w) && Legal(w, steps)
    ensures Lagging(Run(w, steps))
    decreases |steps|
  {
    if steps != [] {
      hide Lagging, Next, Enabled;
      StepLagging(w, steps[0]);
      RunLagging(Next(w, steps[0]), steps[1..]);
    }
  }

  // ---- the main results -------------------------------------------------------------------------

  /** In every run, whatever the order of answers, failures and notifications: a turn
      asked for before an interrupt is never adopted after it. */
  lemma AdoptedInItsGeneration(steps: seq<Step>)
    requires Legal(Initial, steps)
    ensures AdoptedRight(Run(Initial, steps))
  {
    assert Lagging(Initial);
    RunLagging(Initial, steps);
    hide Run, AdoptedRight, HasRequest, Slotted;
  }

  /** The turn that starts next was asked for in the generation in force. */
  predicate IsLive(w: World)
    requires w.waiting != [] && w.waiting[0] < |w.gens|
  {
    w.gens[w.waiting[0]] == w.d.abortGen
  }

  /** And in every run the next turn to start is adopted or cancelled: a superseded
      one is always cancelled; a live one is cancelled exactly if the oldest slot is
      of an earlier generation, and else adopted. A slot that is not its own is that
      of no turn still to start. */
  lemma StartedExactly(steps: seq<Step>)
    requires Legal(Initial, steps) && Run(Initial, steps).waiting != []
    ensures var w := Run(Initial, steps); var w' := Next(w, Started); var id := w.waiting[0];
      && id < |w.gens| && w.d.openingTurns != []
      && (!IsLive(w) ==> w'.cancelled == w.cancelled + [id] && w'.adopted == w.adopted)
      && (IsLive(w) && w.d.openingTurns[0].gen < w.d.abortGen ==>
            w'.cancelled == w.cancelled + [id] && w'.adopted == w.adopted)
      && (IsLive(w) && w.d.openingTurns[0].gen == w.d.abortGen ==>
            w'.adopted == w.adopted + [Opening(id, w.d.abortGen)] && w'.cancelled == w.cancelled)
      && w.d.openingTurns[0].gen <= w.d.abortGen
      && (w.d.openingTurns[0].request != id ==> w.d.openingTurns[0].request !in w.waiting)
  {
    assert Lagging(Initial);
    RunLagging(Initial, steps);
    var w := Run(Initial, steps);
    OldestSlot(w);
    var w1 := w.(waiting := w.waiting[1..], d := w.d.(openingTurns := w.d.openingTurns[1..]));
    var d := w1.d.(turnActive := true, currentTurnId := Some(w.waiting[0]), turnGen := w.d.openingTurns[0].gen);
    FlushSlots(w1.(d := d, adopted := w.adopted + [Opening(w.waiting[0], w.d.abortGen)]));
    hide Run, Lagging, FlushSteers;
  }
}
