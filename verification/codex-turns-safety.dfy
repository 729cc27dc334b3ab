/**
 What every run of the Codex turn bookkeeping keeps: no message queued before
 an interrupt leaves after it, and a `turn/started` is paired with its own
 request, exactly as long as no failed request still holds the oldest slot.
 */
module CodexTurnsSafety {
  import opened Wrappers
  import opened CodexTurns

  // ---- flushing ---------------------------------------------------------------------------

  function SentAll(texts: seq<Text>, gen: nat): (r: seq<Sent>)
    ensures |r| == |texts| && forall i :: 0 <= i < |r| ==> r[i] == Sent(texts[i], gen)
  {
    seq(|texts|, i requires 0 <= i < |texts| => Sent(texts[i], gen))
  }

  lemma PushFirst<T>(a: seq<T>, s: seq<T>)
    requires s != []
    ensures a + [s[0]] + s[1..] == a + s
  {}

  lemma SentFirst(sent: seq<Sent>, texts: seq<Text>, gen: nat)
    requires texts != []
    ensures sent + [Sent(texts[0], gen)] + SentAll(texts[1..], gen) == sent + SentAll(texts, gen)
  {}

  lemma FlushOne(w: World)
    requires w.d.currentTurnId.Some? && w.d.pendingSteers != []
    ensures FlushSteers(w) == FlushSteers(
      w.(d := w.d.(pendingSteers := w.d.pendingSteers[1..]), steers := w.steers + [w.d.pendingSteers[0]],
         sent := w.sent + [Sent(w.d.pendingSteers[0], w.d.abortGen)]))
  {}

  lemma FlushNone(w: World)
    requires w.d.currentTurnId.None? || w.d.pendingSteers == []
    ensures FlushSteers(w) == w
  {}

  /** A flush steers everything parked into the current turn, in order. */
  lemma {:induction false} FlushShape(w: World)
    ensures FlushSteers(w) ==
      if w.d.currentTurnId.None? then w
      else w.(d := w.d.(pendingSteers := []), steers := w.steers + w.d.pendingSteers,
              sent := w.sent + SentAll(w.d.pendingSteers, w.d.abortGen))
    decreases |w.d.pendingSteers|
  {
    hide FlushSteers, SentAll;
    var parked := w.d.pendingSteers;
    if w.d.currentTurnId.None? || parked == [] {
      FlushNone(w);
      assert w.steers + [] == w.steers && w.sent + SentAll([], w.d.abortGen) == w.sent;
    } else {
      var w1 := w.(d := w.d.(pendingSteers := parked[1..]), steers := w.steers + [parked[0]],
          sent := w.sent + [Sent(parked[0], w.d.abortGen)]);
      FlushOne(w);
      FlushShape(w1);
      PushFirst(w.steers, parked);
      SentFirst(w.sent, parked, w.d.abortGen);
    }
  }

  // ---- messages ---------------------------------------------------------------------------

  predicate AllFrom(texts: seq<Text>, gen: nat) { forall i :: 0 <= i < |texts| ==> texts[i].gen == gen }

  predicate SentInTime(sent: seq<Sent>) { forall i :: 0 <= i < |sent| ==> sent[i].text.gen == sent[i].gen }

  predicate NoneNewer(w: World) {
    && (forall i :: 0 <= i < |w.gens| ==> w.gens[i] <= w.d.abortGen)
    && (forall i :: 0 <= i < |w.d.openingTurns| ==> w.d.openingTurns[i].gen <= w.d.abortGen)
    && (forall i :: 0 <= i < |w.steers| ==> w.steers[i].gen <= w.d.abortGen)
  }

  /** Nothing can open a turn any more in the generation in force. */
  predicate Frozen(w: World) {
    && w.d.closed
    && (forall i :: 0 <= i < |w.gens| ==> w.gens[i] < w.d.abortGen)
    && (forall i :: 0 <= i < |w.d.openingTurns| ==> w.d.openingTurns[i].gen < w.d.abortGen)
    && (forall i :: 0 <= i < |w.steers| ==> w.steers[i].gen < w.d.abortGen)
  }

  predicate Timely(w: World) {
    SentInTime(w.sent) && NoneNewer(w) && (AllFrom(w.d.pendingSteers, w.d.abortGen) || Frozen(w))
  }

  lemma StartTurnTimely(w: World, text: Text)
    requires Timely(w) && text.gen == w.d.abortGen && !Frozen(w)
    ensures Timely(StartTurn(w, text))
  {}

  lemma FlushTimely(w: World)
    requires Timely(w) && !Frozen(w)
    ensures Timely(FlushSteers(w))
  {
    FlushShape(w);
    hide FlushSteers;
  }

  lemma DispatchTimely(w: World, text: Text)
    requires Timely(w) && text.gen == w.d.abortGen && !Frozen(w)
    ensures Timely(Dispatch(w, text))
  {
    if !w.d.turnActive { StartTurnTimely(w, text); }
  }

  /** An adoption in the generation in force, and the flush it brings. */
  lemma AdoptTimely(w: World, d: Driver, adopted: seq<Opening>, slots: seq<Opening>)
    requires Timely(w) && !Frozen(w) && d.abortGen == w.d.abortGen && d.pendingSteers == w.d.pendingSteers && d.openingTurns == slots
    requires slots == w.d.openingTurns || (w.d.openingTurns != [] && slots == w.d.openingTurns[1..])
    requires exists i :: 0 <= i < |w.gens| && w.gens[i] == w.d.abortGen
    ensures Timely(FlushSteers(w.(d := d, adopted := adopted)))
  {
    var w1 := w.(d := d, adopted := adopted);
    var i :| 0 <= i < |w.gens| && w.gens[i] == w.d.abortGen;
    assert w1.gens[i] == w1.d.abortGen;
    assert Timely(w1) && !Frozen(w1);
    FlushTimely(w1);
    hide FlushSteers, Timely, Frozen;
  }

  predicate SlotsMatch(w: World) {
    forall i :: 0 <= i < |w.d.openingTurns| ==>
      w.d.openingTurns[i].request < |w.gens| && w.gens[w.d.openingTurns[i].request] == w.d.openingTurns[i].gen
  }

  lemma StartedTimely(w: World, id: nat)
    requires Timely(w) && SlotsMatch(w)
    ensures Timely(TurnStarted(w, id))
  {
    hide FlushSteers;
    var slots := w.d.openingTurns;
    if slots != [] && slots[0].gen == w.d.abortGen {
      assert w.gens[slots[0].request] == w.d.abortGen;
      AdoptTimely(w, w.d.(openingTurns := slots[1..], turnActive := true, currentTurnId := Some(id),
          turnGen := slots[0].gen),
                  w.adopted + [Opening(id, w.d.abortGen)], slots[1..]);
    }
  }

  lemma AnsweredTimely(w: World, r: nat)
    requires Timely(w) && r < |w.gens|
    ensures Timely(StartAnswered(w, r))
  {
    hide FlushSteers;
    if w.d.abortGen == w.gens[r] && !w.d.finished && w.d.currentTurnId.None? {
      AdoptTimely(w, w.d.(currentTurnId := Some(r)), w.adopted + [Opening(r, w.d.abortGen)], w.d.openingTurns);
    }
  }

  lemma FailedTimely(w: World, r: nat)
    requires Timely(w) && r < |w.gens|
    ensures Timely(StartFailed(w, r))
  {
    var kept := WithoutRequest(w.d.openingTurns, r);
    assert forall i :: 0 <= i < |kept| ==> kept[i] in w.d.openingTurns;
    hide WithoutRequest;
  }

  lemma SteerFailedTimely(w: World, i: nat)
    requires Timely(w) && i < |w.steers|
    ensures Timely(SteerFailed(w, i))
  {
    var text := w.steers[i];
    var left := w.steers[..i] + w.steers[i + 1..];
    assert forall j :: 0 <= j < |left| ==> left[j] in w.steers;
    var w1 := w.(steers := left);
    assert Timely(w1);
    if w.d.abortGen == text.gen && !w.d.finished {
      assert !Frozen(w);
      assert AllFrom(w1.d.pendingSteers, w1.d.abortGen);
    }
  }

  lemma StepTimely(w: World, step: Step)
    requires Timely(w) && SlotsMatch(w) && Enabled(w, step)
    ensures Timely(Next(w, step))
  {
    hide Timely, Dispatch, TurnStarted, StartAnswered, StartFailed, SteerFailed;
    match step
    case Queue =>
      if !w.d.closed && !w.d.finished { QueuedTimely(w); }
    case Started => SameTexts(w, w.(waiting := w.waiting[1..])); StartedTimely(w.(waiting := w.waiting[1..]), w.waiting[0]);
    case Answered(r) => AnsweredTimely(w, r);
    case StartFails(r) => SameTexts(w, Next(w, step));
    case FailureSeen(r) => FailedTimely(w, r);
    case SteerAnswered(i) => AnsweredSteer(w, i);
    case SteerFails(i) => SteerFailedTimely(w, i);
    case Completed(_) => SameTexts(w, Next(w, step));
    case ErrorRead(_) => SameTexts(w, Next(w, step));
    case Closed => SameTexts(w, Next(w, step));
    case Finished => SameTexts(w, Next(w, step));
    case Interrupted => BumpTimely(w, Next(w, step));
    case ShutDown => BumpTimely(w, Next(w, step));
    case Forced => BumpTimely(w, Next(w, step));
  }

  lemma QueuedTimely(w: World)
    requires Timely(w) && !w.d.closed
    ensures Timely(Dispatch(w.(queued := w.queued + 1), Text(w.queued, w.d.abortGen)))
  {
    DispatchTimely(w.(queued := w.queued + 1), Text(w.queued, w.d.abortGen));
    hide Dispatch;
  }

  lemma SameTexts(w: World, w': World)
    requires Timely(w) && w'.sent == w.sent && w'.gens == w.gens && w'.steers == w.steers
    requires w'.d.openingTurns == w.d.openingTurns && w'.d.pendingSteers == w.d.pendingSteers && w'.d.abortGen == w.d.abortGen
    requires w.d.closed ==> w'.d.closed
    ensures Timely(w')
  {}

  lemma AnsweredSteer(w: World, i: nat)
    requires Timely(w) && i < |w.steers|
    ensures Timely(w.(steers := w.steers[..i] + w.steers[i + 1..]))
  {
    var left := w.steers[..i] + w.steers[i + 1..];
    assert forall j :: 0 <= j < |left| ==> left[j] in w.steers;
  }

  lemma BumpTimely(w: World, w': World)
    requires Timely(w) && w'.sent == w.sent && w'.gens == w.gens && w'.steers == w.steers
    requires w'.d.openingTurns == w.d.openingTurns && w'.d.abortGen == w.d.abortGen + 1
    requires w'.d.pendingSteers == [] || w'.d.closed
    ensures Timely(w')
  {}

  // ---- slots ------------------------------------------------------------------------------

  predicate InOrder(slots: seq<Opening>) { forall i, j :: 0 <= i < j < |slots| ==> slots[i].request < slots[j].request }

  predicate HasRequest(slots: seq<Opening>, r: nat) { exists i :: 0 <= i < |slots| && slots[i].request == r }

  /** The requests of the slots, but for those whose failure is still to be reacted to. */
  function Unfailed(slots: seq<Opening>, failing: set<nat>): (rs: seq<nat>)
    ensures forall r :: r in rs <==> HasRequest(slots, r) && r !in failing
  {
    if slots == [] then []
    else
      var last := slots[|slots| - 1];
      var rs := Unfailed(slots[..|slots| - 1], failing);
      HasLast(slots);
      rs + if last.request in failing then [] else [last.request]
  }

  lemma HasLast(slots: seq<Opening>)
    requires slots != []
    ensures forall r :: HasRequest(slots, r) <==> HasRequest(slots[..|slots| - 1], r) || r == slots[|slots| - 1].request
  {
    var init := slots[..|slots| - 1];
    forall r ensures HasRequest(slots, r) <==> HasRequest(init, r) || r == slots[|slots| - 1].request {
      if HasRequest(init, r) { var i :| 0 <= i < |init| && init[i].request == r; assert slots[i].request == r; }
      if HasRequest(slots, r) && r != slots[|slots| - 1].request {
        var i :| 0 <= i < |slots| && slots[i].request == r;
        assert init[i].request == r;
      }
    }
  }

  lemma HasFirst(slots: seq<Opening>)
    requires slots != []
    ensures forall r :: HasRequest(slots, r) <==> HasRequest(slots[1..], r) || r == slots[0].request
  {
    forall r ensures HasRequest(slots, r) <==> HasRequest(slots[1..], r) || r == slots[0].request {
      if HasRequest(slots[1..], r) { var i :| 0 <= i < |slots| - 1 && slots[1..][i].request == r; assert slots[i + 1].request == r; }
      if HasRequest(slots, r) && r != slots[0].request {
        var i :| 0 <= i < |slots| && slots[i].request == r;
        assert slots[1..][i - 1].request == r;
      }
    }
  }

  /** The slots are those of the turns still to start, in order, and of the failures not yet reacted to. */
  predicate Paired(slots: seq<Opening>, waiting: seq<nat>, failing: set<nat>) {
    && InOrder(slots)
    && waiting == Unfailed(slots, failing)
    && (forall r :: r in failing ==> HasRequest(slots, r))
  }

  lemma {:induction false} UnfailedFirst(slots: seq<Opening>, failing: set<nat>)
    requires slots != []
    ensures Unfailed(slots, failing) == (if slots[0].request in failing then [] else [slots[0].request]) + Unfailed(slots[1..], failing)
  {
    hide HasRequest;
    if |slots| > 1 {
      UnfailedFirst(slots[..|slots| - 1], failing);
      assert slots[..|slots| - 1][1..] == slots[1..][..|slots| - 2];
    } else {
      assert Unfailed(slots[..0], failing) == [] && Unfailed(slots[1..], failing) == [];
    }
  }

  lemma NotLater(slots: seq<Opening>)
    requires slots != [] && InOrder(slots)
    ensures !HasRequest(slots[1..], slots[0].request)
  {}

  lemma OrderTail(slots: seq<Opening>)
    requires slots != [] && InOrder(slots)
    ensures InOrder(slots[1..])
  {}

  lemma WithoutFirst(x: nat, q: seq<nat>, r: nat)
    ensures Without([x] + q, r) == if x == r then q else [x] + Without(q, r)
  {
    assert ([x] + q)[1..] == q;
  }

  lemma {:induction false} FailOne(slots: seq<Opening>, failing: set<nat>, r: nat)
    requires InOrder(slots)
    ensures Unfailed(slots, failing + {r}) == Without(Unfailed(slots, failing), r)
  {
    if slots != [] {
      hide Unfailed, HasRequest, InOrder, Without;
      var first, rest := slots[0].request, Unfailed(slots[1..], failing);
      UnfailedFirst(slots, failing);
      UnfailedFirst(slots, failing + {r});
      OrderTail(slots);
      FailOne(slots[1..], failing, r);
      WithoutFirst(first, rest, r);
      if first == r {
        NotLater(slots);
        WithoutAbsent(rest, r);
      }
      assert [] + rest == rest && [] + Without(rest, r) == Without(rest, r);
    } else {
      assert Unfailed(slots, failing) == [];
    }
  }

  lemma {:induction false} WithoutAbsent(q: seq<nat>, r: nat)
    requires r !in q
    ensures Without(q, r) == q
  {
    if q != [] { WithoutAbsent(q[1..], r); }
  }

  lemma {:induction false} KeptInOrder(slots: seq<Opening>, r: nat)
    requires InOrder(slots)
    ensures InOrder(WithoutRequest(slots, r))
  {
    if slots != [] && slots[0].request != r {
      var kept := WithoutRequest(slots[1..], r);
      KeptInOrder(slots[1..], r);
      forall i | 0 <= i < |kept| ensures slots[0].request < kept[i].request { assert kept[i] in slots[1..]; }
    }
  }

  lemma {:induction false} KeptHas(slots: seq<Opening>, r: nat, x: nat)
    requires x != r && HasRequest(slots, x)
    ensures HasRequest(WithoutRequest(slots, r), x)
  {
    HasFirst(slots);
    if slots[0].request != r {
      var kept := [slots[0]] + WithoutRequest(slots[1..], r);
      if slots[0].request == x { assert kept[0].request == x; }
      else {
        KeptHas(slots[1..], r, x);
        HasFirst(kept);
        assert kept[1..] == WithoutRequest(slots[1..], r);
      }
    }
  }

  lemma {:induction false} ReleaseOne(slots: seq<Opening>, failing: set<nat>, r: nat)
    requires InOrder(slots) && r in failing
    ensures Unfailed(WithoutRequest(slots, r), failing - {r}) == Unfailed(slots, failing)
  {
    if slots != [] {
      hide Unfailed, HasRequest, InOrder;
      var rest := slots[1..];
      UnfailedFirst(slots, failing);
      OrderTail(slots);
      NotLater(slots);
      if slots[0].request == r {
        ReleaseAbsent(rest, failing, r);
        assert [] + Unfailed(rest, failing) == Unfailed(rest, failing);
      } else {
        ReleaseOne(rest, failing, r);
        var kept := [slots[0]] + WithoutRequest(rest, r);
        assert kept[1..] == WithoutRequest(rest, r);
        UnfailedFirst(kept, failing - {r});
      }
    } else {
      assert Unfailed(slots, failing) == [];
    }
  }

  lemma ReleasePaired(slots: seq<Opening>, waiting: seq<nat>, failing: set<nat>, r: nat)
    requires Paired(slots, waiting, failing) && r in failing
    ensures Paired(WithoutRequest(slots, r), waiting, failing - {r})
  {
    ReleaseOne(slots, failing, r);
    KeptInOrder(slots, r);
    forall x | x in failing - {r} ensures HasRequest(WithoutRequest(slots, r), x) { KeptHas(slots, r, x); }
    hide Unfailed, HasRequest, InOrder, WithoutRequest;
  }

  lemma {:induction false} ReleaseAbsent(slots: seq<Opening>, failing: set<nat>, r: nat)
    requires !HasRequest(slots, r)
    ensures Unfailed(slots, failing - {r}) == Unfailed(slots, failing)
  {
    if slots != [] {
      HasLast(slots);
      ReleaseAbsent(slots[..|slots| - 1], failing, r);
    }
  }

  /** The oldest slot is the starting turn's exactly when its request has not failed. */
  lemma {:induction false} PairsExactly(slots: seq<Opening>, waiting: seq<nat>, failing: set<nat>)
    requires Paired(slots, waiting, failing) && waiting != []
    ensures slots != [] && (slots[0].request == waiting[0] <==> slots[0].request !in failing)
    ensures slots[0].request !in failing ==> Paired(slots[1..], waiting[1..], failing)
  {
    UnfailedFirst(slots, failing);
    HasFirst(slots);
    assert waiting[0] in Unfailed(slots, failing);
  }

  lemma {:induction false} PushPaired(slots: seq<Opening>, waiting: seq<nat>, failing: set<nat>, slot: Opening)
    requires Paired(slots, waiting, failing) && forall i :: 0 <= i < |slots| ==> slots[i].request < slot.request
    ensures Paired(slots + [slot], waiting + [slot.request], failing)
  {
    assert (slots + [slot])[..|slots|] == slots;
    HasLast(slots + [slot]);
    assert slot.request !in failing;
  }

  // ---- the whole invariant ------------------------------------------------------------------

  /** Every turn was adopted in the generation it was asked for in. */
  predicate AdoptedRight(w: World) {
    forall i :: 0 <= i < |w.adopted| ==>
      w.adopted[i].request < |w.gens| && w.gens[w.adopted[i].request] == w.adopted[i].gen
  }

  /** And cancelled only in a later one. */
  predicate RightTurns(w: World) {
    && AdoptedRight(w)
    && (forall i :: 0 <= i < |w.cancelled| ==> w.cancelled[i] < |w.gens| && w.gens[w.cancelled[i]] < w.d.abortGen)
  }

  predicate Inv(w: World) {
    Timely(w) && SlotsMatch(w) && Paired(w.d.openingTurns, w.waiting, w.failing) && RightTurns(w)
  }

  /** No failed request still holds the oldest slot when a turn starts. */
  predicate Prompt(w: World, step: Step) {
    step.Started? ==> w.d.openingTurns != [] && w.d.openingTurns[0].request !in w.failing
  }

  lemma StartTurnPaired(w: World, text: Text)
    requires SlotsOk(w)
    ensures SlotsOk(StartTurn(w, text))
  {
    PushPaired(w.d.openingTurns, w.waiting, w.failing, Opening(|w.gens|, w.d.abortGen));
    hide Paired;
  }

  /** The parts a flush, or a message parked, leaves alone. */
  predicate SameSlots(w: World, w': World) {
    w'.d.openingTurns == w.d.openingTurns && w'.d.abortGen == w.d.abortGen && w'.waiting == w.waiting
    && w'.failing == w.failing && w'.gens == w.gens && w'.adopted == w.adopted && w'.cancelled == w.cancelled
  }

  ghost predicate SlotsOk(w: World) { SlotsMatch(w) && Paired(w.d.openingTurns, w.waiting, w.failing) && RightTurns(w) }

  lemma SameSlotsOk(w: World, w': World)
    requires SlotsOk(w) && SameSlots(w, w')
    ensures SlotsOk(w')
  {
    hide Paired;
  }

  lemma FlushSlots(w: World)
    ensures SameSlots(w, FlushSteers(w))
  {
    FlushShape(w);
    hide FlushSteers;
  }

  lemma DispatchSlots(w: World, text: Text)
    requires SlotsOk(w)
    ensures SlotsOk(Dispatch(w, text))
  {
    if !w.d.turnActive {
      StartTurnPaired(w, text);
    } else {
      SameSlotsOk(w, Dispatch(w, text));
    }
    hide Paired, SlotsMatch, RightTurns;
  }

  lemma StartedSlots(w: World)
    requires Timely(w) && SlotsOk(w) && w.waiting != [] && Prompt(w, Started)
    ensures SlotsOk(Next(w, Started))
  {
    hide FlushSteers, Unfailed, InOrder, Timely;
    var slots, id := w.d.openingTurns, w.waiting[0];
    PairsExactly(slots, w.waiting, w.failing);
    assert w.gens[slots[0].request] == slots[0].gen;
    var w1 := w.(waiting := w.waiting[1..], d := w.d.(openingTurns := slots[1..]));
    if slots[0].gen == w.d.abortGen {
      var w2 := w1.(d := w1.d.(turnActive := true, currentTurnId := Some(id), turnGen := slots[0].gen),
          adopted := w.adopted + [Opening(id, w.d.abortGen)]);
      assert SlotsOk(w2);
      FlushSlots(w2);
      SameSlotsOk(w2, FlushSteers(w2));
    } else {
      assert slots[0].gen < w.d.abortGen by { SlotNotNewer(w); }
    }
  }

  lemma SlotNotNewer(w: World)
    requires Timely(w) && w.d.openingTurns != []
    ensures w.d.openingTurns[0].gen <= w.d.abortGen
  {}

  lemma AnsweredSlots(w: World, r: nat)
    requires SlotsOk(w) && r < |w.gens|
    ensures SlotsOk(StartAnswered(w, r))
  {
    hide FlushSteers, Paired;
    if w.d.abortGen == w.gens[r] && !w.d.finished && w.d.currentTurnId.None? {
      var w1 := w.(d := w.d.(currentTurnId := Some(r)), adopted := w.adopted + [Opening(r, w.d.abortGen)]);
      assert SlotsOk(w1);
      FlushSlots(w1);
      SameSlotsOk(w1, FlushSteers(w1));
    }
  }

  lemma FailSlots(w: World, r: nat)
    requires SlotsOk(w) && r in w.waiting
    ensures SlotsOk(Next(w, StartFails(r)))
  {
    FailOne(w.d.openingTurns, w.failing, r);
    assert HasRequest(w.d.openingTurns, r);
    hide Unfailed, Without, InOrder, HasRequest;
  }

  lemma ReleasedSlots(w: World, slots: seq<Opening>, failing: set<nat>)
    requires SlotsOk(w) && Paired(slots, w.waiting, failing) && forall x :: x in slots ==> x in w.d.openingTurns
    ensures SlotsOk(w.(d := w.d.(openingTurns := slots), failing := failing))
  {
    hide Paired;
    assert forall i :: 0 <= i < |slots| ==> slots[i] in w.d.openingTurns;
  }

  lemma FailedSlots(w: World, r: nat)
    requires SlotsOk(w) && r < |w.gens| && r in w.failing
    ensures SlotsOk(StartFailed(w, r))
  {
    hide WithoutRequest, SlotsMatch, RightTurns, InOrder, Unfailed, HasRequest;
    var kept := WithoutRequest(w.d.openingTurns, r);
    ReleasePaired(w.d.openingTurns, w.waiting, w.failing, r);
    ReleasedSlots(w, kept, w.failing - {r});
    var w1 := w.(d := w.d.(openingTurns := kept), failing := w.failing - {r});
    SameSlotsOk(w1, StartFailed(w, r));
    hide Paired, WithoutRequest, SlotsMatch, RightTurns;
  }

  lemma SteerFailedSlots(w: World, i: nat)
    requires SlotsOk(w) && i < |w.steers|
    ensures SlotsOk(SteerFailed(w, i))
  {
    hide SlotsOk, StartTurn;
    var w1 := w.(steers := w.steers[..i] + w.steers[i + 1..]);
    SameSlotsOk(w, w1);
    var w2 := w1.(d := w1.d.(turnActive := false, currentTurnId := None));
    SameSlotsOk(w1, w2);
    StartTurnPaired(w2, w.steers[i]);
  }

  lemma BumpSlots(w: World, w': World)
    requires SlotsOk(w) && SameSlots(w, w'.(d := w'.d.(abortGen := w.d.abortGen))) && w'.d.abortGen >= w.d.abortGen
    ensures SlotsOk(w')
  {
    hide Paired;
  }

  lemma {:induction false} StepSlots(w: World, step: Step)
    requires Timely(w) && SlotsOk(w) && Enabled(w, step) && Prompt(w, step)
    ensures SlotsOk(Next(w, step))
  {
    hide Timely, SlotsOk, Dispatch, TurnStarted, StartAnswered, StartFailed, SteerFailed;
    match step
    case Queue =>
      BumpSlots(w, w.(queued := w.queued + 1));
      DispatchSlots(w.(queued := w.queued + 1), Text(w.queued, w.d.abortGen));
    case Started => StartedSlots(w);
    case Answered(r) => AnsweredSlots(w, r);
    case StartFails(r) => FailSlots(w, r);
    case FailureSeen(r) => FailedSlots(w, r);
    case SteerFails(i) => SteerFailedSlots(w, i);
    case _ => BumpSlots(w, Next(w, step));
  }

  // ---- every run ------------------------------------------------------------------------------

  predicate Legal(w: World, steps: seq<Step>)
    decreases |steps|
  {
    steps == [] || (Enabled(w, steps[0]) && Legal(Next(w, steps[0]), steps[1..]))
  }

  /** In no step of the run does a turn start with a failed request's slot oldest. */
  predicate PromptRun(w: World, steps: seq<Step>)
    requires Legal(w, steps)
    decreases |steps|
  {
    steps == [] || (Prompt(w, steps[0]) && PromptRun(Next(w, steps[0]), steps[1..]))
  }

  function Run(w: World, steps: seq<Step>): World
    requires Legal(w, steps)
    decreases |steps|
  {
    if steps == [] then w else Run(Next(w, steps[0]), steps[1..])
  }

  lemma {:induction false} PromptRunKeeps(w: World, steps: seq<Step>)
    requires Timely(w) && SlotsOk(w) && Legal(w, steps) && PromptRun(w, steps)
    ensures Timely(Run(w, steps)) && SlotsOk(Run(w, steps))
    decreases |steps|
  {
    if steps != [] {
      SlotsOkMatch(w);
      StepTimely(w, steps[0]);
      StepSlots(w, steps[0]);
      PromptRunKeeps(Next(w, steps[0]), steps[1..]);
      hide Timely, SlotsOk, Next;
    }
  }

  lemma SlotsOkMatch(w: World)
    requires SlotsOk(w)
    ensures SlotsMatch(w)
  {}

  // ---- the slots match in every run, prompt or not ------------------------------------------------

  lemma MatchKept(w: World, slots: seq<Opening>)
    requires SlotsMatch(w) && forall x :: x in slots ==> x in w.d.openingTurns
    ensures SlotsMatch(w.(d := w.d.(openingTurns := slots)))
  {
    assert forall i :: 0 <= i < |slots| ==> slots[i] in w.d.openingTurns;
  }

  lemma MatchSame(w: World, w': World)
    requires SlotsMatch(w) && w'.d.openingTurns == w.d.openingTurns && w'.gens == w.gens
    ensures SlotsMatch(w')
  {}

  lemma MatchStart(w: World, text: Text)
    requires SlotsMatch(w)
    ensures SlotsMatch(StartTurn(w, text))
  {}

  lemma StartedMatch(w: World, id: nat)
    requires SlotsMatch(w)
    ensures SlotsMatch(TurnStarted(w, id))
  {
    var slots := w.d.openingTurns;
    if slots != [] { MatchKept(w, slots[1..]); }
    var w1 := w.(d := w.d.(openingTurns := if slots == [] then [] else slots[1..]));
    if slots != [] && slots[0].gen == w.d.abortGen {
      var w2 := w1.(d := w1.d.(turnActive := true, currentTurnId := Some(id), turnGen := slots[0].gen),
          adopted := w.adopted + [Opening(id, w.d.abortGen)]);
      FlushSlots(w2);
      MatchSame(w2, FlushSteers(w2));
    }
    hide FlushSteers;
  }

  lemma StepMatch(w: World, step: Step)
    requires SlotsMatch(w) && Enabled(w, step)
    ensures SlotsMatch(Next(w, step))
  {
    hide SlotsMatch, FlushSteers, WithoutRequest, TurnStarted;
    match step
    case Queue =>
      var w1 := w.(queued := w.queued + 1);
      MatchSame(w, w1);
      MatchStart(w1, Text(w.queued, w.d.abortGen));
      MatchSame(w1, Next(w, step).(d := w1.d, gens := w1.gens));
      if !w.d.closed && !w.d.finished && w.d.turnActive { MatchSame(w, Next(w, step)); }
    case Started => MatchSame(w, w.(waiting := w.waiting[1..])); StartedMatch(w.(waiting := w.waiting[1..]), w.waiting[0]);
    case Answered(r) =>
      var w1 := w.(d := w.d.(currentTurnId := Some(r)), adopted := w.adopted + [Opening(r, w.d.abortGen)]);
      FlushSlots(w1);
      MatchSame(w, Next(w, step));
    case FailureSeen(r) =>
      var w1 := w.(d := w.d.(openingTurns := WithoutRequest(w.d.openingTurns, r)));
      MatchKept(w, WithoutRequest(w.d.openingTurns, r));
      MatchSame(w1, Next(w, step));
    case SteerFails(i) =>
      var w1 := w.(steers := w.steers[..i] + w.steers[i + 1..], d := w.d.(turnActive := false, currentTurnId := None));
      MatchSame(w, w1);
      MatchStart(w1, w.steers[i]);
      if w.d.abortGen != w.steers[i].gen || w.d.finished { MatchSame(w, Next(w, step)); }
    case _ => MatchSame(w, Next(w, step));
  }

  lemma {:induction false} RunTimely(w: World, steps: seq<Step>)
    requires Timely(w) && SlotsMatch(w) && Legal(w, steps)
    ensures Timely(Run(w, steps))
    decreases |steps|
  {
    if steps != [] {
      hide Timely, SlotsMatch, Next;
      StepTimely(w, steps[0]);
      StepMatch(w, steps[0]);
      RunTimely(Next(w, steps[0]), steps[1..]);
    }
  }

  // ---- the main results ---------------------------------------------------------------------------

  /** In every run, whatever the order of answers, failures and notifications: a
      message leaves only in the generation it was queued in. Parked or steered
      before an interrupt, it is never sent after it. */
  lemma NothingSentAfterItsInterrupt(steps: seq<Step>)
    requires Legal(Initial, steps)
    ensures SentInTime(Run(Initial, steps).sent)
  {
    RunTimely(Initial, steps);
    hide Run, NoneNewer, Frozen, AllFrom;
  }

  predicate HasText(q: seq<Text>, n: nat) { exists i :: 0 <= i < |q| && q[i].no == n }

  predicate HasSent(q: seq<Sent>, n: nat) { exists i :: 0 <= i < |q| && q[i].text.no == n }

  predicate StillHas(w: World, n: nat) {
    HasSent(w.sent, n) || HasText(w.d.pendingSteers, n) || HasText(w.withdrawn, n)
  }

  /** A message taken is parked, sent or withdrawn. */
  ghost predicate Placed(w: World) {
    forall n: nat :: n < w.queued ==> StillHas(w, n)
  }

  lemma TextConcat(a: seq<Text>, b: seq<Text>, n: nat)
    ensures HasText(a + b, n) <==> HasText(a, n) || HasText(b, n)
  {
    if HasText(a, n) { var i :| 0 <= i < |a| && a[i].no == n; assert (a + b)[i].no == n; }
    if HasText(b, n) { var i :| 0 <= i < |b| && b[i].no == n; assert (a + b)[|a| + i].no == n; }
  }

  lemma SentConcat(a: seq<Sent>, b: seq<Sent>, n: nat)
    ensures HasSent(a + b, n) <==> HasSent(a, n) || HasSent(b, n)
  {
    if HasSent(a, n) { var i :| 0 <= i < |a| && a[i].text.no == n; assert (a + b)[i].text.no == n; }
    if HasSent(b, n) { var i :| 0 <= i < |b| && b[i].text.no == n; assert (a + b)[|a| + i].text.no == n; }
  }

  lemma SentAllHas(texts: seq<Text>, gen: nat, n: nat)
    ensures HasSent(SentAll(texts, gen), n) <==> HasText(texts, n)
  {
    var all := SentAll(texts, gen);
    if HasText(texts, n) { var i :| 0 <= i < |texts| && texts[i].no == n; assert all[i].text.no == n; }
    if HasSent(all, n) { var i :| 0 <= i < |all| && all[i].text.no == n; assert texts[i].no == n; }
  }

  /** What was placed stays so when `w'` sent more, or sent or withdrew what was parked. */
  lemma StillPlaced(w: World, w': World)
    requires Placed(w) && w'.queued == w.queued && w.sent <= w'.sent && w.withdrawn <= w'.withdrawn
    requires forall n: nat :: HasText(w.d.pendingSteers, n) ==> StillHas(w', n)
    ensures Placed(w')
  {
    forall n: nat | n < w'.queued ensures StillHas(w', n) {
      assert StillHas(w, n);
      SentConcat(w.sent, w'.sent[|w.sent|..], n);
      TextConcat(w.withdrawn, w'.withdrawn[|w.withdrawn|..], n);
    }
    hide HasText, HasSent;
  }

  lemma FlushPlaced(w: World)
    requires Placed(w)
    ensures Placed(FlushSteers(w))
  {
    FlushShape(w);
    hide FlushSteers, Placed, SentAll;
    forall n: nat | HasText(w.d.pendingSteers, n) ensures StillHas(FlushSteers(w), n)
    {
      SentAllHas(w.d.pendingSteers, w.d.abortGen, n);
      SentConcat(w.sent, SentAll(w.d.pendingSteers, w.d.abortGen), n);
    }
    hide HasText, HasSent;
    StillPlaced(w, FlushSteers(w));
  }

  lemma QueuePlaced(w: World)
    requires Placed(w)
    ensures Placed(QueueMessage(w))
  {
    if !w.d.closed && !w.d.finished {
      var text := Text(w.queued, w.d.abortGen);
      var w' := QueueMessage(w);
      forall n: nat | n < w'.queued ensures StillHas(w', n) {
        SentConcat(w.sent, [Sent(text, w.d.abortGen)], n);
        TextConcat(w.d.pendingSteers, [text], n);
        assert [Sent(text, w.d.abortGen)][0].text.no == w.queued && [text][0].no == w.queued;
        assert n < w.queued ==> StillHas(w, n);
      }
    }
  }

  lemma StepPlaced(w: World, step: Step)
    requires Placed(w) && Enabled(w, step)
    ensures Placed(Next(w, step))
  {
    hide Placed, FlushSteers, WithoutRequest, QueueMessage;
    var w' := Next(w, step);
    match step
    case Queue => QueuePlaced(w);
    case Started =>
      var slots := w.d.openingTurns;
      var w1 := w.(waiting := w.waiting[1..], d := w.d.(openingTurns := if slots == [] then [] else slots[1..]));
      StillPlaced(w, w1.(cancelled := w.cancelled + [w.waiting[0]]));
      if slots != [] && slots[0].gen == w.d.abortGen {
        var w2 := w1.(d := w1.d.(turnActive := true, currentTurnId := Some(w.waiting[0]), turnGen := slots[0].gen),
                      adopted := w.adopted + [Opening(w.waiting[0], w.d.abortGen)]);
        StillPlaced(w, w2);
        FlushPlaced(w2);
      }
    case Answered(r) =>
      var w1 := w.(d := w.d.(currentTurnId := Some(r)), adopted := w.adopted + [Opening(r, w.d.abortGen)]);
      StillPlaced(w, w1);
      FlushPlaced(w1);
    case Interrupted =>
      forall n: nat | HasText(w.d.pendingSteers, n) ensures HasText(w'.withdrawn, n) {
        TextConcat(w.withdrawn, w.d.pendingSteers, n);
      }
      hide HasText, HasSent;
      StillPlaced(w, w');
    case _ => StillPlaced(w, w');
  }

  lemma {:induction false} RunPlaced(w: World, steps: seq<Step>)
    requires Placed(w) && Legal(w, steps)
    ensures Placed(Run(w, steps))
    decreases |steps|
  {
    if steps != [] {
      hide Placed, Next, Enabled;
      StepPlaced(w, steps[0]);
      RunPlaced(Next(w, steps[0]), steps[1..]);
    }
  }

  /** In every run no message taken is forgotten: it is parked, was sent, or was
      withdrawn by an interrupt that came while it was parked. */
  lemma NoMessageIsForgotten(steps: seq<Step>)
    requires Legal(Initial, steps)
    ensures Placed(Run(Initial, steps))
  {
    RunPlaced(Initial, steps);
  }

  /** In every run where no turn starts with a failed request's slot oldest, the
      slots are exactly those of the turns still to start, in order, with those of
      the failures not yet reacted to; so a turn is adopted only in the generation
      it was asked for in, and cancelled only if an interrupt came since. */
  lemma TurnsArePaired(steps: seq<Step>)
    requires Legal(Initial, steps) && PromptRun(Initial, steps)
    ensures var w := Run(Initial, steps);
      Paired(w.d.openingTurns, w.waiting, w.failing) && RightTurns(w)
  {
    assert Timely(Initial) && SlotsOk(Initial);
    PromptRunKeeps(Initial, steps);
    hide Run, Paired, RightTurns, Timely, SlotsMatch;
  }

  /** And in such a run the next turn to start takes its own slot if and only if
      no failed request holds the oldest one. */
  lemma NextTurnIsPaired(steps: seq<Step>)
    requires Legal(Initial, steps) && PromptRun(Initial, steps) && Run(Initial, steps).waiting != []
    ensures var w := Run(Initial, steps);
      && w.d.openingTurns != []
      && (w.d.openingTurns[0].request == w.waiting[0] <==> Prompt(w, Started))
  {
    var w := Run(Initial, steps);
    TurnsArePaired(steps);
    PairsExactly(w.d.openingTurns, w.waiting, w.failing);
    hide Run, Paired, RightTurns;
  }

  /** A turn asked for, interrupted, and its request failed; another asked for
      meanwhile and started by a line read together with that failure. The live
      turn is refused as if it were the interrupted one, and its slot stays. */
  const RACE := [Queue, Interrupted, Queue, StartFails(0), Started, FailureSeen(0)]

  function RaceWorld(n: nat): World {
    var sent := [Sent(Text(0, 0), 0)];
    if n == 0 then Initial
    else if n == 1 then World(Driver(true, None, [Opening(0, 0)], [], 0, 0, false, false), [0], {}, [], [0], 1, sent,
        [], [], [])
    else if n == 2 then World(Driver(false, None, [Opening(0, 0)], [], 1, 0, false, false), [0], {}, [], [0], 1, sent,
        [], [], [])
    else
      var sent := sent + [Sent(Text(1, 1), 1)];
      if n == 3 then
        World(Driver(true, None, [Opening(0, 0), Opening(1, 1)], [], 1, 0, false, false), [0, 1], {}, [], [0, 1], 2,
            sent, [], [], [])
      else if n == 4 then
        World(Driver(true, None, [Opening(0, 0), Opening(1, 1)], [], 1, 0, false, false), [1], {0}, [], [0, 1], 2,
            sent, [], [], [])
      else
        World(Driver(true, None, [Opening(1, 1)], [], 1, 0, false, false), [], if n == 5 then {0} else {}, [], [0, 1],
            2, sent, [], [], [1])
  }

  lemma RaceAsks(n: nat)
    requires n < 3
    ensures Enabled(RaceWorld(n), RACE[n]) && Next(RaceWorld(n), RACE[n]) == RaceWorld(n + 1)
  {
    hide WithoutRequest, Without;
  }

  lemma RaceFails(n: nat)
    requires 3 <= n < 6
    ensures Enabled(RaceWorld(n), RACE[n]) && Next(RaceWorld(n), RACE[n]) == RaceWorld(n + 1)
  {
    assert [0, 1][1..] == [1] && [1][1..] == [] && [Opening(0, 0), Opening(1, 1)][1..] == [Opening(1, 1)];
    assert [Opening(1, 1)][1..] == [] && WithoutRequest([], 0) == [];
    assert WithoutRequest([Opening(1, 1)], 0) == [Opening(1, 1)];
  }

  lemma {:induction false} RaceFrom(n: nat)
    requires n <= 6
    ensures Legal(RaceWorld(n), RACE[n..]) && Run(RaceWorld(n), RACE[n..]) == RaceWorld(6)
    ensures n <= 4 ==> !PromptRun(RaceWorld(n), RACE[n..])
    decreases 6 - n
  {
    if n < 6 {
      if n < 3 { RaceAsks(n); } else { RaceFails(n); }
      RaceFrom(n + 1);
      NotPrompt();
      hide Next, Enabled, RaceWorld, Prompt;
      assert RACE[n..][0] == RACE[n] && RACE[n..][1..] == RACE[n + 1..];
    }
  }

  lemma NotPrompt()
    ensures !Prompt(RaceWorld(4), RACE[4])
  {}

  lemma RaceCancelsTheLiveTurn()
    ensures Legal(Initial, RACE) && !PromptRun(Initial, RACE)
    ensures var w := Run(Initial, RACE);
      && w.cancelled == [1] && w.gens[1] == w.d.abortGen && w.adopted == []
      && w.waiting == [] && w.d.openingTurns == [Opening(1, 1)]
  {
    RaceFrom(0);
    assert RACE[0..] == RACE;
    hide Run, Legal, PromptRun;
  }
}
