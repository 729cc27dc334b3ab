/** The main results on live set-up changes, over every run from a new session. */
module SetupSwapTheorems {
  import opened Wrappers
  import opened SetupSwap
  import opened SetupSwapSafety

  /** Input is conserved. Each accepted message was delivered, is held or was
      dropped, one of these only; deliveries are in arrival order, and nothing
      delivered came after what is held. A message held for a set-up goes only to
      a harness built later, any other only to the one running when it came.
      What is held the current author filter takes; and input is held only
      while a set-up is pending or swapping, unless the daemon is shutting down. */
  lemma HeldInputIsConserved(steps: seq<(Step, int)>)
    ensures var s := Run(Start, steps);
      && Accounted(s.taken, s.held, s.delivered, s.dropped)
      && InOrder(s.held, s.delivered, s.shuttingDown)
      && RightHarness(s.held, s.delivered, s.harness)
      && Filtered(s.held, s.delivered, s.authorFilter)
      && (s.held != [] ==> InputHeld(s) || s.shuttingDown)
  {
    RunKeepsInv(steps);
    hide Run, Accounted, InOrder, RightHarness, Filtered;
  }

  /** At most one harness can be running, and while one is being built none other
      is; at most one control call is under way, the one the reservation names,
      and a swap holds it from its start to its end. */
  lemma OneHarnessAndOneCall(steps: seq<(Step, int)>)
    ensures var s := Run(Start, steps);
      && (forall a, b :: a in s.running && b in s.running ==> a == b)
      && (At(s, Constructing) ==> s.harness !in s.running)
      && (forall a, b :: a in s.calls && b in s.calls ==> a == b)
      && (forall c :: c in s.calls <==> c == s.control && !c.Free?)
      && (s.swap.Some? <==> s.control.Swap?)
  {
    RunKeepsInv(steps);
    hide Run, Accounted, InOrder, RightHarness, Filtered;
  }

  /** Sending again the set-up that is pending, being swapped to or applied changes
      nothing, so no two restarts in a row are for the same set-up. */
  lemma NoSetupRestartsTwice(steps: seq<(Step, int)>, setup: Setup, now: int)
    ensures var s := Run(Start, steps);
      && (Known(s, setup.id) ==> Next(s, SetUp(setup), now) == s)
      && (!s.shuttingDown ==> NoRepeat(s.restarts))
  {
    RunKeepsInv(steps);
    hide Run, Accounted, InOrder, RightHarness, Filtered, OneHarness, OneCall, NoRepeat;
  }

  // ---- a dropped message can be sent again ------------------------------------------------

  /** What was dropped from `s` to `s'`. */
  function NewlyDropped(s: Session, s': Session): seq<Item> {
    if s.dropped <= s'.dropped then s'.dropped[|s.dropped|..] else []
  }

  /** From `s` to `s'` messages may have been dropped, and exactly their ids are
      forgotten; nothing was taken and nothing allowed. */
  predicate Shed(s: Session, s': Session) {
    && s'.allowed == s.allowed && s'.taken == s.taken
    && s.dropped <= s'.dropped
    && s'.ids == ForgetHeld(s.ids, NewlyDropped(s, s'))
  }

  lemma {:induction false} ForgetConcat(ids: seq<string>, a: seq<Item>, b: seq<Item>)
    ensures ForgetHeld(ids, a + b) == ForgetHeld(ForgetHeld(ids, a), b)
  {
    if b == [] {
      assert a + b == a;
    } else {
      assert (a + b)[..|a + b| - 1] == a + b[..|b| - 1];
      ForgetConcat(ids, a, b[..|b| - 1]);
    }
  }

  lemma ForgetNothing(ids: seq<string>)
    ensures ForgetHeld(ids, []) == ids
  {}

  lemma ShedTwice(a: Session, b: Session, c: Session)
    requires Shed(a, b) && Shed(b, c)
    ensures Shed(a, c)
  {
    ForgetConcat(a.ids, NewlyDropped(a, b), NewlyDropped(b, c));
    hide ForgetHeld;
    assert NewlyDropped(a, c) == NewlyDropped(a, b) + NewlyDropped(b, c);
  }

  lemma ShedSame(s: Session, s': Session)
    requires SameIds(s, s')
    ensures Shed(s, s')
  {
    ForgetNothing(s.ids);
    hide ForgetHeld;
    assert NewlyDropped(s, s') == [];
  }

  /** Nothing dropped, nothing taken, nothing allowed. */
  predicate SameIds(s: Session, s': Session) {
    s'.ids == s.ids && s'.dropped == s.dropped && s'.allowed == s.allowed && s'.taken == s.taken
  }

  lemma CancelParksIds(s: Session, onlyTasks: bool, now: int)
    ensures SameIds(s, CancelParks(s, onlyTasks, now))
  {}

  lemma DropHeldSheds(s: Session)
    ensures Shed(s, DropHeld(s)) && Shed(s, Fail(s)) && Shed(s, AbandonSetup(s))
  {
    var r := ForgetHeld(s.ids, s.held);
    hide ForgetHeld;
  }

  lemma DropHeldFromSheds(s: Session, keepFrom: string)
    ensures Shed(s, DropHeldFrom(s, keepFrom))
  {
    var gone := FilterHeld(s.held, keepFrom).1;
    var r := ForgetHeld(s.ids, gone);
    hide ForgetHeld, FilterHeld;
  }

  lemma ReplaySheds(s: Session, accepts: nat)
    ensures Shed(s, ReplayHeld(s, accepts))
  {
    var n := if accepts < |s.held| then accepts else |s.held|;
    var r := ForgetHeld(s.ids, s.held[n..]);
    hide ForgetHeld, Replayed;
  }

  lemma EndSessionSheds(s: Session, now: int)
    ensures Shed(s, EndSession(s, now))
  {
    var s1 := CancelParks(s.(ending := true, pending := {}), false, now);
    assert SameIds(s, s1);
    DropHeldSheds(s1);
    ShedSame(s, s1);
    ShedTwice(s, s1, AbandonSetup(s1));
    hide Shed, AbandonSetup, CancelParks;
  }

  lemma MaybeApplySheds(s: Session, now: int)
    ensures Shed(s, MaybeApplySetup(s, now))
  {
    EndSessionSheds(s, now);
    DropHeldSheds(s);
    ShedSame(s, s);
    if s.setup.Some? { ShedSame(s, StartSwap(s, s.setup.value)); }
    hide Shed, AbandonSetup, EndSession, ReadyToSwap, SetupExpired;
  }

  lemma SettleSheds(s: Session, now: int)
    ensures Shed(s, Settle(s, now))
  {
    var s1 := s.(swap := None, control := if s.control.Swap? then Free else s.control, calls := s.calls - {Swap});
    MaybeApplySheds(s1, now);
    hide MaybeApplySetup;
  }

  lemma AfterRetireSheds(s: Session, gone: bool, now: int)
    requires s.swap.Some?
    ensures Shed(s, AfterRetire(s, gone, now))
  {
    DropHeldSheds(s);
    var s1 := SetState(s.(running := s.running - {s.harness}, tasks := 0), Idle, now);
    assert SameIds(s, s1);
    DropHeldSheds(s1);
    var s2 := if IsDone(DropHeld(s1)) then DropHeld(s1) else DropHeld(s1).(state := Ended);
    assert SameIds(DropHeld(s1), s2);
    SettleSheds(s2, now);
    hide Settle, Fail, DropHeld;
    if gone && (s1.ending || s1.shuttingDown || IsDone(s1)) { ShedTwice(s, s2, Settle(s2, now)); }
  }

  lemma AfterConstructSheds(s: Session, built: bool, accepts: nat, now: int)
    requires s.swap.Some?
    ensures Shed(s, AfterConstruct(s, built, accepts, now))
  {
    hide Settle, Fail, DropHeld, ReplayHeld;
    if !built {
      var s1 := s.(running := s.running - {s.harness + 1});
      DropHeldSheds(s1);
      SettleSheds(Fail(s1), now);
      ShedTwice(s, Fail(s1), Settle(Fail(s1), now));
    } else {
      var s1 := s.(harness := s.harness + 1, swap := Some(s.swap.value.(stage := Installed)));
      DropHeldSheds(s1);
      var s2 := s1.(applied := Some(s.swap.value.setup.id));
      ReplaySheds(s2, accepts);
      var s3 := if s1.ending || s1.shuttingDown then DropHeld(s1) else if s2.setup.None? then ReplayHeld(s2, accepts) else s2;
      assert Shed(s, s3);
      SettleSheds(s3, now);
      ShedTwice(s, s3, Settle(s3, now));
    }
  }

  lemma HoldSheds(s: Session, item: Item, now: int)
    requires !IsDone(s) && !s.ending
    ensures var s1 := s.(taken := s.taken + 1, held := s.held + [item], ids := Remember(s.ids, item.id));
      Shed(s1, HoldMessage(s, item, now))
  {
    hide MaybeApplySetup, CancelParks, Remember;
    var s1 := s.(taken := s.taken + 1, held := s.held + [item], ids := Remember(s.ids, item.id));
    CancelParksIds(s1, true, now);
    MaybeApplySheds(if item.platform then s1 else CancelParks(s1, true, now), now);
  }

  /** Whatever a step drops, its id is not remembered: sent again, it is taken anew. */
  predicate Forgotten(s: Session, s': Session) {
    && s.dropped <= s'.dropped
    && forall i :: |s.dropped| <= i < |s'.dropped| ==> s'.dropped[i].id == "" || s'.dropped[i].id !in s'.ids
  }

  predicate Quiet(s: Session, s': Session) { Forgotten(s, s') && s'.allowed == s.allowed }

  lemma MessageForgets(s: Session, author: string, platform: bool, id: string, accepts: bool, now: int)
    ensures Quiet(s, HandleMessage(s, author, platform, id, accepts, now))
  {
    hide HoldMessage, CancelParks, Remember, KeepsInput;
    var item := Item(s.taken, author, platform, id, InputHeld(s), s.harness);
    if IsDone(s) || s.ending { HoldRefuses(s, item, now); } else { HoldSheds(s, item, now); }
    CancelParksIds(s.(taken := s.taken + 1, ids := Remember(s.ids, id),
        delivered := s.delivered + [Delivery(item, s.harness, s.authorFilter)]), true, now);
  }

  lemma HoldRefuses(s: Session, item: Item, now: int)
    requires IsDone(s) || s.ending
    ensures HoldMessage(s, item, now) == s
  {}

  lemma SetupForgets(s: Session, setup: Setup, now: int)
    ensures Quiet(s, HandleSetup(s, setup, now))
  {
    if !IsDone(s) && !s.ending && !Known(s, setup.id) {
      var answersFrom := if setup.answersFrom != "" then setup.answersFrom else if InputHeld(s) then s.answersFrom else "";
      var s1 := s.(answersFrom := answersFrom, setup := Some(setup), authorFilter := setup.keepHeldFrom);
      var s2 := DropHeldFrom(s1, setup.keepHeldFrom);
      DropHeldFromSheds(s1, setup.keepHeldFrom);
      MaybeApplySheds(s2, now);
      ShedTwice(s1, s2, MaybeApplySetup(s2, now));
      hide MaybeApplySetup, DropHeldFrom;
    }
  }

  lemma ControlForgets(s: Session, kind: Control, now: int)
    ensures Quiet(s, StartControl(s, kind, now))
  {
    if s.setup.Some? { MaybeApplySheds(s.(setup := Some(s.setup.value.(urgent := true))), now); }
    hide MaybeApplySetup;
  }

  lemma SwapForgets(s: Session, step: Step, now: int)
    requires step.Retired? || step.Constructed? || step.Stopped?
    ensures Quiet(s, Next(s, step, now))
  {
    hide AfterRetire, AfterConstruct, Settle, Fail;
    match step
    case Retired(gone) => if At(s, Retiring) { AfterRetireSheds(s, gone, now); }
    case Constructed(built, takes) => if At(s, Constructing) { AfterConstructSheds(s, built, takes, now); }
    case Stopped(threw) =>
      if At(s, Stopping) {
        DropHeldSheds(s);
        SettleSheds(if threw then Fail(s) else s, now);
        ShedTwice(s, if threw then Fail(s) else s, AfterStop(s, threw, now));
      }
  }

  /** What a step drops is forgotten; and only a decision allows anything. */
  lemma DroppedIsForgotten(s: Session, step: Step, now: int)
    ensures Forgotten(s, Next(s, step, now))
    ensures !step.Decide? ==> Next(s, step, now).allowed == s.allowed
  {
    hide CancelParks, HandleMessage, HandleSetup, MaybeApplySetup, StartControl, AfterRetire, AfterConstruct,
        AfterStop, EndSession;
    match step
    case Message(author, platform, id, accepts) => MessageForgets(s, author, platform, id, accepts, now);
    case SetUp(setup) => SetupForgets(s, setup.(receivedAt := now, signaled := false, urgent := false), now);
    case Apply(id) => if s.setup.Some? { MaybeApplySheds(s.(setup := Some(s.setup.value.(signaled := true))), now); }
    case Tick => MaybeApplySheds(s, now);
    case ControlStarts(kind) => ControlForgets(s, kind, now);
    case Retired(_) => SwapForgets(s, step, now); hide Next;
    case Constructed(_, _) => SwapForgets(s, step, now); hide Next;
    case Stopped(_) => SwapForgets(s, step, now); hide Next;
    case End => EndForgets(s, now);
    case Interrupt => CancelParksIds(s, false, now);
    case Undeliverable => CancelParksIds(s.(ending := true, pending := {}), false, now);
    case ShutDown => CancelParksIds(s.(shuttingDown := true, pending := {}), false, now);
    case _ =>
  }

  lemma EndForgets(s: Session, now: int)
    ensures Quiet(s, EndSession(s, now))
  {
    var s1 := CancelParks(s.(ending := true, pending := {}), false, now);
    assert SameIds(s, s1);
    DropHeldSheds(s1);
    hide CancelParks, AbandonSetup;
  }

  // ---- who may answer ----------------------------------------------------------------------

  /** A set-up change is in flight in a session that goes on. */
  predicate InForce(s: Session) { InputHeld(s) && !IsDone(s) && !s.ending }

  /** Who alone may allow is as before, or the session is over. */
  predicate SameAnswers(s: Session, s': Session) { s'.answersFrom == s.answersFrom || s'.ending || IsDone(s') }

  lemma MaybeApplyAnswers(s: Session, now: int)
    ensures SameAnswers(s, MaybeApplySetup(s, now))
  {
    CancelParksBooks(s.(ending := true, pending := {}), false, now);
    hide CancelParks, ForgetHeld, ReadyToSwap;
  }

  lemma SettleAnswers(s: Session, now: int)
    ensures SameAnswers(s, Settle(s, now)) || !InputHeld(Settle(s, now))
  {
    MaybeApplyAnswers(s.(swap := None, control := if s.control.Swap? then Free else s.control,
        calls := s.calls - {Swap}), now);
    hide MaybeApplySetup;
  }

  lemma MessageAnswers(s: Session, author: string, platform: bool, id: string, accepts: bool, now: int)
    requires InForce(s)
    ensures SameAnswers(s, HandleMessage(s, author, platform, id, accepts, now))
  {
    hide Remember, CancelParks, MaybeApplySetup, KeepsInput;
    var item := Item(s.taken, author, platform, id, InputHeld(s), s.harness);
    var s1 := s.(taken := s.taken + 1, held := s.held + [item], ids := Remember(s.ids, item.id));
    CancelParksBooks(s1, true, now);
    MaybeApplyAnswers(if item.platform then s1 else CancelParks(s1, true, now), now);
  }

  lemma SwapAnswers(s: Session, step: Step, now: int)
    requires InForce(s) && (step.Retired? || step.Constructed? || step.Stopped?)
    ensures SameAnswers(s, Next(s, step, now)) || !InputHeld(Next(s, step, now))
  {
    hide Settle, ForgetHeld, Replayed;
    match step
    case Retired(gone) =>
      if At(s, Retiring) && gone {
        var s1 := SetState(s.(running := s.running - {s.harness}, tasks := 0), Idle, now);
        var s2 := DropHeld(s1);
        SettleAnswers(if IsDone(s2) then s2 else s2.(state := Ended), now);
      }
    case Constructed(built, takes) =>
      if At(s, Constructing) {
        var s1 := s.(harness := s.harness + 1, swap := Some(s.swap.value.(stage := Installed)));
        var s2 := s1.(applied := Some(s.swap.value.setup.id));
        SettleAnswers(Fail(s.(running := s.running - {s.harness + 1})), now);
        SettleAnswers(DropHeld(s1), now);
        SettleAnswers(if s2.setup.None? then ReplayHeld(s2, takes) else s2, now);
      }
    case Stopped(threw) => SettleAnswers(if threw then Fail(s) else s, now);
  }

  /** While it is, who alone may allow stays, unless a later set-up names someone else. */
  lemma AnswersStay(s: Session, step: Step, now: int)
    requires InForce(s) && s.answersFrom != "" && InForce(Next(s, step, now))
    ensures Next(s, step, now).answersFrom ==
      if step.SetUp? && !Known(s, step.setup.id) && step.setup.answersFrom != "" then step.setup.answersFrom else s.answersFrom
  {
    hide HandleMessage, MaybeApplySetup, CancelParks, ForgetHeld, FilterHeld, ReadyToSwap;
    match step
    case Message(author, platform, id, accepts) => MessageAnswers(s, author, platform, id, accepts, now);
    case SetUp(setup) =>
      var s0 := s.(setup := Some(setup.(receivedAt := now, signaled := false, urgent := false)),
          authorFilter := setup.keepHeldFrom,
                   answersFrom := if setup.answersFrom != "" then setup.answersFrom else s.answersFrom);
      MaybeApplyAnswers(DropHeldFrom(s0, setup.keepHeldFrom), now);
    case Apply(_) => if s.setup.Some? { MaybeApplyAnswers(s.(setup := Some(s.setup.value.(signaled := true))), now); }
    case Tick => MaybeApplyAnswers(s, now);
    case ControlStarts(_) => if s.setup.Some? { MaybeApplyAnswers(s.(setup := Some(s.setup.value.(urgent := true))), now); }
    case Interrupt => CancelParksBooks(s, false, now);
    case Undeliverable => CancelParksBooks(s.(ending := true, pending := {}), false, now);
    case ShutDown => CancelParksBooks(s.(shuttingDown := true, pending := {}), false, now);
    case End => CancelParksBooks(s.(ending := true, pending := {}), false, now);
    case Retired(_) => SwapAnswers(s, step, now); hide Next;
    case Constructed(_, _) => SwapAnswers(s, step, now); hide Next;
    case Stopped(_) => SwapAnswers(s, step, now); hide Next;
    case _ =>
  }

  /** Every state along the run has the set-up change in force. */
  predicate InForceThroughout(s: Session, steps: seq<(Step, int)>)
    decreases |steps|
  {
    InForce(Run(s, steps)) && (steps != [] ==> InForceThroughout(s, steps[..|steps| - 1]))
  }

  predicate NamesOnly(steps: seq<(Step, int)>, owner: string) {
    forall i :: 0 <= i < |steps| && steps[i].0.SetUp? ==>
      steps[i].0.setup.answersFrom == "" || steps[i].0.setup.answersFrom == owner
  }

  lemma AllowedByOwner(s: Session, step: Step, now: int)
    ensures s.allowed <= Next(s, step, now).allowed
    ensures forall i :: |s.allowed| <= i < |Next(s, step, now).allowed| ==>
      s.answersFrom == "" || Next(s, step, now).allowed[i].who == s.answersFrom
  {
    DroppedIsForgotten(s, step, now);
    if !step.Decide? { hide Next; }
  }

  /** For as long as a set-up that names an owner is in force, and later set-ups
      name no one else, only the owner's allow is applied. */
  lemma {:induction false} OwnerAnswersAlone(s: Session, steps: seq<(Step, int)>, owner: string)
    requires owner != "" && s.answersFrom == owner && InForceThroughout(s, steps) && NamesOnly(steps, owner)
    ensures Run(s, steps).answersFrom == owner && s.allowed <= Run(s, steps).allowed
    ensures forall i :: |s.allowed| <= i < |Run(s, steps).allowed| ==> Run(s, steps).allowed[i].who == owner
    decreases |steps|
  {
    if steps != [] {
      hide Next, InForce;
      var init, last := steps[..|steps| - 1], steps[|steps| - 1];
      OwnerAnswersAlone(s, init, owner);
      AnswersStay(Run(s, init), last.0, last.1);
      AllowedByOwner(Run(s, init), last.0, last.1);
    }
  }

  // ---- when a swap begins ----------------------------------------------------------------------

  /** From `s` to `s'` no swap began; or one did, with its apply signaled, in an idle
      session with nothing waiting on a person, a timer or a control call, and,
      unless the set-up says stop or someone waits on the swap, no background task. */
  predicate AtBoundary(s: Session, s': Session) {
    s'.restarts != s.restarts ==>
      && At(s', Retiring) && s'.swap.value.setup.signaled && s'.restarts == s.restarts + [s'.swap.value.setup.id]
      && s'.state.Idle? && !s'.ending && s'.pending == {} && s'.parks == {} && s'.control.Swap?
      && (s'.swap.value.setup.stop || s'.swap.value.setup.urgent || s'.held != [] || s'.tasks == 0)
  }

  lemma MaybeApplyBoundary(s: Session, now: int)
    ensures AtBoundary(s, MaybeApplySetup(s, now))
  {
    CancelParksBooks(s.(ending := true, pending := {}), false, now);
    hide CancelParks, ForgetHeld;
  }

  lemma MessageBoundary(s: Session, author: string, platform: bool, id: string, accepts: bool, now: int)
    ensures AtBoundary(s, HandleMessage(s, author, platform, id, accepts, now))
  {
    hide Remember, CancelParks, MaybeApplySetup, KeepsInput;
    var item := Item(s.taken, author, platform, id, InputHeld(s), s.harness);
    var s1 := s.(taken := s.taken + 1, held := s.held + [item], ids := Remember(s.ids, item.id));
    CancelParksBooks(s1, true, now);
    MaybeApplyBoundary(if item.platform then s1 else CancelParks(s1, true, now), now);
    CancelParksBooks(s.(taken := s.taken + 1, ids := Remember(s.ids, id),
        delivered := s.delivered + [Delivery(item, s.harness, s.authorFilter)]), true, now);
  }

  lemma SettleBoundary(s: Session, now: int)
    ensures AtBoundary(s, Settle(s, now))
  {
    MaybeApplyBoundary(s.(swap := None, control := if s.control.Swap? then Free else s.control,
        calls := s.calls - {Swap}), now);
    hide MaybeApplySetup;
  }

  lemma SwapStepBoundary(s: Session, step: Step, now: int)
    requires step.Retired? || step.Constructed? || step.Stopped?
    ensures AtBoundary(s, Next(s, step, now))
  {
    hide Settle, ForgetHeld, Replayed;
    match step
    case Retired(gone) =>
      if At(s, Retiring) && gone {
        var s1 := SetState(s.(running := s.running - {s.harness}, tasks := 0), Idle, now);
        var s2 := DropHeld(s1);
        SettleBoundary(if IsDone(s2) then s2 else s2.(state := Ended), now);
      }
    case Constructed(built, takes) =>
      if At(s, Constructing) {
        var s1 := s.(harness := s.harness + 1, swap := Some(s.swap.value.(stage := Installed)));
        var s2 := s1.(applied := Some(s.swap.value.setup.id));
        SettleBoundary(Fail(s.(running := s.running - {s.harness + 1})), now);
        SettleBoundary(DropHeld(s1), now);
        SettleBoundary(if s2.setup.None? then ReplayHeld(s2, takes) else s2, now);
      }
    case Stopped(threw) => SettleBoundary(if threw then Fail(s) else s, now);
  }

  lemma SwapsBeginAtTurnBoundaries(s: Session, step: Step, now: int)
    ensures AtBoundary(s, Next(s, step, now))
  {
    hide HandleMessage, MaybeApplySetup, CancelParks, ForgetHeld, FilterHeld;
    match step
    case Message(author, platform, id, accepts) => MessageBoundary(s, author, platform, id, accepts, now);
    case SetUp(setup) =>
      var answersFrom := if setup.answersFrom != "" then setup.answersFrom else if InputHeld(s) then s.answersFrom else "";
      var s0 := s.(answersFrom := answersFrom, setup := Some(setup.(receivedAt := now, signaled := false, urgent := false)), authorFilter := setup.keepHeldFrom);
      MaybeApplyBoundary(DropHeldFrom(s0, setup.keepHeldFrom), now);
    case Apply(_) => if s.setup.Some? { MaybeApplyBoundary(s.(setup := Some(s.setup.value.(signaled := true))), now); }
    case Tick => MaybeApplyBoundary(s, now);
    case ControlStarts(_) => if s.setup.Some? { MaybeApplyBoundary(s.(setup := Some(s.setup.value.(urgent := true))), now); }
    case Interrupt => CancelParksBooks(s, false, now);
    case Undeliverable => CancelParksBooks(s.(ending := true, pending := {}), false, now);
    case ShutDown => CancelParksBooks(s.(shuttingDown := true, pending := {}), false, now);
    case End => CancelParksBooks(s.(ending := true, pending := {}), false, now);
    case Retired(_) => SwapStepBoundary(s, step, now); hide Next;
    case Constructed(_, _) => SwapStepBoundary(s, step, now); hide Next;
    case Stopped(_) => SwapStepBoundary(s, step, now); hide Next;
    case _ =>
  }

  /** A set-up no apply came for in two minutes ends the session, and what was held for it goes. */
  lemma ExpiredSetupEnds(s: Session, now: int)
    requires s.setup.Some? && !s.setup.value.signaled && now >= s.setup.value.receivedAt + 120000 && !IsDone(s)
    ensures var s' := Next(s, Tick, now);
      s'.setup.None? && s'.held == [] && s'.dropped == s.dropped + s.held && s'.ending && s'.restarts == s.restarts
  {
    CancelParksBooks(s.(ending := true, pending := {}), false, now);
    hide CancelParks, ForgetHeld;
  }

  /** Over every run, once the clock has ticked at `now` no set-up is pending that no
      apply came for in the two minutes before; it ended the session. */
  lemma NoSetupLingers(steps: seq<(Step, int)>, now: int)
    ensures var s := Run(Start, steps); var s' := Run(Start, steps + [(Tick, now)]);
      && (s'.setup.Some? ==> s'.setup.value.signaled || now < s'.setup.value.receivedAt + 120000)
      && (s.setup.Some? && SetupExpired(s.setup.value, now) ==>
            !InForce(s') && s'.setup.None? && s'.held == [] && s'.dropped == s.dropped + s.held && s'.restarts == s.restarts)
  {
    var s := Run(Start, steps);
    assert (steps + [(Tick, now)])[..|steps|] == steps;
    if s.setup.Some? && SetupExpired(s.setup.value, now) && !IsDone(s) { ExpiredSetupEnds(s, now); }
    hide Run, ForgetHeld, ReadyToSwap, CancelParks;
  }
}
