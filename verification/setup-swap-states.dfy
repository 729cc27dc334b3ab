/**
 What a session waits for and who may act on it: its parks, since when it is idle,
 its control calls, who may answer, the harness that runs, the ids it remembers.
 */
module SetupSwapStates {
  import opened Wrappers
  import opened SetupSwap
  import opened SetupSwapTheorems
  import opened SetupSwapResend
  import opened SetupSwapRules

  // ---- parks ----------------------------------------------------------------------------------

  /** Whether what a session waited for is gone, so that a blocked one works again. */
  function StateWithout(s: Session, pending: set<string>, parks: set<Park>): State {
    if s.state == Blocked && pending == {} && parks == {} then Working else s.state
  }

  predicate SameWork(s: Session, s': Session) {
    && SameInput(s, s') && s'.ids == s.ids && s'.setup == s.setup && s'.swap == s.swap && s'.control == s.control
    && s'.ending == s.ending && s'.pending == s.pending && s'.answersFrom == s.answersFrom && s'.running == s.running
    && s'.harness == s.harness && s'.idleSince == s.idleSince && s'.tasks == s.tasks && s'.authorFilter == s.authorFilter
  }

  lemma CancelsParks(s: Session, onlyTasks: bool, now: int)
    ensures var s' := CancelParks(s, onlyTasks, now);
      && s'.parks == (if onlyTasks then set p | p in s.parks && !p.task else {}) && SameWork(s, s')
      && s'.state == (if s'.parks == s.parks then s.state else StateWithout(s, s.pending, s'.parks))
  {
    var left := set p | p in s.parks && onlyTasks && !p.task;
    assert left == if onlyTasks then set p | p in s.parks && !p.task else {};
    hide ForgetHeld;
  }

  /** A wait is parked, and blocks the session. */
  lemma WaitsBlock(s: Session, park: Park, now: int)
    ensures var s' := Next(s, Wait(park), now);
      SameWork(s, s') && s'.parks == s.parks + {park} && s'.state == if IsOver(s) then s.state else Blocked
  {
    hide CancelParks, ForgetHeld, MaybeApplySetup;
  }

  /** The end of one resumes it if nothing else is outstanding; an interrupt ends all. */
  lemma EndedWaitsResume(s: Session, park: Park, now: int)
    ensures var s' := Next(s, Wake(park), now);
      && SameWork(s, s') && s'.parks == s.parks - {park}
      && s'.state == (if park in s.parks then StateWithout(s, s.pending, s.parks - {park}) else s.state)
    ensures var s' := Next(s, Interrupt, now);
      && SameWork(s, s') && s'.parks == {} && s'.state == (if s.parks != {} then StateWithout(s, s.pending, {}) else s.state)
  {
    WakeIs(s, park, now);
    CancelsParks(s, false, now);
    hide CancelParks, ForgetHeld, SameWork, StateWithout, ResumeIfUnblocked, MaybeApplySetup;
  }

  lemma WakeIs(s: Session, park: Park, now: int)
    ensures var s' := Next(s, Wake(park), now);
      && SameWork(s, s') && s'.parks == s.parks - {park}
      && s'.state == (if park in s.parks then StateWithout(s, s.pending, s.parks - {park}) else s.state)
  {
    hide CancelParks, ForgetHeld, MaybeApplySetup;
  }

  /** A request blocks the session until it is decided; a count of tasks does not. */
  lemma RequestsBlock(s: Session, request: string, count: nat, now: int)
    ensures Next(s, TaskCount(count), now) == s.(tasks := count)
    ensures var s' := Next(s, Ask(request), now);
      s'.pending == s.pending + {request} && s'.parks == s.parks && s'.state == if IsOver(s) then s.state else Blocked
  {}

  /** A message a person sends into a running session ends its waits for a task, and no
      other wait; one of the platform ends none. */
  lemma MessagesEndTaskWaits(s: Session, author: string, platform: bool, id: string, now: int)
    requires s.setup.None? && s.swap.None? && Takes(s, author, platform, id, true)
    ensures var s' := Next(s, Message(author, platform, id, true), now);
      && s'.parks == (if platform then s.parks else set p | p in s.parks && !p.task)
      && s'.state == (if s'.parks == s.parks then s.state else StateWithout(s, s.pending, s'.parks))
      && s'.pending == s.pending && s'.idleSince == s.idleSince
  {
    var direct := Direct(s, Item(s.taken, author, platform, id, false, s.harness));
    MessageCases(s, author, platform, id, true, now);
    CancelsParks(direct, true, now);
    assert direct.parks == s.parks && direct.pending == s.pending && direct.state == s.state;
    hide CancelParks, Remember, HandleMessage, HoldMessage, StateWithout, Takes;
  }

  /** So does one that is held. */
  lemma HeldMessagesEndTaskWaits(s: Session, author: string, platform: bool, id: string, now: int)
    requires s.setup.Some? || s.swap.Some?
    requires Takes(s, author, platform, id, true) && !IsLate(s, now)
    ensures var s' := Next(s, Message(author, platform, id, true), now);
      s'.parks == if platform then s.parks else set p | p in s.parks && !p.task
  {
    var item := Item(s.taken, author, platform, id, true, s.harness);
    MessageCases(s, author, platform, id, true, now);
    HoldShape(s, item, now);
    AcceptedGoesOn(s, item, now);
    CancelsParks(Accepted(s, item), true, now);
    var s2 := if platform then Accepted(s, item) else CancelParks(Accepted(s, item), true, now);
    assert Accepted(s, item).parks == s.parks;
    GoesOnParked(s2, now);
    hide CancelParks, Remember, HandleMessage, HoldMessage, StateWithout, Takes, MaybeApplySetup, Accepted, IsLate;
  }

  lemma GoesOnParked(s: Session, now: int)
    requires !IsOver(s) && !s.ending && !IsLate(s, now)
    ensures MaybeApplySetup(s, now).parks == s.parks
  {
    hide ForgetHeld, ReadyToSwap;
  }

  /** The end of a session, asked for or where a message cannot be delivered, and a
      shutdown leave nothing that is still under way pending or parked. */
  lemma EndingsClear(s: Session, now: int)
    ensures var s' := Next(s, End, now);
      s'.pending == {} && s'.parks == {} && s'.ending && s'.setup.None? && s'.held == [] && s'.answersFrom == ""
    ensures var s' := Next(s, Undeliverable, now);
      if IsOver(s) || s.ending then s' == s else s'.pending == {} && s'.parks == {} && s'.ending && s'.held == s.held
    ensures var s' := Next(s, ShutDown, now);
      && s'.shuttingDown && s'.ending == s.ending && s'.held == s.held
      && (if IsOver(s) then s'.pending == s.pending && s'.parks == s.parks else s'.pending == {} && s'.parks == {})
  {
    CancelsParks(s.(ending := true, pending := {}), false, now);
    CancelsParks(s.(shuttingDown := true, pending := {}), false, now);
    CancelParksGoesOn(s.(shuttingDown := true, pending := {}), now);
    hide CancelParks, ForgetHeld, StateWithout;
  }

  lemma CancelParksGoesOn(s: Session, now: int)
    ensures CancelParks(s, false, now).shuttingDown == s.shuttingDown
  {}

  // ---- control calls ----------------------------------------------------------------------------

  /** With no set-up in flight a control call is reserved exactly on an idle session that
      is free. During a swap nothing is; a pending set-up becomes urgent, and what a tick
      of the clock would do to that happens. */
  lemma ControlStartsExactly(s: Session, kind: Control, now: int)
    requires kind != Free && kind != Swap
    ensures var s' := Next(s, ControlStarts(kind), now);
      if s.setup.Some? then s' == Next(s.(setup := Some(s.setup.value.(urgent := true))), Tick, now)
      else if s.swap.Some? || s.state != Idle || s.control != Free then s' == s
      else s' == s.(control := kind, calls := s.calls + {kind})
  {
    hide MaybeApplySetup;
  }

  /** A call that is under way ends, and the reservation is free if it was still the call's. */
  lemma ControlEndsExactly(s: Session, kind: Control)
    requires kind != Swap
    ensures var s' := Next(s, ControlEnds(kind), 0);
      if kind !in s.calls then s' == s
      else s' == s.(calls := s.calls - {kind}, control := if s.control == kind then Free else s.control)
  {}

  // ---- since when a session is idle -----------------------------------------------------------------

  /** An idle session knows since when: the step that made it so. */
  predicate IdleNoted(s: Session, s': Session, now: int) {
    s'.state == Idle ==> s'.idleSince == if s.state == Idle then s.idleSince else now
  }

  predicate SameIdle(s: Session, s': Session) {
    s'.idleSince == s.idleSince && (s'.state == Idle <==> s.state == Idle)
  }

  lemma CancelParksIdle(s: Session, onlyTasks: bool, now: int)
    ensures SameIdle(s, CancelParks(s, onlyTasks, now))
  {}

  lemma MaybeApplyIdle(s: Session, now: int)
    ensures SameIdle(s, MaybeApplySetup(s, now))
  {
    CancelParksIdle(s.(ending := true, pending := {}), false, now);
    hide CancelParks, ForgetHeld, ReadyToSwap;
  }

  lemma RequestsKeepIdle(s: Session, step: Step, now: int)
    requires step.Message? || step.SetUp? || step.Apply? || step.Tick? || step.ControlStarts? || step.End?
    ensures SameIdle(s, Next(s, step, now))
  {
    hide CancelParks, ForgetHeld, MaybeApplySetup, FilterHeld, Remember, Known, SameIdle, KeepsInput;
    MaybeApplyIdle(s, now);
    match step
    case Message(author, platform, id, accepts) =>
      var item := Item(s.taken, author, platform, id, InputHeld(s), s.harness);
      CancelParksIdle(Direct(s, item), true, now);
      CancelParksIdle(Accepted(s, item), true, now);
      MaybeApplyIdle(Accepted(s, item), now);
      MaybeApplyIdle(CancelParks(Accepted(s, item), true, now), now);
      IdleIsFields();
    case SetUp(setup) =>
      var setup := setup.(receivedAt := now, signaled := false, urgent := false);
      var answersFrom := if setup.answersFrom != "" then setup.answersFrom else if InputHeld(s) then s.answersFrom else "";
      var s1 := s.(answersFrom := answersFrom, setup := Some(setup), authorFilter := setup.keepHeldFrom);
      MaybeApplyIdle(DropHeldFrom(s1, setup.keepHeldFrom), now);
      IdleIsFields();
    case Apply(id) =>
      if s.setup.Some? { MaybeApplyIdle(s.(setup := Some(s.setup.value.(signaled := true))), now); }
      IdleIsFields();
    case ControlStarts(kind) =>
      if s.setup.Some? { MaybeApplyIdle(s.(setup := Some(s.setup.value.(urgent := true))), now); }
      IdleIsFields();
    case End =>
      CancelParksIdle(s.(ending := true, pending := {}), false, now);
      IdleIsFields();
    case _ =>
  }

  lemma IdleIsFields()
    ensures forall s: Session, s': Session {:trigger SameIdle(s, s')} ::
      SameIdle(s, s') <==> s'.idleSince == s.idleSince && (s'.state == Idle <==> s.state == Idle)
  {}

  lemma SettleIdle(s: Session, now: int)
    ensures SameIdle(s, Settle(s, now))
  {
    MaybeApplyIdle(s.(swap := None, control := if s.control.Swap? then Free else s.control, calls := s.calls - {Swap}), now);
    hide MaybeApplySetup;
  }

  lemma SwapKeepsIdle(s: Session, step: Step, now: int)
    requires step.Retired? || step.Constructed? || step.Stopped?
    ensures IdleNoted(s, Next(s, step, now), now)
  {
    hide Settle, ForgetHeld;
    forall x ensures SameIdle(x, Settle(x, now)) { SettleIdle(x, now); }
  }

  /** In every state a step leaves an idle session knowing since when it is. */
  lemma IdleSinceItWentIdle(s: Session, step: Step, now: int)
    ensures IdleNoted(s, Next(s, step, now), now)
  {
    if step.Retired? || step.Constructed? || step.Stopped? {
      SwapKeepsIdle(s, step, now);
      hide Next;
    } else if step.Message? || step.SetUp? || step.Apply? || step.Tick? || step.ControlStarts? || step.End? {
      RequestsKeepIdle(s, step, now);
      hide Next;
    } else {
      OthersKnowIdle(s, step, now);
      hide Next;
    }
  }

  lemma OthersKnowIdle(s: Session, step: Step, now: int)
    requires !(step.Retired? || step.Constructed? || step.Stopped?)
    requires !(step.Message? || step.SetUp? || step.Apply? || step.Tick? || step.ControlStarts? || step.End?)
    ensures IdleNoted(s, Next(s, step, now), now)
  {
    hide CancelParks, MaybeApplySetup, HandleMessage, HandleSetup, StartControl, AfterRetire, AfterConstruct, AfterStop;
    hide ForgetHeld, EndSession, HandleSetupApply;
    match step
    case Interrupt => CancelParksIdle(s, false, now);
    case Undeliverable => CancelParksIdle(s.(ending := true, pending := {}), false, now);
    case ShutDown => CancelParksIdle(s.(shuttingDown := true, pending := {}), false, now);
    case _ =>
  }

  // ---- who may answer, and what runs ---------------------------------------------------------------

  /** Outside a set-up change anyone may answer; while the session is not over exactly its
      own harness runs, or is being built. */
  predicate Settled(s: Session) {
    && (s.setup.None? && s.swap.None? ==> s.answersFrom == "")
    && (!IsOver(s) ==> s.running == if At(s, Constructing) then {s.harness + 1} else {s.harness})
  }

  /** What the rules below keep of it: a set-up that goes leaves the answers to anyone. */
  predicate Moves(s: Session, s': Session) {
    && (s'.setup.None? && s'.swap.None? ==> s'.answersFrom == "" || (s.setup.None? && s.swap.None? && s'.answersFrom == s.answersFrom))
    && s'.running == s.running && s'.harness == s.harness && (IsOver(s) ==> IsOver(s'))
    && (s'.swap == s.swap || (s.swap.None? && s'.swap.Some? && s'.swap.value.stage == Retiring))
  }

  lemma CancelParksMoves(s: Session, onlyTasks: bool, now: int)
    ensures var s' := CancelParks(s, onlyTasks, now);
      s'.setup == s.setup && s'.swap == s.swap && s'.answersFrom == s.answersFrom && s'.running == s.running &&
      s'.harness == s.harness && (IsOver(s) <==> IsOver(s')) && s'.ending == s.ending
  {}

  lemma EndSessionMoves(s: Session, now: int)
    ensures Moves(s, EndSession(s, now))
  {
    CancelParksMoves(s.(ending := true, pending := {}), false, now);
    hide CancelParks, ForgetHeld;
  }

  /** With a set-up pending, or none and nobody named to answer alone. */
  lemma MaybeApplyMoves(s: Session, now: int)
    ensures Moves(s, MaybeApplySetup(s, now))
    ensures s.swap.None? && s.setup.Some? ==>
      var s' := MaybeApplySetup(s, now); s'.setup.None? && s'.swap.None? ==> s'.answersFrom == ""
  {
    EndSessionMoves(s, now);
    EndSessionAnswers(s, now);
    hide EndSession, ForgetHeld, ReadyToSwap;
  }

  lemma EndSessionAnswers(s: Session, now: int)
    ensures EndSession(s, now).answersFrom == ""
  {
    hide CancelParks, ForgetHeld;
  }

  lemma RequestsSettle(s: Session, step: Step, now: int)
    requires Settled(s) && (step.Message? || step.SetUp? || step.Apply? || step.Tick? || step.ControlStarts? || step.End?)
    ensures Settled(Next(s, step, now))
  {
    hide CancelParks, ForgetHeld, MaybeApplySetup, EndSession, FilterHeld, Remember, Known, KeepsInput;
    MaybeApplyMoves(s, now);
    match step
    case Message(author, platform, id, accepts) =>
      var item := Item(s.taken, author, platform, id, InputHeld(s), s.harness);
      CancelParksMoves(Direct(s, item), true, now);
      CancelParksMoves(Accepted(s, item), true, now);
      MaybeApplyMoves(Accepted(s, item), now);
      MaybeApplyMoves(CancelParks(Accepted(s, item), true, now), now);
    case SetUp(setup) =>
      var setup := setup.(receivedAt := now, signaled := false, urgent := false);
      var answersFrom := if setup.answersFrom != "" then setup.answersFrom else if InputHeld(s) then s.answersFrom else "";
      var s1 := s.(answersFrom := answersFrom, setup := Some(setup), authorFilter := setup.keepHeldFrom);
      MaybeApplyMoves(DropHeldFrom(s1, setup.keepHeldFrom), now);
    case Apply(id) =>
      if s.setup.Some? { MaybeApplyMoves(s.(setup := Some(s.setup.value.(signaled := true))), now); }
    case ControlStarts(kind) =>
      if s.setup.Some? { MaybeApplyMoves(s.(setup := Some(s.setup.value.(urgent := true))), now); }
    case End => EndSessionMoves(s, now);
    case _ =>
  }

  lemma SettleSettles(s: Session, now: int)
    requires !IsOver(s) ==> s.running == {s.harness}
    ensures Settled(Settle(s, now))
  {
    var s1 := s.(swap := None, control := if s.control.Swap? then Free else s.control, calls := s.calls - {Swap});
    MaybeApplyMoves(s1, now);
    hide MaybeApplySetup;
  }

  lemma SwapSettles(s: Session, step: Step, now: int)
    requires Settled(s) && (step.Retired? || step.Constructed? || step.Stopped?)
    ensures Settled(Next(s, step, now))
  {
    hide Settle, ForgetHeld;
    forall x: Session | !IsOver(x) ==> x.running == {x.harness} ensures Settled(Settle(x, now)) { SettleSettles(x, now); }
    hide Settled;
    SettledIs(s);
    match step
    case Retired(gone) => if At(s, Retiring) { RetiredSettles(s, gone, now); }
    case Constructed(built, takes) => if At(s, Constructing) { ConstructedSettles(s, built, takes, now); }
    case Stopped(threw) =>
  }

  lemma SettledIs(s: Session)
    requires Settled(s)
    ensures !IsOver(s) && s.swap.Some? && !At(s, Constructing) ==> s.running == {s.harness}
    ensures !IsOver(s) && At(s, Constructing) ==> s.running == {s.harness + 1}
  {}

  lemma RetiredSettles(s: Session, gone: bool, now: int)
    requires Settled(s) && At(s, Retiring)
    ensures Settled(AfterRetire(s, gone, now))
  {
    hide Settle, ForgetHeld;
    SettledIs(s);
    if gone {
      var s1 := SetState(s.(running := s.running - {s.harness}, tasks := 0), Idle, now);
      var s2 := DropHeld(s1);
      SettleSettles(if IsDone(s2) then s2 else s2.(state := Ended), now);
    }
  }

  lemma ConstructedSettles(s: Session, built: bool, takes: nat, now: int)
    requires Settled(s) && At(s, Constructing)
    ensures Settled(AfterConstruct(s, built, takes, now))
  {
    hide Settle, ForgetHeld, Replayed;
    forall x: Session | !IsOver(x) ==> x.running == {x.harness} ensures Settled(Settle(x, now)) { SettleSettles(x, now); }
    SettledIs(s);
  }

  lemma OtherSettles(s: Session, step: Step, now: int)
    requires Settled(s) && !(step.Retired? || step.Constructed? || step.Stopped?)
    requires !(step.Message? || step.SetUp? || step.Apply? || step.Tick? || step.ControlStarts? || step.End?)
    ensures Settled(Next(s, step, now))
  {
    hide CancelParks, MaybeApplySetup, HandleMessage, HandleSetup, StartControl, AfterRetire, AfterConstruct, AfterStop;
    hide ForgetHeld, EndSession, HandleSetupApply;
    match step
    case Interrupt => CancelParksMoves(s, false, now);
    case Undeliverable => CancelParksMoves(s.(ending := true, pending := {}), false, now);
    case ShutDown => CancelParksMoves(s.(shuttingDown := true, pending := {}), false, now);
    case _ =>
  }

  lemma StepSettles(s: Session, step: Step, now: int)
    requires Settled(s)
    ensures Settled(Next(s, step, now))
  {
    hide Next, Settled;
    if step.Retired? || step.Constructed? || step.Stopped? { SwapSettles(s, step, now); }
    else if step.Message? || step.SetUp? || step.Apply? || step.Tick? || step.ControlStarts? || step.End? {
      RequestsSettle(s, step, now);
    } else {
      OtherSettles(s, step, now);
    }
  }

  lemma {:induction false} RunSettles(steps: seq<(Step, int)>)
    ensures Settled(Run(Start, steps))
    decreases |steps|
  {
    if steps != [] {
      RunSettles(steps[..|steps| - 1]);
      StepSettles(Run(Start, steps[..|steps| - 1]), steps[|steps| - 1].0, steps[|steps| - 1].1);
      hide Next, Settled;
    }
  }

  /** Over every run: with no set-up pending or swapping anyone may answer, and until the
      session is over exactly its harness runs, or the one it builds. */
  lemma RunsItsHarness(steps: seq<(Step, int)>)
    ensures var s := Run(Start, steps);
      && (s.setup.None? && s.swap.None? ==> s.answersFrom == "")
      && (s.state != Ended && s.state != Error ==>
            s.running == if At(s, Constructing) then {s.harness + 1} else {s.harness})
  {
    RunSettles(steps);
    hide Run;
  }

  // ---- how many ids are remembered ------------------------------------------------------------------

  lemma {:induction false} ForgetHeldIsShorter(ids: seq<string>, items: seq<Item>)
    ensures |ForgetHeld(ids, items)| <= |ids|
  {
    if items != [] {
      var init, last := items[..|items| - 1], items[|items| - 1];
      ForgetHeldIsShorter(ids, init);
      ForgetIsShorter(ForgetHeld(ids, init), last.id);
    }
  }

  lemma RememberFits(ids: seq<string>, id: string)
    requires |ids| <= 256
    ensures |Remember(ids, id)| <= 256
  {}

  /** Over every run no more than 256 ids are remembered. */
  lemma {:induction false} FewIdsAreRemembered(steps: seq<(Step, int)>)
    ensures |Run(Start, steps).ids| <= 256
    decreases |steps|
  {
    if steps != [] {
      var init, last := steps[..|steps| - 1], steps[|steps| - 1];
      FewIdsAreRemembered(init);
      var s := Run(Start, init);
      StepMoves(s, last.0, last.1);
      RememberFits(s.ids, if last.0.Message? then last.0.id else "");
      var ids := if Run(Start, steps).taken == s.taken then s.ids else Remember(s.ids, last.0.id);
      ForgetHeldIsShorter(ids, NewlyDropped(s, Run(Start, steps)));
      hide Next, Remember, ForgetHeld;
    }
  }
}
