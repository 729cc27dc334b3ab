/**
 Input accepted for a set-up change is delivered, dropped, or held for a set-up
 in force, but for one window of a daemon that shuts down. Exactly when a
 message is left held with no set-up to deliver it, and when one frees it again.
 */
module SetupSwapStranding {
  import opened Wrappers
  import opened SetupSwap

  /** Input is held, and no set-up is pending or swapping. */
  predicate Stranded(s: Session) { s.held != [] && !InputHeld(s) }

  /** The harness built last has been stopped for a shutdown, and input that came
      meanwhile was held for no further set-up. */
  predicate Strands(s: Session, step: Step) {
    At(s, Stopping) && step == Stopped(false) && s.setup.None? && s.held != []
  }

  /** A set-up the session takes, or its end. */
  predicate Frees(s: Session, step: Step) {
    step.End? || (step.SetUp? && !IsDone(s) && !s.ending && !Known(s, step.setup.id))
  }

  // ---- one step -----------------------------------------------------------------------------

  predicate SameHolding(s: Session, s': Session) { s'.held == s.held && s'.setup == s.setup && s'.swap == s.swap }

  lemma CancelParksHolding(s: Session, onlyTasks: bool, now: int)
    ensures SameHolding(s, CancelParks(s, onlyTasks, now))
  {}

  lemma EndSessionFrees(s: Session, now: int)
    ensures EndSession(s, now).held == []
  {
    hide CancelParks, ForgetHeld;
  }

  lemma MaybeApplyHolding(s: Session, now: int)
    ensures s.setup.None? ==> MaybeApplySetup(s, now) == s
    ensures s.setup.Some? ==> !Stranded(MaybeApplySetup(s, now))
  {
    EndSessionFrees(s, now);
    hide EndSession, ForgetHeld, ReadyToSwap, SetupExpired;
  }

  lemma MessageHolding(s: Session, author: string, platform: bool, id: string, accepts: bool, now: int)
    ensures Stranded(HandleMessage(s, author, platform, id, accepts, now)) == Stranded(s)
  {
    var item := Item(s.taken, author, platform, id, InputHeld(s), s.harness);
    hide Remember, CancelParks, MaybeApplySetup, KeepsInput;
    if InputHeld(s) {
      var s1 := s.(taken := s.taken + 1, held := s.held + [item], ids := Remember(s.ids, id));
      CancelParksHolding(s1, true, now);
      MaybeApplyHolding(if platform then s1 else CancelParks(s1, true, now), now);
    } else {
      CancelParksHolding(s.(taken := s.taken + 1, ids := Remember(s.ids, id),
          delivered := s.delivered + [Delivery(item, s.harness, s.authorFilter)]), true, now);
    }
  }

  lemma SetupHolding(s: Session, setup: Setup, now: int)
    ensures Stranded(HandleSetup(s, setup, now)) <==> Stranded(s) && (IsDone(s) || s.ending || Known(s, setup.id))
  {
    if !IsDone(s) && !s.ending && !Known(s, setup.id) {
      var answersFrom := if setup.answersFrom != "" then setup.answersFrom else if InputHeld(s) then s.answersFrom else "";
      var s1 := s.(answersFrom := answersFrom, setup := Some(setup), authorFilter := setup.keepHeldFrom);
      MaybeApplyHolding(DropHeldFrom(s1, setup.keepHeldFrom), now);
      hide MaybeApplySetup, ForgetHeld, FilterHeld;
    }
  }

  lemma ControlHolding(s: Session, kind: Control, now: int)
    ensures Stranded(StartControl(s, kind, now)) == Stranded(s)
  {
    if s.setup.Some? { MaybeApplyHolding(s.(setup := Some(s.setup.value.(urgent := true))), now); }
    hide MaybeApplySetup;
  }

  lemma SettleHolding(s: Session, now: int)
    ensures Stranded(Settle(s, now)) <==> s.setup.None? && s.held != []
  {
    MaybeApplyHolding(s.(swap := None, control := if s.control.Swap? then Free else s.control,
        calls := s.calls - {Swap}), now);
    hide MaybeApplySetup;
  }

  lemma FailFrees(s: Session)
    ensures Fail(s).held == []
  {}

  lemma RetiredHolding(s: Session, gone: bool, now: int)
    requires s.swap.Some?
    ensures !Stranded(AfterRetire(s, gone, now))
  {
    hide Settle, ForgetHeld;
    var s1 := SetState(s.(running := s.running - {s.harness}, tasks := 0), Idle, now);
    var s2 := DropHeld(s1);
    SettleHolding(if IsDone(s2) then s2 else s2.(state := Ended), now);
  }

  lemma ConstructedHolding(s: Session, built: bool, accepts: nat, now: int)
    requires s.swap.Some?
    ensures !Stranded(AfterConstruct(s, built, accepts, now))
  {
    hide Settle, ForgetHeld, Replayed, Fail;
    if built {
      var s1 := s.(harness := s.harness + 1, swap := Some(s.swap.value.(stage := Installed)));
      var s2 := s1.(applied := Some(s.swap.value.setup.id));
      SettleHolding(DropHeld(s1), now);
      SettleHolding(if s2.setup.None? then ReplayHeld(s2, accepts) else s2, now);
    } else {
      FailFrees(s.(running := s.running - {s.harness + 1}));
      SettleHolding(Fail(s.(running := s.running - {s.harness + 1})), now);
    }
  }

  lemma StoppedHolding(s: Session, threw: bool, now: int)
    requires s.swap.Some?
    ensures Stranded(AfterStop(s, threw, now)) <==> !threw && s.setup.None? && s.held != []
  {
    hide Settle, Fail;
    FailFrees(s);
    SettleHolding(if threw then Fail(s) else s, now);
  }

  lemma SwapHolding(s: Session, step: Step, now: int)
    requires step.Retired? || step.Constructed? || step.Stopped?
    ensures Stranded(Next(s, step, now)) <==> Stranded(s) || Strands(s, step)
  {
    hide AfterRetire, AfterConstruct, AfterStop;
    match step
    case Retired(gone) => if At(s, Retiring) { RetiredHolding(s, gone, now); }
    case Constructed(built, takes) => if At(s, Constructing) { ConstructedHolding(s, built, takes, now); }
    case Stopped(threw) => if At(s, Stopping) { StoppedHolding(s, threw, now); }
  }

  lemma EndHolding(s: Session, step: Step, now: int)
    requires step.End? || step.Undeliverable? || step.ShutDown? || step.Interrupt?
    ensures if step.End? then !Stranded(Next(s, step, now)) else Stranded(Next(s, step, now)) == Stranded(s)
  {
    hide CancelParks, EndSession;
    match step
    case End => EndSessionFrees(s, now);
    case Interrupt => CancelParksHolding(s, false, now);
    case Undeliverable => CancelParksHolding(s.(ending := true, pending := {}), false, now);
    case ShutDown => CancelParksHolding(s.(shuttingDown := true, pending := {}), false, now);
  }

  /** Every step: what was stranded stays so unless the step frees it, and no other
      step strands anything. */
  lemma StrandedStep(s: Session, step: Step, now: int)
    ensures Stranded(Next(s, step, now)) <==> if Stranded(s) then !Frees(s, step) else Strands(s, step)
  {
    hide HandleMessage, HandleSetup, MaybeApplySetup, StartControl, AfterRetire, AfterConstruct, AfterStop, CancelParks,
        EndSession;
    match step
    case Message(author, platform, id, accepts) => MessageHolding(s, author, platform, id, accepts, now);
    case SetUp(setup) => SetupHolding(s, setup.(receivedAt := now, signaled := false, urgent := false), now);
    case Apply(_) =>
      if s.setup.Some? { MaybeApplyHolding(s.(setup := Some(s.setup.value.(signaled := true))), now); }
    case Tick => MaybeApplyHolding(s, now);
    case ControlStarts(kind) => ControlHolding(s, kind, now);
    case Retired(_) => SwapHolding(s, step, now); hide Next;
    case Constructed(_, _) => SwapHolding(s, step, now); hide Next;
    case Stopped(_) => SwapHolding(s, step, now); hide Next;
    case End => EndHolding(s, step, now); hide Next;
    case Interrupt => EndHolding(s, step, now); hide Next;
    case Undeliverable => EndHolding(s, step, now); hide Next;
    case ShutDown => EndHolding(s, step, now); hide Next;
    case _ =>
  }

  // ---- every run ------------------------------------------------------------------------------

  predicate StrandsAt(steps: seq<(Step, int)>, i: nat)
    requires i < |steps|
  {
    Strands(Run(Start, steps[..i]), steps[i].0)
  }

  predicate FreesAt(steps: seq<(Step, int)>, j: nat)
    requires j < |steps|
  {
    Frees(Run(Start, steps[..j]), steps[j].0)
  }

  /** Step `i` left input stranded, and none after it freed it. */
  predicate LeftBy(steps: seq<(Step, int)>, i: nat)
    requires i < |steps|
  {
    StrandsAt(steps, i) && forall j :: i < j < |steps| ==> !FreesAt(steps, j)
  }

  predicate LeftStranded(steps: seq<(Step, int)>) { exists i :: 0 <= i < |steps| && LeftBy(steps, i) }

  lemma AtPrefix(steps: seq<(Step, int)>, n: nat, i: nat)
    requires i < n <= |steps|
    ensures StrandsAt(steps[..n], i) == StrandsAt(steps, i) && FreesAt(steps[..n], i) == FreesAt(steps, i)
  {
    hide Strands, Frees, Run;
    assert steps[..n][..i] == steps[..i];
  }

  lemma LeftByPrefix(steps: seq<(Step, int)>, n: nat, i: nat)
    requires i < n == |steps| - 1
    ensures LeftBy(steps, i) <==> LeftBy(steps[..n], i) && !FreesAt(steps, n)
  {
    hide StrandsAt, FreesAt;
    var init := steps[..n];
    forall j: nat | j < n
      ensures StrandsAt(init, j) == StrandsAt(steps, j) && FreesAt(init, j) == FreesAt(steps, j)
    {
      AtPrefix(steps, n, j);
    }
  }

  lemma LeftByLast(steps: seq<(Step, int)>)
    requires steps != []
    ensures LeftBy(steps, |steps| - 1) == StrandsAt(steps, |steps| - 1)
  {}

  lemma LeftAtLast(steps: seq<(Step, int)>)
    requires steps != []
    ensures var n := |steps| - 1;
      LeftStranded(steps) <==> StrandsAt(steps, n) || (LeftStranded(steps[..n]) && !FreesAt(steps, n))
  {
    hide StrandsAt, FreesAt, LeftBy;
    var n := |steps| - 1;
    var init := steps[..n];
    LeftByLast(steps);
    if LeftStranded(steps) {
      var i :| 0 <= i < |steps| && LeftBy(steps, i);
      if i < n { LeftByPrefix(steps, n, i); }
    } else {
      assert !LeftBy(steps, n);
      if LeftStranded(init) {
        var i :| 0 <= i < n && LeftBy(init, i);
        LeftByPrefix(steps, n, i);
      }
    }
  }

  lemma StrandsIsCovered(s: Session, step: Step)
    ensures Strands(s, step) ==> !Stranded(s) && !Frees(s, step)
  {}

  /** Over every run from a new session: input is held with no set-up to deliver it
      exactly if the harness stopped for a shutdown left it so, and since then the
      session took no set-up and was not ended. */
  lemma {:induction false} StrandedExactly(steps: seq<(Step, int)>)
    ensures Stranded(Run(Start, steps)) <==> LeftStranded(steps)
    decreases |steps|
  {
    hide Next, Stranded, Strands, Frees, LeftStranded;
    if steps == [] {
      StartIsCovered();
    } else {
      var init, last := steps[..|steps| - 1], steps[|steps| - 1];
      StrandedExactly(init);
      LeftAtLast(steps);
      StrandedStep(Run(Start, init), last.0, last.1);
      StrandsIsCovered(Run(Start, init), last.0);
    }
  }

  lemma StartIsCovered()
    ensures !Stranded(Run(Start, [])) && !LeftStranded([])
  {}

  // ---- a run that strands a message -----------------------------------------------------------

  /** A set-up that may apply at once, the old harness gone, the daemon told to shut
      down while the new one is built: a message that comes while that one is
      stopped again is accepted, and is held with no set-up left to deliver it. */
  function ShutdownRun(setup: Setup): seq<(Step, int)> {
    [(SetUp(setup), 0), (Apply(setup.id), 0), (Retired(true), 0), (ShutDown, 0), (Constructed(true, 0), 0),
     (Message("", true, "", true), 0), (Stopped(false), 0)]
  }

  lemma RunStep(steps: seq<(Step, int)>, step: Step, now: int)
    ensures Run(Start, steps + [(step, now)]) == Next(Run(Start, steps), step, now)
  {
    hide Next;
    assert (steps + [(step, now)])[..|steps|] == steps;
  }

  /** A swap at `stage` in a session that goes on, with nothing held or delivered. */
  predicate Mid(s: Session, stage: Stage) {
    && At(s, stage) && s.setup.None? && s.state.Idle? && !s.ending && s.parks == {}
    && s.held == [] && s.delivered == [] && s.ids == [] && s.authorFilter == ""
  }

  lemma SetupSwaps(setup: Setup)
    requires setup.stop && setup.keepHeldFrom == ""
    ensures Mid(Next(Next(Start, SetUp(setup), 0), Apply(setup.id), 0), Retiring)
    ensures !Next(Next(Start, SetUp(setup), 0), Apply(setup.id), 0).shuttingDown
  {
    hide ForgetHeld, EndSession;
    assert ForgetHeld([], []) == [] by { ForgetNone(); }
  }

  lemma ForgetNone()
    ensures ForgetHeld([], []) == []
  {}

  lemma RetiredStep(s: Session)
    requires Mid(s, Retiring) && !s.shuttingDown
    ensures Mid(Next(s, Retired(true), 0), Constructing)
  {}

  lemma ShutDownStep(s: Session)
    requires Mid(s, Constructing)
    ensures Mid(Next(s, ShutDown, 0), Constructing) && Next(s, ShutDown, 0).shuttingDown
  {}

  lemma ConstructedStep(s: Session)
    requires Mid(s, Constructing) && s.shuttingDown
    ensures Mid(Next(s, Constructed(true, 0), 0), Stopping)
  {}

  lemma MessageAndStop(s: Session)
    requires Mid(s, Stopping)
    ensures var s' := Next(Next(s, Message("", true, "", true), 0), Stopped(false), 0);
      |s'.held| == 1 && Stranded(s') && s'.delivered == []
  {}

  lemma ShutdownLeavesHeld(setup: Setup)
    requires setup.stop && setup.keepHeldFrom == ""
    ensures var s := Run(Start, ShutdownRun(setup)); |s.held| == 1 && Stranded(s) && s.delivered == []
  {
    var r := ShutdownRun(setup);
    assert Run(Start, []) == Start;
    SetupSwaps(setup);
    hide Run, Next, Mid, Stranded;
    assert [] + [r[0]] == r[..1] && r[..1] + [r[1]] == r[..2] && r[..2] + [r[2]] == r[..3] && r[..3] + [r[3]] == r[..4];
    assert r[..4] + [r[4]] == r[..5] && r[..5] + [r[5]] == r[..6] && r[..6] + [r[6]] == r;
    RunStep([], r[0].0, 0);
    RunStep(r[..1], r[1].0, 0);
    RunStep(r[..2], r[2].0, 0);
    RetiredStep(Run(Start, r[..2]));
    RunStep(r[..3], r[3].0, 0);
    ShutDownStep(Run(Start, r[..3]));
    RunStep(r[..4], r[4].0, 0);
    ConstructedStep(Run(Start, r[..4]));
    RunStep(r[..5], r[5].0, 0);
    RunStep(r[..6], r[6].0, 0);
    MessageAndStop(Run(Start, r[..5]));
  }
}
