/**
 A set-up is swapped to twice in a row only after a stop for a shutdown ended
 its first swap; and no two harnesses in a row are ever built for one set-up.
 */
module SetupSwapRestarts {
  import opened Wrappers
  import opened SetupSwap
  import opened SetupSwapSafety
  import opened SetupSwapStranding
  import opened SetupSwapTheorems
  import HarnessRetire

  // ---- what a step does to the swap -----------------------------------------------------------

  /** The set-up a swap begun by `step` is for. */
  function Due(s: Session, step: Step): Option<string> {
    if step.SetUp? then Some(step.setup.id) else if s.setup.Some? then Some(s.setup.value.id) else None
  }

  predicate Goes(s: Session) { !IsDone(s) && !s.ending }

  /** From `s` to `s'` a swap began, for the set-up `id`. */
  predicate Began(s: Session, s': Session, id: string) {
    s'.restarts == s.restarts + [id] && At(s', Retiring) && s'.swap.value.setup.id == id && Goes(s')
  }

  /** The swap, what is applied, and being over are as before. */
  predicate SameSwap(s: Session, s': Session) {
    && s'.restarts == s.restarts && s'.swap == s.swap && s'.applied == s.applied && s'.shuttingDown == s.shuttingDown
    && (Goes(s') ==> Goes(s)) && (IsDone(s) ==> IsDone(s'))
  }

  lemma CancelParksSwap(s: Session, onlyTasks: bool, now: int)
    ensures SameSwap(s, CancelParks(s, onlyTasks, now)) && CancelParks(s, onlyTasks, now).setup == s.setup
  {}

  lemma EndSessionSwap(s: Session, now: int)
    ensures SameSwap(s, EndSession(s, now))
  {
    CancelParksSwap(s.(ending := true, pending := {}), false, now);
    hide CancelParks, ForgetHeld;
  }

  /** Only here does a swap begin, and only with none under way in a session that goes on. */
  lemma MaybeApplySwap(s: Session, now: int)
    ensures var s' := MaybeApplySetup(s, now);
      || SameSwap(s, s')
      || (s.setup.Some? && s.swap.None? && Goes(s) && Began(s, s', s.setup.value.id) && s'.applied == s.applied
          && s'.shuttingDown == s.shuttingDown)
  {
    EndSessionSwap(s, now);
    hide EndSession, ForgetHeld, ReadyToSwap, SetupExpired;
  }

  /** A step other than those of the swap itself leaves the swap, or begins one for
      the set-up due, which the session did not have before. */
  predicate Begins(s: Session, s': Session, id: Option<string>) {
    s.swap.None? && Goes(s) && id.Some? && Began(s, s', id.value) && s'.applied == s.applied
    && s'.shuttingDown == s.shuttingDown && s.applied != id
  }

  lemma MessageSwap(s: Session, author: string, platform: bool, id: string, accepts: bool, now: int)
    requires NewSetup(s)
    ensures var s' := HandleMessage(s, author, platform, id, accepts, now);
      SameSwap(s, s') || (s.setup.Some? && Begins(s, s', Some(s.setup.value.id)))
  {
    hide Remember, CancelParks, MaybeApplySetup, KeepsInput;
    var item := Item(s.taken, author, platform, id, InputHeld(s), s.harness);
    var s1 := s.(taken := s.taken + 1, held := s.held + [item], ids := Remember(s.ids, item.id));
    var s2 := s.(taken := s.taken + 1, ids := Remember(s.ids, id),
                 delivered := s.delivered + [Delivery(item, s.harness, s.authorFilter)]);
    CancelParksSwap(s1, true, now);
    CancelParksSwap(s2, true, now);
    MaybeApplySwap(if item.platform then s1 else CancelParks(s1, true, now), now);
  }

  lemma SetupSwapped(s: Session, setup: Setup, now: int)
    ensures var s' := HandleSetup(s, setup, now); SameSwap(s, s') || Begins(s, s', Some(setup.id))
  {
    if !IsDone(s) && !s.ending && !Known(s, setup.id) {
      var answersFrom :=
        if setup.answersFrom != "" then setup.answersFrom else if InputHeld(s) then s.answersFrom else "";
      var s1 := s.(answersFrom := answersFrom, setup := Some(setup), authorFilter := setup.keepHeldFrom);
      MaybeApplySwap(DropHeldFrom(s1, setup.keepHeldFrom), now);
      hide MaybeApplySetup, ForgetHeld, FilterHeld;
    }
  }

  lemma MarkedSwap(s: Session, setup: Setup, now: int)
    requires NewSetup(s) && s.setup.Some? && setup.id == s.setup.value.id
    ensures var s' := MaybeApplySetup(s.(setup := Some(setup)), now); SameSwap(s, s') || Begins(s, s', Some(setup.id))
  {
    MaybeApplySwap(s.(setup := Some(setup)), now);
    hide MaybeApplySetup;
  }

  lemma ControlSwap(s: Session, kind: Control, now: int)
    requires NewSetup(s)
    ensures var s' := StartControl(s, kind, now);
      SameSwap(s, s') || (s.setup.Some? && Begins(s, s', Some(s.setup.value.id)))
  {
    if s.setup.Some? { MarkedSwap(s, s.setup.value.(urgent := true), now); }
    hide MaybeApplySetup;
  }

  /** From `s`, whose swap is over, to its settling: nothing, or the next swap began. */
  lemma SettleSwap(s: Session, now: int)
    ensures var s' := Settle(s, now);
      || (SameSwap(s.(swap := None), s') && s'.swap.None?)
      || (s.setup.Some? && Goes(s) && Began(s, s', s.setup.value.id) && s'.applied == s.applied
          && s'.shuttingDown == s.shuttingDown)
  {
    MaybeApplySwap(s.(swap := None, control := if s.control.Swap? then Free else s.control,
        calls := s.calls - {Swap}), now);
    hide MaybeApplySetup;
  }

  /** The harness built last is stopped again, and its swap ends with nothing applied. */
  predicate EndsUnapplied(s: Session, step: Step) { At(s, Stopping) && step == Stopped(false) }

  /** A swap goes on to another stage. */
  predicate Moves(s: Session, s': Session) {
    && s.swap.Some? && s'.swap.Some? && s'.swap.value.setup == s.swap.value.setup && s'.restarts == s.restarts
    && s'.shuttingDown == s.shuttingDown && (IsDone(s) ==> IsDone(s'))
    && (At(s', Retiring) ==> false)
    && (At(s', Constructing) ==> At(s, Retiring) && !s.shuttingDown && Goes(s'))
    && (At(s, Retiring) && !At(s', Constructing) ==> IsDone(s'))
  }

  /** A swap ends: the session is over, its set-up applied, or its harness was stopped. */
  predicate Ended(s: Session, step: Step, s': Session) {
    && s.swap.Some? && s'.swap.None? && s'.restarts == s.restarts && s'.shuttingDown == s.shuttingDown
    && (IsDone(s) ==> IsDone(s'))
    && (Goes(s') ==> s'.applied == Some(s.swap.value.setup.id) || EndsUnapplied(s, step))
    && (At(s, Retiring) ==> IsDone(s'))
  }

  /** A swap ends and the next begins at once. */
  predicate GoesOn(s: Session, s': Session) {
    && s.swap.Some? && !At(s, Retiring) && s.setup.Some? && Goes(s) && Began(s, s', s.setup.value.id)
    && s'.shuttingDown == s.shuttingDown
  }

  lemma RetiredSwap(s: Session, gone: bool, now: int)
    requires At(s, Retiring)
    ensures var s' := AfterRetire(s, gone, now); Moves(s, s') || Ended(s, Retired(gone), s')
  {
    hide Settle, ForgetHeld;
    var s1 := SetState(s.(running := s.running - {s.harness}, tasks := 0), Idle, now);
    var s2 := DropHeld(s1);
    SettleSwap(if IsDone(s2) then s2 else s2.(state := State.Ended), now);
  }

  lemma ConstructedSwap(s: Session, built: bool, takes: nat, now: int)
    requires At(s, Constructing)
    ensures var s' := AfterConstruct(s, built, takes, now);
      Moves(s, s') || Ended(s, Constructed(built, takes), s') || GoesOn(s, s')
  {
    hide Settle, ForgetHeld, Replayed;
    var s1 := s.(harness := s.harness + 1, swap := Some(s.swap.value.(stage := Installed)));
    var s2 := s1.(applied := Some(s.swap.value.setup.id));
    SettleSwap(Fail(s.(running := s.running - {s.harness + 1})), now);
    SettleSwap(DropHeld(s1), now);
    SettleSwap(if s2.setup.None? then ReplayHeld(s2, takes) else s2, now);
  }

  lemma StoppedSwap(s: Session, threw: bool, now: int)
    requires At(s, Stopping)
    ensures var s' := AfterStop(s, threw, now); Ended(s, Stopped(threw), s') || GoesOn(s, s')
  {
    hide Settle, ForgetHeld;
    SettleSwap(if threw then Fail(s) else s, now);
  }

  /** The session is told to shut down, or is over; the swap goes on. */
  predicate ShutsDown(s: Session, s': Session) { SameSwap(s.(shuttingDown := true), s') }

  lemma EndSwap(s: Session, step: Step, now: int)
    requires step.End? || step.Undeliverable? || step.ShutDown? || step.Interrupt?
    ensures SameSwap(s, Next(s, step, now)) || ShutsDown(s, Next(s, step, now))
  {
    hide CancelParks, EndSession;
    match step
    case End => EndSessionSwap(s, now);
    case Interrupt => CancelParksSwap(s, false, now);
    case Undeliverable => CancelParksSwap(s.(ending := true, pending := {}), false, now);
    case ShutDown => CancelParksSwap(s.(shuttingDown := true, pending := {}), false, now);
  }

  /** What any step does to the swap. */
  predicate Turned(s: Session, step: Step, s': Session) {
    || SameSwap(s, s') || ShutsDown(s, s') || Begins(s, s', Due(s, step))
    || Moves(s, s') || Ended(s, step, s') || GoesOn(s, s')
  }

  lemma OfSwap(s: Session, step: Step, now: int)
    requires step.Retired? || step.Constructed? || step.Stopped?
    ensures Turned(s, step, Next(s, step, now))
  {
    hide AfterRetire, AfterConstruct, AfterStop, Moves, Ended, GoesOn, Begins;
    match step
    case Retired(gone) => if At(s, Retiring) { RetiredSwap(s, gone, now); }
    case Constructed(built, takes) => if At(s, Constructing) { ConstructedSwap(s, built, takes, now); }
    case Stopped(threw) => if At(s, Stopping) { StoppedSwap(s, threw, now); }
  }

  lemma TickSwap(s: Session, now: int)
    requires NewSetup(s)
    ensures var s' := MaybeApplySetup(s, now);
      SameSwap(s, s') || (s.setup.Some? && Begins(s, s', Some(s.setup.value.id)))
  {
    MaybeApplySwap(s, now);
    hide MaybeApplySetup;
  }

  lemma RequestTurns(s: Session, step: Step, now: int)
    requires NewSetup(s) && (step.Message? || step.SetUp? || step.Apply? || step.Tick? || step.ControlStarts?)
    ensures Turned(s, step, Next(s, step, now))
  {
    hide HandleMessage, HandleSetup, MaybeApplySetup, StartControl, Moves, Ended, GoesOn, Begins, NewSetup;
    match step
    case Message(author, platform, id, accepts) => MessageSwap(s, author, platform, id, accepts, now);
    case SetUp(setup) => SetupSwapped(s, setup.(receivedAt := now, signaled := false, urgent := false), now);
    case Apply(_) => if s.setup.Some? { MarkedSwap(s, s.setup.value.(signaled := true), now); }
    case Tick => TickSwap(s, now);
    case ControlStarts(kind) => ControlSwap(s, kind, now);
  }

  lemma SwapTurns(s: Session, step: Step, now: int)
    requires NewSetup(s)
    ensures Turned(s, step, Next(s, step, now))
  {
    hide Moves, Ended, GoesOn, Begins, NewSetup;
    match step
    case Retired(_) => OfSwap(s, step, now); hide Next;
    case Constructed(_, _) => OfSwap(s, step, now); hide Next;
    case Stopped(_) => OfSwap(s, step, now); hide Next;
    case End => EndSwap(s, step, now); hide Next;
    case Interrupt => EndSwap(s, step, now); hide Next;
    case Undeliverable => EndSwap(s, step, now); hide Next;
    case ShutDown => EndSwap(s, step, now); hide Next;
    case Message(_, _, _, _) => RequestTurns(s, step, now); hide Next;
    case SetUp(_) => RequestTurns(s, step, now); hide Next;
    case Apply(_) => RequestTurns(s, step, now); hide Next;
    case Tick => RequestTurns(s, step, now); hide Next;
    case ControlStarts(_) => RequestTurns(s, step, now); hide Next;
    case _ =>
  }

  // ---- restarts, over every run -----------------------------------------------------------------

  function Last(ids: seq<string>): Option<string> { if ids == [] then None else Some(ids[|ids| - 1]) }

  /** The swap begun last was ended by the stop of its new harness. */
  predicate Unapplied(steps: seq<(Step, int)>)
    decreases |steps|
  {
    steps != [] &&
    var init, last := steps[..|steps| - 1], steps[|steps| - 1];
    var s := Run(Start, init);
    Run(Start, steps).restarts == s.restarts && (EndsUnapplied(s, last.0) || Unapplied(init))
  }

  /** The last restart is the swap under way, or else the applied set-up, unless its
      harness was stopped. */
  predicate Tracked(s: Session, unapplied: bool) {
    && (s.swap.Some? ==> Last(s.restarts) == Some(s.swap.value.setup.id))
    && (s.swap.None? && Goes(s) && !unapplied ==> s.applied == Last(s.restarts))
  }

  /** Step `i` begins a swap to the set-up of the one before it. */
  predicate Repeats(s: Session, s': Session) { s'.restarts != s.restarts && Last(s'.restarts) == Last(s.restarts) }

  lemma TrackedStep(s: Session, step: Step, s': Session, unapplied: bool)
    requires Turned(s, step, s') && Tracked(s, unapplied) && NewSetup(s)
    ensures Tracked(s', s'.restarts == s.restarts && (EndsUnapplied(s, step) || unapplied))
    ensures Repeats(s, s') ==> unapplied
    ensures s'.restarts == s.restarts || (s.restarts < s'.restarts && |s'.restarts| == |s.restarts| + 1)
  {}

  lemma {:induction false} RunIsTracked(steps: seq<(Step, int)>)
    ensures Tracked(Run(Start, steps), Unapplied(steps))
    decreases |steps|
  {
    if steps == [] {
      assert Run(Start, []) == Start;
    } else {
      hide Next, Tracked, Turned, EndsUnapplied, Inv;
      var init, last := steps[..|steps| - 1], steps[|steps| - 1];
      RunIsTracked(init);
      StepIsTracked(init, last.0, last.1);
    }
  }

  lemma StepIsTracked(init: seq<(Step, int)>, step: Step, now: int)
    requires Tracked(Run(Start, init), Unapplied(init))
    ensures var s := Run(Start, init); var s' := Next(s, step, now);
      && Tracked(s', s'.restarts == s.restarts && (EndsUnapplied(s, step) || Unapplied(init)))
      && (Repeats(s, s') ==> Unapplied(init))
      && (s'.restarts == s.restarts || (s.restarts < s'.restarts && |s'.restarts| == |s.restarts| + 1))
  {
    var s := Run(Start, init);
    hide Next, Tracked, Turned, Run, Unapplied;
    RunKeepsInv(init);
    HasNewSetup(s);
    SwapTurns(s, step, now);
    TrackedStep(s, step, Next(s, step, now), Unapplied(init));
  }

  lemma HasNewSetup(s: Session)
    requires Inv(s)
    ensures NewSetup(s)
  {
    hide Accounted, InOrder, RightHarness, OneHarness, OneCall, OwnersOnly, Filtered, LastRestart, HeldForSwap;
  }

  predicate RepeatsAt(steps: seq<(Step, int)>, i: nat)
    requires i < |steps|
  {
    Repeats(Run(Start, steps[..i]), Run(Start, steps[..i + 1]))
  }

  /** Step `i` begins a swap to the set-up of the swap last ended by the stop of its
      new harness. */
  predicate RestartsAgain(steps: seq<(Step, int)>, i: nat)
    requires i < |steps|
  {
    Unapplied(steps[..i]) && RepeatsAt(steps, i)
  }

  lemma AgainAtPrefix(steps: seq<(Step, int)>, n: nat, i: nat)
    requires i < n <= |steps|
    ensures RestartsAgain(steps[..n], i) == RestartsAgain(steps, i)
  {
    assert steps[..n][..i] == steps[..i] && steps[..n][..i + 1] == steps[..i + 1];
    hide Unapplied, Run;
  }

  lemma AgainAtLast(steps: seq<(Step, int)>)
    requires steps != []
    ensures var init, last := steps[..|steps| - 1], steps[|steps| - 1]; var s := Run(Start, init);
      RestartsAgain(steps, |steps| - 1) == (Unapplied(init) && Repeats(s, Next(s, last.0, last.1)))
  {
    assert steps[..|steps|] == steps;
    hide Next, Unapplied;
  }

  lemma RepeatPushed(ids: seq<string>, ids': seq<string>)
    requires ids < ids' && |ids'| == |ids| + 1
    ensures NoRepeat(ids') <==> NoRepeat(ids) && Last(ids') != Last(ids)
  {
    assert forall i :: 0 <= i < |ids| ==> ids'[i] == ids[i];
  }

  predicate NoneAgain(steps: seq<(Step, int)>) { forall i :: 0 <= i < |steps| ==> !RestartsAgain(steps, i) }

  lemma NoneAgainAtLast(steps: seq<(Step, int)>)
    requires steps != []
    ensures var n := |steps| - 1; NoneAgain(steps) <==> NoneAgain(steps[..n]) && !RestartsAgain(steps, n)
  {
    hide RestartsAgain;
    var n := |steps| - 1;
    forall i: nat | i < n ensures RestartsAgain(steps[..n], i) == RestartsAgain(steps, i) { AgainAtPrefix(steps, n, i); }
  }

  lemma RepeatIsAgain(init: seq<(Step, int)>, step: Step, now: int)
    ensures var s := Run(Start, init); var s' := Next(s, step, now);
      NoRepeat(s'.restarts) <==> NoRepeat(s.restarts) && !(Unapplied(init) && Repeats(s, s'))
  {
    var s := Run(Start, init);
    RunIsTracked(init);
    StepIsTracked(init, step, now);
    hide Next, Unapplied, Tracked, NoRepeat, EndsUnapplied, Run;
    if Next(s, step, now).restarts != s.restarts { RepeatPushed(s.restarts, Next(s, step, now).restarts); }
  }

  /** Over every run, shutting down or not: no two restarts in a row are for one
      set-up exactly if no step begins a swap to the set-up whose swap was last
      ended by the stop of its new harness. */
  lemma {:induction false} RepeatsOnlyAfterAStop(steps: seq<(Step, int)>)
    ensures NoRepeat(Run(Start, steps).restarts) <==> NoneAgain(steps)
    decreases |steps|
  {
    if steps == [] {
      assert Run(Start, []) == Start;
    } else {
      hide Next, Unapplied, RestartsAgain, NoneAgain, NoRepeat, Repeats;
      var init, last := steps[..|steps| - 1], steps[|steps| - 1];
      RepeatsOnlyAfterAStop(init);
      RepeatIsAgain(init, last.0, last.1);
      NoneAgainAtLast(steps);
      AgainAtLast(steps);
    }
  }

  // ---- a run that restarts twice for one set-up ---------------------------------------------------

  /** The harness built for a set-up is stopped for a shutdown; the set-up is not
      applied, so the session takes it once more. */
  function TwiceRun(setup: Setup): seq<(Step, int)> {
    [(SetUp(setup), 0), (Apply(setup.id), 0), (Retired(true), 0), (ShutDown, 0), (Constructed(true, 0), 0),
     (Stopped(false), 0), (SetUp(setup), 0), (Apply(setup.id), 0)]
  }

  /** A swap for `id` at `stage`, the only restart so far. */
  predicate First(s: Session, id: string, stage: Stage) {
    Mid(s, stage) && s.restarts == [id] && s.swap.value.setup.id == id && s.applied.None? && s.pending == {}
    && s.control.Swap?
  }

  lemma FirstSwap(setup: Setup)
    requires setup.stop && setup.keepHeldFrom == ""
    ensures var s := Next(Next(Start, SetUp(setup), 0), Apply(setup.id), 0);
      First(s, setup.id, Retiring) && !s.shuttingDown
  {
    SetupSwaps(setup);
    hide ForgetHeld, EndSession;
    assert ForgetHeld([], []) == [] by { ForgetNone(); }
  }

  lemma FirstRetired(s: Session, id: string)
    requires First(s, id, Retiring) && !s.shuttingDown
    ensures First(Next(s, Retired(true), 0), id, Constructing)
  {}

  lemma FirstShutDown(s: Session, id: string)
    requires First(s, id, Constructing)
    ensures First(Next(s, ShutDown, 0), id, Constructing) && Next(s, ShutDown, 0).shuttingDown
  {}

  lemma FirstBuilt(s: Session, id: string)
    requires First(s, id, Constructing) && s.shuttingDown
    ensures First(Next(s, Constructed(true, 0), 0), id, Stopping)
  {}

  /** No swap under way, nothing applied, one restart. */
  predicate Again(s: Session, id: string) {
    && s.swap.None? && s.setup.None? && s.state.Idle? && !s.ending && s.parks == {} && s.pending == {} && s.control.Free?
    && s.restarts == [id] && s.applied.None? && s.held == [] && s.ids == []
  }

  lemma FirstStopped(s: Session, id: string)
    requires First(s, id, Stopping)
    ensures Again(Next(s, Stopped(false), 0), id)
  {}

  lemma SecondSwap(s: Session, setup: Setup)
    requires Again(s, setup.id) && setup.stop && setup.keepHeldFrom == ""
    ensures Next(Next(s, SetUp(setup), 0), Apply(setup.id), 0).restarts == [setup.id, setup.id]
  {
    hide ForgetHeld, EndSession;
  }

  lemma FirstHalf(setup: Setup)
    requires setup.stop && setup.keepHeldFrom == ""
    ensures First(Run(Start, TwiceRun(setup)[..4]), setup.id, Constructing)
    ensures Run(Start, TwiceRun(setup)[..4]).shuttingDown
  {
    var r := TwiceRun(setup);
    assert Run(Start, []) == Start;
    FirstSwap(setup);
    hide Run, Next, First;
    assert [] + [r[0]] == r[..1] && r[..1] + [r[1]] == r[..2] && r[..2] + [r[2]] == r[..3] && r[..3] + [r[3]] == r[..4];
    RunStep([], r[0].0, 0);
    RunStep(r[..1], r[1].0, 0);
    RunStep(r[..2], r[2].0, 0);
    FirstRetired(Run(Start, r[..2]), setup.id);
    RunStep(r[..3], r[3].0, 0);
    FirstShutDown(Run(Start, r[..3]), setup.id);
  }

  lemma OneSetupRestartsTwice(setup: Setup)
    requires setup.stop && setup.keepHeldFrom == ""
    ensures Run(Start, TwiceRun(setup)).restarts == [setup.id, setup.id]
  {
    var r := TwiceRun(setup);
    FirstHalf(setup);
    hide Run, Next, First, Again;
    assert r[..4] + [r[4]] == r[..5] && r[..5] + [r[5]] == r[..6] && r[..6] + [r[6]] == r[..7] && r[..7] + [r[7]] == r;
    RunStep(r[..4], r[4].0, 0);
    FirstBuilt(Run(Start, r[..4]), setup.id);
    RunStep(r[..5], r[5].0, 0);
    FirstStopped(Run(Start, r[..5]), setup.id);
    RunStep(r[..6], r[6].0, 0);
    RunStep(r[..7], r[7].0, 0);
    SecondSwap(Run(Start, r[..6]), setup);
  }

  // ---- harness builds, over every run ---------------------------------------------------------------

  predicate StartsBuild(s: Session, s': Session) { !At(s, Constructing) && At(s', Constructing) }

  /** The set-ups harnesses were built for, in order. */
  function Builds(steps: seq<(Step, int)>): seq<string>
    decreases |steps|
  {
    if steps == [] then []
    else
      var init := steps[..|steps| - 1];
      var s' := Run(Start, steps);
      if StartsBuild(Run(Start, init), s') then Builds(init) + [s'.swap.value.setup.id] else Builds(init)
  }

  /** Until a shutdown or the end, every restart but one still retiring had its harness built. */
  predicate BuildsOk(s: Session, builds: seq<string>) {
    && NoRepeat(builds)
    && (!s.shuttingDown && !IsDone(s) ==>
          builds == if At(s, Retiring) && s.restarts != [] then s.restarts[..|s.restarts| - 1] else s.restarts)
  }

  lemma BuildsSame(s: Session, s': Session, builds: seq<string>)
    requires BuildsOk(s, builds) && s'.restarts == s.restarts
    requires !s'.shuttingDown && !IsDone(s') ==> !s.shuttingDown && !IsDone(s)
    requires !s'.shuttingDown && !IsDone(s') ==> At(s, Retiring) == At(s', Retiring)
    ensures BuildsOk(s', builds)
  {
    hide NoRepeat;
  }

  lemma BuildsBegan(s: Session, s': Session, builds: seq<string>, id: string)
    requires BuildsOk(s, builds) && Began(s, s', id) && !At(s, Retiring) && !IsDone(s)
    requires s'.shuttingDown == s.shuttingDown
    ensures BuildsOk(s', builds) && !StartsBuild(s, s')
  {
    hide NoRepeat;
    assert s'.restarts[..|s'.restarts| - 1] == s.restarts;
  }

  lemma BuildsMoved(s: Session, s': Session, builds: seq<string>)
    requires BuildsOk(s, builds) && Moves(s, s') && (!s.shuttingDown ==> NoRepeat(s.restarts))
    requires Last(s.restarts) == Some(s.swap.value.setup.id)
    ensures BuildsOk(s', if StartsBuild(s, s') then builds + [s'.swap.value.setup.id] else builds)
  {
    hide NoRepeat;
    assert s.restarts == s.restarts[..|s.restarts| - 1] + [s.restarts[|s.restarts| - 1]];
  }

  lemma BuildsStep(s: Session, step: Step, s': Session, builds: seq<string>)
    requires Turned(s, step, s') && BuildsOk(s, builds) && (!s.shuttingDown ==> NoRepeat(s.restarts))
    requires s.swap.Some? ==> Last(s.restarts) == Some(s.swap.value.setup.id)
    ensures BuildsOk(s', if StartsBuild(s, s') then builds + [s'.swap.value.setup.id] else builds)
  {
    hide BuildsOk, NoRepeat;
    if SameSwap(s, s') || ShutsDown(s, s') || Ended(s, step, s') {
      BuildsSame(s, s', builds);
    } else if Begins(s, s', Due(s, step)) {
      BuildsBegan(s, s', builds, Due(s, step).value);
    } else if Moves(s, s') {
      BuildsMoved(s, s', builds);
    } else {
      BuildsBegan(s, s', builds, s.setup.value.id);
    }
  }

  lemma {:induction false} RunBuilds(steps: seq<(Step, int)>)
    ensures BuildsOk(Run(Start, steps), Builds(steps))
    decreases |steps|
  {
    if steps == [] {
      assert Run(Start, []) == Start;
    } else {
      hide Next, BuildsOk, Turned, StartsBuild, Inv, Tracked, Unapplied;
      var init, last := steps[..|steps| - 1], steps[|steps| - 1];
      var s := Run(Start, init);
      RunBuilds(init);
      RunKeepsInv(init);
      HasNewSetup(s);
      RestartsSoFar(s);
      RunIsTracked(init);
      SwapTurns(s, last.0, last.1);
      TrackedSwap(s, Unapplied(init));
      BuildsStep(s, last.0, Next(s, last.0, last.1), Builds(init));
    }
  }

  lemma TrackedSwap(s: Session, unapplied: bool)
    requires Tracked(s, unapplied)
    ensures s.swap.Some? ==> Last(s.restarts) == Some(s.swap.value.setup.id)
  {}

  lemma RestartsSoFar(s: Session)
    requires Inv(s)
    ensures !s.shuttingDown ==> NoRepeat(s.restarts)
  {
    hide Accounted, InOrder, RightHarness, OneHarness, OneCall, OwnersOnly, Filtered, NewSetup, HeldForSwap, NoRepeat;
  }

  /** Over every run, whatever is sent again and whenever the daemon shuts down: no
      two harnesses in a row are built for one set-up. */
  lemma NoSetupIsBuiltTwice(steps: seq<(Step, int)>)
    ensures NoRepeat(Builds(steps))
  {
    RunBuilds(steps);
    hide Run, Builds, NoRepeat;
  }

  /** And each is built only once the wind-down of the harness before it succeeded,
      however the stop it was forced to went. */
  lemma BuiltOnlyAfterWindDown(s: Session, stopped: HarnessRetire.Promise, force: HarnessRetire.Promise, now: int)
    requires NewSetup(s)
    ensures var retired := HarnessRetire.RetireDriver(stopped, force, s.tasks);
      StartsBuild(s, Next(s, Retired(retired.value), now)) ==>
        stopped.At? && stopped.value && stopped.when <= retired.until
  {
    HarnessRetire.VouchesOnlyForTheGone(stopped, force, s.tasks);
    hide HarnessRetire.RetireDriver, HarnessRetire.SettledWithin, Settle;
    var retired := HarnessRetire.RetireDriver(stopped, force, s.tasks);
    if At(s, Retiring) && !retired.value { FailFrees(s); }
  }
}
