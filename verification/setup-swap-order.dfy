/**
 Held input stays behind what was delivered, for as long as no stop for a
 shutdown has left input held for no set-up; and exactly which step of such a
 session lets a newer message overtake it.
 */
module SetupSwapOrder {
  import opened Wrappers
  import opened SetupSwap
  import opened SetupSwapSafety
  import opened SetupSwapStranding

  predicate Ordered(s: Session) { Before(s.delivered, s.held) }

  /** A message goes straight to the harness although older input is held for no set-up. */
  predicate Overtakes(s: Session, step: Step, now: int) {
    Stranded(s) && Next(s, step, now).delivered != s.delivered
  }

  /** Nothing delivered; some of what was held may be gone. */
  predicate Kept(s: Session, s': Session) {
    s'.delivered == s.delivered && forall x :: x in s'.held ==> x in s.held
  }

  lemma KeptIsOrdered(s: Session, s': Session)
    requires Kept(s, s') && Ordered(s)
    ensures Ordered(s')
  {
    forall i, j | 0 <= i < |s'.delivered| && 0 <= j < |s'.held| ensures s'.delivered[i].item.no < s'.held[j].no {
      assert s'.held[j] in s.held;
    }
  }

  lemma KeptTwice(a: Session, b: Session, c: Session)
    requires Kept(a, b) && Kept(b, c)
    ensures Kept(a, c)
  {}

  lemma CancelParksKept(s: Session, onlyTasks: bool, now: int)
    ensures Kept(s, CancelParks(s, onlyTasks, now))
  {}

  lemma EndSessionKept(s: Session, now: int)
    ensures Kept(s, EndSession(s, now))
  {
    CancelParksKept(s.(ending := true, pending := {}), false, now);
    hide CancelParks, ForgetHeld;
  }

  lemma MaybeApplyKept(s: Session, now: int)
    ensures Kept(s, MaybeApplySetup(s, now))
  {
    EndSessionKept(s, now);
    hide EndSession, ForgetHeld, ReadyToSwap, SetupExpired;
  }

  lemma SettleKept(s: Session, now: int)
    ensures Kept(s, Settle(s, now))
  {
    MaybeApplyKept(s.(swap := None, control := if s.control.Swap? then Free else s.control,
        calls := s.calls - {Swap}), now);
    hide MaybeApplySetup;
  }

  lemma DropHeldFromKept(s: Session, keepFrom: string)
    ensures Kept(s, DropHeldFrom(s, keepFrom))
  {
    var r := FilterHeld(s.held, keepFrom);
    hide FilterHeld, ForgetHeld;
  }

  // ---- one step -----------------------------------------------------------------------------

  lemma HeldIsOrdered(s: Session, s1: Session, item: Item)
    requires Ordered(s) && Accounted(s.taken, s.held, s.delivered, s.dropped) && item.no == s.taken
    requires s1.delivered == s.delivered && s1.held == s.held + [item]
    ensures Ordered(s1)
  {
    NewIsLast(s);
    hide Accounted;
  }

  lemma DirectIsOrdered(s: Session, s1: Session, item: Item)
    requires Ordered(s) && Accounted(s.taken, s.held, s.delivered, s.dropped) && item.no == s.taken
    requires s1.delivered == s.delivered + [Delivery(item, s.harness, s.authorFilter)] && s1.held == s.held
    ensures Ordered(s1) <==> s.held == []
  {
    NewIsLast(s);
    hide Accounted;
    if s.held != [] { assert s1.delivered[|s.delivered|].item.no == s.taken > s1.held[0].no; }
  }

  lemma HoldOrdered(s: Session, item: Item, now: int)
    requires Ordered(s) && Accounted(s.taken, s.held, s.delivered, s.dropped) && item.no == s.taken
    ensures Ordered(HoldMessage(s, item, now)) && HoldMessage(s, item, now).delivered == s.delivered
  {
    hide MaybeApplySetup, CancelParks, Remember, Accounted, Ordered;
    if !IsDone(s) && !s.ending {
      var s1 := s.(taken := s.taken + 1, held := s.held + [item], ids := Remember(s.ids, item.id));
      var s2 := if item.platform then s1 else CancelParks(s1, true, now);
      HeldIsOrdered(s, s1, item);
      CancelParksKept(s1, true, now);
      MaybeApplyKept(s2, now);
      KeptTwice(s1, s2, MaybeApplySetup(s2, now));
      KeptIsOrdered(s1, MaybeApplySetup(s2, now));
    }
  }

  lemma MessageOrdered(s: Session, author: string, platform: bool, id: string, accepts: bool, now: int)
    requires Inv(s) && Ordered(s)
    ensures var s' := HandleMessage(s, author, platform, id, accepts, now);
      Ordered(s') <==> !(Stranded(s) && s'.delivered != s.delivered)
  {
    hide HoldMessage, CancelParks, Remember, KeepsInput, Accounted, Ordered, InOrder, RightHarness, Filtered;
    var item := Item(s.taken, author, platform, id, InputHeld(s), s.harness);
    HoldOrdered(s, item, now);
    var s1 := s.(taken := s.taken + 1, ids := Remember(s.ids, id),
                 delivered := s.delivered + [Delivery(item, s.harness, s.authorFilter)]);
    DirectIsOrdered(s, s1, item);
    CancelParksKept(s1, true, now);
    CancelParksHolding(s1, true, now);
    SameOrder(s1, CancelParks(s1, true, now));
    assert s1.delivered != s.delivered;
  }

  lemma SameOrder(s: Session, s': Session)
    requires s'.delivered == s.delivered && s'.held == s.held
    ensures Ordered(s') == Ordered(s)
  {}

  lemma SetupKept(s: Session, setup: Setup, now: int)
    ensures Kept(s, HandleSetup(s, setup, now))
  {
    if !IsDone(s) && !s.ending && !Known(s, setup.id) {
      var answersFrom :=
        if setup.answersFrom != "" then setup.answersFrom else if InputHeld(s) then s.answersFrom else "";
      var s1 := s.(answersFrom := answersFrom, setup := Some(setup), authorFilter := setup.keepHeldFrom);
      var s2 := DropHeldFrom(s1, setup.keepHeldFrom);
      DropHeldFromKept(s1, setup.keepHeldFrom);
      MaybeApplyKept(s2, now);
      KeptTwice(s1, s2, MaybeApplySetup(s2, now));
      hide MaybeApplySetup, DropHeldFrom;
    }
  }

  lemma RetiredKept(s: Session, gone: bool, now: int)
    requires s.swap.Some?
    ensures Kept(s, AfterRetire(s, gone, now))
  {
    hide Settle, ForgetHeld;
    var s1 := SetState(s.(running := s.running - {s.harness}, tasks := 0), Idle, now);
    var s2 := DropHeld(s1);
    SettleKept(if IsDone(s2) then s2 else s2.(state := Ended), now);
  }

  lemma ConstructedKept(s: Session, built: bool, accepts: nat, now: int)
    requires s.swap.Some?
    ensures var s' := AfterConstruct(s, built, accepts, now); Kept(s, s') || s'.held == []
  {
    hide Settle, ForgetHeld, Replayed, Fail;
    if built {
      var s1 := s.(harness := s.harness + 1, swap := Some(s.swap.value.(stage := Installed)));
      var s2 := s1.(applied := Some(s.swap.value.setup.id));
      SettleKept(DropHeld(s1), now);
      SettleKept(if s2.setup.None? then ReplayHeld(s2, accepts) else s2, now);
      NothingIn(Settle(ReplayHeld(s2, accepts), now).held);
      NothingIn(Settle(DropHeld(s1), now).held);
    } else {
      FailFrees(s.(running := s.running - {s.harness + 1}));
      SettleKept(Fail(s.(running := s.running - {s.harness + 1})), now);
      NothingIn(AfterConstruct(s, built, accepts, now).held);
    }
  }

  lemma NothingIn(held: seq<Item>)
    ensures (forall x :: x in held ==> x in []) ==> held == []
  {
    if held != [] { assert held[0] in held; }
  }

  lemma StoppedKept(s: Session, threw: bool, now: int)
    ensures Kept(s, AfterStop(s, threw, now))
  {
    hide Settle, ForgetHeld;
    SettleKept(if threw then Fail(s) else s, now);
  }

  lemma SwapOrdered(s: Session, step: Step, now: int)
    requires Ordered(s) && (step.Retired? || step.Constructed? || step.Stopped?)
    ensures Ordered(Next(s, step, now)) && !Overtakes(s, step, now)
  {
    hide AfterRetire, AfterConstruct, AfterStop;
    var s' := Next(s, step, now);
    match step {
      case Retired(gone) => if At(s, Retiring) { RetiredKept(s, gone, now); }
      case Constructed(built, takes) => if At(s, Constructing) { ConstructedKept(s, built, takes, now); }
      case Stopped(threw) => if At(s, Stopping) { StoppedKept(s, threw, now); }
    }
    if Kept(s, s') { KeptIsOrdered(s, s'); }
  }

  lemma EndKept(s: Session, step: Step, now: int)
    requires step.End? || step.Undeliverable? || step.ShutDown? || step.Interrupt?
    ensures Kept(s, Next(s, step, now))
  {
    hide CancelParks, EndSession;
    match step
    case End => EndSessionKept(s, now);
    case Interrupt => CancelParksKept(s, false, now);
    case Undeliverable => CancelParksKept(s.(ending := true, pending := {}), false, now);
    case ShutDown => CancelParksKept(s.(shuttingDown := true, pending := {}), false, now);
  }

  lemma ControlKept(s: Session, kind: Control, now: int)
    ensures Kept(s, StartControl(s, kind, now))
  {
    if s.setup.Some? { MaybeApplyKept(s.(setup := Some(s.setup.value.(urgent := true))), now); }
    hide MaybeApplySetup;
  }

  lemma OtherKept(s: Session, step: Step, now: int)
    requires !step.Message? && !step.Retired? && !step.Constructed? && !step.Stopped?
    ensures Kept(s, Next(s, step, now))
  {
    hide HandleSetup, MaybeApplySetup, StartControl, CancelParks, EndSession;
    match step
    case SetUp(setup) => SetupKept(s, setup.(receivedAt := now, signaled := false, urgent := false), now);
    case Apply(_) => if s.setup.Some? { MaybeApplyKept(s.(setup := Some(s.setup.value.(signaled := true))), now); }
    case Tick => MaybeApplyKept(s, now);
    case ControlStarts(kind) => ControlKept(s, kind, now);
    case End => EndKept(s, step, now); hide Next;
    case Interrupt => EndKept(s, step, now); hide Next;
    case Undeliverable => EndKept(s, step, now); hide Next;
    case ShutDown => EndKept(s, step, now); hide Next;
    case _ =>
  }

  /** A step puts a delivery before something held and older exactly if it overtakes. */
  lemma OrderedStep(s: Session, step: Step, now: int)
    requires Inv(s) && Ordered(s)
    ensures Ordered(Next(s, step, now)) <==> !Overtakes(s, step, now)
  {
    hide Inv, Ordered, HandleMessage, Kept;
    if step.Message? {
      MessageOrdered(s, step.author, step.platform, step.id, step.accepts, now);
    } else if step.Retired? || step.Constructed? || step.Stopped? {
      SwapOrdered(s, step, now);
      hide Next;
    } else {
      OtherKept(s, step, now);
      NoneDelivered(s, Next(s, step, now));
      KeptIsOrdered(s, Next(s, step, now));
      hide Next;
    }
  }

  lemma NoneDelivered(s: Session, s': Session)
    requires Kept(s, s')
    ensures s'.delivered == s.delivered
  {}

  // ---- every run ------------------------------------------------------------------------------

  predicate EverStranded(steps: seq<(Step, int)>) { exists i :: 0 <= i < |steps| && StrandsAt(steps, i) }

  lemma EverStrandedPrefix(steps: seq<(Step, int)>)
    requires steps != []
    ensures EverStranded(steps[..|steps| - 1]) ==> EverStranded(steps)
  {
    var n := |steps| - 1;
    if EverStranded(steps[..n]) {
      var i :| 0 <= i < n && StrandsAt(steps[..n], i);
      AtPrefix(steps, n, i);
    }
    hide StrandsAt;
  }

  lemma StrandedIsEver(steps: seq<(Step, int)>)
    requires Stranded(Run(Start, steps))
    ensures EverStranded(steps)
  {
    StrandedExactly(steps);
    var i :| 0 <= i < |steps| && LeftBy(steps, i);
    hide StrandsAt, FreesAt;
  }

  /** Over every run, unless some stop for a shutdown has left input held for no
      set-up, nothing delivered came after what is held. */
  lemma {:induction false} NothingOvertakes(steps: seq<(Step, int)>)
    requires !EverStranded(steps)
    ensures Ordered(Run(Start, steps))
    decreases |steps|
  {
    hide Next, Ordered, Stranded, Inv, EverStranded;
    if steps == [] {
      StartIsOrdered();
    } else {
      var init, last := steps[..|steps| - 1], steps[|steps| - 1];
      EverStrandedPrefix(steps);
      NothingOvertakes(init);
      RunKeepsInv(init);
      OrderedStep(Run(Start, init), last.0, last.1);
      if Stranded(Run(Start, init)) { StrandedIsEver(init); }
    }
  }

  lemma StartIsOrdered()
    ensures Ordered(Run(Start, []))
  {}
}
