/**
 A message sent again: its id is remembered through everything but a drop of the
 message itself and 255 messages taken since, and as long as it is, the message
 is not taken twice.
 */
module SetupSwapResend {
  import opened Wrappers
  import opened SetupSwap
  import opened SetupSwapSafety
  import opened SetupSwapTheorems

  /** `id` is among the newest `k + 1` ids. */
  predicate Recent(ids: seq<string>, id: string, k: int) {
    exists i :: 0 <= i < |ids| && ids[i] == id && |ids| - 1 - i <= k
  }

  // ---- lists of ids -------------------------------------------------------------------------------

  lemma {:induction false} RecentTail(x: string, rest: seq<string>, id: string, k: int)
    requires Recent(rest, id, k)
    ensures Recent([x] + rest, id, k)
  {
    var i :| 0 <= i < |rest| && rest[i] == id && |rest| - 1 - i <= k;
    assert ([x] + rest)[i + 1] == id;
  }

  lemma {:induction false} ForgetIsShorter(ids: seq<string>, x: string)
    ensures |Forget(ids, x)| <= |ids|
  {
    if ids != [] { ForgetIsShorter(ids[1..], x); }
  }

  lemma {:induction false} RecentAfterForget(ids: seq<string>, x: string, id: string, k: int)
    requires x != id && Recent(ids, id, k)
    ensures Recent(Forget(ids, x), id, k)
  {
    var i :| 0 <= i < |ids| && ids[i] == id && |ids| - 1 - i <= k;
    if i == 0 {
      var rest := Forget(ids[1..], x);
      ForgetIsShorter(ids[1..], x);
      assert ([ids[0]] + rest)[0] == id;
    } else {
      assert ids[1..][i - 1] == id;
      RecentAfterForget(ids[1..], x, id, k);
      if ids[0] != x {
        RecentTail(ids[0], Forget(ids[1..], x), id, k);
      } else {
        assert [] + Forget(ids[1..], x) == Forget(ids[1..], x);
      }
    }
  }

  /** None of `items` has the id. */
  predicate NoneHasId(items: seq<Item>, id: string) { forall i :: 0 <= i < |items| ==> items[i].id != id }

  lemma {:induction false} RecentAfterForgetHeld(ids: seq<string>, items: seq<Item>, id: string, k: int)
    requires NoneHasId(items, id) && Recent(ids, id, k)
    ensures Recent(ForgetHeld(ids, items), id, k)
  {
    hide Recent, Forget;
    if items != [] {
      RecentAfterForgetHeld(ids, items[..|items| - 1], id, k);
      if items[|items| - 1].id != "" {
        RecentAfterForget(ForgetHeld(ids, items[..|items| - 1]), items[|items| - 1].id, id, k);
      }
    }
  }

  /** One more id moves it one place back, while it is among the newest 255. */
  lemma {:induction false} RecentAfterRemember(ids: seq<string>, x: string, id: string, k: int)
    requires Recent(ids, id, k) && 0 <= k < 255
    ensures Recent(Remember(ids, x), id, k + 1)
  {
    if x == "" {
      var i :| 0 <= i < |ids| && ids[i] == id && |ids| - 1 - i <= k;
      assert |ids| - 1 - i <= k + 1;
    } else {
      var all := Forget(ids, x) + [x];
      if x == id {
        assert all[|all| - 1] == id;
        InTail(all, id, 0);
      } else {
        RecentAfterForget(ids, x, id, k);
        var i :| 0 <= i < |Forget(ids, x)| && Forget(ids, x)[i] == id && |Forget(ids, x)| - 1 - i <= k;
        assert all[i] == id;
        InTail(all, id, k + 1);
      }
    }
  }

  /** Keeping the newest 256 keeps what is among them. */
  lemma InTail(all: seq<string>, id: string, k: int)
    requires Recent(all, id, k) && k < 256
    ensures Recent(if |all| > 256 then all[|all| - 256..] else all, id, k)
  {
    var i :| 0 <= i < |all| && all[i] == id && |all| - 1 - i <= k;
    if |all| > 256 { assert all[|all| - 256..][i - (|all| - 256)] == id; }
  }

  lemma JustRemembered(ids: seq<string>, id: string)
    requires id != ""
    ensures Recent(Remember(ids, id), id, 0)
  {
    var all := Forget(ids, id) + [id];
    assert all[|all| - 1] == id;
    InTail(all, id, 0);
  }

  // ---- one step -------------------------------------------------------------------------------------

  /** How a step changes the ids: a message taken adds its own, and what was dropped loses its. */
  predicate IdsMove(s: Session, step: Step, s': Session) {
    && s.dropped <= s'.dropped
    && (s'.taken == s.taken || (step.Message? && s'.taken == s.taken + 1))
    && s'.ids == ForgetHeld(if s'.taken == s.taken then s.ids else Remember(s.ids, step.id), NewlyDropped(s, s'))
  }

  lemma ShedMoves(s: Session, step: Step, s': Session)
    requires Shed(s, s')
    ensures IdsMove(s, step, s')
  {}

  lemma SameMoves(s: Session, step: Step, s': Session)
    requires s'.ids == s.ids && s'.dropped == s.dropped && s'.taken == s.taken
    ensures IdsMove(s, step, s')
  {
    ForgetNothing(s.ids);
    hide ForgetHeld;
    assert NewlyDropped(s, s') == [];
  }

  lemma MessageMoves(s: Session, author: string, platform: bool, id: string, accepts: bool, now: int)
    ensures IdsMove(s, Message(author, platform, id, accepts), HandleMessage(s, author, platform, id, accepts, now))
  {
    var step := Message(author, platform, id, accepts);
    var item := Item(s.taken, author, platform, id, InputHeld(s), s.harness);
    var s1 := s.(taken := s.taken + 1, held := s.held + [item], ids := Remember(s.ids, id));
    var s2 := s.(taken := s.taken + 1, ids := Remember(s.ids, id),
                 delivered := s.delivered + [Delivery(item, s.harness, s.authorFilter)]);
    SameMoves(s, step, s);
    CancelParksIds(s2, true, now);
    ForgetNothing(Remember(s.ids, id));
    if IsDone(s) || s.ending { HoldRefuses(s, item, now); } else { HoldSheds(s, item, now); }
    hide HoldMessage, CancelParks, Remember, KeepsInput, ForgetHeld;
    assert NewlyDropped(s, s2) == [] && NewlyDropped(s1, HoldMessage(s, item, now)) == NewlyDropped(s, HoldMessage(s, item, now));
  }

  lemma SetupMoves(s: Session, setup: Setup, now: int)
    ensures Shed(s, HandleSetup(s, setup, now))
  {
    ShedSame(s, s);
    if !IsDone(s) && !s.ending && !Known(s, setup.id) {
      var answersFrom :=
        if setup.answersFrom != "" then setup.answersFrom else if InputHeld(s) then s.answersFrom else "";
      var s1 := s.(answersFrom := answersFrom, setup := Some(setup), authorFilter := setup.keepHeldFrom);
      var s2 := DropHeldFrom(s1, setup.keepHeldFrom);
      DropHeldFromSheds(s1, setup.keepHeldFrom);
      MaybeApplySheds(s2, now);
      ShedTwice(s1, s2, MaybeApplySetup(s2, now));
      hide MaybeApplySetup, DropHeldFrom, ForgetHeld;
    }
  }

  lemma ControlMoves(s: Session, kind: Control, now: int)
    ensures Shed(s, StartControl(s, kind, now))
  {
    var urgent := if s.setup.Some? then s.(setup := Some(s.setup.value.(urgent := true))) else s;
    MaybeApplySheds(urgent, now);
    ShedSame(s, s);
    ShedSame(s, s.(control := kind, calls := s.calls + {kind}));
    hide MaybeApplySetup, ForgetHeld;
  }

  lemma SwapMoves(s: Session, step: Step, now: int)
    requires step.Retired? || step.Constructed? || step.Stopped?
    ensures Shed(s, Next(s, step, now))
  {
    hide AfterRetire, AfterConstruct, Settle, Fail, Shed;
    ShedSame(s, s);
    match step
    case Retired(gone) => if At(s, Retiring) { AfterRetireSheds(s, gone, now); }
    case Constructed(built, takes) => if At(s, Constructing) { AfterConstructSheds(s, built, takes, now); }
    case Stopped(threw) =>
      if At(s, Stopping) {
        DropHeldSheds(s);
        SettleSheds(if threw then Fail(s) else s, now);
        ShedTwice(s, if threw then Fail(s) else s, AfterStop(s, threw, now));
      }
  }

  lemma OtherMoves(s: Session, step: Step, now: int)
    requires step.Interrupt? || step.Undeliverable? || step.ShutDown? || step.Wait? || step.Wake? || step.Ask?
      || step.HarnessState? || step.TaskCount? || step.ControlEnds? || step.Decide?
    ensures var s' := Next(s, step, now); s'.ids == s.ids && s'.dropped == s.dropped && s'.taken == s.taken
  {
    CancelParksIds(s, false, now);
    CancelParksIds(s.(ending := true, pending := {}), false, now);
    CancelParksIds(s.(shuttingDown := true, pending := {}), false, now);
    hide CancelParks;
  }

  lemma StepMoves(s: Session, step: Step, now: int)
    ensures IdsMove(s, step, Next(s, step, now))
  {
    hide HandleMessage, HandleSetup, MaybeApplySetup, StartControl, EndSession, IdsMove, Shed;
    match step
    case Message(author, platform, id, accepts) => MessageMoves(s, author, platform, id, accepts, now);
    case SetUp(setup) =>
      SetupMoves(s, setup.(receivedAt := now, signaled := false, urgent := false), now);
      ShedMoves(s, step, Next(s, step, now));
    case Apply(id) =>
      if s.setup.Some? && s.setup.value.id == id {
        var marked := s.(setup := Some(s.setup.value.(signaled := true)));
        MaybeApplySheds(marked, now);
        MarkedMoves(s, marked, step, Next(s, step, now));
      } else {
        SameMoves(s, step, s);
      }
    case Tick => MaybeApplySheds(s, now); ShedMoves(s, step, Next(s, step, now));
    case ControlStarts(kind) =>
      if kind.Free? || kind.Swap? { SameMoves(s, step, s); }
      else { ControlMoves(s, kind, now); ShedMoves(s, step, Next(s, step, now)); }
    case Retired(_) => SwapMoves(s, step, now); ShedMoves(s, step, Next(s, step, now)); hide Next;
    case Constructed(_, _) => SwapMoves(s, step, now); ShedMoves(s, step, Next(s, step, now)); hide Next;
    case Stopped(_) => SwapMoves(s, step, now); ShedMoves(s, step, Next(s, step, now)); hide Next;
    case End => EndSessionSheds(s, now); ShedMoves(s, step, Next(s, step, now));
    case _ => OtherMoves(s, step, now); SameMoves(s, step, Next(s, step, now)); hide Next;
  }

  lemma MarkedMoves(s: Session, marked: Session, step: Step, s': Session)
    requires marked.ids == s.ids && marked.dropped == s.dropped && marked.taken == s.taken && Shed(marked, s')
    ensures IdsMove(s, step, s')
  {}

  // ---- every run --------------------------------------------------------------------------------------

  lemma {:induction false} RecentStays(s: Session, steps: seq<(Step, int)>, id: string)
    requires Recent(s.ids, id, 0) && Run(s, steps).taken - s.taken <= 255
    requires NoneHasId(NewlyDropped(s, Run(s, steps)), id)
    ensures s.taken <= Run(s, steps).taken && s.dropped <= Run(s, steps).dropped
    ensures Recent(Run(s, steps).ids, id, Run(s, steps).taken - s.taken)
    decreases |steps|
  {
    hide *;
    if steps == [] {
      NoRun(s);
    } else {
      LastRun(s, steps);
      var init, last := steps[..|steps| - 1], steps[|steps| - 1];
      var s1, s2 := Run(s, init), Run(s, steps);
      StepMoves(s1, last.0, last.1);
      Grows(s, init);
      MovesGrow(s1, last.0, s2);
      LessDropped(s, s1, s2, id);
      RecentStays(s, init, id);
      RecentMoves(s1, last.0, s2, id, s1.taken - s.taken);
    }
  }

  lemma NoRun(s: Session)
    ensures Run(s, []) == s
  {}

  lemma LastRun(s: Session, steps: seq<(Step, int)>)
    requires steps != []
    ensures Run(s, steps) == Next(Run(s, steps[..|steps| - 1]), steps[|steps| - 1].0, steps[|steps| - 1].1)
  {
    hide Next;
  }

  lemma {:induction false} Grows(s: Session, steps: seq<(Step, int)>)
    ensures s.taken <= Run(s, steps).taken && s.dropped <= Run(s, steps).dropped
    decreases |steps|
  {
    if steps != [] {
      hide Next, IdsMove;
      var init, last := steps[..|steps| - 1], steps[|steps| - 1];
      Grows(s, init);
      StepMoves(Run(s, init), last.0, last.1);
      MovesGrow(Run(s, init), last.0, Run(s, steps));
    }
  }

  lemma MovesGrow(s: Session, step: Step, s': Session)
    requires IdsMove(s, step, s')
    ensures s.taken <= s'.taken <= s.taken + 1 && s.dropped <= s'.dropped
  {}

  lemma LessDropped(s: Session, s1: Session, s2: Session, id: string)
    requires s.dropped <= s1.dropped <= s2.dropped && NoneHasId(NewlyDropped(s, s2), id)
    ensures NoneHasId(NewlyDropped(s, s1), id) && NoneHasId(NewlyDropped(s1, s2), id)
  {
    var all, a, b := NewlyDropped(s, s2), NewlyDropped(s, s1), NewlyDropped(s1, s2);
    assert forall i :: 0 <= i < |a| ==> a[i] == all[i];
    assert forall i :: 0 <= i < |b| ==> b[i] == all[|a| + i];
  }

  lemma RecentMoves(s: Session, step: Step, s': Session, id: string, k: nat)
    requires IdsMove(s, step, s') && Recent(s.ids, id, k) && NoneHasId(NewlyDropped(s, s'), id)
    requires k + (s'.taken - s.taken) <= 255
    ensures Recent(s'.ids, id, k + (s'.taken - s.taken))
  {
    hide Recent, Remember, ForgetHeld, NoneHasId;
    if s'.taken == s.taken {
      RecentAfterForgetHeld(s.ids, NewlyDropped(s, s'), id, k);
    } else {
      RecentAfterRemember(s.ids, step.id, id, k);
      RecentAfterForgetHeld(Remember(s.ids, step.id), NewlyDropped(s, s'), id, k + 1);
    }
  }

  /** Once a message with an id was taken and is not dropped, sending it again changes
      nothing, however the run goes on, until more than 255 others have been taken. */
  lemma SentAgainIsNotTakenTwice(s: Session, author: string, platform: bool, id: string, accepts: bool, at: int,
      steps: seq<(Step, int)>, again: Step, now: int)
    requires id != "" && again.Message? && again.id == id
    requires var s1 := Next(s, Message(author, platform, id, accepts), at);
      && s1.taken == s.taken + 1 && Run(s1, steps).taken - s1.taken <= 255
      && NoneHasId(NewlyDropped(s, Run(s1, steps)), id)
    ensures var s1 := Next(s, Message(author, platform, id, accepts), at);
      Next(Run(s1, steps), again, now) == Run(s1, steps)
  {
    hide *;
    var s1 := Next(s, Message(author, platform, id, accepts), at);
    var s2 := Run(s1, steps);
    StepMoves(s, Message(author, platform, id, accepts), at);
    TakenMoves(s, Message(author, platform, id, accepts), s1);
    MovesGrow(s, Message(author, platform, id, accepts), s1);
    Grows(s1, steps);
    LessDropped(s, s1, s2, id);
    JustRemembered(s.ids, id);
    RecentAfterForgetHeld(Remember(s.ids, id), NewlyDropped(s, s1), id, 0);
    RecentStays(s1, steps, id);
    RecentIsIn(s2.ids, id, s2.taken - s1.taken);
    KnownIdIsIgnored(s2, again, now);
  }

  lemma TakenMoves(s: Session, step: Step, s': Session)
    requires IdsMove(s, step, s') && step.Message? && s'.taken == s.taken + 1
    ensures s'.ids == ForgetHeld(Remember(s.ids, step.id), NewlyDropped(s, s'))
  {}

  lemma RecentIsIn(ids: seq<string>, id: string, k: int)
    requires Recent(ids, id, k)
    ensures id in ids
  {}

  lemma KnownIdIsIgnored(s: Session, again: Step, now: int)
    requires again.Message? && again.id != "" && again.id in s.ids
    ensures Next(s, again, now) == s
  {}
}
