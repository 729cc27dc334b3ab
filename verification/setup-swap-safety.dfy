/**
 What every run of a live set-up change keeps: input is conserved and never
 reaches a harness it was not meant for, one harness runs at a time, one
 control call holds the session at a time, and a set-up is not run twice.
 */
module SetupSwapSafety {
  import opened Wrappers
  import opened SetupSwap

  // ---- the parts of the invariant -------------------------------------------------------

  predicate HasItem(q: seq<Item>, n: nat) { exists i :: 0 <= i < |q| && q[i].no == n }

  predicate HasDelivery(q: seq<Delivery>, n: nat) { exists i :: 0 <= i < |q| && q[i].item.no == n }

  /** Every accepted message is delivered, held or dropped, and only one of these. */
  ghost predicate Accounted(taken: nat, held: seq<Item>, delivered: seq<Delivery>, dropped: seq<Item>) {
    && (forall n: nat :: n < taken <==> HasDelivery(delivered, n) || HasItem(held, n) || HasItem(dropped, n))
    && (forall n: nat :: HasDelivery(delivered, n) ==> !HasItem(held, n) && !HasItem(dropped, n))
    && (forall n: nat :: HasItem(held, n) ==> !HasItem(dropped, n))
  }

  predicate AscendingItems(q: seq<Item>) { forall i, j :: 0 <= i < j < |q| ==> q[i].no < q[j].no }

  predicate AscendingDeliveries(q: seq<Delivery>) { forall i, j :: 0 <= i < j < |q| ==> q[i].item.no < q[j].item.no }

  predicate Before(delivered: seq<Delivery>, held: seq<Item>) {
    forall i, j :: 0 <= i < |delivered| && 0 <= j < |held| ==> delivered[i].item.no < held[j].no
  }

  /** In arrival order, what is held after what was delivered. */
  predicate InOrder(held: seq<Item>, delivered: seq<Delivery>, shuttingDown: bool) {
    AscendingItems(held) && AscendingDeliveries(delivered) && (!shuttingDown ==> Before(delivered, held))
  }

  /** Held input went only to a harness built after it came, other input to the one running then. */
  predicate RightHarness(held: seq<Item>, delivered: seq<Delivery>, harness: nat) {
    && (forall i :: 0 <= i < |held| ==> held[i].held && held[i].harness <= harness)
    && (forall i :: 0 <= i < |delivered| ==>
          var d := delivered[i]; if d.item.held then d.item.harness < d.harness else d.harness == d.item.harness)
  }

  predicate Filtered(held: seq<Item>, delivered: seq<Delivery>, authorFilter: string) {
    && (forall i :: 0 <= i < |held| ==> KeepsInput(authorFilter, held[i]))
    && (forall i :: 0 <= i < |delivered| ==> KeepsInput(delivered[i].filter, delivered[i].item))
  }

  /** Only one harness can be running: the session's, or the one being built. */
  predicate OneHarness(running: set<nat>, harness: nat, swap: Option<Swapping>) {
    running <= if swap.Some? && swap.value.stage.Constructing? then {harness + 1} else {harness}
  }

  /** The reservation names the one control call under way; a swap holds it throughout. */
  predicate OneCall(control: Control, calls: set<Control>, swap: Option<Swapping>) {
    calls == (if control.Free? then {} else {control}) && (control.Swap? <==> swap.Some?)
  }

  predicate NoRepeat(ids: seq<string>) { forall i :: 0 < i < |ids| ==> ids[i - 1] != ids[i] }

  /** A pending set-up is neither the one being swapped to nor the applied one. */
  predicate NewSetup(s: Session) {
    s.setup.Some? ==> s.applied != Some(s.setup.value.id) && (s.swap.Some? ==> s.swap.value.setup.id != s.setup.value.id)
  }

  /** The last restart is the swap under way, or else the applied set-up. */
  predicate LastRestart(s: Session) {
    && NoRepeat(s.restarts)
    && (s.swap.Some? ==> s.restarts != [] && s.restarts[|s.restarts| - 1] == s.swap.value.setup.id)
    && (s.swap.None? && !IsDone(s) && !s.ending ==>
          s.applied == if s.restarts == [] then None else Some(s.restarts[|s.restarts| - 1]))
  }

  predicate HeldForSwap(s: Session) {
    && (s.held != [] ==> InputHeld(s) || s.shuttingDown)
    && (At(s, Stopping) ==> s.shuttingDown)
  }

  predicate OwnersOnly(allowed: seq<Allowed>) {
    forall i :: 0 <= i < |allowed| ==> allowed[i].answersFrom == "" || allowed[i].who == allowed[i].answersFrom
  }

  /** All but the author filter, which a set-up changes first. */
  ghost predicate Core(s: Session) {
    && Accounted(s.taken, s.held, s.delivered, s.dropped)
    && InOrder(s.held, s.delivered, s.shuttingDown)
    && RightHarness(s.held, s.delivered, s.harness)
    && OneHarness(s.running, s.harness, s.swap)
    && OneCall(s.control, s.calls, s.swap)
    && NewSetup(s)
    && (!s.shuttingDown ==> LastRestart(s))
    && HeldForSwap(s)
    && OwnersOnly(s.allowed)
  }

  ghost predicate Inv(s: Session) { Core(s) && Filtered(s.held, s.delivered, s.authorFilter) }

  // ---- moving items -----------------------------------------------------------------------

  lemma HasConcat(a: seq<Item>, b: seq<Item>, n: nat)
    ensures HasItem(a + b, n) <==> HasItem(a, n) || HasItem(b, n)
  {
    if HasItem(a, n) { var i :| 0 <= i < |a| && a[i].no == n; assert (a + b)[i].no == n; }
    if HasItem(b, n) { var i :| 0 <= i < |b| && b[i].no == n; assert (a + b)[|a| + i].no == n; }
  }

  lemma HasDeliveryConcat(a: seq<Delivery>, b: seq<Delivery>, n: nat)
    ensures HasDelivery(a + b, n) <==> HasDelivery(a, n) || HasDelivery(b, n)
  {
    if HasDelivery(a, n) { var i :| 0 <= i < |a| && a[i].item.no == n; assert (a + b)[i].item.no == n; }
    if HasDelivery(b, n) { var i :| 0 <= i < |b| && b[i].item.no == n; assert (a + b)[|a| + i].item.no == n; }
  }

  lemma HasIn(q: seq<Item>, n: nat)
    ensures HasItem(q, n) <==> exists x :: x in q && x.no == n
  {
    if HasItem(q, n) { var i :| 0 <= i < |q| && q[i].no == n; assert q[i] in q; }
  }

  /** Dropping part of what is held. */
  lemma AccountedDrop(taken: nat, held: seq<Item>, delivered: seq<Delivery>, dropped: seq<Item>, kept: seq<Item>,
      gone: seq<Item>)
    requires Accounted(taken, held, delivered, dropped)
    requires forall n: nat :: HasItem(held, n) <==> HasItem(kept, n) || HasItem(gone, n)
    requires forall n: nat :: !(HasItem(kept, n) && HasItem(gone, n))
    ensures Accounted(taken, kept, delivered, dropped + gone)
  {
    forall n: nat ensures HasItem(dropped + gone, n) <==> HasItem(dropped, n) || HasItem(gone, n) { HasConcat(dropped, gone, n); }
    hide HasItem, HasDelivery;
  }

  lemma {:induction false} FilterSplits(held: seq<Item>, keepFrom: string, n: nat)
    requires AscendingItems(held)
    ensures var r := FilterHeld(held, keepFrom);
      && (HasItem(held, n) <==> HasItem(r.0, n) || HasItem(r.1, n))
      && !(HasItem(r.0, n) && HasItem(r.1, n))
  {
    var (kept, gone) := FilterHeld(held, keepFrom);
    HasIn(held, n);
    HasIn(kept, n);
    HasIn(gone, n);
    forall x, y | x in kept && y in gone ensures x.no != y.no {
      var i :| 0 <= i < |held| && held[i] == x;
      var j :| 0 <= j < |held| && held[j] == y;
    }
    hide HasItem;
  }

  lemma {:induction false} FilterAscends(held: seq<Item>, keepFrom: string)
    requires AscendingItems(held)
    ensures AscendingItems(FilterHeld(held, keepFrom).0)
  {
    if held != [] {
      var init, last := held[..|held| - 1], held[|held| - 1];
      FilterAscends(init, keepFrom);
      forall x | x in FilterHeld(init, keepFrom).0 ensures x.no < last.no {
        assert x in init;
        var i :| 0 <= i < |init| && init[i] == x;
        assert held[i] == x;
      }
    }
  }

  lemma NoneHas()
    ensures forall n: nat :: !HasItem([], n)
  {}

  lemma {:induction false} DropHeldKeepsCore(s: Session)
    requires Core(s)
    ensures Core(DropHeld(s))
  {
    hide HasItem, Accounted, NoRepeat, OneCall, OneHarness, OwnersOnly, ForgetHeld;
    NoneHas();
    AccountedDrop(s.taken, s.held, s.delivered, s.dropped, [], s.held);
  }

  lemma {:induction false} DropHeldKeepsInv(s: Session)
    requires Inv(s)
    ensures Inv(DropHeld(s))
  {
    DropHeldKeepsCore(s);
    hide Core;
  }

  lemma {:induction false} DropHeldFromKeeps(s: Session)
    requires Core(s) && forall i :: 0 <= i < |s.delivered| ==> KeepsInput(s.delivered[i].filter, s.delivered[i].item)
    ensures Inv(DropHeldFrom(s, s.authorFilter))
  {
    var (kept, gone) := FilterHeld(s.held, s.authorFilter);
    forall n: nat
      ensures HasItem(s.held, n) <==> HasItem(kept, n) || HasItem(gone, n)
      ensures !(HasItem(kept, n) && HasItem(gone, n))
    {
      FilterSplits(s.held, s.authorFilter, n);
    }
    AccountedDrop(s.taken, s.held, s.delivered, s.dropped, kept, gone);
    FilterAscends(s.held, s.authorFilter);
    KeptFromHeld(s, kept);
    hide HasItem, Accounted, LastRestart, NewSetup, OneCall, OneHarness, OwnersOnly, FilterHeld, ForgetHeld,
        AscendingItems, AscendingDeliveries, Before;
    assert kept != [] ==> s.held != [];
  }

  lemma KeptFromHeld(s: Session, kept: seq<Item>)
    requires forall x :: x in kept ==> x in s.held && KeepsInput(s.authorFilter, x)
    requires RightHarness(s.held, s.delivered, s.harness)
    ensures RightHarness(kept, s.delivered, s.harness)
    ensures Before(s.delivered, s.held) ==> Before(s.delivered, kept)
    ensures forall i :: 0 <= i < |kept| ==> KeepsInput(s.authorFilter, kept[i])
    ensures kept != [] ==> s.held != []
  {
    assert forall i :: 0 <= i < |kept| ==> kept[i] in s.held;
    if kept != [] { assert kept[0] in s.held; }
  }

  // ---- the shared parts of the steps ----------------------------------------------------------

  /** What the invariant does not look at: the state (but for being over), permissions, parks, the clock. */
  predicate SameBooks(s: Session, s': Session) {
    s' == s.(state := s'.state, pending := s'.pending, parks := s'.parks, idleSince := s'.idleSince, tasks := s'.tasks, ids := s'.ids)
    && (IsDone(s) ==> IsDone(s'))
  }

  lemma SameBooksKeepInv(s: Session, s': Session)
    requires Inv(s) && SameBooks(s, s')
    ensures Inv(s')
  {
    hide Accounted, InOrder, RightHarness, OneHarness, OneCall, OwnersOnly, Filtered, NoRepeat;
  }

  lemma SetStateBooks(s: Session, state: State, now: int)
    ensures SameBooks(s, SetState(s, state, now))
  {}

  lemma CancelParksBooks(s: Session, onlyTasks: bool, now: int)
    ensures SameBooks(s, CancelParks(s, onlyTasks, now))
  {}

  lemma {:induction false} AbandonKeepsInv(s: Session)
    requires Inv(s) && (IsDone(s) || s.ending)
    ensures Inv(AbandonSetup(s))
  {
    var s1 := s.(setup := None, answersFrom := "", held := [], dropped := s.dropped + s.held,
        ids := ForgetHeld(s.ids, s.held));
    DropHeldKeepsInv(s);
    hide Accounted, InOrder, RightHarness, OneHarness, OneCall, OwnersOnly, Filtered, NoRepeat, ForgetHeld;
    assert AbandonSetup(s) == DropHeld(s).(setup := None, answersFrom := "");
  }

  lemma EndingKeepsInv(s: Session)
    requires Inv(s)
    ensures Inv(s.(ending := true, pending := {}))
  {
    hide Accounted, InOrder, RightHarness, OneHarness, OneCall, OwnersOnly, Filtered, NoRepeat;
  }

  lemma {:induction false} EndSessionKeepsInv(s: Session, now: int)
    requires Inv(s)
    ensures Inv(EndSession(s, now))
  {
    var s1 := s.(ending := true, pending := {});
    var s2 := CancelParks(s1, false, now);
    EndingKeepsInv(s);
    CancelParksBooks(s1, false, now);
    SameBooksKeepInv(s1, s2);
    AbandonKeepsInv(s2) by { hide Inv, CancelParks; }
    hide Inv, AbandonSetup;
  }

  lemma {:induction false} StartSwapKeepsInv(s: Session)
    requires Inv(s) && s.setup.Some? && s.swap.None? && s.control.Free? && !IsDone(s) && !s.ending
    ensures Inv(StartSwap(s, s.setup.value))
  {
    hide Accounted, InOrder, RightHarness, OwnersOnly, Filtered;
  }

  lemma {:induction false} MaybeApplyKeepsInv(s: Session, now: int)
    requires Inv(s)
    ensures Inv(MaybeApplySetup(s, now))
  {
    hide Inv, EndSession, AbandonSetup, StartSwap;
    if s.setup.Some? {
      if IsDone(s) || s.ending {
        AbandonKeepsInv(s);
      } else if SetupExpired(s.setup.value, now) {
        EndSessionKeepsInv(s, now);
      } else if s.swap.None? && s.setup.value.signaled && ReadyToSwap(s, s.setup.value, now) {
        StartSwapKeepsInv(s);
      }
    }
  }

  // ---- requests -----------------------------------------------------------------------------

  lemma {:induction false} AccountedHold(taken: nat, held: seq<Item>, delivered: seq<Delivery>, dropped: seq<Item>,
      item: Item)
    requires Accounted(taken, held, delivered, dropped) && item.no == taken
    ensures Accounted(taken + 1, held + [item], delivered, dropped)
  {
    forall n: nat ensures HasItem(held + [item], n) <==> HasItem(held, n) || n == taken {
      HasConcat(held, [item], n);
      assert HasItem([item], n) <==> n == taken by { assert [item][0] == item; }
    }
    hide HasItem, HasDelivery;
  }

  lemma {:induction false} AccountedDeliver(taken: nat, held: seq<Item>, delivered: seq<Delivery>, dropped: seq<Item>,
      d: Delivery)
    requires Accounted(taken, held, delivered, dropped) && d.item.no == taken
    ensures Accounted(taken + 1, held, delivered + [d], dropped)
  {
    forall n: nat ensures HasDelivery(delivered + [d], n) <==> HasDelivery(delivered, n) || n == taken {
      HasDeliveryConcat(delivered, [d], n);
      assert HasDelivery([d], n) <==> n == taken by { assert [d][0] == d; }
    }
    hide HasItem, HasDelivery;
  }

  /** Numbers given so far are below the next one. */
  lemma {:induction false} NewIsLast(s: Session)
    requires Accounted(s.taken, s.held, s.delivered, s.dropped)
    ensures forall i :: 0 <= i < |s.held| ==> s.held[i].no < s.taken
    ensures forall i :: 0 <= i < |s.delivered| ==> s.delivered[i].item.no < s.taken
  {
    forall i | 0 <= i < |s.held| ensures s.held[i].no < s.taken { assert HasItem(s.held, s.held[i].no); }
    forall i | 0 <= i < |s.delivered| ensures s.delivered[i].item.no < s.taken { assert HasDelivery(s.delivered, s.delivered[i].item.no); }
  }

  lemma {:induction false} AcceptHeldKeepsInv(s: Session, item: Item)
    requires Inv(s) && InputHeld(s)
    requires item.no == s.taken && item.held && item.harness == s.harness && KeepsInput(s.authorFilter, item)
    ensures Inv(s.(taken := s.taken + 1, held := s.held + [item], ids := Remember(s.ids, item.id)))
  {
    AccountedHold(s.taken, s.held, s.delivered, s.dropped, item);
    NewIsLast(s);
    hide Accounted, OneCall, OneHarness, OwnersOnly, NoRepeat, Remember, KeepsInput;
  }

  lemma {:induction false} AcceptDirectKeepsInv(s: Session, item: Item)
    requires Inv(s) && !InputHeld(s)
    requires item.no == s.taken && !item.held && item.harness == s.harness && KeepsInput(s.authorFilter, item)
    ensures Inv(s.(taken := s.taken + 1, ids := Remember(s.ids, item.id),
                   delivered := s.delivered + [Delivery(item, s.harness, s.authorFilter)]))
  {
    AccountedDeliver(s.taken, s.held, s.delivered, s.dropped, Delivery(item, s.harness, s.authorFilter));
    NewIsLast(s);
    hide Accounted, OneCall, OneHarness, OwnersOnly, NoRepeat, Remember, KeepsInput;
  }

  lemma {:induction false} HoldKeepsInv(s: Session, item: Item, now: int)
    requires Inv(s) && InputHeld(s)
    requires item.no == s.taken && item.held && item.harness == s.harness && KeepsInput(s.authorFilter, item)
    ensures Inv(HoldMessage(s, item, now))
  {
    hide Inv, MaybeApplySetup, CancelParks, Remember, KeepsInput;
    if !IsDone(s) && !s.ending {
      var s1 := s.(taken := s.taken + 1, held := s.held + [item], ids := Remember(s.ids, item.id));
      AcceptHeldKeepsInv(s, item);
      var s2 := if item.platform then s1 else CancelParks(s1, true, now);
      CancelParksBooks(s1, true, now);
      assert SameBooks(s1, s1);
      SameBooksKeepInv(s1, s2);
      MaybeApplyKeepsInv(s2, now);
    }
  }

  lemma {:induction false} MessageKeepsInv(s: Session, author: string, platform: bool, id: string, accepts: bool, now: int)
    requires Inv(s)
    ensures Inv(HandleMessage(s, author, platform, id, accepts, now))
  {
    hide Inv, HoldMessage, CancelParks, Remember, KeepsInput;
    var item := Item(s.taken, author, platform, id, InputHeld(s), s.harness);
    if KeepsInput(s.authorFilter, item) {
      if InputHeld(s) {
        HoldKeepsInv(s, item, now);
      } else {
        AcceptDirectKeepsInv(s, item);
        var s1 := s.(taken := s.taken + 1, ids := Remember(s.ids, id),
                     delivered := s.delivered + [Delivery(item, s.harness, s.authorFilter)]);
        CancelParksBooks(s1, true, now);
        SameBooksKeepInv(s1, CancelParks(s1, true, now));
      }
    }
  }

  lemma {:induction false} SetupKeepsInv(s: Session, setup: Setup, now: int)
    requires Inv(s)
    ensures Inv(HandleSetup(s, setup, now))
  {
    if !IsDone(s) && !s.ending && !Known(s, setup.id) {
      var answersFrom := if setup.answersFrom != "" then setup.answersFrom else if InputHeld(s) then s.answersFrom else "";
      var s1 := s.(answersFrom := answersFrom, setup := Some(setup), authorFilter := setup.keepHeldFrom);
      PendingKeepsCore(s, s1);
      DropHeldFromKeeps(s1);
      MaybeApplyKeepsInv(DropHeldFrom(s1, setup.keepHeldFrom), now);
      hide Inv, DropHeldFrom, MaybeApplySetup;
    }
  }

  lemma PendingKeepsCore(s: Session, s1: Session)
    requires Inv(s) && s1.setup.Some? && !Known(s, s1.setup.value.id)
    requires s1 == s.(answersFrom := s1.answersFrom, setup := s1.setup, authorFilter := s1.authorFilter)
    ensures Core(s1) && forall i :: 0 <= i < |s1.delivered| ==> KeepsInput(s1.delivered[i].filter, s1.delivered[i].item)
  {
    hide Accounted, InOrder, RightHarness, OneHarness, OneCall, OwnersOnly, NoRepeat, KeepsInput;
  }

  /** Marking the pending set-up signaled or urgent. */
  lemma {:induction false} MarkKeepsInv(s: Session, setup: Setup, now: int)
    requires Inv(s) && s.setup.Some? && setup.id == s.setup.value.id
    ensures Inv(MaybeApplySetup(s.(setup := Some(setup)), now))
  {
    MarkedKeepsInv(s, setup);
    MaybeApplyKeepsInv(s.(setup := Some(setup)), now);
    hide Inv, MaybeApplySetup;
  }

  lemma MarkedKeepsInv(s: Session, setup: Setup)
    requires Inv(s) && s.setup.Some? && setup.id == s.setup.value.id
    ensures Inv(s.(setup := Some(setup)))
  {
    hide Accounted, InOrder, RightHarness, OneHarness, OneCall, OwnersOnly, Filtered, NoRepeat;
  }

  lemma ControlKeepsInv(s: Session, control: Control, calls: set<Control>)
    requires Inv(s) && OneCall(control, calls, s.swap)
    ensures Inv(s.(control := control, calls := calls))
  {
    hide Accounted, InOrder, RightHarness, OneHarness, OneCall, OwnersOnly, Filtered, NoRepeat;
  }

  lemma {:induction false} StartControlKeepsInv(s: Session, kind: Control, now: int)
    requires Inv(s) && !kind.Free? && !kind.Swap?
    ensures Inv(StartControl(s, kind, now))
  {
    if InputHeld(s) {
      if s.setup.Some? {
        MarkKeepsInv(s, s.setup.value.(urgent := true), now);
        hide Inv, MaybeApplySetup;
      }
    } else if s.state.Idle? && s.control.Free? {
      ControlKeepsInv(s, kind, s.calls + {kind});
      hide Inv;
    }
  }

  lemma {:induction false} EndControlKeepsInv(s: Session, kind: Control)
    requires Inv(s)
    ensures Inv(EndControl(s, kind))
  {
    if !kind.Swap? && kind in s.calls {
      ControlKeepsInv(s, if s.control == kind then Free else s.control, s.calls - {kind});
      hide Inv;
    }
  }

  lemma {:induction false} PermissionKeepsInv(s: Session, request: string, allow: bool, who: string, now: int)
    requires Inv(s)
    ensures Inv(HandlePermission(s, request, allow, who, now))
  {
    if request in s.pending && MayDecide(s.answersFrom, allow, who) {
      var s1 := s.(pending := s.pending - {request}, allowed := if allow then s.allowed + [Allowed(who, s.answersFrom)] else s.allowed);
      AllowedKeepsInv(s, s1);
      assert SameBooks(s1, ResumeIfUnblocked(s1, now));
      SameBooksKeepInv(s1, ResumeIfUnblocked(s1, now));
      hide Inv;
    }
  }

  lemma AllowedKeepsInv(s: Session, s1: Session)
    requires Inv(s) && OwnersOnly(s1.allowed) && s1 == s.(pending := s1.pending, allowed := s1.allowed)
    ensures Inv(s1)
  {
    hide Accounted, InOrder, RightHarness, OneHarness, OneCall, OwnersOnly, Filtered, NoRepeat;
  }

  // ---- the swap -----------------------------------------------------------------------------

  /** What must hold for the `finally` of a swap to leave the invariant: its held
      input is gone or waits for another set-up, no harness but the session's
      runs, and it either applied its set-up or the session is over. */
  ghost predicate Settled(s: Session) {
    && Inv(s.(swap := None, control := Free, calls := {}))
    && s.control.Swap? && s.calls == {Swap}
  }

  lemma {:induction false} SettleKeepsInv(s: Session, now: int)
    requires Settled(s)
    ensures Inv(Settle(s, now))
  {
    var s1 := s.(swap := None, control := Free, calls := {});
    assert s.calls - {Swap} == {};
    if s.setup.Some? {
      MaybeApplyKeepsInv(s1, now);
      hide Inv, MaybeApplySetup;
    } else {
      hide Accounted, InOrder, RightHarness, OneHarness, OneCall, OwnersOnly, Filtered, NoRepeat;
    }
  }

  /** A swap that ends without applying its set-up leaves nothing held and the session over. */
  lemma OverIsSettled(s: Session)
    requires Inv(s) && s.swap.Some? && s.held == [] && (IsDone(s) || s.ending || s.shuttingDown)
    requires s.running <= {s.harness}
    ensures Settled(s)
  {
    hide Accounted, InOrder, RightHarness, OwnersOnly, Filtered, NoRepeat;
  }

  lemma {:induction false} FailKeepsInv(s: Session)
    requires Inv(s)
    ensures Inv(Fail(s)) && IsDone(Fail(s)) && Fail(s).held == []
    ensures Fail(s).swap == s.swap && Fail(s).running == s.running && Fail(s).harness == s.harness && Fail(s).shuttingDown == s.shuttingDown
  {
    DropHeldKeepsInv(s);
    var s1 := DropHeld(s);
    assert SameBooks(s1, Fail(s));
    SameBooksKeepInv(s1, Fail(s));
    hide Inv;
  }

  lemma StageKeepsInv(s: Session, stage: Stage, running: set<nat>)
    requires Inv(s) && s.swap.Some? && (stage.Stopping? ==> s.shuttingDown)
    requires OneHarness(running, s.harness, Some(s.swap.value.(stage := stage)))
    ensures Inv(s.(swap := Some(s.swap.value.(stage := stage)), running := running))
  {
    hide Accounted, InOrder, RightHarness, OneHarness, OwnersOnly, Filtered, NoRepeat;
  }

  lemma {:induction false} AfterRetireKeepsInv(s: Session, gone: bool, now: int)
    requires Inv(s) && At(s, Retiring)
    ensures Inv(AfterRetire(s, gone, now))
  {
    assert s.running <= {s.harness};
    if !gone {
      FailKeepsInv(s);
      StageKeepsInv(Fail(s), Exiting, s.running);
      hide Inv, Fail;
    } else {
      var s0 := s.(running := s.running - {s.harness}, tasks := 0);
      var s1 := SetState(s0, Idle, now);
      GoneKeepsInv(s, s.running - {s.harness});
      SetStateBooks(s0, Idle, now);
      SameBooksKeepInv(s0, s1);
      if s1.ending || s1.shuttingDown || IsDone(s1) {
        DropHeldKeepsInv(s1);
        var s2 := DropHeld(s1);
        var s3 := if IsDone(s2) then s2 else s2.(state := Ended);
        assert SameBooks(s2, s3);
        SameBooksKeepInv(s2, s3);
        OverIsSettled(s3);
        SettleKeepsInv(s3, now);
        hide Inv, Settle, Settled;
      } else {
        StageKeepsInv(s1, Constructing, s1.running + {s1.harness + 1});
        hide Inv;
      }
    }
  }

  lemma GoneKeepsInv(s: Session, running: set<nat>)
    requires Inv(s) && s.swap.Some? && running == {}
    ensures Inv(s.(running := running, tasks := 0))
  {
    hide Accounted, InOrder, RightHarness, OwnersOnly, Filtered, NoRepeat, OneCall;
  }

  lemma {:induction false} ReplayKeepsInv(s: Session, accepts: nat)
    requires Inv(s) && !s.shuttingDown && s.harness > 0
    requires forall i :: 0 <= i < |s.held| ==> s.held[i].harness < s.harness
    ensures Inv(ReplayHeld(s, accepts))
  {
    hide OneCall, OneHarness, OwnersOnly, NoRepeat, KeepsInput, ForgetHeld;
    var n := if accepts < |s.held| then accepts else |s.held|;
    var sent := Replayed(s.held[..n], s.harness, s.authorFilter);
    AccountedReplay(s, n, sent);
    hide Accounted, OneCall, OneHarness, OwnersOnly, NoRepeat, KeepsInput, ForgetHeld, Replayed;
    assert forall i :: 0 <= i < |sent| ==> sent[i] == Delivery(s.held[i], s.harness, s.authorFilter);
  }

  lemma {:induction false} AccountedReplay(s: Session, n: nat, sent: seq<Delivery>)
    requires Accounted(s.taken, s.held, s.delivered, s.dropped) && AscendingItems(s.held)
    requires n <= |s.held| == |s.held[..n]| + |s.held[n..]| && |sent| == n
    requires forall i :: 0 <= i < n ==> sent[i].item == s.held[i]
    ensures Accounted(s.taken, [], s.delivered + sent, s.dropped + s.held[n..])
  {
    var kept, gone := s.held[..n], s.held[n..];
    forall k: nat
      ensures HasDelivery(s.delivered + sent, k) <==> HasDelivery(s.delivered, k) || HasItem(kept, k)
      ensures HasItem(s.dropped + gone, k) <==> HasItem(s.dropped, k) || HasItem(gone, k)
      ensures HasItem(s.held, k) <==> HasItem(kept, k) || HasItem(gone, k)
      ensures !(HasItem(kept, k) && HasItem(gone, k))
    {
      HasDeliveryConcat(s.delivered, sent, k);
      HasConcat(s.dropped, gone, k);
      assert s.held == kept + gone;
      HasConcat(kept, gone, k);
      SentAreKept(s.held, n, sent, k);
    }
    NoneHas();
    hide HasItem, HasDelivery;
  }

  lemma SentAreKept(held: seq<Item>, n: nat, sent: seq<Delivery>, k: nat)
    requires AscendingItems(held) && n <= |held| && |sent| == n && forall i :: 0 <= i < n ==> sent[i].item == held[i]
    ensures HasDelivery(sent, k) <==> HasItem(held[..n], k)
    ensures !(HasItem(held[..n], k) && HasItem(held[n..], k))
  {
    if HasDelivery(sent, k) { var i :| 0 <= i < n && sent[i].item.no == k; assert held[..n][i].no == k; }
    if HasItem(held[..n], k) { var i :| 0 <= i < n && held[..n][i].no == k; assert sent[i].item.no == k; }
  }

  lemma {:induction false} InstalledKeepsInv(s: Session)
    requires Inv(s) && At(s, Constructing)
    ensures Inv(s.(harness := s.harness + 1, swap := Some(s.swap.value.(stage := Installed))))
    ensures forall i :: 0 <= i < |s.held| ==> s.held[i].harness < s.harness + 1
  {
    hide Accounted, InOrder, OwnersOnly, Filtered, NoRepeat;
  }

  lemma {:induction false} AppliedIsSettled(s: Session)
    requires Inv(s) && At(s, Installed) && !s.shuttingDown && (s.setup.None? ==> s.held == [])
    ensures Settled(s.(applied := Some(s.swap.value.setup.id)))
  {
    hide Accounted, InOrder, RightHarness, OwnersOnly, Filtered, NoRepeat;
  }

  lemma {:induction false} NotBuiltKeepsInv(s: Session, now: int)
    requires Inv(s) && At(s, Constructing)
    ensures Inv(Settle(Fail(s.(running := s.running - {s.harness + 1})), now))
  {
    var s1 := s.(running := s.running - {s.harness + 1});
    assert s1.running == {};
    FailKeepsInv(s);
    var s2 := Fail(s1);
    assert s2 == Fail(s).(running := {});
    NoneRunning(Fail(s));
    OverIsSettled(s2);
    SettleKeepsInv(s2, now);
    hide Inv, Settle, Settled, Fail;
  }

  lemma NoneRunning(s: Session)
    requires Inv(s)
    ensures Inv(s.(running := {}))
  {
    hide Accounted, InOrder, RightHarness, OwnersOnly, Filtered, NoRepeat, OneCall;
  }

  lemma {:induction false} AfterConstructKeepsInv(s: Session, built: bool, accepts: nat, now: int)
    requires Inv(s) && At(s, Constructing)
    ensures Inv(AfterConstruct(s, built, accepts, now))
  {
    if !built {
      NotBuiltKeepsInv(s, now);
      hide Inv, Settle, Fail;
    } else {
      var s1 := s.(harness := s.harness + 1, swap := Some(s.swap.value.(stage := Installed)));
      InstalledKeepsInv(s);
      if s1.ending || s1.shuttingDown {
        EndedInstalledKeepsInv(s1, now);
        hide Inv, Settle, DropHeld;
      } else {
        RunningInstalledKeepsInv(s1, accepts, now);
        hide Inv, Settle, ReplayHeld;
        assert ReplayHeld(s1.(applied := Some(s1.swap.value.setup.id)), accepts) ==
          ReplayHeld(s1, accepts).(applied := Some(s1.swap.value.setup.id)) by { ReplayFrame(s1, accepts); }
      }
    }
  }

  lemma ReplayFrame(s: Session, accepts: nat)
    requires s.swap.Some?
    ensures ReplayHeld(s.(applied := Some(s.swap.value.setup.id)), accepts) == ReplayHeld(s, accepts).(applied := Some(s.swap.value.setup.id))
  {}

  lemma {:induction false} EndedInstalledKeepsInv(s: Session, now: int)
    requires Inv(s) && At(s, Installed) && (s.ending || s.shuttingDown)
    ensures var s1 := DropHeld(s);
      Inv(if s1.shuttingDown then s1.(swap := Some(s1.swap.value.(stage := Stopping))) else Settle(s1, now))
  {
    var s1 := DropHeld(s);
    assert s.running <= {s.harness};
    DropHeldKeepsInv(s);
    if s1.shuttingDown {
      StageKeepsInv(s1, Stopping, s1.running);
      hide Inv;
    } else {
      OverIsSettled(s1);
      SettleKeepsInv(s1, now);
      hide Inv, Settle, Settled;
    }
  }

  lemma {:induction false} RunningInstalledKeepsInv(s: Session, accepts: nat, now: int)
    requires Inv(s) && At(s, Installed) && !s.shuttingDown && s.harness > 0
    requires forall i :: 0 <= i < |s.held| ==> s.held[i].harness < s.harness
    ensures var s1 := if s.setup.None? then ReplayHeld(s, accepts) else s;
      Inv(Settle(s1.(applied := Some(s.swap.value.setup.id)), now))
  {
    var s1 := if s.setup.None? then ReplayHeld(s, accepts) else s;
    ReplayKeepsInv(s, accepts);
    AppliedIsSettled(s1);
    SettleKeepsInv(s1.(applied := Some(s.swap.value.setup.id)), now);
    hide Inv, Settle, Settled;
  }

  lemma {:induction false} AfterStopKeepsInv(s: Session, threw: bool, now: int)
    requires Inv(s) && At(s, Stopping)
    ensures Inv(AfterStop(s, threw, now))
  {
    assert s.shuttingDown && s.running <= {s.harness};
    if threw {
      FailKeepsInv(s);
      OverIsSettled(Fail(s));
      SettleKeepsInv(Fail(s), now);
    } else {
      StoppedIsSettled(s);
      SettleKeepsInv(s, now);
    }
    hide Inv, Settle, Settled, Fail;
  }

  /** A daemon shutting down may leave input held that came while it stopped the new harness. */
  lemma StoppedIsSettled(s: Session)
    requires Inv(s) && At(s, Stopping)
    ensures Settled(s)
  {
    hide Accounted, InOrder, RightHarness, OwnersOnly, Filtered, NoRepeat;
  }

  // ---- every run ------------------------------------------------------------------------------

  lemma {:induction false} HarnessStepKeepsInv(s: Session, step: Step, now: int)
    requires Inv(s)
    requires step.HarnessState? || step.Ask? || step.Wait? || step.Wake? || step.Interrupt? || step.TaskCount?
    ensures Inv(Next(s, step, now))
  {
    var s' := Next(s, step, now);
    hide Inv, CancelParks;
    CancelParksBooks(s, false, now);
    assert SameBooks(s, s');
    SameBooksKeepInv(s, s');
  }

  lemma {:induction false} EndStepKeepsInv(s: Session, step: Step, now: int)
    requires Inv(s) && (step.End? || step.Undeliverable? || step.ShutDown?)
    ensures Inv(Next(s, step, now))
  {
    match step
    case End =>
      EndSessionKeepsInv(s, now);
      hide Inv, EndSession;
    case Undeliverable =>
      var s1 := s.(ending := true, pending := {});
      EndingKeepsInv(s);
      CancelParksBooks(s1, false, now);
      SameBooksKeepInv(s1, CancelParks(s1, false, now));
      hide Inv, CancelParks;
    case ShutDown =>
      var s1 := s.(shuttingDown := true);
      var s2 := s1.(pending := {});
      ShuttingDownKeepsInv(s);
      assert SameBooks(s1, s2);
      SameBooksKeepInv(s1, s2);
      CancelParksBooks(s2, false, now);
      SameBooksKeepInv(s2, CancelParks(s2, false, now));
      hide Inv, CancelParks;
  }

  lemma ShuttingDownKeepsInv(s: Session)
    requires Inv(s)
    ensures Inv(s.(shuttingDown := true))
  {
    hide Accounted, RightHarness, OneHarness, OneCall, OwnersOnly, Filtered, NoRepeat, AscendingItems,
        AscendingDeliveries, Before;
  }

  lemma {:induction false} StepKeepsInv(s: Session, step: Step, now: int)
    requires Inv(s)
    ensures Inv(Next(s, step, now))
  {
    hide Inv, HandleMessage, HandleSetup, MaybeApplySetup, StartControl, EndControl, HandlePermission, AfterRetire,
        AfterConstruct, AfterStop, SetState, CancelParks, EndSession, ResumeIfUnblocked;
    match step
    case Message(author, platform, id, accepts) => MessageKeepsInv(s, author, platform, id, accepts, now);
    case SetUp(setup) => SetupKeepsInv(s, setup.(receivedAt := now, signaled := false, urgent := false), now);
    case Apply(id) =>
      if s.setup.Some? && s.setup.value.id == id { MarkKeepsInv(s, s.setup.value.(signaled := true), now); }
    case Tick => MaybeApplyKeepsInv(s, now);
    case ControlStarts(kind) => if !kind.Free? && !kind.Swap? { StartControlKeepsInv(s, kind, now); }
    case ControlEnds(kind) => EndControlKeepsInv(s, kind);
    case Retired(gone) => if At(s, Retiring) { AfterRetireKeepsInv(s, gone, now); }
    case Constructed(built, takes) => if At(s, Constructing) { AfterConstructKeepsInv(s, built, takes, now); }
    case Stopped(threw) => if At(s, Stopping) { AfterStopKeepsInv(s, threw, now); }
    case Decide(request, allow, who) => PermissionKeepsInv(s, request, allow, who, now);
    case End => EndStepKeepsInv(s, step, now);
    case Undeliverable => EndStepKeepsInv(s, step, now);
    case ShutDown => EndStepKeepsInv(s, step, now);
    case _ => HarnessStepKeepsInv(s, step, now);
  }

  lemma StartKeepsInv()
    ensures Inv(Start)
  {}

  lemma {:induction false} RunKeepsInv(steps: seq<(Step, int)>)
    ensures Inv(Run(Start, steps))
    decreases |steps|
  {
    if steps == [] {
      StartKeepsInv();
    } else {
      RunKeepsInv(steps[..|steps| - 1]);
      StepKeepsInv(Run(Start, steps[..|steps| - 1]), steps[|steps| - 1].0, steps[|steps| - 1].1);
      hide Inv, Next;
    }
  }
}
