/**
 The session of `agent-base/agentd/server.mjs` in its own form: a record whose
 fields the request handlers and the swap update in place. Every method is
 tied to the step function of `SetupSwap` where its runs are reasoned about.
 */
module SessionServer {
  import opened Wrappers
  import S = SetupSwap

  method FilterHeld(held: seq<S.Item>, keepFrom: string) returns (kept: seq<S.Item>, dropped: seq<S.Item>)
    ensures (kept, dropped) == S.FilterHeld(held, keepFrom)
  {
    kept, dropped := [], [];
    for i := 0 to |held|
      invariant (kept, dropped) == S.FilterHeld(held[..i], keepFrom)
    {
      assert held[..i + 1][..i] == held[..i];
      if S.KeepsInput(keepFrom, held[i]) { kept := kept + [held[i]]; } else { dropped := dropped + [held[i]]; }
    }
    assert held[..|held|] == held;
  }

  class Session {
    var state: S.State
    var ending: bool
    var shuttingDown: bool
    var setup: Option<S.Setup>
    var swap: Option<S.Swapping>
    var appliedSetupId: Option<string>
    var controlBusy: S.Control
    var held: seq<S.Item>
    var messageIds: seq<string>
    var authorFilter: string
    var answersFrom: string
    var pending: set<string>
    var parks: set<S.Park>
    var idleSince: int
    var backgroundTasks: nat
    var driver: nat
    /** Numbers the messages taken, for the history below: see `SetupSwap.Session`. */
    var taken: nat
    ghost var delivered: seq<S.Delivery>
    ghost var dropped: seq<S.Item>
    ghost var running: set<nat>
    ghost var calls: set<S.Control>
    ghost var restarts: seq<string>
    ghost var allowed: seq<S.Allowed>

    ghost function View(): S.Session
      reads this
    {
      S.Session(
        state, ending, shuttingDown, setup, swap, appliedSetupId, controlBusy, held, messageIds, authorFilter, answersFrom,
        pending, parks, idleSince, backgroundTasks, driver, taken, delivered, dropped, running, calls, restarts, allowed)
    }

    constructor ()
      ensures View() == S.Start
    {
      state, ending, shuttingDown := S.Idle, false, false;
      setup, swap, appliedSetupId, controlBusy := None, None, None, S.Free;
      held, messageIds, authorFilter, answersFrom := [], [], "", "";
      pending, parks, idleSince, backgroundTasks, driver := {}, {}, 0, 0, 1;
      taken, delivered, dropped, running, calls, restarts, allowed := 0, [], [], {1}, {}, [], [];
    }

    predicate IsDone()
      reads this
    {
      state.Ended? || state.Error?
    }

    predicate InputHeld()
      reads this
    {
      setup.Some? || swap.Some?
    }

    method SetState(st: S.State, now: int)
      modifies `state, `idleSince
      ensures View() == S.SetState(old(View()), st, now)
    {
      if IsDone() || state == st { return; }
      state := st;
      if st.Idle? { idleSince := now; }
    }

    method CancelPendingParks(onlyTasks: bool, now: int)
      modifies this
      ensures View() == S.CancelParks(old(View()), onlyTasks, now)
    {
      var left := set p | p in parks && onlyTasks && !p.task;
      if left == parks { return; }
      parks := left;
      if state.Blocked? && pending == {} && parks == {} { SetState(S.Working, now); }
    }

    method ForgetHeld(items: seq<S.Item>)
      modifies `messageIds
      ensures messageIds == S.ForgetHeld(old(messageIds), items)
    {
      for i := 0 to |items|
        invariant messageIds == S.ForgetHeld(old(messageIds), items[..i])
      {
        assert items[..i + 1][..i] == items[..i];
        if items[i].id != "" { messageIds := S.Forget(messageIds, items[i].id); }
      }
      assert items[..|items|] == items;
    }

    method DropHeldFrom(keepFrom: string)
      modifies this
      ensures View() == S.DropHeldFrom(old(View()), keepFrom)
    {
      hide S.ForgetHeld, S.FilterHeld;
      var kept, gone := FilterHeld(held, keepFrom);
      if gone == [] {
        FilterKeepsAll(held, keepFrom);
        NothingForgotten(messageIds);
        return;
      }
      Drop(gone);
      held := kept;
    }

    method DropHeld()
      modifies this
      ensures View() == S.DropHeld(old(View()))
    {
      hide S.ForgetHeld;
      Drop(held);
      held := [];
    }

    method AbandonSetup()
      modifies this
      ensures View() == S.AbandonSetup(old(View()))
    {
      hide S.DropHeld;
      setup := None;
      answersFrom := "";
      DropHeld();
    }

    method EndSession(now: int)
      modifies this
      ensures View() == S.EndSession(old(View()), now)
    {
      hide S.CancelParks, S.AbandonSetup;
      ending := true;
      pending := {};
      CancelPendingParks(false, now);
      AbandonSetup();
    }

    /** `applySetup` up to its first await. */
    method ApplySetup()
      requires setup.Some?
      modifies this
      ensures View() == S.StartSwap(old(View()), old(setup).value)
    {
      var pendingSetup := setup.value;
      setup, swap := None, Some(S.Swapping(pendingSetup, S.Retiring));
      controlBusy := S.Swap;
      calls, restarts := calls + {S.Swap}, restarts + [pendingSetup.id];
    }

    method MaybeApplySetup(now: int)
      modifies this
      ensures View() == S.MaybeApplySetup(old(View()), now)
    {
      hide S.AbandonSetup, S.EndSession, S.StartSwap;
      if setup.None? { return; }
      if IsDone() || ending {
        AbandonSetup();
      } else if S.SetupExpired(setup.value, now) {
        EndSession(now);
      } else if swap.None? && setup.value.signaled && ReadyToSwap(setup.value, now) {
        ApplySetup();
      }
    }

    predicate ReadyToSwap(due: S.Setup, now: int)
      reads this
    {
      && !ending && state.Idle? && controlBusy.Free? && pending == {} && parks == {}
      && (due.stop || held != [] || due.urgent || (backgroundTasks == 0 && now - idleSince >= S.SETUP_IDLE_SETTLE_MS))
    }

    method Accept(item: S.Item)
      modifies this
      ensures View() == old(View()).(
        taken := old(taken) + 1, ids := S.Remember(old(messageIds), item.id),
        delivered := old(delivered) + [S.Delivery(item, old(driver), old(authorFilter))])
    {
      messageIds := S.Remember(messageIds, item.id);
      taken, delivered := taken + 1, delivered + [S.Delivery(item, driver, authorFilter)];
    }

    method HandleMessage(author: string, platform: bool, id: string, accepts: bool, now: int)
      modifies this
      ensures View() == S.HandleMessage(old(View()), author, platform, id, accepts, now)
    {
      hide S.HoldMessage, S.CancelParks, S.Remember;
      if id != "" && id in messageIds { return; }
      var item := S.Item(taken, author, platform, id, InputHeld(), driver);
      if !S.KeepsInput(authorFilter, item) { return; }
      if InputHeld() {
        HoldMessage(item, now);
        return;
      }
      if !controlBusy.Free? || IsDone() || !accepts { return; }
      Accept(item);
      if !platform { CancelPendingParks(true, now); }
    }

    method Hold(item: S.Item)
      modifies this
      ensures View() == old(View()).(taken := old(taken) + 1, held := old(held) + [item],
          ids := S.Remember(old(messageIds), item.id))
    {
      held := held + [item];
      taken := taken + 1;
      messageIds := S.Remember(messageIds, item.id);
    }

    method HoldMessage(item: S.Item, now: int)
      modifies this
      ensures View() == S.HoldMessage(old(View()), item, now)
    {
      hide S.MaybeApplySetup, S.CancelParks, S.Remember;
      if IsDone() || ending { return; }
      Hold(item);
      if !item.platform { CancelPendingParks(true, now); }
      MaybeApplySetup(now);
    }

    method TakeSetup(due: S.Setup)
      modifies this
      ensures View() == old(View()).(
        answersFrom := if due.answersFrom != "" then due.answersFrom else if old(InputHeld()) then old(answersFrom) else "",
        setup := Some(due), authorFilter := due.keepHeldFrom)
    {
      if due.answersFrom != "" { answersFrom := due.answersFrom; } else if !InputHeld() { answersFrom := ""; }
      setup := Some(due);
      authorFilter := due.keepHeldFrom;
    }

    predicate Known(id: string)
      reads this
    {
      || (setup.Some? && setup.value.id == id)
      || (swap.Some? && swap.value.setup.id == id)
      || appliedSetupId == Some(id)
    }

    method HandleSetup(due: S.Setup, now: int)
      modifies this
      ensures View() == S.HandleSetup(old(View()), due, now)
    {
      hide S.MaybeApplySetup, S.DropHeldFrom;
      if IsDone() || ending || Known(due.id) { return; }
      TakeSetup(due);
      DropHeldFrom(due.keepHeldFrom);
      MaybeApplySetup(now);
    }

    method HandleSetupApply(id: string, now: int)
      modifies this
      ensures View() == S.HandleSetupApply(old(View()), id, now)
    {
      hide S.MaybeApplySetup;
      if setup.Some? && setup.value.id == id {
        setup := Some(setup.value.(signaled := true));
        MaybeApplySetup(now);
      }
    }

    /** The gate of a command, the shell, a model switch or a compaction, and the
        reservation `withControl` takes before the call's first await. */
    method StartControl(kind: S.Control, now: int) returns (reserved: bool)
      modifies this
      ensures View() == S.StartControl(old(View()), kind, now)
      ensures reserved <==> !old(InputHeld()) && old(state).Idle? && old(controlBusy).Free?
    {
      hide S.MaybeApplySetup;
      if InputHeld() {
        if setup.Some? {
          setup := Some(setup.value.(urgent := true));
          MaybeApplySetup(now);
        }
        return false;
      }
      if !state.Idle? || !controlBusy.Free? { return false; }
      controlBusy := kind;
      calls := calls + {kind};
      return true;
    }

    method ReleaseControl(kind: S.Control)
      requires !kind.Swap? && kind in calls
      modifies this
      ensures View() == S.EndControl(old(View()), kind)
    {
      if controlBusy == kind { controlBusy := S.Free; }
      calls := calls - {kind};
    }

    method HandlePermission(request: string, allow: bool, who: string, now: int)
      modifies this
      ensures View() == S.HandlePermission(old(View()), request, allow, who, now)
    {
      hide S.SetState;
      if request !in pending { return; }
      if !(answersFrom == "" || !allow || who == answersFrom) { return; }
      pending := pending - {request};
      if allow { allowed := allowed + [S.Allowed(who, answersFrom)]; }
      if state.Blocked? && pending == {} && parks == {} { SetState(S.Working, now); }
    }

    method Deliver(item: S.Item)
      modifies `delivered
      ensures delivered == old(delivered) + [S.Delivery(item, driver, authorFilter)]
    {
      delivered := delivered + [S.Delivery(item, driver, authorFilter)];
    }

    method Drop(items: seq<S.Item>)
      modifies this
      ensures View() == old(View()).(ids := S.ForgetHeld(old(messageIds), items), dropped := old(dropped) + items)
    {
      hide S.ForgetHeld;
      ForgetHeld(items);
      dropped := dropped + items;
    }

    /** Gives `items` to the harness until it refuses one: how many it took. */
    method DeliverAll(items: seq<S.Item>, accepts: nat) returns (n: nat)
      modifies this
      ensures n == if accepts < |items| then accepts else |items|
      ensures View() == old(View()).(delivered := old(delivered) + S.Replayed(items[..n], old(driver), old(authorFilter)))
    {
      n := 0;
      while n < |items| && n < accepts
        invariant n <= |items| && n <= accepts
        invariant View() == old(View()).(delivered := delivered)
        invariant delivered == old(delivered) + S.Replayed(items[..n], driver, authorFilter)
      {
        assert items[..n + 1] == items[..n] + [items[n]];
        Deliver(items[n]);
        n := n + 1;
      }
    }

    /** Hands the held input to the new harness, which takes `accepts` of it. */
    method ReplayHeld(accepts: nat)
      modifies this
      ensures View() == S.ReplayHeld(old(View()), accepts)
    {
      hide S.ForgetHeld, S.Replayed;
      var items := held;
      held := [];
      var n := DeliverAll(items, accepts);
      Drop(items[n..]);
    }

    method ReleaseSwap()
      modifies this
      ensures View() == old(View()).(swap := None, control := if old(controlBusy).Swap? then S.Free else old(controlBusy), calls := old(calls) - {S.Swap})
    {
      swap := None;
      calls := calls - {S.Swap};
      if controlBusy.Swap? { controlBusy := S.Free; }
    }

    /** The `finally` of `applySetup`. */
    method Settle(now: int)
      modifies this
      ensures View() == S.Settle(old(View()), now)
    {
      hide S.MaybeApplySetup;
      ReleaseSwap();
      if setup.Some? { MaybeApplySetup(now); } else { answersFrom := ""; }
    }

    method FailSetup()
      modifies this
      ensures View() == S.Fail(old(View()))
    {
      hide S.DropHeld;
      DropHeld();
      if !IsDone() { state := S.Error; }
    }

    /** The old harness is gone, and its background tasks with it. */
    method WoundDown(now: int)
      modifies this
      ensures View() == S.SetState(old(View()).(running := old(running) - {old(driver)}, tasks := 0), S.Idle, now)
    {
      running := running - {driver};
      backgroundTasks := 0;
      if !IsDone() && !state.Idle? { SetState(S.Idle, now); }
    }

    method EndNeverStarted()
      modifies `state
      ensures View() == if S.IsDone(old(View())) then old(View()) else old(View()).(state := S.Ended)
    {
      if !IsDone() { state := S.Ended; }
    }

    /** `applySetup` once `retireDriver` has answered. */
    method AfterRetire(gone: bool, now: int)
      requires swap.Some?
      modifies this
      ensures View() == S.AfterRetire(old(View()), gone, now)
    {
      hide S.Settle, S.Fail, S.DropHeld, S.SetState;
      var swapped := swap.value.setup;
      if !gone {
        FailSetup();
        swap := Some(S.Swapping(swapped, S.Exiting));
        return;
      }
      WoundDown(now);
      if ending || shuttingDown || IsDone() {
        DropHeld();
        EndNeverStarted();
        Settle(now);
        return;
      }
      KeepsSwap(old(View()), now);
      swap := Some(S.Swapping(swapped, S.Constructing));
      running := running + {driver + 1};
    }

    method NotBuilt(now: int)
      modifies this
      ensures View() == S.Settle(S.Fail(old(View()).(running := old(running) - {old(driver) + 1})), now)
    {
      hide S.Settle, S.Fail;
      running := running - {driver + 1};
      FailSetup();
      Settle(now);
    }

    method Install(swapped: S.Setup)
      modifies this
      ensures View() == old(View()).(harness := old(driver) + 1, swap := Some(S.Swapping(swapped, S.Installed)))
    {
      driver := driver + 1;
      swap := Some(S.Swapping(swapped, S.Installed));
    }

    /** The new harness is up, but the session or the daemon is ending. */
    method StopInstalled(swapped: S.Setup, now: int)
      requires swap == Some(S.Swapping(swapped, S.Installed))
      modifies this
      ensures var s := S.DropHeld(old(View()));
        View() == if s.shuttingDown then s.(swap := Some(S.Swapping(swapped, S.Stopping))) else S.Settle(s, now)
    {
      hide S.Settle, S.ForgetHeld;
      DropHeld();
      if shuttingDown { swap := Some(S.Swapping(swapped, S.Stopping)); } else { Settle(now); }
    }

    /** `applySetup` once `constructDriver` has answered. */
    method AfterConstruct(built: bool, accepts: nat, now: int)
      requires swap.Some?
      modifies this
      ensures View() == S.AfterConstruct(old(View()), built, accepts, now)
    {
      hide S.Settle, S.Fail, S.ReplayHeld, S.ForgetHeld;
      var swapped := swap.value.setup;
      if !built {
        NotBuilt(now);
      } else {
        Install(swapped);
        if ending || shuttingDown {
          StopInstalled(swapped, now);
        } else {
          appliedSetupId := Some(swapped.id);
          if setup.None? { ReplayHeld(accepts); }
          Settle(now);
        }
      }
    }

    /** `applySetup` once the new harness was stopped again. */
    method AfterStop(threw: bool, now: int)
      modifies this
      ensures View() == S.AfterStop(old(View()), threw, now)
    {
      hide S.Settle, S.Fail;
      if threw { FailSetup(); }
      Settle(now);
    }
  }

  lemma {:induction false} FilterKeepsAll(held: seq<S.Item>, keepFrom: string)
    requires S.FilterHeld(held, keepFrom).1 == []
    ensures S.FilterHeld(held, keepFrom).0 == held
  {
    if held != [] { FilterKeepsAll(held[..|held| - 1], keepFrom); }
  }

  lemma NothingForgotten(ids: seq<string>)
    ensures S.ForgetHeld(ids, []) == ids
  {}

  lemma KeepsSwap(s: S.Session, now: int)
    ensures var s' := S.SetState(s.(running := s.running - {s.harness}, tasks := 0), S.Idle, now);
      s'.swap == s.swap && s'.harness == s.harness
  {}
}
