/**
 The rules of a set-up change, spelled out by field: whose input is taken, held
 and dropped, who may answer, when a set-up waits, expires or is swapped to, and
 how long a message's id is remembered.
 */
module SetupSwapRules {
  import opened Wrappers
  import opened SetupSwap
  import opened SetupSwapSafety
  import opened SetupSwapTheorems

  // ---- whose input ----------------------------------------------------------------------------

  /** Over every run everything held is from the platform or the member the filter in
      force names, if it names one; and so was every delivery under the filter in
      force then. */
  lemma OnlyFilteredInput(steps: seq<(Step, int)>)
    ensures var s := Run(Start, steps);
      && (forall i :: 0 <= i < |s.held| ==>
            s.authorFilter == "" || s.held[i].platform || s.held[i].author == s.authorFilter)
      && (forall i :: 0 <= i < |s.delivered| ==>
            var d := s.delivered[i]; d.filter == "" || d.item.platform || d.item.author == d.filter)
  {
    HeldInputIsConserved(steps);
    hide Run, Accounted, InOrder, RightHarness;
  }

  predicate IsOver(s: Session) { s.state == Ended || s.state == Error }

  /** A message is taken exactly if its id is not remembered, it is from the platform or
      the member the filter names, if it names one, and the session holds input and
      goes on, or holds none, is free, not over and its harness accepts. A message
      not taken changes nothing. */
  predicate Takes(s: Session, author: string, platform: bool, id: string, accepts: bool) {
    && (id == "" || id !in s.ids)
    && (s.authorFilter == "" || platform || author == s.authorFilter)
    && if s.setup.Some? || s.swap.Some? then !IsOver(s) && !s.ending else s.control == Free && !IsOver(s) && accepts
  }

  /** No apply came for the pending set-up in two minutes. */
  predicate IsLate(s: Session, now: int) {
    s.setup.Some? && !s.setup.value.signaled && now >= s.setup.value.receivedAt + 120000
  }

  /** What the callbacks of a message leave alone. */
  predicate SameInput(s: Session, s': Session) {
    s'.taken == s.taken && s'.held == s.held && s'.delivered == s.delivered && s'.dropped == s.dropped
  }

  lemma CancelParksInput(s: Session, onlyTasks: bool, now: int)
    ensures var s' := CancelParks(s, onlyTasks, now);
      SameInput(s, s') && s'.setup == s.setup && s'.ending == s.ending && (IsOver(s) <==> IsOver(s')) && s'.ids == s.ids
  {}

  lemma MaybeApplyInput(s: Session, now: int)
    requires s.setup.Some? ==> !IsOver(s) && !s.ending
    ensures var s' := MaybeApplySetup(s, now);
      && (!IsLate(s, now) ==> SameInput(s, s') && s'.ids == s.ids)
      && (IsLate(s, now) ==> s'.held == [] && s'.delivered == s.delivered && s'.dropped == s.dropped + s.held && s'.ending)
      && s'.taken == s.taken
  {
    CancelParksInput(s.(ending := true, pending := {}), false, now);
    hide CancelParks, ForgetHeld, ReadyToSwap;
  }

  lemma MessageIsTaken(s: Session, author: string, platform: bool, id: string, accepts: bool, now: int)
    ensures var s' := Next(s, Message(author, platform, id, accepts), now);
      if !Takes(s, author, platform, id, accepts) then s' == s
      else if s.setup.Some? || s.swap.Some? then Held(s, s', Item(s.taken, author, platform, id, true, s.harness), now)
      else Delivered(s, s', Item(s.taken, author, platform, id, false, s.harness))
  {
    MessageCases(s, author, platform, id, accepts, now);
    if Takes(s, author, platform, id, accepts) {
      if InputHeld(s) {
        HoldIsHeld(s, Item(s.taken, author, platform, id, true, s.harness), now);
      } else {
        CancelParksInput(Direct(s, Item(s.taken, author, platform, id, false, s.harness)), true, now);
      }
    }
    hide HandleMessage, HoldMessage, CancelParks, Takes, Held, Remember;
  }

  /** From `s` to `s'` the message was put last in what is held, or went with all of it
      where the set-up it would wait for is late. */
  predicate Held(s: Session, s': Session, item: Item, now: int) {
    && s'.taken == s.taken + 1 && s'.delivered == s.delivered
    && if IsLate(s, now) then s'.held == [] && s'.dropped == s.dropped + (s.held + [item])
       else s'.held == s.held + [item] && s'.dropped == s.dropped
  }

  /** It went to the session's harness, under the filter in force. */
  predicate Delivered(s: Session, s': Session, item: Item) {
    && s'.taken == s.taken + 1 && s'.held == s.held && s'.dropped == s.dropped
    && s'.delivered == s.delivered + [Delivery(item, s.harness, s.authorFilter)]
  }

  function Direct(s: Session, item: Item): Session {
    s.(taken := s.taken + 1, ids := Remember(s.ids, item.id),
       delivered := s.delivered + [Delivery(item, s.harness, s.authorFilter)])
  }

  lemma MessageCases(s: Session, author: string, platform: bool, id: string, accepts: bool, now: int)
    ensures var item := Item(s.taken, author, platform, id, InputHeld(s), s.harness);
      HandleMessage(s, author, platform, id, accepts, now) ==
        if !Takes(s, author, platform, id, accepts) then s
        else if InputHeld(s) then HoldMessage(s, item, now)
        else if platform then Direct(s, item) else CancelParks(Direct(s, item), true, now)
  {
    var item := Item(s.taken, author, platform, id, InputHeld(s), s.harness);
    hide HoldMessage, CancelParks, Remember, ForgetHeld;
    if IsDone(s) || s.ending { HoldRefuses(s, item, now); }
  }

  function Accepted(s: Session, item: Item): Session {
    s.(taken := s.taken + 1, held := s.held + [item], ids := Remember(s.ids, item.id))
  }

  lemma HoldShape(s: Session, item: Item, now: int)
    requires !IsOver(s) && !s.ending
    ensures HoldMessage(s, item, now) ==
      MaybeApplySetup(if item.platform then Accepted(s, item) else CancelParks(Accepted(s, item), true, now), now)
  {
    hide MaybeApplySetup, CancelParks, Remember;
  }

  lemma AcceptedGoesOn(s: Session, item: Item, now: int)
    requires !IsOver(s) && !s.ending
    ensures var s1 := Accepted(s, item); var s2 := if item.platform then s1 else CancelParks(s1, true, now);
      && s2.taken == s.taken + 1 && s2.held == s.held + [item] && s2.delivered == s.delivered && s2.dropped == s.dropped
      && (IsLate(s2, now) <==> IsLate(s, now)) && !IsOver(s2) && !s2.ending
  {
    CancelParksInput(Accepted(s, item), true, now);
    hide CancelParks, Remember;
  }

  lemma HoldIsHeld(s: Session, item: Item, now: int)
    requires !IsOver(s) && !s.ending
    ensures Held(s, HoldMessage(s, item, now), item, now)
  {
    hide MaybeApplySetup, HoldMessage, CancelParks, Accepted, IsLate, IsOver;
    HoldShape(s, item, now);
    AcceptedGoesOn(s, item, now);
    MaybeApplyInput(if item.platform then Accepted(s, item) else CancelParks(Accepted(s, item), true, now), now);
  }

  /** A set-up that is neither pending nor being swapped to nor applied is taken by a
      session that goes on: it puts its filter in force and drops exactly what is held
      of another member and not the platform's; nothing else of the input changes. Who
      it names answers alone; if it names no one, who did so during a change still does. */
  lemma SetupFilters(s: Session, setup: Setup, now: int)
    requires Inv(s)
    ensures var s' := Next(s, SetUp(setup), now);
      var has := (s.setup.Some? && s.setup.value.id == setup.id) || s.applied == Some(setup.id) ||
        (s.swap.Some? && s.swap.value.setup.id == setup.id);
      if IsOver(s) || s.ending || has then s' == s
      else
        && s'.authorFilter == setup.keepHeldFrom && s'.delivered == s.delivered && s'.taken == s.taken
        && s'.setup.Some? && s'.setup.value.id == setup.id && s'.setup.value.receivedAt == now && !s'.setup.value.signaled
        && s'.answersFrom == (if setup.answersFrom != "" then setup.answersFrom
                              else if s.setup.Some? || s.swap.Some? then s.answersFrom else "")
        && AscendingItems(s'.held)
        && (forall x :: x in s'.held <==>
              x in s.held && (setup.keepHeldFrom == "" || x.platform || x.author == setup.keepHeldFrom))
        && (forall x :: x in s'.dropped <==>
              x in s.dropped ||
              (x in s.held && setup.keepHeldFrom != "" && !x.platform && x.author != setup.keepHeldFrom))
  {
    if !(IsOver(s) || s.ending || Known(s, setup.id)) {
      SetupKeepsInv(s, setup.(receivedAt := now, signaled := false, urgent := false), now);
      HeldAscends(Next(s, SetUp(setup), now));
      TakenSetupWaits(s, setup.(receivedAt := now, signaled := false, urgent := false), now);
      hide HandleSetup, Inv;
    }
  }

  lemma HeldAscends(s: Session)
    requires Inv(s)
    ensures AscendingItems(s.held)
  {
    hide Accounted, RightHarness, OneHarness, OneCall, OwnersOnly, Filtered, LastRestart, HeldForSwap, NewSetup;
  }

  lemma TakenSetupWaits(s: Session, setup: Setup, now: int)
    requires !IsOver(s) && !s.ending && !Known(s, setup.id) && !setup.signaled && setup.receivedAt == now
    ensures var s' := HandleSetup(s, setup, now); var (kept, gone) := FilterHeld(s.held, setup.keepHeldFrom);
      && s'.authorFilter == setup.keepHeldFrom && s'.delivered == s.delivered && s'.taken == s.taken
      && s'.setup == Some(setup) && s'.held == kept && s'.dropped == s.dropped + gone
      && s'.answersFrom == (if setup.answersFrom != "" then setup.answersFrom
                            else if s.setup.Some? || s.swap.Some? then s.answersFrom else "")
  {
    hide FilterHeld, ForgetHeld, ReadyToSwap, EndSession, AbandonSetup;
  }

  // ---- when a set-up is swapped to ------------------------------------------------------------------

  /** An idle session, free, with nothing waiting on a person or a timer, where the
      set-up says stop, input is held, a caller waits, or no background task is left
      and it has been idle for a second. */
  predicate IsReady(s: Session, now: int) {
    && s.setup.Some? && s.state == Idle && s.control == Free && s.pending == {} && s.parks == {}
    && (s.setup.value.stop || s.held != [] || s.setup.value.urgent || (s.tasks == 0 && now >= s.idleSince + 1000))
  }

  /** What a tick of the clock does to a pending set-up, exactly: dropped on a session
      that is over or ending, ended when late, swapped to when its apply was signaled,
      no swap is under way and the session is ready, else left alone. */
  lemma TickDecides(s: Session, now: int)
    requires s.setup.Some?
    ensures var s' := Next(s, Tick, now);
      if IsOver(s) || s.ending then s'.setup.None? && s'.held == [] && s'.swap == s.swap && s'.state == s.state
      else if IsLate(s, now) then s'.setup.None? && s'.held == [] && s'.swap == s.swap && s'.ending
      else if s.setup.value.signaled && s.swap.None? && IsReady(s, now) then
        && s'.setup.None? && s'.swap == Some(Swapping(s.setup.value, Retiring)) && s'.control == Swap
        && s'.held == s.held && s'.restarts == s.restarts + [s.setup.value.id]
      else s' == s
  {
    CancelParksSwaps(s.(ending := true, pending := {}), now);
    hide CancelParks, ForgetHeld;
  }

  lemma CancelParksSwaps(s: Session, now: int)
    ensures var s' := CancelParks(s, false, now); s'.swap == s.swap && s'.ending == s.ending
  {}

  // ---- who may answer ---------------------------------------------------------------------------------

  /** A pending request is decided exactly if nobody is named to answer alone, the
      decision is no allow, or it is that member's; anything else changes nothing. */
  lemma DecidesExactly(s: Session, request: string, allow: bool, who: string, now: int)
    ensures var s' := Next(s, Decide(request, allow, who), now);
      if request in s.pending && (s.answersFrom == "" || !allow || who == s.answersFrom) then
        && s'.pending == s.pending - {request}
        && s'.allowed == (if allow then s.allowed + [Allowed(who, s.answersFrom)] else s.allowed)
        && (s.state == Blocked && s'.pending == {} && s.parks == {} ==> s'.state == Working)
      else s' == s
  {}

  // ---- how a swap ends ----------------------------------------------------------------------------------

  /** A harness built in a session that goes on is the session's from then on: its
      set-up is applied, and with no other set-up waiting it is given what is held, in
      order, until it refuses one; the rest is dropped. With one waiting all stays held. */
  lemma BuiltIsApplied(s: Session, takes: nat, now: int)
    requires At(s, Constructing) && !s.ending && !s.shuttingDown && !IsOver(s)
    requires !IsLate(s, now)
    ensures var s' := Next(s, Constructed(true, takes), now);
      && s'.harness == s.harness + 1 && s'.applied == Some(s.swap.value.setup.id)
      && (s.setup.None? ==>
            var n := if takes < |s.held| then takes else |s.held|;
            && s'.swap.None? && s'.control != Swap && s'.held == [] && s'.dropped == s.dropped + s.held[n..]
            && |s'.delivered| == |s.delivered| + n && s'.delivered[..|s.delivered|] == s.delivered
            && forall i :: 0 <= i < n ==>
                 s'.delivered[|s.delivered| + i] == Delivery(s.held[i], s.harness + 1, s.authorFilter))
      && (s.setup.Some? ==> s'.held == s.held && s'.delivered == s.delivered && s'.dropped == s.dropped)
  {
    var s1 := s.(harness := s.harness + 1, swap := Some(s.swap.value.(stage := Installed)),
                 applied := Some(s.swap.value.setup.id));
    if s.setup.Some? {
      MaybeApplyInput(s1.(swap := None, control := if s1.control.Swap? then Free else s1.control, calls := s1.calls - {Swap}),
                      now);
      MaybeApplyHarness(s1.(swap := None, control := if s1.control.Swap? then Free else s1.control,
          calls := s1.calls - {Swap}), now);
      hide MaybeApplySetup;
    } else {
      hide ForgetHeld;
    }
  }

  lemma MaybeApplyHarness(s: Session, now: int)
    ensures MaybeApplySetup(s, now).harness == s.harness && MaybeApplySetup(s, now).applied == s.applied
  {
    hide ForgetHeld, ReadyToSwap;
  }
}
