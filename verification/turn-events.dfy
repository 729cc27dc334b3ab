/**
 Turn identity (`agent-base/agentd/turn-events.mjs`) and the stamping half of
 the pusher's `emit`: which events one call queues, and which turn each names.
 */
module TurnEvents {
  import opened Wrappers
  import opened EventKinds

  type TurnId = string

  datatype Turns = Turns(active: Option<TurnId>, draining: Option<TurnId>)

  /** An event about to be queued: a bracket or file summary the pusher makes
      itself (`Notice`), or a caller's, with its serialization. */
  datatype Payload = Notice | Given(json: Option<string>)
  datatype Item = Item(kind: Kind, turn: Option<TurnId>, ephemeral: bool, payload: Payload)

  /** `implicitEventTurnId`: output of a draining turn keeps its identity. */
  function ImplicitTurn(t: Turns, kind: Kind): Option<TurnId> {
    if (kind.Sdk? || kind.TodoUpdated?) && t.draining.Some? then t.draining else t.active
  }

  /** The identity class: fields in place of the daemon's two `null`-able ids. */
  class TurnEventContext {
    var activeTurnId: Option<TurnId>
    var drainingTurnId: Option<TurnId>

    ghost function View(): Turns
      reads this
    {
      Turns(activeTurnId, drainingTurnId)
    }

    constructor ()
      ensures View() == Turns(None, None)
    {
      activeTurnId, drainingTurnId := None, None;
    }

    method Begin(newId: TurnId) returns (started: Option<TurnId>)
      modifies this
      ensures started == if old(activeTurnId).Some? then None else Some(newId)
      ensures View() == Turns(Some(old(activeTurnId.GetOr(newId))), old(drainingTurnId))
    {
      if activeTurnId.Some? { return None; }
      activeTurnId := Some(newId);
      return activeTurnId;
    }

    method Complete() returns (completed: Option<TurnId>)
      modifies this
      ensures completed == old(activeTurnId) && View() == Turns(None, old(drainingTurnId))
    {
      completed := activeTurnId;
      activeTurnId := None;
    }

    method Rotate(newId: TurnId) returns (completed: Option<TurnId>, started: Option<TurnId>)
      modifies this
      ensures completed == old(activeTurnId) && started == Some(newId)
      ensures View() == Turns(Some(newId), old(drainingTurnId))
    {
      completed := Complete();
      started := Begin(newId);
    }

    method StartDraining() returns (completed: Option<TurnId>)
      modifies this
      ensures completed == old(activeTurnId)
      ensures View() == Turns(None, if completed.Some? then completed else old(drainingTurnId))
    {
      completed := Complete();
      if completed.Some? { drainingTurnId := completed; }
    }

    method FinishDraining(turn: Option<TurnId>)
      modifies this
      ensures View() == Turns(old(activeTurnId), if old(drainingTurnId) == turn then None else old(drainingTurnId))
    {
      if drainingTurnId == turn { drainingTurnId := None; }
    }
  }

  // ---- what one call on the pusher queues -----------------------------------------------

  /** A call on the pusher. `turn` of `Emit` is the caller's explicit `null`
      when `unstamped`; `files` says the payload completed a file change. */
  datatype Call =
    | Begin(newId: TurnId)
    | Complete
    | Rotate(newId: TurnId)
    | StartDraining
    | FinishDraining(turn: Option<TurnId>)
    | Emit(kind: Kind, unstamped: bool, ephemeral: bool, json: Option<string>, files: bool)

  function Bracket(kind: Kind, turn: TurnId): Item { Item(kind, Some(turn), false, Notice) }

  function After(t: Turns, c: Call): Turns {
    match c
    case Begin(newId) => t.(active := Some(t.active.GetOr(newId)))
    case Complete => t.(active := None)
    case Rotate(newId) => t.(active := Some(newId))
    case StartDraining => Turns(None, if t.active.Some? then t.active else t.draining)
    case FinishDraining(turn) => if t.draining == turn then t.(draining := None) else t
    case Emit(kind, _, _, _, _) => if kind.IsTerminal() then t.(active := None) else t
  }

  /** The turn an emitted event is stamped with. */
  function Stamp(t: Turns, kind: Kind, unstamped: bool): Option<TurnId> {
    if unstamped || (kind.IsTerminal() && t.active.Some?) then None else ImplicitTurn(t, kind)
  }

  function Items(t: Turns, c: Call): seq<Item> {
    match c
    case Begin(newId) => if t.active.Some? then [] else [Bracket(TurnStarted, newId)]
    case Complete => Closing(t)
    case Rotate(newId) => Closing(t) + [Bracket(TurnStarted, newId)]
    case StartDraining => Closing(t)
    case FinishDraining(_) => []
    case Emit(kind, unstamped, ephemeral, json, files) =>
      (if kind.IsTerminal() then Closing(t) else []) + Stamped(kind, Stamp(t, kind, unstamped), ephemeral, json, files)
  }

  /** An event under its turn, with the file changes its payload completes. */
  function Stamped(kind: Kind, turn: Option<TurnId>, ephemeral: bool, json: Option<string>, files: bool): seq<Item> {
    [Item(kind, turn, ephemeral, Given(json))] +
    if files && turn.Some? then [Bracket(FilesChanged, turn.value)] else []
  }

  function Closing(t: Turns): seq<Item> {
    if t.active.Some? then [Bracket(TurnCompleted, t.active.value)] else []
  }
}

/**
 Turn brackets over every run of calls: what the emitted log looks like.
 */
module TurnBrackets {
  import opened Wrappers
  import opened EventKinds
  import opened TurnEvents

  /** An emitted event, with the turn that was draining when it was emitted and
      whether the call passed an explicit null for its turn. */
  datatype Entry = Entry(kind: Kind, turn: Option<TurnId>, draining: Option<TurnId>, unstamped: bool)

  /** `used` are the ids given out, `drains` the interrupts still under way, each
      by the id its `startDrainingTurn` returned. */
  datatype World = World(turns: Turns, used: set<TurnId>, log: seq<Entry>, drains: multiset<Option<TurnId>>)

  const Initial := World(Turns(None, None), {}, [], multiset{})

  predicate IsBracket(e: Entry) { e.kind.TurnStarted? || e.kind.TurnCompleted? }

  predicate Starts(e: Entry, t: TurnId) { e.kind.TurnStarted? && e.turn == Some(t) }

  predicate Completes(e: Entry, t: TurnId) { e.kind.TurnCompleted? && e.turn == Some(t) }

  /** Kinds that may come late, from a turn already closed but still draining. */
  predicate MayBeLate(kind: Kind) { kind.Sdk? || kind.TodoUpdated? || kind.FilesChanged? }

  /** Ids are fresh, an interrupt is finished once, and only the pusher makes
      brackets and file summaries: those come from `sdk.user` tool results. */
  predicate Enabled(w: World, c: Call) {
    match c
    case Begin(newId) => newId !in w.used
    case Rotate(newId) => newId !in w.used
    case FinishDraining(turn) => turn in w.drains
    case Emit(kind, _, _, _, files) =>
      !kind.TurnStarted? && !kind.TurnCompleted? && !kind.FilesChanged? && (files ==> kind.Sdk?)
    case _ => true
  }

  function Logged(items: seq<Item>, draining: Option<TurnId>, unstamped: bool): seq<Entry> {
    seq(|items|, i requires 0 <= i < |items| => Entry(items[i].kind, items[i].turn, draining, unstamped))
  }

  function NextLog(w: World, c: Call): seq<Entry> {
    w.log + Logged(Items(w.turns, c), w.turns.draining, c.Emit? && c.unstamped)
  }

  function NextDrains(w: World, c: Call): multiset<Option<TurnId>> {
    if c.StartDraining? then w.drains + multiset{w.turns.active}
    else if c.FinishDraining? then w.drains - multiset{c.turn}
    else w.drains
  }

  function Next(w: World, c: Call): World {
    World(After(w.turns, c), if c.Begin? || c.Rotate? then w.used + {c.newId} else w.used, NextLog(w, c), NextDrains(w, c))
  }

  // ---- reading a log --------------------------------------------------------------------

  /** A reader of the log: the turn it has open and the turns it saw closed, or
      `Broken` once an entry is out of place. */
  datatype Reader = Broken | Reading(open: Option<TurnId>, closed: set<TurnId>)

  function Read1(r: Reader, e: Entry): Reader {
    match r
    case Broken => Broken
    case Reading(open, closed) =>
      if e.kind.TurnStarted? then
        if e.turn.Some? && open.None? && e.turn.value !in closed then Reading(e.turn, closed) else Broken
      else if e.kind.TurnCompleted? then
        if e.turn.Some? && open == e.turn then Reading(None, closed + {e.turn.value}) else Broken
      else if e.kind.IsTerminal() && open.Some? then Broken
      else if e.turn.None? || e.turn == open then r
      else if MayBeLate(e.kind) && e.turn == e.draining && e.turn.value in closed then r
      else Broken
  }

  function Read(log: seq<Entry>): Reader {
    if log == [] then Reading(None, {}) else Read1(Read(log[..|log| - 1]), log[|log| - 1])
  }

  lemma {:induction false} ReadConcat(a: seq<Entry>, e: Entry)
    ensures Read(a + [e]) == Read1(Read(a), e)
  {
    assert (a + [e])[..|a|] == a;
  }

  predicate Inv(w: World) {
    && Read(w.log).Reading? && Read(w.log).open == w.turns.active
    && Read(w.log).closed <= w.used
    && (w.turns.active.Some? ==> w.turns.active.value in w.used)
    && (w.turns.active.Some? ==> w.turns.active.value !in Read(w.log).closed)
    && (w.turns.draining.Some? ==> w.turns.draining.value in Read(w.log).closed)
    && (w.turns.draining.Some? ==> w.turns.draining in w.drains)
  }

  lemma {:induction false} ReadTwo(a: seq<Entry>, x: Entry, y: Entry)
    ensures Read(a + [x, y]) == Read1(Read1(Read(a), x), y)
  {
    assert a + [x, y] == a + [x] + [y];
    ReadConcat(a + [x], y);
    ReadConcat(a, x);
  }

  /** Reading what one call emitted: one entry or two, in place after the log so far. */
  lemma {:induction false} ReadLogged(w: World, items: seq<Item>, unstamped: bool)
    requires |items| <= 2
    ensures Read(w.log + Logged(items, w.turns.draining, unstamped)) ==
      if |items| == 0 then Read(w.log)
      else if |items| == 1 then Read1(Read(w.log), Entry(items[0].kind, items[0].turn, w.turns.draining, unstamped))
      else Read1(Read1(Read(w.log), Entry(items[0].kind, items[0].turn, w.turns.draining, unstamped)),
          Entry(items[1].kind, items[1].turn, w.turns.draining, unstamped))
  {
    var es := Logged(items, w.turns.draining, unstamped);
    if |es| == 0 {
      assert w.log + es == w.log;
    } else if |es| == 1 {
      assert es == [es[0]];
      ReadConcat(w.log, es[0]);
    } else {
      assert es == [es[0], es[1]];
      ReadTwo(w.log, es[0], es[1]);
    }
  }

  /** After a call the reader agrees again with the turn the pusher has open. */
  ghost predicate Agrees(w: World, c: Call)
    requires Read(w.log).Reading?
  {
    var r := Read(NextLog(w, c));
    && r.Reading? && r.open == After(w.turns, c).active
    && r.closed == Read(w.log).closed +
         if c.Begin? || c.FinishDraining? || (c.Emit? && !c.kind.IsTerminal()) || w.turns.active.None? then {} else {w.turns.active.value}
  }

  lemma {:induction false} ReadClosing(w: World, c: Call)
    requires Inv(w) && Enabled(w, c) && (c.Complete? || c.StartDraining? || c.FinishDraining?)
    ensures Agrees(w, c)
  {
    hide Read, Logged, Stamp, Stamped;
    ReadLogged(w, Items(w.turns, c), false);
  }

  lemma {:induction false} ReadStarting(w: World, c: Call)
    requires Inv(w) && Enabled(w, c) && (c.Begin? || c.Rotate?)
    ensures Agrees(w, c)
  {
    hide Read, Logged, Stamp, Stamped;
    assert c.newId !in Read(w.log).closed;
    ReadLogged(w, Items(w.turns, c), false);
  }

  lemma {:induction false} ReadEmit(w: World, c: Call)
    requires Inv(w) && Enabled(w, c) && c.Emit?
    ensures Agrees(w, c)
  {
    hide Read, Logged;
    ReadLogged(w, Items(w.turns, c), c.unstamped);
  }

  /** A draining turn is one whose interrupt is still under way. */
  lemma StepKeepsDrains(w: World, c: Call)
    requires w.turns.draining.Some? ==> w.turns.draining in w.drains
    ensures var w' := Next(w, c); w'.turns.draining.Some? ==> w'.turns.draining in w'.drains
  {
    hide NextLog;
  }

  lemma {:induction false} StepKeepsInv(w: World, c: Call)
    requires Inv(w) && Enabled(w, c)
    ensures Inv(Next(w, c))
  {
    hide Items, Logged, Read, NextDrains, NextLog;
    StepKeepsDrains(w, c);
    if c.Emit? { ReadEmit(w, c); } else if c.Begin? || c.Rotate? { ReadStarting(w, c); } else { ReadClosing(w, c); }
  }

  predicate Legal(w: World, calls: seq<Call>)
    decreases |calls|
  {
    calls == [] || (Enabled(w, calls[0]) && Legal(Next(w, calls[0]), calls[1..]))
  }

  function Run(w: World, calls: seq<Call>): World
    requires Legal(w, calls)
    decreases |calls|
  {
    if calls == [] then w else Run(Next(w, calls[0]), calls[1..])
  }

  lemma {:induction false} RunKeepsInv(w: World, calls: seq<Call>)
    requires Inv(w) && Legal(w, calls)
    ensures Inv(Run(w, calls))
    decreases |calls|
  {
    if calls != [] {
      StepKeepsInv(w, calls[0]);
      RunKeepsInv(Next(w, calls[0]), calls[1..]);
    }
  }

  // ---- what a readable log says -----------------------------------------------------------

  /** Turn `t` is open just before entry `j`: it was started, and no bracket came since. */
  ghost predicate OpenAt(log: seq<Entry>, t: TurnId, j: nat)
    requires j <= |log|
  {
    exists i :: 0 <= i < j && Starts(log[i], t) && forall k :: i < k < j ==> !IsBracket(log[k])
  }

  ghost predicate ClosedBefore(log: seq<Entry>, t: TurnId, j: nat)
    requires j <= |log|
  {
    exists i :: 0 <= i < j && Completes(log[i], t)
  }

  /** Each turn is started once and completed at most once. */
  ghost predicate Once(log: seq<Entry>) {
    && (forall i, j, t :: 0 <= i < j < |log| && Starts(log[i], t) ==> !Starts(log[j], t))
    && (forall i, j, t :: 0 <= i < j < |log| && Completes(log[i], t) ==> !Completes(log[j], t))
  }

  /** A turn starts only when none is open, completes only when it is the open
      one, and a terminal event comes only when none is open. */
  ghost predicate Paired(log: seq<Entry>) {
    forall j :: 0 <= j < |log| ==>
      && (log[j].kind.TurnStarted? || log[j].kind.IsTerminal() ==> forall t :: !OpenAt(log, t, j))
      && (IsBracket(log[j]) ==> log[j].turn.Some?)
      && (log[j].kind.TurnCompleted? ==> OpenAt(log, log[j].turn.value, j))
  }

  /** A stamped event lies inside its turn's bracket, or is late output of a
      closed turn that was draining when it was emitted. */
  ghost predicate Inside(log: seq<Entry>) {
    forall j :: 0 <= j < |log| && !IsBracket(log[j]) && log[j].turn.Some? ==>
      OpenAt(log, log[j].turn.value, j) ||
      (MayBeLate(log[j].kind) && log[j].turn == log[j].draining && ClosedBefore(log, log[j].turn.value, j))
  }

  /** What the reader knows after `j` entries. */
  lemma {:induction false} ReaderIsRight(log: seq<Entry>, j: nat)
    requires j <= |log| && Read(log).Reading?
    ensures Read(log[..j]).Reading?
    ensures var r := Read(log[..j]);
      && (forall t :: r.open == Some(t) <==> OpenAt(log, t, j))
      && (forall t :: t in r.closed <==> ClosedBefore(log, t, j))
      && (forall i, t :: 0 <= i < j && Starts(log[i], t) ==> r.open == Some(t) || t in r.closed)
    decreases |log| + j
  {
    ReadingPrefix(log, j);
    if j > 0 {
      ReaderIsRight(log, j - 1);
      ReadStep(log, j);
      OpenStep(log, j);
      ClosedStep(log, j);
      hide Read, OpenAt, ClosedBefore;
    }
  }

  lemma ReadStep(log: seq<Entry>, j: nat)
    requires 0 < j <= |log|
    ensures Read(log[..j]) == Read1(Read(log[..j - 1]), log[j - 1])
  {
    assert log[..j][..j - 1] == log[..j - 1];
    hide Read1;
  }

  lemma {:induction false} ReadingPrefix(log: seq<Entry>, j: nat)
    requires j <= |log| && Read(log).Reading?
    ensures Read(log[..j]).Reading?
    decreases |log| - j
  {
    if j == |log| {
      assert log[..j] == log;
    } else {
      ReadingPrefix(log, j + 1);
      assert log[..j + 1][..j] == log[..j];
    }
  }

  /** How an entry changes which turn is open. */
  lemma OpenStep(log: seq<Entry>, j: nat)
    requires 0 < j <= |log|
    ensures forall t :: OpenAt(log, t, j) <==> if IsBracket(log[j - 1]) then Starts(log[j - 1], t) else OpenAt(log, t, j - 1)
  {}

  /** And which were closed. */
  lemma ClosedStep(log: seq<Entry>, j: nat)
    requires 0 < j <= |log|
    ensures forall t :: ClosedBefore(log, t, j) <==> ClosedBefore(log, t, j - 1) || Completes(log[j - 1], t)
  {}

  /** What entry `j` of a readable log met, in terms of the entries before it. */
  lemma {:induction false} Met(log: seq<Entry>, j: nat)
    requires j < |log| && Read(log).Reading?
    ensures var r := Read(log[..j]);
      && r.Reading? && Read1(r, log[j]).Reading?
      && (forall t :: r.open == Some(t) <==> OpenAt(log, t, j))
      && (forall t :: t in r.closed <==> ClosedBefore(log, t, j))
      && (forall i, t :: 0 <= i < j && Starts(log[i], t) ==> r.open == Some(t) || t in r.closed)
  {
    ReaderIsRight(log, j);
    ReadingPrefix(log, j + 1);
    assert log[..j + 1][..j] == log[..j];
  }

  lemma {:induction false} CompletedIsClosed(log: seq<Entry>, i: nat, j: nat)
    requires i < j < |log| && Read(log).Reading? && log[i].kind.TurnCompleted?
    ensures log[i].turn.Some? && ClosedBefore(log, log[i].turn.value, j)
  {
    Met(log, i);
    assert Completes(log[i], log[i].turn.value);
  }

  lemma {:induction false} ReadableIsOnce(log: seq<Entry>)
    requires Read(log).Reading?
    ensures Once(log)
  {
    forall i, j, t | 0 <= i < j < |log| && Starts(log[i], t) ensures !Starts(log[j], t) { Met(log, j); }
    forall i, j, t | 0 <= i < j < |log| && Completes(log[i], t) ensures !Completes(log[j], t) {
      Met(log, j);
      CompletedIsClosed(log, i, j);
      OpenIsNotClosed(log, j);
    }
  }

  lemma {:induction false} OpenIsNotClosed(log: seq<Entry>, j: nat)
    requires j <= |log| && Read(log).Reading?
    ensures var r := Read(log[..j]); r.Reading? && (r.open.Some? ==> r.open.value !in r.closed)
    decreases |log| + j
  {
    ReadingPrefix(log, j);
    if j > 0 {
      OpenIsNotClosed(log, j - 1);
      assert log[..j][..j - 1] == log[..j - 1];
    }
  }

  lemma {:induction false} ReadableIsPaired(log: seq<Entry>)
    requires Read(log).Reading?
    ensures Paired(log) && Inside(log)
  {
    forall j | 0 <= j < |log|
      ensures log[j].kind.TurnStarted? || log[j].kind.IsTerminal() ==> forall t :: !OpenAt(log, t, j)
      ensures IsBracket(log[j]) ==> log[j].turn.Some?
      ensures log[j].kind.TurnCompleted? ==> OpenAt(log, log[j].turn.value, j)
      ensures !IsBracket(log[j]) && log[j].turn.Some? ==>
        OpenAt(log, log[j].turn.value, j) ||
        (MayBeLate(log[j].kind) && log[j].turn == log[j].draining && ClosedBefore(log, log[j].turn.value, j))
    {
      Met(log, j);
    }
  }

  /** In every run of calls with fresh ids the emitted log is bracketed so, and once
      every interrupt has finished its drain no turn is draining, however the
      interrupts overlapped. */
  lemma TurnsAreBracketed(calls: seq<Call>)
    requires Legal(Initial, calls)
    ensures var w := Run(Initial, calls);
      Once(w.log) && Paired(w.log) && Inside(w.log) && (w.drains == multiset{} ==> w.turns.draining.None?)
  {
    RunKeepsInv(Initial, calls);
    ReadableIsOnce(Run(Initial, calls).log);
    ReadableIsPaired(Run(Initial, calls).log);
  }
}
