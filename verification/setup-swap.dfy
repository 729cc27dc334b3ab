/**
 Live set-up change: holding input and swapping the harness of a running
 session, as `agent-base/agentd/server.mjs` does it with the rules of
 `session-setup.mjs` and the reservation of `session-control.mjs`.

 One step is the code between two awaits. What the harness and the callers do,
 and the clock, are arguments of the steps. A harness is known by the order
 it was built in. The session starts with its first harness up.
 */
module SetupSwap {
  import opened Wrappers

  const SETUP_APPLY_FALLBACK_MS := 120000
  const SETUP_IDLE_SETTLE_MS := 1000
  const RECENT_MESSAGE_IDS: nat := 256

  datatype State = Idle | Working | Blocked | Ended | Error
  datatype Control = Free | Swap | Command | Shell | Model | Compact

  /** Accepted input: its arrival number, and the harness that ran when it came. */
  datatype Item = Item(no: nat, author: string, platform: bool, id: string, held: bool, harness: nat)

  datatype Setup = Setup(
    id: string, keepHeldFrom: string, answersFrom: string, stop: bool, receivedAt: int, signaled: bool, urgent: bool)

  /** Where `applySetup` is: suspended at `retireDriver`, at `constructDriver`, at
      `shutdownStop` or at the drain of a daemon about to exit, or running with
      the new harness in place. */
  datatype Stage = Retiring | Constructing | Installed | Stopping | Exiting
  datatype Swapping = Swapping(setup: Setup, stage: Stage)

  datatype Park = Park(id: string, task: bool)

  /** What a harness was given, and the author filter in force then. */
  datatype Delivery = Delivery(item: Item, harness: nat, filter: string)

  /** An allowed permission request: by whom, and who alone could allow it then. */
  datatype Allowed = Allowed(who: string, answersFrom: string)

  /** The session record. From `taken` on it is history: how much input was
      accepted, what was delivered and dropped, which harnesses may be running,
      which control calls are under way, the set-ups swapped to, what was allowed. */
  datatype Session = Session(
    state: State, ending: bool, shuttingDown: bool,
    setup: Option<Setup>, swap: Option<Swapping>, applied: Option<string>,
    control: Control, held: seq<Item>, ids: seq<string>,
    authorFilter: string, answersFrom: string,
    pending: set<string>, parks: set<Park>, idleSince: int, tasks: nat, harness: nat,
    taken: nat, delivered: seq<Delivery>, dropped: seq<Item>,
    running: set<nat>, calls: set<Control>, restarts: seq<string>, allowed: seq<Allowed>)

  predicate IsDone(s: Session) { s.state.Ended? || s.state.Error? }

  predicate InputHeld(s: Session) { s.setup.Some? || s.swap.Some? }

  // ---- the pure rules -----------------------------------------------------------------

  predicate KeepsInput(keepFrom: string, item: Item) { keepFrom == "" || item.platform || item.author == keepFrom }

  predicate MayDecide(answersFrom: string, allow: bool, who: string) { answersFrom == "" || !allow || who == answersFrom }

  predicate SetupExpired(setup: Setup, now: int) { !setup.signaled && now - setup.receivedAt >= SETUP_APPLY_FALLBACK_MS }

  predicate ReadyToSwap(s: Session, setup: Setup, now: int) {
    && !s.ending && s.state.Idle? && s.control.Free? && s.pending == {} && s.parks == {}
    && (setup.stop || s.held != [] || setup.urgent || (s.tasks == 0 && now - s.idleSince >= SETUP_IDLE_SETTLE_MS))
  }

  /** `filterHeld`: what survives, and what does not. */
  function FilterHeld(held: seq<Item>, keepFrom: string): (r: (seq<Item>, seq<Item>))
    ensures forall x :: x in r.0 <==> x in held && KeepsInput(keepFrom, x)
    ensures forall x :: x in r.1 <==> x in held && !KeepsInput(keepFrom, x)
  {
    if held == [] then ([], [])
    else
      var (kept, dropped) := FilterHeld(held[..|held| - 1], keepFrom);
      var last := held[|held| - 1];
      if KeepsInput(keepFrom, last) then (kept + [last], dropped) else (kept, dropped + [last])
  }

  // ---- the ids lately taken -----------------------------------------------------------

  function Forget(ids: seq<string>, id: string): (r: seq<string>)
    ensures forall x :: x in r <==> x in ids && x != id
  {
    if ids == [] then [] else (if ids[0] == id then [] else [ids[0]]) + Forget(ids[1..], id)
  }

  function Remember(ids: seq<string>, id: string): seq<string> {
    if id == "" then ids
    else
      var all := Forget(ids, id) + [id];
      if |all| > RECENT_MESSAGE_IDS then all[|all| - RECENT_MESSAGE_IDS..] else all
  }

  function ForgetHeld(ids: seq<string>, items: seq<Item>): (r: seq<string>)
    ensures forall x :: x in r ==> x in ids
    ensures forall i :: 0 <= i < |items| ==> items[i].id == "" || items[i].id !in r
  {
    if items == [] then ids
    else
      var last := items[|items| - 1];
      var r := ForgetHeld(ids, items[..|items| - 1]);
      if last.id == "" then r else Forget(r, last.id)
  }

  // ---- states, permissions and parks ----------------------------------------------------

  function SetState(s: Session, state: State, now: int): Session {
    if IsDone(s) || s.state == state then s
    else s.(state := state, idleSince := if state.Idle? then now else s.idleSince)
  }

  function ResumeIfUnblocked(s: Session, now: int): Session {
    if s.state.Blocked? && s.pending == {} && s.parks == {} then SetState(s, Working, now) else s
  }

  /** Cancels every park, or only the waits for a task. */
  function CancelParks(s: Session, onlyTasks: bool, now: int): Session {
    var left := set p | p in s.parks && onlyTasks && !p.task;
    if left == s.parks then s else ResumeIfUnblocked(s.(parks := left), now)
  }

  // ---- holding and dropping ---------------------------------------------------------------

  function DropHeldFrom(s: Session, keepFrom: string): Session {
    var (kept, dropped) := FilterHeld(s.held, keepFrom);
    s.(held := kept, ids := ForgetHeld(s.ids, dropped), dropped := s.dropped + dropped)
  }

  function DropHeld(s: Session): Session {
    s.(held := [], ids := ForgetHeld(s.ids, s.held), dropped := s.dropped + s.held)
  }

  function AbandonSetup(s: Session): Session { DropHeld(s.(setup := None, answersFrom := "")) }

  function EndSession(s: Session, now: int): Session {
    AbandonSetup(CancelParks(s.(ending := true, pending := {}), false, now))
  }

  /** `applySetup` up to its first await. */
  function StartSwap(s: Session, setup: Setup): Session {
    s.(setup := None, swap := Some(Swapping(setup, Retiring)), control := Swap,
       calls := s.calls + {Swap}, restarts := s.restarts + [setup.id])
  }

  function MaybeApplySetup(s: Session, now: int): Session {
    if s.setup.None? then s
    else if IsDone(s) || s.ending then AbandonSetup(s)
    else if SetupExpired(s.setup.value, now) then EndSession(s, now)
    else if s.swap.Some? || !s.setup.value.signaled || !ReadyToSwap(s, s.setup.value, now) then s
    else StartSwap(s, s.setup.value)
  }

  // ---- requests ---------------------------------------------------------------------------

  /** `handleMessage`; `accepts` is the harness's answer to `queueMessage`. */
  function HandleMessage(s: Session, author: string, platform: bool, id: string, accepts: bool, now: int): Session {
    var item := Item(s.taken, author, platform, id, InputHeld(s), s.harness);
    if id != "" && id in s.ids then s
    else if !KeepsInput(s.authorFilter, item) then s
    else if InputHeld(s) then HoldMessage(s, item, now)
    else if !s.control.Free? || IsDone(s) || !accepts then s
    else
      var s := s.(taken := s.taken + 1, ids := Remember(s.ids, id),
                  delivered := s.delivered + [Delivery(item, s.harness, s.authorFilter)]);
      if platform then s else CancelParks(s, true, now)
  }

  function HoldMessage(s: Session, item: Item, now: int): Session {
    if IsDone(s) || s.ending then s
    else
      var s := s.(taken := s.taken + 1, held := s.held + [item], ids := Remember(s.ids, item.id));
      MaybeApplySetup(if item.platform then s else CancelParks(s, true, now), now)
  }

  /** The set-up is one the session already has: pending, being swapped to, or applied. */
  predicate Known(s: Session, id: string) {
    || (s.setup.Some? && s.setup.value.id == id)
    || (s.swap.Some? && s.swap.value.setup.id == id)
    || s.applied == Some(id)
  }

  function HandleSetup(s: Session, setup: Setup, now: int): Session {
    if IsDone(s) || s.ending || Known(s, setup.id) then s
    else
      var answersFrom := if setup.answersFrom != "" then setup.answersFrom else if InputHeld(s) then s.answersFrom else "";
      var s := s.(answersFrom := answersFrom, setup := Some(setup), authorFilter := setup.keepHeldFrom);
      MaybeApplySetup(DropHeldFrom(s, setup.keepHeldFrom), now)
  }

  function HandleSetupApply(s: Session, id: string, now: int): Session {
    if s.setup.Some? && s.setup.value.id == id then MaybeApplySetup(s.(setup := Some(s.setup.value.(signaled := true))), now)
    else s
  }

  /** A command, the shell, a model switch or a compaction, up to its first await. */
  function StartControl(s: Session, kind: Control, now: int): Session {
    if InputHeld(s) then
      if s.setup.Some? then MaybeApplySetup(s.(setup := Some(s.setup.value.(urgent := true))), now) else s
    else if !s.state.Idle? || !s.control.Free? then s
    else s.(control := kind, calls := s.calls + {kind})
  }

  /** Its release, when it settles or, for a command, when its turn ends. */
  function EndControl(s: Session, kind: Control): Session {
    if kind.Swap? || kind !in s.calls then s
    else s.(control := if s.control == kind then Free else s.control, calls := s.calls - {kind})
  }

  function HandlePermission(s: Session, request: string, allow: bool, who: string, now: int): Session {
    if request !in s.pending || !MayDecide(s.answersFrom, allow, who) then s
    else
      var s := s.(pending := s.pending - {request}, allowed := if allow then s.allowed + [Allowed(who, s.answersFrom)] else s.allowed);
      ResumeIfUnblocked(s, now)
  }

  // ---- the swap ---------------------------------------------------------------------------

  /** The held input goes to the new harness, in order, until it refuses one. */
  function ReplayHeld(s: Session, accepts: nat): Session {
    var n := if accepts < |s.held| then accepts else |s.held|;
    s.(held := [], delivered := s.delivered + Replayed(s.held[..n], s.harness, s.authorFilter),
       ids := ForgetHeld(s.ids, s.held[n..]), dropped := s.dropped + s.held[n..])
  }

  function Replayed(items: seq<Item>, harness: nat, filter: string): (r: seq<Delivery>)
    ensures |r| == |items|
    ensures forall i :: 0 <= i < |r| ==> r[i] == Delivery(items[i], harness, filter)
  {
    seq(|items|, i requires 0 <= i < |items| => Delivery(items[i], harness, filter))
  }

  /** The `finally` of `applySetup`. */
  function Settle(s: Session, now: int): Session {
    var s := s.(swap := None, control := if s.control.Swap? then Free else s.control, calls := s.calls - {Swap});
    if s.setup.Some? then MaybeApplySetup(s, now) else s.(answersFrom := "")
  }

  function Fail(s: Session): Session {
    var s := DropHeld(s);
    if IsDone(s) then s else s.(state := Error)
  }

  /** `retireDriver` has answered. */
  function AfterRetire(s: Session, gone: bool, now: int): Session
    requires s.swap.Some?
  {
    if !gone then Fail(s).(swap := Some(s.swap.value.(stage := Exiting)))
    else
      var s := SetState(s.(running := s.running - {s.harness}, tasks := 0), Idle, now);
      if s.ending || s.shuttingDown || IsDone(s) then
        var s := DropHeld(s);
        Settle(if IsDone(s) then s else s.(state := Ended), now)
      else s.(swap := Some(s.swap.value.(stage := Constructing)), running := s.running + {s.harness + 1})
  }

  /** `constructDriver` has answered; the new harness takes `accepts` of the held messages. */
  function AfterConstruct(s: Session, built: bool, accepts: nat, now: int): Session
    requires s.swap.Some?
  {
    if !built then Settle(Fail(s.(running := s.running - {s.harness + 1})), now)
    else
      var s := s.(harness := s.harness + 1, swap := Some(s.swap.value.(stage := Installed)));
      if s.ending || s.shuttingDown then
        var s := DropHeld(s);
        if s.shuttingDown then s.(swap := Some(s.swap.value.(stage := Stopping))) else Settle(s, now)
      else
        var s := s.(applied := Some(s.swap.value.setup.id));
        Settle(if s.setup.None? then ReplayHeld(s, accepts) else s, now)
  }

  /** `shutdownStop` of the new harness has answered. */
  function AfterStop(s: Session, threw: bool, now: int): Session { Settle(if threw then Fail(s) else s, now) }

  // ---- the session as a machine -------------------------------------------------------------

  datatype Step =
    | Message(author: string, platform: bool, id: string, accepts: bool)
    | SetUp(setup: Setup)
    | Apply(id: string)
    | Tick
    | ControlStarts(kind: Control)
    | ControlEnds(kind: Control)
    | Retired(gone: bool)
    | Constructed(built: bool, takes: nat)
    | Stopped(threw: bool)
    | HarnessState(state: State)
    | Ask(request: string)
    | Decide(request: string, allow: bool, who: string)
    | Wait(park: Park)
    | Wake(park: Park)
    | Interrupt
    | TaskCount(count: nat)
    | End
    | Undeliverable
    | ShutDown

  predicate At(s: Session, stage: Stage) { s.swap.Some? && s.swap.value.stage == stage }

  /** One step at time `now`; a step that is not due changes nothing. */
  function Next(s: Session, step: Step, now: int): Session {
    match step
    case Message(author, platform, id, accepts) => HandleMessage(s, author, platform, id, accepts, now)
    case SetUp(setup) => HandleSetup(s, setup.(receivedAt := now, signaled := false, urgent := false), now)
    case Apply(id) => HandleSetupApply(s, id, now)
    case Tick => MaybeApplySetup(s, now)
    case ControlStarts(kind) => if kind.Free? || kind.Swap? then s else StartControl(s, kind, now)
    case ControlEnds(kind) => EndControl(s, kind)
    case Retired(gone) => if At(s, Retiring) then AfterRetire(s, gone, now) else s
    case Constructed(built, takes) => if At(s, Constructing) then AfterConstruct(s, built, takes, now) else s
    case Stopped(threw) => if At(s, Stopping) then AfterStop(s, threw, now) else s
    case HarnessState(state) => SetState(s, state, now)
    case Ask(request) => SetState(s.(pending := s.pending + {request}), Blocked, now)
    case Decide(request, allow, who) => HandlePermission(s, request, allow, who, now)
    case Wait(park) => SetState(s, Blocked, now).(parks := s.parks + {park})
    case Wake(park) => if park in s.parks then ResumeIfUnblocked(s.(parks := s.parks - {park}), now) else s
    case Interrupt => CancelParks(s, false, now)
    case TaskCount(count) => s.(tasks := count)
    case End => EndSession(s, now)
    case Undeliverable =>
      if IsDone(s) || s.ending then s else CancelParks(s.(ending := true, pending := {}), false, now)
    case ShutDown =>
      if IsDone(s) then s.(shuttingDown := true) else CancelParks(s.(shuttingDown := true, pending := {}), false, now)
  }

  const Start := Session(
    Idle, false, false, None, None, None, Free, [], [], "", "", {}, {}, 0, 0, 1,
    0, [], [], {1}, {}, [], [])

  function Run(s: Session, steps: seq<(Step, int)>): Session
    decreases |steps|
  {
    if steps == [] then s
    else
      var before := Run(s, steps[..|steps| - 1]);
      Next(before, steps[|steps| - 1].0, steps[|steps| - 1].1)
  }
}
