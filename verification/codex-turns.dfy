/**
 Turn bookkeeping of the Codex driver (`agent-base/agentd/drivers/codex.mjs`,
 upper half): which request a `turn/started` belongs to, across interrupts.

 A step is one message queued, one line of the app-server handled, or one
 reaction to a settled request. The app-server answers lines that were read
 together before any reaction runs, so a failed `turn/start` has two steps: its
 line, and later the `catch` that releases its slot. Turns run serially: they
 start in the order they were asked for, unless their request failed.
 A turn is known by the number of its request. Compactions are not part of
 this model.
 */
module CodexTurns {
  import opened Wrappers

  /** A user message and the abort generation it was queued in. */
  datatype Text = Text(no: nat, gen: nat)

  datatype Opening = Opening(request: nat, gen: nat)

  /** A message on its way to the app-server, and the generation it left in. */
  datatype Sent = Sent(text: Text, gen: nat)

  datatype Driver = Driver(
    turnActive: bool, currentTurnId: Option<nat>, openingTurns: seq<Opening>, pendingSteers: seq<Text>,
    abortGen: nat, turnGen: nat, closed: bool, finished: bool)

  /** The driver, the app-server and the run so far. `waiting` are the requests
      the app-server has yet to start, `failing` those whose error was read but
      not yet reacted to, `steers` the unanswered ones. `gens` holds the generation
      of each request; `queued` counts messages taken; `withdrawn` are those an
      interrupt cancelled while parked; `adopted` and `cancelled` are the turns
      the driver took as its own, with the generation then, and those it refused. */
  datatype World = World(
    d: Driver, waiting: seq<nat>, failing: set<nat>, steers: seq<Text>, gens: seq<nat>,
    queued: nat, sent: seq<Sent>, withdrawn: seq<Text>, adopted: seq<Opening>, cancelled: seq<nat>)

  // ---- dispatch -------------------------------------------------------------------------

  function StartTurn(w: World, text: Text): World {
    var slot := Opening(|w.gens|, w.d.abortGen);
    w.(d := w.d.(turnActive := true, currentTurnId := None, openingTurns := w.d.openingTurns + [slot]),
       waiting := w.waiting + [|w.gens|], gens := w.gens + [w.d.abortGen], sent := w.sent + [Sent(text, w.d.abortGen)])
  }

  function SendSteer(w: World, text: Text): World {
    if w.d.currentTurnId.None? then StartTurn(w, text)
    else w.(steers := w.steers + [text], sent := w.sent + [Sent(text, w.d.abortGen)])
  }

  function FlushSteers(w: World): World
    decreases |w.d.pendingSteers|
  {
    if w.d.currentTurnId.None? || w.d.pendingSteers == [] then w
    else FlushSteers(SendSteer(w.(d := w.d.(pendingSteers := w.d.pendingSteers[1..])), w.d.pendingSteers[0]))
  }

  function Dispatch(w: World, text: Text): World {
    if !w.d.turnActive then StartTurn(w, text)
    else if w.d.currentTurnId.Some? then SendSteer(w, text)
    else w.(d := w.d.(pendingSteers := w.d.pendingSteers + [text]))
  }

  function QueueMessage(w: World): World {
    if w.d.closed || w.d.finished then w
    else Dispatch(w.(queued := w.queued + 1), Text(w.queued, w.d.abortGen))
  }

  // ---- notifications and reactions --------------------------------------------------------

  /** `turn/started` for turn `id`: the oldest slot is taken as its request's. */
  function TurnStarted(w: World, id: nat): World {
    var slots := w.d.openingTurns;
    var rest := if slots == [] then [] else slots[1..];
    var w := w.(d := w.d.(openingTurns := rest));
    if slots == [] || slots[0].gen != w.d.abortGen then w.(cancelled := w.cancelled + [id])
    else
      FlushSteers(w.(d := w.d.(turnActive := true, currentTurnId := Some(id), turnGen := slots[0].gen),
                     adopted := w.adopted + [Opening(id, w.d.abortGen)]))
  }

  /** The `then` of request `r`: the id may be known before `turn/started`. */
  function StartAnswered(w: World, r: nat): World
    requires r < |w.gens|
  {
    if w.d.abortGen != w.gens[r] || w.d.finished || w.d.currentTurnId.Some? then w
    else FlushSteers(w.(d := w.d.(currentTurnId := Some(r)), adopted := w.adopted + [Opening(r, w.d.abortGen)]))
  }

  function WithoutRequest(slots: seq<Opening>, r: nat): (kept: seq<Opening>)
    ensures forall x :: x in kept ==> x in slots
  {
    if slots == [] then [] else if slots[0].request == r then slots[1..] else [slots[0]] + WithoutRequest(slots[1..], r)
  }

  /** The `catch` of request `r`; it also has the driver fail, a later step. */
  function StartFailed(w: World, r: nat): World
    requires r < |w.gens|
  {
    var w := w.(d := w.d.(openingTurns := WithoutRequest(w.d.openingTurns, r)), failing := w.failing - {r});
    if w.d.abortGen != w.gens[r] || w.d.finished then w
    else w.(d := w.d.(turnActive := false, currentTurnId := None))
  }

  /** The `catch` of the `i`-th unanswered steer: the turn may have ended under it. */
  function SteerFailed(w: World, i: nat): World
    requires i < |w.steers|
  {
    var text := w.steers[i];
    var w := w.(steers := w.steers[..i] + w.steers[i + 1..]);
    if w.d.abortGen != text.gen || w.d.finished then w
    else StartTurn(w.(d := w.d.(turnActive := false, currentTurnId := None)), text)
  }

  predicate IsStale(done: Option<nat>, current: Option<nat>, active: bool) {
    done.Some? && if current.Some? then done != current else active
  }

  function TurnCompleted(w: World, done: Option<nat>): World {
    if IsStale(done, w.d.currentTurnId, w.d.turnActive) then w
    else w.(d := w.d.(turnActive := false, currentTurnId := None))
  }

  function ErrorNotified(w: World, turn: Option<nat>): World {
    if turn.Some? && w.d.currentTurnId.Some? && turn != w.d.currentTurnId then w
    else w.(d := w.d.(turnActive := false, currentTurnId := None))
  }

  function Interrupt(w: World): World {
    w.(d := w.d.(abortGen := w.d.abortGen + 1, pendingSteers := [], turnActive := false, currentTurnId := None),
       withdrawn := w.withdrawn + w.d.pendingSteers)
  }

  /** `shutdownStop` leaves what is parked: nothing opens a turn after it. */
  function ShutdownStop(w: World): World {
    w.(d := w.d.(closed := true, abortGen := w.d.abortGen + 1, turnActive := false, currentTurnId := None))
  }

  function ForceStop(w: World): World {
    w.(d := w.d.(closed := true, abortGen := w.d.abortGen + 1, finished := true))
  }

  // ---- steps --------------------------------------------------------------------------------

  datatype Step =
    | Queue
    | Started
    | Answered(request: nat)
    | StartFails(request: nat)
    | FailureSeen(request: nat)
    | SteerAnswered(i: nat)
    | SteerFails(i: nat)
    | Completed(turn: Option<nat>)
    | ErrorRead(turn: Option<nat>)
    | Interrupted
    | Closed
    | Finished
    | ShutDown
    | Forced

  predicate Enabled(w: World, step: Step) {
    match step
    case Started => w.waiting != []
    case Answered(r) => r < |w.gens|
    case StartFails(r) => r in w.waiting
    case FailureSeen(r) => r in w.failing && r < |w.gens|
    case SteerAnswered(i) => i < |w.steers|
    case SteerFails(i) => i < |w.steers|
    case _ => true
  }

  function Without(q: seq<nat>, r: nat): seq<nat> {
    if q == [] then [] else if q[0] == r then q[1..] else [q[0]] + Without(q[1..], r)
  }

  function Next(w: World, step: Step): World
    requires Enabled(w, step)
  {
    match step
    case Queue => QueueMessage(w)
    case Started => TurnStarted(w.(waiting := w.waiting[1..]), w.waiting[0])
    case Answered(r) => StartAnswered(w, r)
    case StartFails(r) => w.(waiting := Without(w.waiting, r), failing := w.failing + {r})
    case FailureSeen(r) => StartFailed(w, r)
    case SteerAnswered(i) => w.(steers := w.steers[..i] + w.steers[i + 1..])
    case SteerFails(i) => SteerFailed(w, i)
    case Completed(turn) => TurnCompleted(w, turn)
    case ErrorRead(turn) => ErrorNotified(w, turn)
    case Interrupted => Interrupt(w)
    case Closed => w.(d := w.d.(closed := true))
    case Finished => w.(d := w.d.(finished := true))
    case ShutDown => ShutdownStop(w)
    case Forced => ForceStop(w)
  }

  const Initial := World(Driver(false, None, [], [], 0, 0, false, false), [], {}, [], [], 0, [], [], [], [])
}
