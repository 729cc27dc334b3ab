/**
 Event delivery: the queue of `agent-base/agentd/event-pusher.mjs` as a step machine.

 One step is the code between two awaits. `Emit` and `Stop` are whole calls,
 `Flush` is the code of `flush()` up to its await, `Respond` the rest of it.
 Everything the control plane and the network decide is an argument of the step.

 Texts are UTF-8 already: one `char` is one byte of the request body.
 */
module EventDelivery {
  import opened Wrappers
  import opened EventKinds

  const MAX_BATCH: nat := 200
  const MAX_BATCH_BYTES: nat := 8388608
  const MIN_BATCH_BYTES: nat := 262144
  const MAX_QUEUE: nat := 50000
  const MAX_RENEWAL_REFUSALS: nat := 6
  const PERMANENT_STATUSES := {401, 403, 404, 410}

  /** A queued event. `json` is its serialization, `None` when `JSON.stringify`
      throws on it; `stub` says it is in the pusher's `stubs` set. */
  datatype Event = Event(seqNo: nat, kind: Kind, turn: Option<string>, ephemeral: bool, json: Option<string>, stub: bool)

  /** What the pusher is built with: the serialized session id, the text of the
      stub `rejectedEventStub` makes for an event and a reported size, and the text
      of an event of its own making, from its seq, type and turn. */
  datatype Config = Config(
    sessionJson: string,
    stubText: (Event, Option<nat>) -> string,
    noticeText: (nat, Kind, string) -> string)

  /** One request: the events, their texts, their sizes with separators, and the byte count. */
  datatype Batch = Batch(events: seq<Event>, parts: seq<string>, sizes: seq<nat>, bytes: nat)

  /** `awaiting` is the batch of the flush suspended at its await, if any. */
  datatype Pusher = Pusher(
    queue: seq<Event>, seqNo: nat, awaiting: Option<Batch>,
    batchLimit: nat, batchBytes: nat, stopped: bool, timer: bool)

  /** How the request ended: an HTTP answer (with `tooLarge` for a body that
      says so), or a throw carrying the broker's status and refusal count. */
  datatype Answer =
    | Status(code: nat, tooLarge: bool)
    | Thrown(status: Option<nat>, refusals: nat)

  predicate Terminal(e: Event) { e.kind.IsTerminal() }

  function Max(a: int, b: int): int { if a < b then b else a }
  function Min(a: int, b: int): int { if a < b then a else b }

  // ---- emit -----------------------------------------------------------------------

  /** The first partial of the queue, or its length. */
  function FirstPartial(q: seq<Event>): (i: nat)
    ensures i <= |q|
    ensures i < |q| ==> q[i].ephemeral
    ensures forall j :: 0 <= j < i ==> !q[j].ephemeral
  {
    if q == [] then 0 else if q[0].ephemeral then 0 else 1 + FirstPartial(q[1..])
  }

  function Without(q: seq<Event>, i: nat): (r: seq<Event>)
    requires i < |q|
    ensures |r| == |q| - 1
    ensures forall j {:trigger r[j]} :: 0 <= j < |r| ==> r[j] == if j < i then q[j] else q[j + 1]
  {
    q[..i] + q[i + 1..]
  }

  function EvictPartial(q: seq<Event>): seq<Event> {
    var i := FirstPartial(q);
    if i < |q| then Without(q, i) else q
  }

  function Schedule(p: Pusher): Pusher {
    if p.timer || p.awaiting.Some? || p.stopped then p else p.(timer := true)
  }

  /** `emit`, after the turn identity was settled and the payload bounded. */
  function Emit(p: Pusher, kind: Kind, turn: Option<string>, ephemeral: bool, json: Option<string>): Pusher {
    var p := p.(seqNo := p.seqNo + 1);
    var ev := Event(p.seqNo, kind, turn, ephemeral, json, false);
    if p.stopped then p
    else if |p.queue| >= MAX_QUEUE && ephemeral then p
    else
      var kept := if |p.queue| >= MAX_QUEUE then EvictPartial(p.queue) else p.queue;
      Schedule(p.(queue := kept + [ev]))
  }

  predicate Queued(p: Pusher, ephemeral: bool) {
    !p.stopped && !(|p.queue| >= MAX_QUEUE && ephemeral)
  }

  // ---- nextBatch ------------------------------------------------------------------

  function StubFor(cfg: Config, e: Event, originalBytes: Option<nat>): Event {
    Event(e.seqNo, e.kind, e.turn, false, Some(cfg.stubText(e, originalBytes)), true)
  }

  function Head(cfg: Config): string { "{\"session_id\":" + cfg.sessionJson + ",\"events\":[" }

  function Join(parts: seq<string>): string {
    if parts == [] then ""
    else if |parts| == 1 then parts[0]
    else Join(parts[..|parts| - 1]) + "," + parts[|parts| - 1]
  }

  function Body(cfg: Config, parts: seq<string>): string { Head(cfg) + Join(parts) + "]}" }

  function EmptyBatch(cfg: Config): Batch { Batch([], [], [], |Head(cfg)| + 2) }

  function Add(b: Batch, e: Event): Batch
    requires e.json.Some?
  {
    var size := SizeIn(b, e);
    Batch(b.events + [e], b.parts + [e.json.value], b.sizes + [size], b.bytes + size)
  }

  function SizeIn(b: Batch, e: Event): nat
    requires e.json.Some?
  {
    |e.json.value| + if |b.events| > 0 then 1 else 0
  }

  /** The loop of `nextBatch`, from the index `|b.events|`: the batch it ends
      with and the queue it leaves, where an event without JSON has been
      dropped (a partial) or replaced by its stub (a durable event). */
  function Gather(cfg: Config, limit: nat, budget: nat, q: seq<Event>, b: Batch): (Batch, seq<Event>)
    requires |b.events| <= |q|
    decreases |q| - |b.events|
  {
    var i := |b.events|;
    if i >= |q| || i >= limit then (b, q)
    else if q[i].json.None? && q[i].ephemeral then Gather(cfg, limit, budget, Without(q, i), b)
    else
      var e := if q[i].json.None? then StubFor(cfg, q[i], None) else q[i];
      var q' := q[i := e];
      if i > 0 && b.bytes + SizeIn(b, e) > budget then (b, q')
      else Gather(cfg, limit, budget, q', Add(b, e))
  }

  // ---- flush ----------------------------------------------------------------------

  predicate CanFlush(p: Pusher) { p.awaiting.None? && !p.stopped && p.queue != [] }

  function Flush(cfg: Config, p: Pusher): Pusher {
    var p := p.(timer := false);
    if !CanFlush(p) then p
    else
      var (b, q) := Gather(cfg, p.batchLimit, p.batchBytes, p.queue, EmptyBatch(cfg));
      p.(queue := q, awaiting := Some(b))
  }

  function IndexOf(q: seq<Event>, seqNo: nat): (i: nat)
    ensures i <= |q|
    ensures i < |q| ==> q[i].seqNo == seqNo
    ensures forall j :: 0 <= j < i ==> q[j].seqNo != seqNo
  {
    if q == [] then 0 else if q[0].seqNo == seqNo then 0 else 1 + IndexOf(q[1..], seqNo)
  }

  /** `refusedForSize`: the pusher after it and whether it handled the refusal.
      An empty batch has no first event to look at: the callback of `findIndex`
      throws on the first queued event, which is the `false` outcome too. */
  function RefusedForSize(cfg: Config, p: Pusher, b: Batch): (Pusher, bool) {
    if |b.events| > 1 then
      (p.(batchLimit := Max(1, |b.events| / 2),
          batchBytes := Min(p.batchBytes, Max(MIN_BATCH_BYTES, b.bytes / 2))), true)
    else if b.events == [] then (p, p.queue == [])
    else if b.events[0].stub then (p, false)
    else
      var first := b.events[0];
      var i := IndexOf(p.queue, first.seqNo);
      if i == |p.queue| then (p, true)
      else if first.ephemeral then (p.(queue := Without(p.queue, i)), true)
      else
        var size := if b.sizes == [] then None else Some(b.sizes[0]);
        (p.(queue := p.queue[i := StubFor(cfg, first, size)]), true)
  }

  /** The acknowledged events leave the head of the queue, by seq. */
  function DropAcked(q: seq<Event>, lastSeq: nat): seq<Event> {
    if q != [] && q[0].seqNo <= lastSeq then DropAcked(q[1..], lastSeq) else q
  }

  function StopPusher(p: Pusher): Pusher { p.(stopped := true, timer := false) }

  function GiveUp(p: Pusher): Pusher { StopPusher(p.(queue := [], awaiting := None)) }

  predicate SizeRefusal(a: Answer) { a.Status? && (a.code == 413 || (a.code == 400 && a.tooLarge)) }

  predicate Accepts(a: Answer) { a.Status? && 200 <= a.code < 300 }

  predicate Permanent(a: Answer) {
    if a.Status? then a.code in PERMANENT_STATUSES
    else a.status.Some? && a.status.value in PERMANENT_STATUSES && a.refusals >= MAX_RENEWAL_REFUSALS
  }

  predicate HasTerminal(b: Batch) { exists e :: e in b.events && Terminal(e) }

  /** The continuation of `flush()` once the request of `b` is settled. */
  function Respond(cfg: Config, p: Pusher, b: Batch, a: Answer): Pusher {
    var p := p.(awaiting := None);
    if Permanent(a) then GiveUp(p)
    else if SizeRefusal(a) then
      Schedule(RefusedForSize(cfg, p, b).0)
    else if !Accepts(a) then Schedule(p)
    else if HasTerminal(b) then StopPusher(p.(queue := []))
    else if b.events == [] then Schedule(p)
    else
      var rest := DropAcked(p.queue, b.events[|b.events| - 1].seqNo);
      var p := p.(queue := rest, batchLimit := MAX_BATCH);
      if rest == [] then p else Schedule(p)
  }
}
