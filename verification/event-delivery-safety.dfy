/**
 Safety of event delivery over every interleaving of emits, flushes, answers
 and stops: no durable event is lost or reordered, up to giving up or a
 delivered terminal event.
 */
module EventDeliverySafety {
  import opened Wrappers
  import opened EventKinds
  import opened EventDelivery

  // ---- durable events and what may stand for them -----------------------------------

  function Durable(q: seq<Event>): seq<Event> {
    if q == [] then [] else (if q[0].ephemeral then [] else [q[0]]) + Durable(q[1..])
  }

  /** The event itself, or a stub under the same seq, type and turn. */
  predicate StandsFor(x: Event, e: Event) {
    x == e || (x.stub && !x.ephemeral && !e.ephemeral && x.seqNo == e.seqNo && x.kind == e.kind && x.turn == e.turn)
  }

  predicate Stand(xs: seq<Event>, es: seq<Event>) {
    |xs| == |es| && forall i :: 0 <= i < |xs| ==> StandsFor(xs[i], es[i])
  }

  /** `xs` stands for the stretch of `es` that begins at `a`. */
  predicate StandAt(xs: seq<Event>, es: seq<Event>, a: nat) {
    a + |xs| <= |es| && forall i :: 0 <= i < |xs| ==> StandsFor(xs[i], es[a + i])
  }

  predicate Ascending(q: seq<Event>) {
    forall i, j :: 0 <= i < j < |q| ==> q[i].seqNo < q[j].seqNo
  }

  predicate AllBelow(q: seq<Event>, n: int) { forall i :: 0 <= i < |q| ==> q[i].seqNo <= n }

  predicate AllAbove(q: seq<Event>, n: int) { forall i :: 0 <= i < |q| ==> n < q[i].seqNo }

  predicate WellFormed(q: seq<Event>) {
    forall i :: 0 <= i < |q| && q[i].stub ==> q[i].json.Some? && !q[i].ephemeral
  }

  lemma {:induction false} DurableConcat(a: seq<Event>, b: seq<Event>)
    ensures Durable(a + b) == Durable(a) + Durable(b)
  {
    if a == [] {
      assert a + b == b;
    } else {
      assert (a + b)[1..] == a[1..] + b;
      DurableConcat(a[1..], b);
    }
  }

  lemma {:induction false} DurableMembers(q: seq<Event>)
    ensures forall e :: e in Durable(q) <==> e in q && !e.ephemeral
  {
    if q != [] { DurableMembers(q[1..]); assert q == [q[0]] + q[1..]; }
  }

  /** Taking a queued event out, or putting its stub in, at index i. */
  lemma {:induction false} DurableAt(q: seq<Event>, i: nat)
    requires i < |q|
    ensures Durable(q) == Durable(q[..i]) + (if q[i].ephemeral then [] else [q[i]]) + Durable(q[i + 1..])
    ensures q[i].ephemeral ==> Durable(Without(q, i)) == Durable(q)
  {
    assert q == q[..i] + q[i..];
    DurableConcat(q[..i], q[i..]);
    assert q[i..][1..] == q[i + 1..];
    DurableConcat(q[..i], q[i + 1..]);
  }

  lemma {:induction false} StubInPlace(cfg: Config, q: seq<Event>, i: nat, size: Option<nat>)
    requires i < |q| && !q[i].ephemeral && Ascending(q) && WellFormed(q)
    ensures var q' := q[i := StubFor(cfg, q[i], size)];
      Ascending(q') && WellFormed(q') && Stand(Durable(q'), Durable(q))
  {
    var q' := q[i := StubFor(cfg, q[i], size)];
    DurableAt(q, i);
    DurableAt(q', i);
    assert q'[..i] == q[..i] && q'[i + 1..] == q[i + 1..];
  }

  lemma StandTrans(a: seq<Event>, b: seq<Event>, c: seq<Event>)
    requires Stand(a, b) && Stand(b, c)
    ensures Stand(a, c)
  {}

  lemma StandAtTrans(xs: seq<Event>, ys: seq<Event>, es: seq<Event>, a: nat)
    requires Stand(xs, ys) && StandAt(ys, es, a)
    ensures StandAt(xs, es, a)
  {}

  // ---- nextBatch --------------------------------------------------------------------

  /** What a batch keeps of the events in it: a text each, and the exact size of the body. */
  predicate Exact(cfg: Config, b: Batch) {
    && |b.parts| == |b.sizes| == |b.events|
    && (forall i :: 0 <= i < |b.events| ==>
          b.events[i].json == Some(b.parts[i]) && b.sizes[i] == |b.parts[i]| + if i > 0 then 1 else 0)
    && b.bytes == |Body(cfg, b.parts)|
  }

  lemma EmptyBatchIsExact(cfg: Config)
    ensures Exact(cfg, EmptyBatch(cfg))
  {}

  lemma AddIsExact(cfg: Config, b: Batch, e: Event)
    requires Exact(cfg, b) && e.json.Some?
    ensures Exact(cfg, Add(b, e))
  {
    var ps := b.parts + [e.json.value];
    assert ps[..|ps| - 1] == b.parts;
    assert |Join(ps)| == |Join(b.parts)| + SizeIn(b, e);
  }

  /** The batch is the head of the queue `nextBatch` leaves, no longer than the
      count limit, and within the byte budget unless it is one event. */
  lemma {:induction false} GatherHead(cfg: Config, limit: nat, budget: nat, q: seq<Event>, b: Batch)
    requires b.events <= q && |b.events| <= limit
    requires |b.events| >= 2 ==> b.bytes <= budget
    ensures var (b', q') := Gather(cfg, limit, budget, q, b);
      b.events <= b'.events <= q' && |b'.events| <= limit && (|b'.events| >= 2 ==> b'.bytes <= budget)
    decreases |q| - |b.events|
  {
    var i := |b.events|;
    if i >= |q| || i >= limit {
    } else if q[i].json.None? && q[i].ephemeral {
      GatherHead(cfg, limit, budget, Without(q, i), b);
    } else {
      var e := if q[i].json.None? then StubFor(cfg, q[i], None) else q[i];
      if !(i > 0 && b.bytes + SizeIn(b, e) > budget) {
        assert b.events + [e] <= q[i := e];
        GatherHead(cfg, limit, budget, q[i := e], Add(b, e));
      }
    }
  }

  /** Its byte count is the exact length of the body that is sent. */
  lemma {:induction false} GatherExact(cfg: Config, limit: nat, budget: nat, q: seq<Event>, b: Batch)
    requires |b.events| <= |q| && Exact(cfg, b)
    ensures Exact(cfg, Gather(cfg, limit, budget, q, b).0)
    decreases |q| - |b.events|
  {
    var i := |b.events|;
    if i >= |q| || i >= limit {
    } else if q[i].json.None? && q[i].ephemeral {
      GatherExact(cfg, limit, budget, Without(q, i), b);
    } else {
      var e := if q[i].json.None? then StubFor(cfg, q[i], None) else q[i];
      if !(i > 0 && b.bytes + SizeIn(b, e) > budget) {
        AddIsExact(cfg, b, e);
        GatherExact(cfg, limit, budget, q[i := e], Add(b, e));
      }
    }
  }

  lemma NextBatchFacts(cfg: Config, limit: nat, budget: nat, q: seq<Event>)
    ensures var (b, q') := Gather(cfg, limit, budget, q, EmptyBatch(cfg));
      b.events <= q' && |b.events| <= limit && (|b.events| >= 2 ==> b.bytes <= budget)
      && Exact(cfg, b) && b.bytes == |Body(cfg, b.parts)|
  {
    EmptyBatchIsExact(cfg);
    GatherHead(cfg, limit, budget, q, EmptyBatch(cfg));
    GatherExact(cfg, limit, budget, q, EmptyBatch(cfg));
  }

  /** The queue `nextBatch` leaves holds the same durable events in order,
      stubbed where they had no JSON. */
  lemma {:induction false} GatherQueue(cfg: Config, limit: nat, budget: nat, q: seq<Event>, b: Batch)
    requires |b.events| <= |q| && Ascending(q) && WellFormed(q)
    ensures var q' := Gather(cfg, limit, budget, q, b).1;
      && Ascending(q') && WellFormed(q') && Stand(Durable(q'), Durable(q)) && |q'| <= |q|
      && forall n :: AllBelow(q, n) ==> AllBelow(q', n)
    decreases |q| - |b.events|
  {
    hide Durable, Body;
    var i := |b.events|;
    if i >= |q| || i >= limit {
    } else if q[i].json.None? && q[i].ephemeral {
      DurableAt(q, i);
      GatherQueue(cfg, limit, budget, Without(q, i), b);
    } else {
      var e := if q[i].json.None? then StubFor(cfg, q[i], None) else q[i];
      var q1 := q[i := e];
      if q[i].json.None? { StubInPlace(cfg, q, i, None); } else { assert q1 == q; }
      if !(i > 0 && b.bytes + SizeIn(b, e) > budget) {
        GatherQueue(cfg, limit, budget, q1, Add(b, e));
        StandTrans(Durable(Gather(cfg, limit, budget, q1, Add(b, e)).1), Durable(q1), Durable(q));
      }
    }
  }

  /** The batch is empty exactly when every queued event was a partial without
      JSON, and then nothing is left in the queue either. */
  lemma {:induction false} GatherEmpty(cfg: Config, limit: nat, budget: nat, q: seq<Event>)
    requires limit >= 1
    ensures var (b', q') := Gather(cfg, limit, budget, q, EmptyBatch(cfg));
      && (b'.events == [] <==> forall e :: e in q ==> e.json.None? && e.ephemeral)
      && (b'.events == [] <==> q' == [])
    decreases |q|
  {
    var b := EmptyBatch(cfg);
    if q == [] {
    } else if q[0].json.None? && q[0].ephemeral {
      assert Without(q, 0) == q[1..];
      assert q == [q[0]] + q[1..];
      GatherEmpty(cfg, limit, budget, q[1..]);
    } else {
      assert q[0] in q;
      var e := if q[0].json.None? then StubFor(cfg, q[0], None) else q[0];
      GatherKeepsHead(cfg, limit, budget, q[0 := e], Add(b, e));
      assert Add(b, e).events == [e];
    }
  }

  lemma {:induction false} GatherKeepsHead(cfg: Config, limit: nat, budget: nat, q: seq<Event>, b: Batch)
    requires |b.events| <= |q|
    ensures b.events <= Gather(cfg, limit, budget, q, b).0.events && |b.events| <= |Gather(cfg, limit, budget, q, b).1|
    decreases |q| - |b.events|
  {
    var i := |b.events|;
    if i >= |q| || i >= limit {
    } else if q[i].json.None? && q[i].ephemeral {
      GatherKeepsHead(cfg, limit, budget, Without(q, i), b);
    } else {
      var e := if q[i].json.None? then StubFor(cfg, q[i], None) else q[i];
      if !(i > 0 && b.bytes + SizeIn(b, e) > budget) {
        GatherKeepsHead(cfg, limit, budget, q[i := e], Add(b, e));
      }
    }
  }

  // ---- runs -------------------------------------------------------------------------

  /** The pusher and what is true of its run: the durable events it accepted, how
      many of them the control plane acknowledged, what the control plane holds
      (it takes an event once per seq), and whether the queue was given up: by
      `giveUp`, or because a delivered terminal event ends the session. */
  datatype World = World(p: Pusher, emitted: seq<Event>, acked: nat, received: seq<Event>, cleared: bool)

  /** `taken` says whether the control plane stored the batch: an answer may be
      lost, and a failed request may still have been processed. */
  datatype Step =
    | DoEmit(kind: Kind, turn: Option<string>, ephemeral: bool, json: Option<string>)
    | DoFlush
    | DoRespond(answer: Answer, taken: bool)
    | DoStop

  const Initial := World(Pusher([], 0, None, MAX_BATCH, MAX_BATCH_BYTES, false, false), [], 0, [], false)

  predicate Enabled(w: World, step: Step) {
    step.DoRespond? ==>
      && w.p.awaiting.Some?
      && (Accepts(step.answer) ==> step.taken)
  }

  predicate Holds(r: seq<Event>, seqNo: nat) { exists i :: 0 <= i < |r| && r[i].seqNo == seqNo }

  /** The control plane's side: durable events, idempotent on seq. */
  function Receive(r: seq<Event>, es: seq<Event>): seq<Event>
    decreases |es|
  {
    if es == [] then r
    else Receive(if es[0].ephemeral || Holds(r, es[0].seqNo) then r else r + [es[0]], es[1..])
  }

  predicate Ends(b: Batch, a: Answer) { Permanent(a) || (Accepts(a) && HasTerminal(b)) }

  function Next(cfg: Config, w: World, step: Step): World
    requires Enabled(w, step)
  {
    match step
    case DoEmit(kind, turn, ephemeral, json) =>
      var ev := Event(w.p.seqNo + 1, kind, turn, ephemeral, json, false);
      w.(p := Emit(w.p, kind, turn, ephemeral, json),
         emitted := if w.p.stopped || ephemeral then w.emitted else w.emitted + [ev])
    case DoFlush => w.(p := Flush(cfg, w.p))
    case DoRespond(a, taken) =>
      var b := w.p.awaiting.value;
      World(Respond(cfg, w.p, b, a), w.emitted,
            if Accepts(a) && !Ends(b, a) then w.acked + |Durable(b.events)| else w.acked,
            if taken then Receive(w.received, b.events) else w.received,
            w.cleared || Ends(b, a))
    case DoStop => w.(p := StopPusher(w.p))
  }

  // ---- what every run keeps -----------------------------------------------------------

  predicate QueueOk(q: seq<Event>, n: int) { Ascending(q) && WellFormed(q) && AllBelow(q, n) }

  predicate AllDurable(q: seq<Event>) { forall i :: 0 <= i < |q| ==> !q[i].ephemeral }

  /** A queue over the cap holds nothing that could be shed. */
  predicate CapOk(p: Pusher) { |p.queue| > MAX_QUEUE ==> AllDurable(p.queue) }

  /** A queued event always has a flush coming. */
  predicate Scheduled(p: Pusher) { p.queue != [] && p.awaiting.None? && !p.stopped ==> p.timer }

  predicate LimitsOk(p: Pusher) { p.batchLimit >= 1 && p.batchBytes >= MIN_BATCH_BYTES }

  predicate EmittedOk(w: World) {
    Ascending(w.emitted) && AllBelow(w.emitted, w.p.seqNo) && AllDurable(w.emitted)
  }

  /** The emitted durable events are the acknowledged ones followed by the queued ones. */
  predicate Conserved(w: World) {
    && w.acked <= |w.emitted|
    && (!w.cleared ==> w.acked + |Durable(w.p.queue)| == |w.emitted| && StandAt(Durable(w.p.queue), w.emitted, w.acked))
  }

  /** The control plane holds a prefix of them, no shorter than what it acknowledged. */
  predicate ReceivedOk(w: World) {
    StandAt(w.received, w.emitted, 0) && (!w.cleared ==> w.acked <= |w.received|)
  }

  /** What a suspended request keeps true of the durable events `d` queued under
      it: the batch's own come first, and every later one is newer. */
  predicate InFlight(d: seq<Event>, b: Batch, n: nat) {
    && Durable(b.events) <= d
    && |b.sizes| == |b.events|
    && AllBelow(b.events, n)
    && (b.events != [] ==>
          var last := b.events[|b.events| - 1].seqNo;
          AllBelow(b.events, last) && AllAbove(d[|Durable(b.events)|..], last))
  }

  predicate FlightOk(w: World) {
    w.p.awaiting.Some? ==> !w.cleared && InFlight(Durable(w.p.queue), w.p.awaiting.value, w.p.seqNo)
  }

  predicate ClearedOk(w: World) { w.cleared ==> w.p.queue == [] && w.p.stopped }

  predicate Inv(w: World) {
    && PusherOk(w.p)
    && EmittedOk(w) && Conserved(w) && ReceivedOk(w) && FlightOk(w) && ClearedOk(w)
  }

  // ---- emit ---------------------------------------------------------------------------

  lemma WithoutOk(q: seq<Event>, i: nat, n: int)
    requires i < |q| && QueueOk(q, n)
    ensures QueueOk(Without(q, i), n)
  {}

  lemma {:induction false} EvictFacts(q: seq<Event>, n: int)
    requires QueueOk(q, n)
    ensures QueueOk(EvictPartial(q), n) && Durable(EvictPartial(q)) == Durable(q)
    ensures |q| - 1 <= |EvictPartial(q)| <= |q| && (|EvictPartial(q)| == |q| ==> AllDurable(EvictPartial(q)))
  {
    var i := FirstPartial(q);
    if i < |q| {
      DurableAt(q, i);
      WithoutOk(q, i, n);
    }
  }

  lemma {:induction false} AppendFacts(q: seq<Event>, ev: Event, n: nat)
    requires QueueOk(q, n) && ev.seqNo == n + 1 && !ev.stub
    ensures QueueOk(q + [ev], n + 1)
    ensures Durable(q + [ev]) == Durable(q) + if ev.ephemeral then [] else [ev]
    ensures AllDurable(q) && !ev.ephemeral ==> AllDurable(q + [ev])
  {
    DurableConcat(q, [ev]);
    assert Durable([ev]) == (if ev.ephemeral then [] else [ev]) + Durable([ev][1..]);
  }

  lemma InFlightAppend(d: seq<Event>, ev: Event, b: Batch, n: nat)
    requires InFlight(d, b, n) && ev.seqNo == n + 1
    ensures InFlight(d, b, n + 1) && InFlight(d + [ev], b, n + 1)
  {
    var k := |Durable(b.events)|;
    assert (d + [ev])[k..] == d[k..] + [ev];
  }

  predicate PusherOk(p: Pusher) {
    QueueOk(p.queue, p.seqNo) && CapOk(p) && Scheduled(p) && LimitsOk(p)
  }

  /** The queue an emit leaves: one partial fewer at the cap, the new event last. */
  function QueueAfterEmit(p: Pusher, ev: Event): seq<Event> {
    (if |p.queue| >= MAX_QUEUE then EvictPartial(p.queue) else p.queue) + [ev]
  }

  lemma EmitShape(p: Pusher, kind: Kind, turn: Option<string>, ephemeral: bool, json: Option<string>)
    ensures var ev := Event(p.seqNo + 1, kind, turn, ephemeral, json, false);
      Emit(p, kind, turn, ephemeral, json) ==
        if Queued(p, ephemeral) then Schedule(p.(seqNo := p.seqNo + 1, queue := QueueAfterEmit(p, ev)))
        else p.(seqNo := p.seqNo + 1)
  {}

  lemma {:induction false} EmitQueue(p: Pusher, ev: Event)
    requires PusherOk(p) && ev.seqNo == p.seqNo + 1 && !ev.stub && Queued(p, ev.ephemeral)
    ensures var q := QueueAfterEmit(p, ev);
      QueueOk(q, ev.seqNo) && (|q| > MAX_QUEUE ==> AllDurable(q))
      && Durable(q) == Durable(p.queue) + if ev.ephemeral then [] else [ev]
  {
    EvictFacts(p.queue, p.seqNo);
    AppendFacts(if |p.queue| >= MAX_QUEUE then EvictPartial(p.queue) else p.queue, ev, p.seqNo);
  }

  lemma {:induction false} EmitKeepsPusher(p: Pusher, kind: Kind, turn: Option<string>, ephemeral: bool,
      json: Option<string>)
    requires PusherOk(p)
    ensures PusherOk(Emit(p, kind, turn, ephemeral, json))
  {
    EmitShape(p, kind, turn, ephemeral, json);
    if Queued(p, ephemeral) { EmitQueue(p, Event(p.seqNo + 1, kind, turn, ephemeral, json, false)); }
  }

  lemma {:induction false} EmitKeepsEmitted(cfg: Config, w: World, step: Step)
    requires Inv(w) && step.DoEmit?
    ensures var w' := Next(cfg, w, step); EmittedOk(w') && Conserved(w') && ReceivedOk(w')
  {
    hide Durable, EvictPartial, QueueAfterEmit, Emit, QueueOk, InFlight;
    EmitShape(w.p, step.kind, step.turn, step.ephemeral, step.json);
    if Queued(w.p, step.ephemeral) {
      EmitQueue(w.p, Event(w.p.seqNo + 1, step.kind, step.turn, step.ephemeral, step.json, false));
    }
  }

  lemma {:induction false} EmitKeepsFlight(cfg: Config, w: World, step: Step)
    requires Inv(w) && step.DoEmit?
    ensures var w' := Next(cfg, w, step); FlightOk(w') && ClearedOk(w')
  {
    EmitShape(w.p, step.kind, step.turn, step.ephemeral, step.json);
    var ev := Event(w.p.seqNo + 1, step.kind, step.turn, step.ephemeral, step.json, false);
    if Queued(w.p, step.ephemeral) { EmitQueue(w.p, ev); }
    if w.p.awaiting.Some? { InFlightAppend(Durable(w.p.queue), ev, w.p.awaiting.value, w.p.seqNo); }
  }

  lemma EmitKeepsInv(cfg: Config, w: World, step: Step)
    requires Inv(w) && step.DoEmit?
    ensures Inv(Next(cfg, w, step))
  {
    EmitKeepsPusher(w.p, step.kind, step.turn, step.ephemeral, step.json);
    EmitKeepsEmitted(cfg, w, step);
    EmitKeepsFlight(cfg, w, step);
  }

  // ---- flush --------------------------------------------------------------------------

  /** A queue of durable events stays one: a stub is durable too. */
  lemma {:induction false} GatherKeepsDurable(cfg: Config, limit: nat, budget: nat, q: seq<Event>, b: Batch)
    requires |b.events| <= |q| && AllDurable(q)
    ensures AllDurable(Gather(cfg, limit, budget, q, b).1)
    decreases |q| - |b.events|
  {
    var i := |b.events|;
    if i < |q| && i < limit {
      var e := if q[i].json.None? then StubFor(cfg, q[i], None) else q[i];
      if !(i > 0 && b.bytes + SizeIn(b, e) > budget) {
        GatherKeepsDurable(cfg, limit, budget, q[i := e], Add(b, e));
      }
    }
  }

  /** A batch at the head of the queue is in flight over it. */
  lemma {:induction false} HeadIsInFlight(q: seq<Event>, b: Batch, n: nat)
    requires QueueOk(q, n) && b.events <= q && |b.sizes| == |b.events|
    ensures InFlight(Durable(q), b, n)
  {
    var k := |b.events|;
    assert q[..k] == b.events && q == q[..k] + q[k..];
    DurableConcat(q[..k], q[k..]);
    assert Durable(q)[|Durable(b.events)|..] == Durable(q[k..]);
    if k > 0 { TailIsNewer(q, k); }
  }

  lemma {:induction false} TailIsNewer(q: seq<Event>, k: nat)
    requires 0 < k <= |q| && Ascending(q)
    ensures AllBelow(q[..k], q[k - 1].seqNo) && AllAbove(Durable(q[k..]), q[k - 1].seqNo)
  {
    DurableAbove(q[k..], q[k - 1].seqNo);
  }

  lemma {:induction false} DurableAbove(q: seq<Event>, n: int)
    requires AllAbove(q, n)
    ensures AllAbove(Durable(q), n)
  {
    if q != [] { DurableAbove(q[1..], n); }
  }

  lemma {:induction false} FlushKeepsInv(cfg: Config, w: World)
    requires Inv(w)
    ensures Inv(Next(cfg, w, DoFlush))
  {
    var p := w.p;
    if CanFlush(p.(timer := false)) {
      var (b, q) := Gather(cfg, p.batchLimit, p.batchBytes, p.queue, EmptyBatch(cfg));
      NextBatchFacts(cfg, p.batchLimit, p.batchBytes, p.queue);
      GatherQueue(cfg, p.batchLimit, p.batchBytes, p.queue, EmptyBatch(cfg));
      if |p.queue| > MAX_QUEUE { GatherKeepsDurable(cfg, p.batchLimit, p.batchBytes, p.queue, EmptyBatch(cfg)); }
      assert QueueOk(q, p.seqNo);
      HeadIsInFlight(q, b, p.seqNo);
      StandAtTrans(Durable(q), Durable(p.queue), w.emitted, w.acked);
    }
  }

  // ---- the answer ---------------------------------------------------------------------

  lemma {:induction false} ReceiveDurable(r: seq<Event>, es: seq<Event>)
    ensures Receive(r, es) == Receive(r, Durable(es))
    decreases |es|
  {
    if es != [] {
      var r1 := if es[0].ephemeral || Holds(r, es[0].seqNo) then r else r + [es[0]];
      ReceiveDurable(r1, es[1..]);
      if !es[0].ephemeral { assert Durable(es)[1..] == Durable(es[1..]); }
      else { assert Durable(es) == Durable(es[1..]); }
    }
  }

  /** A receiver holding a prefix that reaches at least to `a` takes events that
      stand for `emitted[a..]`: it holds a prefix again, the longer of the two. */
  lemma {:induction false} ReceivePrefix(r: seq<Event>, d: seq<Event>, emitted: seq<Event>, a: nat)
    requires Ascending(emitted) && AllDurable(d) && a <= |r| && StandAt(r, emitted, 0) && StandAt(d, emitted, a)
    ensures r <= Receive(r, d) && |Receive(r, d)| == Max(|r|, a + |d|) && StandAt(Receive(r, d), emitted, 0)
    decreases |d|
  {
    if d != [] {
      assert StandsFor(d[0], emitted[a + 0]);
      if a < |r| {
        assert StandsFor(r[a], emitted[0 + a]);
        ReceivePrefix(r, d[1..], emitted, a + 1);
      } else {
        NotHeldYet(r, emitted, a);
        ReceivePrefix(r + [d[0]], d[1..], emitted, a + 1);
      }
    }
  }

  lemma NotHeldYet(r: seq<Event>, emitted: seq<Event>, a: nat)
    requires Ascending(emitted) && StandAt(r, emitted, 0) && |r| <= a < |emitted|
    ensures !Holds(r, emitted[a].seqNo)
  {
    forall i | 0 <= i < |r| ensures r[i].seqNo != emitted[a].seqNo {
      assert StandsFor(r[i], emitted[0 + i]);
    }
  }

  lemma {:induction false} DurableIsDurable(q: seq<Event>)
    ensures AllDurable(Durable(q))
  {
    if q != [] { DurableIsDurable(q[1..]); }
  }

  /** What the control plane holds once it took the suspended batch. */
  lemma {:induction false} TakenBatch(w: World)
    requires Inv(w) && w.p.awaiting.Some?
    ensures var r := Receive(w.received, w.p.awaiting.value.events);
      w.received <= r && StandAt(r, w.emitted, 0) && |r| >= w.acked + |Durable(w.p.awaiting.value.events)|
  {
    var b := w.p.awaiting.value;
    ReceiveDurable(w.received, b.events);
    DurableIsDurable(b.events);
    ReceivePrefix(w.received, Durable(b.events), w.emitted, w.acked);
  }

  lemma {:induction false} DropAckedOk(q: seq<Event>, n: nat, m: int)
    requires QueueOk(q, m)
    ensures QueueOk(DropAcked(q, n), m) && |DropAcked(q, n)| <= |q| && (AllDurable(q) ==> AllDurable(DropAcked(q, n)))
  {
    if q != [] && q[0].seqNo <= n { DropAckedOk(q[1..], n, m); }
  }

  lemma {:induction false} DropAckedDurable(q: seq<Event>, n: nat)
    requires Ascending(q)
    ensures Durable(DropAcked(q, n)) == DropAcked(Durable(q), n)
  {
    if q != [] {
      if q[0].seqNo <= n {
        DropAckedDurable(q[1..], n);
        if !q[0].ephemeral { assert Durable(q)[1..] == Durable(q[1..]); }
        else { assert Durable(q) == Durable(q[1..]); }
      } else {
        DurableAbove(q, n);
      }
    }
  }

  lemma {:induction false} DropAckedIsSuffix(d: seq<Event>, n: nat, k: nat)
    requires k <= |d| && AllBelow(d[..k], n) && AllAbove(d[k..], n)
    ensures DropAcked(d, n) == d[k..]
  {
    if k > 0 {
      assert d[0] == d[..k][0];
      assert d[1..][..k - 1] == d[..k][1..] && d[1..][k - 1..] == d[k..];
      DropAckedIsSuffix(d[1..], n, k - 1);
    } else if d != [] {
      assert d[0] == d[k..][0];
    }
  }

  lemma {:induction false} DurableBelow(q: seq<Event>, n: int)
    requires AllBelow(q, n)
    ensures AllBelow(Durable(q), n)
  {
    if q != [] { DurableBelow(q[1..], n); }
  }

  /** An accepted batch leaves the queue exactly its durable events shorter. */
  lemma {:induction false} AcceptedBatch(q: seq<Event>, b: Batch, n: nat)
    requires QueueOk(q, n) && InFlight(Durable(q), b, n) && b.events != []
    ensures Durable(DropAcked(q, b.events[|b.events| - 1].seqNo)) == Durable(q)[|Durable(b.events)|..]
  {
    var last := b.events[|b.events| - 1].seqNo;
    var k := |Durable(b.events)|;
    DropAckedDurable(q, last);
    assert Durable(q)[..k] == Durable(b.events);
    DurableBelow(b.events, last);
    DropAckedIsSuffix(Durable(q), last, k);
  }

  /** The queued event under the seq of a batch of one is that event still, or a
      partial as that one was. */
  lemma {:induction false} RefusedIsQueued(q: seq<Event>, b: Batch, i: nat, n: nat)
    requires QueueOk(q, n) && InFlight(Durable(q), b, n) && |b.events| == 1
    requires i < |q| && q[i].seqNo == b.events[0].seqNo
    ensures if b.events[0].ephemeral then q[i].ephemeral else q[i] == b.events[0]
  {
    var first := b.events[0];
    assert b.events == [first] && Durable(b.events) == (if first.ephemeral then [] else [first]) + Durable([]);
    DurableMembers(q);
    if first.ephemeral {
      assert Durable(q)[0..] == Durable(q);
      assert forall e :: e in Durable(q) ==> first.seqNo < e.seqNo;
    } else {
      assert first == Durable(q)[0];
      assert first in q;
    }
  }

  /** A refusal for size drops a partial, or stubs one event, or only narrows the next batch. */
  lemma {:induction false} RefusalFacts(cfg: Config, p: Pusher, b: Batch)
    requires QueueOk(p.queue, p.seqNo) && CapOk(p) && LimitsOk(p)
    requires InFlight(Durable(p.queue), b, p.seqNo)
    ensures var p' := RefusedForSize(cfg, p, b).0;
      QueueOk(p'.queue, p.seqNo) && CapOk(p') && LimitsOk(p') && Stand(Durable(p'.queue), Durable(p.queue))
  {
    hide Durable;
    if |b.events| == 1 && !b.events[0].stub {
      var first := b.events[0];
      var i := IndexOf(p.queue, first.seqNo);
      if i < |p.queue| {
        RefusedIsQueued(p.queue, b, i, p.seqNo);
        if first.ephemeral {
          DurableAt(p.queue, i);
          WithoutOk(p.queue, i, p.seqNo);
        } else {
          StubInPlace(cfg, p.queue, i, Some(b.sizes[0]));
        }
      }
    }
  }

  lemma {:induction false} RespondKeepsPusher(cfg: Config, p: Pusher, a: Answer)
    requires PusherOk(p) && p.awaiting.Some? && InFlight(Durable(p.queue), p.awaiting.value, p.seqNo)
    ensures PusherOk(Respond(cfg, p, p.awaiting.value, a))
  {
    hide Durable, InFlight, DropAcked, HasTerminal, IndexOf;
    var b := p.awaiting.value;
    if Permanent(a) {
    } else if SizeRefusal(a) {
      RefusalFacts(cfg, p.(awaiting := None), b);
    } else if Accepts(a) && !HasTerminal(b) && b.events != [] {
      DropAckedOk(p.queue, b.events[|b.events| - 1].seqNo, p.seqNo);
    }
  }

  /** The queue an answer leaves. */
  function QueueAfter(cfg: Config, p: Pusher, b: Batch, a: Answer): seq<Event> {
    if Ends(b, a) then []
    else if SizeRefusal(a) then RefusedForSize(cfg, p.(awaiting := None), b).0.queue
    else if !Accepts(a) || b.events == [] then p.queue
    else DropAcked(p.queue, b.events[|b.events| - 1].seqNo)
  }

  lemma RespondShape(cfg: Config, p: Pusher, b: Batch, a: Answer)
    ensures var p' := Respond(cfg, p, b, a);
      && p'.queue == QueueAfter(cfg, p, b, a) && p'.seqNo == p.seqNo && p'.awaiting.None?
      && p'.stopped == (p.stopped || Ends(b, a))
  {}

  lemma {:induction false} AcceptKeepsQueued(q: seq<Event>, b: Batch, n: nat, emitted: seq<Event>, acked: nat)
    requires QueueOk(q, n) && InFlight(Durable(q), b, n) && b.events != [] && StandAt(Durable(q), emitted, acked)
    ensures var d := Durable(DropAcked(q, b.events[|b.events| - 1].seqNo));
      StandAt(d, emitted, acked + |Durable(b.events)|) && |Durable(b.events)| + |d| == |Durable(q)|
  {
    AcceptedBatch(q, b, n);
    StandAtSuffix(Durable(q), emitted, acked, |Durable(b.events)|);
  }

  lemma {:induction false} RefusalKeepsQueued(cfg: Config, p: Pusher, b: Batch, emitted: seq<Event>, acked: nat)
    requires QueueOk(p.queue, p.seqNo) && CapOk(p) && LimitsOk(p) && InFlight(Durable(p.queue), b, p.seqNo)
    requires StandAt(Durable(p.queue), emitted, acked)
    ensures var d := Durable(RefusedForSize(cfg, p, b).0.queue);
      StandAt(d, emitted, acked) && |d| == |Durable(p.queue)|
  {
    RefusalFacts(cfg, p, b);
    StandAtTrans(Durable(RefusedForSize(cfg, p, b).0.queue), Durable(p.queue), emitted, acked);
  }

  lemma {:induction false} RespondKeepsQueued(cfg: Config, w: World, b: Batch, a: Answer)
    requires Inv(w) && w.p.awaiting == Some(b) && !Ends(b, a)
    ensures var d := Durable(QueueAfter(cfg, w.p, b, a));
      var k := if Accepts(a) then |Durable(b.events)| else 0;
      StandAt(d, w.emitted, w.acked + k) && w.acked + k + |d| == |w.emitted|
  {
    if SizeRefusal(a) {
      RefusalKeepsQueued(cfg, w.p.(awaiting := None), b, w.emitted, w.acked);
    } else if Accepts(a) && b.events != [] {
      AcceptKeepsQueued(w.p.queue, b, w.p.seqNo, w.emitted, w.acked);
    }
  }

  lemma StandAtSuffix(xs: seq<Event>, es: seq<Event>, a: nat, k: nat)
    requires StandAt(xs, es, a) && k <= |xs|
    ensures StandAt(xs[k..], es, a + k)
  {
    assert forall i :: 0 <= i < |xs| - k ==> xs[k..][i] == xs[k + i] && es[a + k + i] == es[a + (k + i)];
  }

  lemma {:induction false} RespondKeepsGhosts(cfg: Config, w: World, a: Answer, taken: bool)
    requires Inv(w) && Enabled(w, DoRespond(a, taken))
    ensures var w' := Next(cfg, w, DoRespond(a, taken));
      Conserved(w') && ReceivedOk(w') && FlightOk(w') && ClearedOk(w')
  {
    hide Receive, DropAcked, RefusedForSize, Durable;
    var b := w.p.awaiting.value;
    RespondShape(cfg, w.p, b, a);
    if taken { TakenBatch(w); }
    if !Ends(b, a) { RespondKeepsQueued(cfg, w, b, a); }
  }

  lemma RespondKeepsInv(cfg: Config, w: World, a: Answer, taken: bool)
    requires Inv(w) && Enabled(w, DoRespond(a, taken))
    ensures Inv(Next(cfg, w, DoRespond(a, taken)))
  {
    RespondKeepsPusher(cfg, w.p, a);
    RespondKeepsGhosts(cfg, w, a, taken);
    RespondShape(cfg, w.p, w.p.awaiting.value, a);
  }

  // ---- every run ----------------------------------------------------------------------

  /** Each step can be taken in the state the earlier ones lead to. */
  predicate Legal(cfg: Config, w: World, steps: seq<Step>)
    decreases |steps|
  {
    steps == [] || (Enabled(w, steps[0]) && Legal(cfg, Next(cfg, w, steps[0]), steps[1..]))
  }

  function Run(cfg: Config, w: World, steps: seq<Step>): World
    requires Legal(cfg, w, steps)
    decreases |steps|
  {
    if steps == [] then w else Run(cfg, Next(cfg, w, steps[0]), steps[1..])
  }

  lemma {:induction false} StepKeepsInv(cfg: Config, w: World, step: Step)
    requires Inv(w) && Enabled(w, step)
    ensures Inv(Next(cfg, w, step))
  {
    match step
    case DoEmit(_, _, _, _) => EmitKeepsInv(cfg, w, step);
    case DoFlush => FlushKeepsInv(cfg, w);
    case DoRespond(a, taken) => RespondKeepsInv(cfg, w, a, taken);
    case DoStop =>
  }

  lemma {:induction false} RunKeepsInv(cfg: Config, w: World, steps: seq<Step>)
    requires Inv(w) && Legal(cfg, w, steps)
    ensures Inv(Run(cfg, w, steps))
    decreases |steps|
  {
    if steps != [] {
      StepKeepsInv(cfg, w, steps[0]);
      RunKeepsInv(cfg, Next(cfg, w, steps[0]), steps[1..]);
    }
  }

  /** No durable event is lost, repeated or reordered, in any run from a new
      pusher: up to giving up or a delivered terminal event, the durable events
      emitted are those acknowledged followed by those queued. The control plane
      always holds the first of them, in order, each itself or as its stub, at
      least as far as it acknowledged. Only one request is out at a time, a queue
      over the cap holds only durable events, and a queued event always has a
      flush coming. */
  lemma NoDurableEventIsLost(cfg: Config, steps: seq<Step>)
    requires Legal(cfg, Initial, steps)
    ensures var w := Run(cfg, Initial, steps);
      && Ascending(w.emitted)
      && StandAt(w.received, w.emitted, 0)
      && (!w.cleared ==> w.acked <= |w.received|)
      && (!w.cleared ==> StandAt(Durable(w.p.queue), w.emitted, w.acked) && w.acked + |Durable(w.p.queue)| == |w.emitted|)
      && (|w.p.queue| > MAX_QUEUE ==> AllDurable(w.p.queue))
      && (w.p.queue != [] && w.p.awaiting.None? && !w.p.stopped ==> w.p.timer)
  {
    assert Inv(Initial);
    RunKeepsInv(cfg, Initial, steps);
  }

  /** An accepted batch with a terminal event ends the run with nothing up to
      that event missing: the control plane holds every durable event emitted
      no later than it. What the cleared queue drops is younger. */
  lemma TerminalEventIsPreceded(cfg: Config, w: World, a: Answer, taken: bool, e: Event)
    requires Inv(w) && Enabled(w, DoRespond(a, taken)) && Accepts(a)
    requires e in w.p.awaiting.value.events && Terminal(e) && !e.ephemeral
    ensures var w' := Next(cfg, w, DoRespond(a, taken));
      && w'.cleared
      && forall j :: 0 <= j < |w.emitted| && w.emitted[j].seqNo <= e.seqNo ==>
           j < |w'.received| && StandsFor(w'.received[j], w.emitted[j])
  {
    hide Receive, Durable, RefusedForSize, DropAcked;
    var d := Durable(w.p.awaiting.value.events);
    TakenBatch(w);
    DurableMembers(w.p.awaiting.value.events);
    var i :| 0 <= i < |d| && d[i] == e;
    assert StandsFor(Durable(w.p.queue)[i], w.emitted[w.acked + i]);
    forall j | 0 <= j < |w.emitted| && w.emitted[j].seqNo <= e.seqNo
      ensures j <= w.acked + i
    {}
    var r := Receive(w.received, w.p.awaiting.value.events);
    assert forall j :: 0 <= j < |r| ==> StandsFor(r[j], w.emitted[0 + j]);
  }
}
