/**
 What is sent: every batch is the most of the queue's head that fits, within the
 limits, and what a refused lone event becomes.
 */
module EventDeliveryBatches {
  import opened Wrappers
  import opened EventKinds
  import opened EventDelivery
  import opened EventDeliverySafety
  import opened EventDeliveryAnswers

  // ---- one batch --------------------------------------------------------------------------------

  /** The batch `b` from the head of `q` ends with the queue, at the count limit, or
      before an event that would take it over the byte budget. */
  predicate Longest(limit: nat, budget: nat, q: seq<Event>, b: Batch) {
    var n := |b.events|;
    || n == |q| || n == limit
    || (n < |q| && n > 0 && q[n].json.Some? && b.bytes + |q[n].json.value| + 1 > budget)
  }

  lemma {:induction false} GatherIsLongest(cfg: Config, limit: nat, budget: nat, q: seq<Event>, b: Batch)
    requires |b.events| <= |q| && |b.events| <= limit
    ensures var (b', q') := Gather(cfg, limit, budget, q, b); Longest(limit, budget, q', b')
    decreases |q| - |b.events|
  {
    var i := |b.events|;
    if i < |q| && i < limit {
      if q[i].json.None? && q[i].ephemeral {
        GatherIsLongest(cfg, limit, budget, Without(q, i), b);
      } else {
        var e := if q[i].json.None? then StubFor(cfg, q[i], None) else q[i];
        if !(i > 0 && b.bytes + SizeIn(b, e) > budget) {
          GatherIsLongest(cfg, limit, budget, q[i := e], Add(b, e));
        }
      }
    }
  }

  /** A flush takes a batch exactly if none is out, the pusher runs and something is
      queued: the head of the queue it leaves, and no shorter than the limits make it. */
  lemma FlushTakesTheMost(cfg: Config, w: World)
    ensures Enabled(w, DoFlush) ==>
      var p, p' := w.p, Next(cfg, w, DoFlush).p;
      && !p'.timer && p'.stopped == p.stopped && p'.seqNo == p.seqNo
      && p'.batchLimit == p.batchLimit && p'.batchBytes == p.batchBytes
      && if p.awaiting.Some? || p.stopped || p.queue == [] then p'.queue == p.queue && p'.awaiting == p.awaiting
         else
           && p'.awaiting.Some? && p'.awaiting.value.events <= p'.queue
           && Longest(p.batchLimit, p.batchBytes, p'.queue, p'.awaiting.value)
  {
    NextBatchFacts(cfg, w.p.batchLimit, w.p.batchBytes, w.p.queue);
    GatherIsLongest(cfg, w.p.batchLimit, w.p.batchBytes, w.p.queue, EmptyBatch(cfg));
    hide Gather, Longest, Body;
  }

  // ---- every run --------------------------------------------------------------------------------

  /** At most 200 events, and 8 MiB unless it is one event alone. */
  predicate IsSmall(cfg: Config, b: Batch) {
    |b.events| <= 200 && (|b.events| >= 2 ==> b.bytes <= 8388608) && b.bytes == |Body(cfg, b.parts)|
  }

  predicate Limited(cfg: Config, p: Pusher) {
    1 <= p.batchLimit <= 200 && p.batchBytes <= 8388608 && (p.awaiting.Some? ==> IsSmall(cfg, p.awaiting.value))
  }

  lemma EmitLimited(cfg: Config, p: Pusher, kind: Kind, turn: Option<string>, ephemeral: bool, json: Option<string>)
    requires Limited(cfg, p)
    ensures Limited(cfg, Emit(p, kind, turn, ephemeral, json))
  {
    hide EvictPartial, Body;
  }

  lemma FlushLimited(cfg: Config, p: Pusher)
    requires Limited(cfg, p)
    ensures Limited(cfg, Flush(cfg, p))
  {
    NextBatchFacts(cfg, p.batchLimit, p.batchBytes, p.queue);
    hide Gather, Body;
  }

  lemma RespondLimited(cfg: Config, p: Pusher, a: Answer)
    requires Limited(cfg, p) && p.awaiting.Some?
    ensures Limited(cfg, Respond(cfg, p, p.awaiting.value, a))
  {
    hide HasTerminal, DropAcked, Body;
  }

  lemma StepLimited(cfg: Config, w: World, step: Step)
    requires Limited(cfg, w.p) && Enabled(w, step)
    ensures Limited(cfg, Next(cfg, w, step).p)
  {
    hide Emit, Flush, Respond, Limited, Receive, Durable;
    match step
    case DoEmit(kind, turn, ephemeral, json) => EmitLimited(cfg, w.p, kind, turn, ephemeral, json);
    case DoFlush => FlushLimited(cfg, w.p);
    case DoRespond(a, _) => RespondLimited(cfg, w.p, a);
    case DoStop => StopLimited(cfg, w.p);
  }

  lemma StopLimited(cfg: Config, p: Pusher)
    requires Limited(cfg, p)
    ensures Limited(cfg, StopPusher(p))
  {}

  lemma {:induction false} RunLimited(cfg: Config, w: World, steps: seq<Step>)
    requires Limited(cfg, w.p) && Legal(cfg, w, steps)
    ensures Limited(cfg, Run(cfg, w, steps).p)
    decreases |steps|
  {
    if steps != [] {
      StepLimited(cfg, w, steps[0]);
      hide Next, Enabled, Limited;
      RunLimited(cfg, Next(cfg, w, steps[0]), steps[1..]);
    }
  }

  /** Over every run, whatever was refused: what is out is at most 200 events, at most
      8 MiB unless it is one event, and its size is that of the request's body. */
  lemma BatchesAreSmall(cfg: Config, steps: seq<Step>)
    requires Legal(cfg, Initial, steps)
    ensures var p := Run(cfg, Initial, steps).p;
      p.awaiting.Some? ==>
        var b := p.awaiting.value;
        |b.events| <= 200 && (|b.events| >= 2 ==> b.bytes <= 8388608) && b.bytes == |Body(cfg, b.parts)|
  {
    RunLimited(cfg, Initial, steps);
    hide Run, Legal, Body;
  }

  // ---- a lone event that is too large -------------------------------------------------------------

  /** A lone event refused as too large, where it is still queued: a partial goes, a
      durable event becomes its stub, under its number, kind and turn and in its
      place, and a stub is sent again. */
  lemma TooLargeAlone(cfg: Config, w: World, a: Answer, taken: bool, i: nat)
    requires Enabled(w, DoRespond(a, taken)) && IsTooLarge(a)
    requires var b := w.p.awaiting.value; |b.events| == 1 && |b.sizes| == 1
    requires i < |w.p.queue| && w.p.queue[i].seqNo == w.p.awaiting.value.events[0].seqNo && Ascending(w.p.queue)
    ensures var p', e, q := Next(cfg, w, DoRespond(a, taken)).p, w.p.awaiting.value.events[0], w.p.queue;
      p'.queue ==
        if e.stub then q
        else if e.ephemeral then q[..i] + q[i + 1..]
        else q[i := Event(e.seqNo, e.kind, e.turn, false, Some(cfg.stubText(e, Some(w.p.awaiting.value.sizes[0]))), true)]
  {
    var k := IndexOf(w.p.queue, w.p.awaiting.value.events[0].seqNo);
    assert k == i;
    hide HasTerminal, Receive, Durable, DropAcked, IndexOf;
  }

  /** Where it is queued no more, nothing changes but that no request is out. */
  lemma TooLargeAndGone(cfg: Config, w: World, a: Answer, taken: bool)
    requires Enabled(w, DoRespond(a, taken)) && IsTooLarge(a) && |w.p.awaiting.value.events| == 1
    requires forall i :: 0 <= i < |w.p.queue| ==> w.p.queue[i].seqNo != w.p.awaiting.value.events[0].seqNo
    ensures Next(cfg, w, DoRespond(a, taken)).p.queue == w.p.queue
  {
    hide HasTerminal, Receive, Durable, DropAcked;
  }

  /** A refusal for size is handled, so that the next request does not wait, unless it
      was of a stub alone, or of an empty batch with events queued. */
  lemma RefusalIsHandled(cfg: Config, p: Pusher, b: Batch)
    ensures RefusedForSize(cfg, p, b).1 <==>
      !(|b.events| == 1 && b.events[0].stub) && !(b.events == [] && p.queue != [])
  {}
}
