/**
 Which answers may cost the queue anything: over every run, told by the status
 codes of the control plane and the kinds of the events sent.
 */
module EventDeliveryAnswers {
  import opened Wrappers
  import opened EventKinds
  import opened EventDelivery
  import opened EventDeliverySafety

  /** An answer to `b` after which nothing more is delivered: a permanent status, one
      that the credential broker refused with for the sixth time, or the receipt
      of a session's end. */
  predicate IsLast(b: Batch, a: Answer) {
    match a
    case Status(code, _) =>
      || code == 401 || code == 403 || code == 404 || code == 410
      || (200 <= code <= 299 && exists e :: e in b.events && (e.kind.SessionEnded? || e.kind.SessionError?))
    case Thrown(status, refusals) =>
      && refusals >= 6
      && (status == Some(401) || status == Some(403) || status == Some(404) || status == Some(410))
  }

  predicate IsReceipt(a: Answer) { a.Status? && 200 <= a.code <= 299 }

  predicate IsTooLarge(a: Answer) { a.Status? && (a.code == 413 || (a.code == 400 && a.tooLarge)) }

  lemma TerminalsAre(b: Batch)
    ensures HasTerminal(b) <==> exists e :: e in b.events && (e.kind.SessionEnded? || e.kind.SessionError?)
  {
    if HasTerminal(b) {
      var e :| e in b.events && Terminal(e);
      assert e in b.events && (e.kind.SessionEnded? || e.kind.SessionError?);
    }
    if exists e :: e in b.events && (e.kind.SessionEnded? || e.kind.SessionError?) {
      var e :| e in b.events && (e.kind.SessionEnded? || e.kind.SessionError?);
      assert Terminal(e);
    }
  }

  /** The queue is given up in a step exactly if its answer is such a last one, and
      then nothing is queued, nothing is out and the pusher has stopped. */
  lemma GivesUpExactly(cfg: Config, w: World, step: Step)
    requires Enabled(w, step) && !w.cleared
    ensures var w' := Next(cfg, w, step);
      && (w'.cleared <==> step.DoRespond? && IsLast(w.p.awaiting.value, step.answer))
      && (w'.cleared ==> w'.p.queue == [] && w'.p.awaiting.None? && w'.p.stopped && !w'.p.timer)
  {
    if step.DoRespond? { TerminalsAre(w.p.awaiting.value); }
    hide HasTerminal, RefusedForSize, Receive, Durable, DropAcked, Emit, Flush;
  }

  /** No answer of the run is a last one. */
  predicate NoneLast(cfg: Config, w: World, steps: seq<Step>)
    requires Legal(cfg, w, steps)
    decreases |steps|
  {
    steps == [] ||
    (&& (steps[0].DoRespond? ==> !IsLast(w.p.awaiting.value, steps[0].answer))
     && NoneLast(cfg, Next(cfg, w, steps[0]), steps[1..]))
  }

  lemma {:induction false} NeverCleared(cfg: Config, w: World, steps: seq<Step>)
    requires Legal(cfg, w, steps) && NoneLast(cfg, w, steps) && !w.cleared
    ensures !Run(cfg, w, steps).cleared
    decreases |steps|
  {
    if steps != [] {
      GivesUpExactly(cfg, w, steps[0]);
      hide Next, IsLast, Enabled;
      NeverCleared(cfg, Next(cfg, w, steps[0]), steps[1..]);
    }
  }

  /** So in every run without one, whatever else is answered: every durable event
      emitted was acknowledged or is queued, in order, and what was acknowledged
      the control plane holds. */
  lemma EveryDurableEventIsKept(cfg: Config, steps: seq<Step>)
    requires Legal(cfg, Initial, steps) && NoneLast(cfg, Initial, steps)
    ensures var w := Run(cfg, Initial, steps);
      && StandAt(Durable(w.p.queue), w.emitted, w.acked) && w.acked + |Durable(w.p.queue)| == |w.emitted|
      && w.acked <= |w.received| && StandAt(w.received, w.emitted, 0)
  {
    NeverCleared(cfg, Initial, steps);
    NoDurableEventIsLost(cfg, steps);
    hide Run, StandAt, Durable;
  }

  /** And after any other refused or failed answer the same durable events are queued,
      no request is out, and with anything queued a flush is coming. */
  lemma RefusedIsRetried(cfg: Config, w: World, a: Answer, taken: bool)
    requires Inv(w) && Enabled(w, DoRespond(a, taken)) && !w.cleared
    requires !IsLast(w.p.awaiting.value, a) && !IsReceipt(a)
    ensures var w' := Next(cfg, w, DoRespond(a, taken));
      && w'.p.awaiting.None? && w'.p.stopped == w.p.stopped && !w'.cleared && w'.acked == w.acked
      && |Durable(w'.p.queue)| == |Durable(w.p.queue)| && StandAt(Durable(w'.p.queue), w'.emitted, w'.acked)
      && (w'.p.queue != [] && !w'.p.stopped ==> w'.p.timer)
  {
    GivesUpExactly(cfg, w, DoRespond(a, taken));
    RespondKeepsInv(cfg, w, a, taken);
    RespondShape(cfg, w.p, w.p.awaiting.value, a);
    ReadInv(w);
    ReadInv(Next(cfg, w, DoRespond(a, taken)));
    hide Inv, Durable, StandAt, Respond, Receive;
  }

  lemma ReadInv(w: World)
    requires Inv(w)
    ensures !w.cleared ==>
      w.acked + |Durable(w.p.queue)| == |w.emitted| && StandAt(Durable(w.p.queue), w.emitted, w.acked)
    ensures w.p.queue != [] && w.p.awaiting.None? && !w.p.stopped ==> w.p.timer
  {
    hide Durable, StandAt, QueueOk, InFlight;
  }

  /** Only a body that is too large narrows what is sent next: 413, or 400 saying so.
      Several events are halved in number, and in bytes down to 262144; and a receipt opens the number
      of events up to 200 again. */
  lemma OnlyTooLargeNarrows(cfg: Config, w: World, a: Answer, taken: bool)
    requires Enabled(w, DoRespond(a, taken)) && !IsLast(w.p.awaiting.value, a)
    ensures var b := w.p.awaiting.value; var p' := Next(cfg, w, DoRespond(a, taken)).p;
      && (!IsTooLarge(a) && !IsReceipt(a) ==>
            p'.queue == w.p.queue && p'.batchLimit == w.p.batchLimit && p'.batchBytes == w.p.batchBytes)
      && (IsTooLarge(a) && |b.events| > 1 ==>
            && p'.queue == w.p.queue && 1 <= p'.batchLimit < |b.events| && p'.batchLimit == |b.events| / 2
            && var half := if b.bytes / 2 < 262144 then 262144 else b.bytes / 2;
               p'.batchBytes == if half < w.p.batchBytes then half else w.p.batchBytes)
      && (IsReceipt(a) && b.events != [] ==> p'.batchLimit == 200 && p'.batchBytes == w.p.batchBytes)
  {
    TerminalsAre(w.p.awaiting.value);
    hide HasTerminal, Receive, Durable, DropAcked;
  }

  // ---- what an emit sheds -------------------------------------------------------------------------

  /** Below 50000 queued events an emit only appends; from there on a new partial is
      shed, and for a durable event the oldest partial makes room, if there is one. */
  lemma EmitShedsPartialsOnly(p: Pusher, kind: Kind, turn: Option<string>, ephemeral: bool, json: Option<string>)
    requires !p.stopped
    ensures var p' := Emit(p, kind, turn, ephemeral, json);
      var ev := Event(p.seqNo + 1, kind, turn, ephemeral, json, false);
      && p'.seqNo == p.seqNo + 1
      && (|p.queue| < 50000 ==> p'.queue == p.queue + [ev])
      && (|p.queue| >= 50000 && ephemeral ==> p'.queue == p.queue)
      && (|p.queue| >= 50000 && !ephemeral && AllDurable(p.queue) ==> p'.queue == p.queue + [ev])
      && (|p.queue| >= 50000 && !ephemeral && !AllDurable(p.queue) ==>
            exists i :: 0 <= i < |p.queue| && p.queue[i].ephemeral && AllDurable(p.queue[..i])
              && p'.queue == p.queue[..i] + p.queue[i + 1..] + [ev])
  {
    var i := FirstPartial(p.queue);
    if i < |p.queue| {
      assert AllDurable(p.queue[..i]);
    }
    hide FirstPartial;
  }
}
