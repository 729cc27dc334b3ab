/**
 The pusher of `agent-base/agentd/event-pusher.mjs` in its own form: a class
 whose methods update the queue in place. Every method is tied to the step
 functions of `EventDelivery` and `TurnEvents`, where the properties of runs
 are proved.
 */
module EventPushing {
  import opened Wrappers
  import opened EventKinds
  import opened EventDelivery
  import T = TurnEvents

  /** One queued event: the pusher's own notices are serialized here. */
  function EmitItem(cfg: Config, p: Pusher, it: T.Item): Pusher {
    Emit(p, it.kind, it.turn, it.ephemeral,
         if it.payload.Given? then it.payload.json
         else Some(cfg.noticeText(p.seqNo + 1, it.kind, it.turn.GetOr(""))))
  }

  function EmitAll(cfg: Config, p: Pusher, items: seq<T.Item>): Pusher
    decreases |items|
  {
    if items == [] then p else EmitAll(cfg, EmitItem(cfg, p, items[0]), items[1..])
  }

  lemma {:induction false} EmitAllConcat(cfg: Config, p: Pusher, a: seq<T.Item>, b: seq<T.Item>)
    ensures EmitAll(cfg, p, a + b) == EmitAll(cfg, EmitAll(cfg, p, a), b)
    decreases |a|
  {
    if a == [] {
      assert a + b == b;
    } else {
      assert (a + b)[1..] == a[1..] + b;
      EmitAllConcat(cfg, EmitItem(cfg, p, a[0]), a[1..], b);
    }
  }

  /** The brackets an event closes before itself. */
  function Before(t: T.Turns, kind: Kind): seq<T.Item> {
    if kind.IsTerminal() then T.Closing(t) else []
  }

  /** The call an `emit` is: its file changes are looked at only once it is queued. */
  function AsCall(cfg: Config, t: T.Turns, p: Pusher, kind: Kind, unstamped: bool, ephemeral: bool,
      json: Option<string>, files: bool): (c: T.Call)
    ensures c.Emit?
  {
    T.Emit(kind, unstamped, ephemeral, json, files && Queued(EmitAll(cfg, p, Before(t, kind)), ephemeral))
  }

  function Own(t: T.Turns, c: T.Call): seq<T.Item>
    requires c.Emit?
  {
    T.Stamped(c.kind, T.Stamp(t, c.kind, c.unstamped), c.ephemeral, c.json, c.files)
  }

  /** An `emit` queues what the call is said to queue, in order. */
  lemma {:induction false} EmitIsItems(cfg: Config, t: T.Turns, p: Pusher, c: T.Call)
    requires c.Emit?
    ensures EmitAll(cfg, EmitAll(cfg, p, Before(t, c.kind)), Own(t, c)) == EmitAll(cfg, p, T.Items(t, c))
  {
    EmitAllConcat(cfg, p, Before(t, c.kind), Own(t, c));
  }

  class EventPusher {
    const cfg: Config
    const turns: T.TurnEventContext
    var queue: seq<Event>
    var seqNo: nat
    var inFlight: bool
    var batchLimit: nat
    var batchBytes: nat
    var stopped: bool
    var timer: bool
    /** The batch of the flush that is waiting for its answer. */
    ghost var awaiting: Option<Batch>

    ghost predicate Valid()
      reads this
    {
      inFlight <==> awaiting.Some?
    }

    ghost function View(): Pusher
      reads this
    {
      Pusher(queue, seqNo, awaiting, batchLimit, batchBytes, stopped, timer)
    }

    constructor (cfg: Config)
      ensures Valid() && fresh(turns) && this.cfg == cfg && turns.View() == T.Turns(None, None)
      ensures View() == Pusher([], 0, None, MAX_BATCH, MAX_BATCH_BYTES, false, false)
    {
      this.cfg := cfg;
      turns := new T.TurnEventContext();
      queue, seqNo, inFlight, stopped, timer := [], 0, false, false, false;
      batchLimit, batchBytes := MAX_BATCH, MAX_BATCH_BYTES;
      awaiting := None;
    }

    method Schedule()
      requires Valid()
      modifies this
      ensures Valid() && View() == EventDelivery.Schedule(old(View()))
    {
      if timer || inFlight || stopped { return; }
      timer := true;
    }

    method MakeRoom()
      modifies `queue
      ensures queue == if |old(queue)| >= MAX_QUEUE then EvictPartial(old(queue)) else old(queue)
    {
      if |queue| >= MAX_QUEUE {
        var i := FirstPartial(queue);
        if i < |queue| { queue := Without(queue, i); }
      }
    }

    method Enqueue(kind: Kind, turn: Option<string>, ephemeral: bool, json: Option<string>) returns (queued: bool)
      requires Valid()
      modifies this
      ensures Valid() && View() == EventDelivery.Emit(old(View()), kind, turn, ephemeral, json)
      ensures queued == Queued(old(View()), ephemeral)
    {
      hide EvictPartial, FirstPartial, EventDelivery.Schedule;
      seqNo := seqNo + 1;
      queued := !stopped && !(|queue| >= MAX_QUEUE && ephemeral);
      if queued {
        MakeRoom();
        queue := queue + [Event(seqNo, kind, turn, ephemeral, json, false)];
        Schedule();
      }
    }

    method Notice(kind: Kind, turn: T.TurnId)
      requires Valid()
      modifies this
      ensures Valid() && View() == EmitItem(cfg, old(View()), T.Bracket(kind, turn))
    {
      var _ := Enqueue(kind, Some(turn), false, Some(cfg.noticeText(seqNo + 1, kind, turn)));
    }

    method CompleteTurn() returns (completed: Option<T.TurnId>)
      requires Valid()
      modifies this, turns
      ensures Valid() && completed == old(turns.activeTurnId)
      ensures turns.View() == T.After(old(turns.View()), T.Complete)
      ensures View() == EmitAll(cfg, old(View()), T.Items(old(turns.View()), T.Complete))
    {
      completed := turns.Complete();
      if completed.Some? { Notice(TurnCompleted, completed.value); }
    }

    method BeginTurn(newId: T.TurnId)
      requires Valid()
      modifies this, turns
      ensures Valid() && turns.View() == T.After(old(turns.View()), T.Begin(newId))
      ensures View() == EmitAll(cfg, old(View()), T.Items(old(turns.View()), T.Begin(newId)))
    {
      var started := turns.Begin(newId);
      if started.Some? { Notice(TurnStarted, started.value); }
    }

    method RotateTurn(newId: T.TurnId)
      requires Valid()
      modifies this, turns
      ensures Valid() && turns.View() == T.After(old(turns.View()), T.Rotate(newId))
      ensures View() == EmitAll(cfg, old(View()), T.Items(old(turns.View()), T.Rotate(newId)))
    {
      EmitAllConcat(cfg, View(), T.Closing(turns.View()), [T.Bracket(TurnStarted, newId)]);
      var completed, started := turns.Rotate(newId);
      if completed.Some? { Notice(TurnCompleted, completed.value); }
      if started.Some? { Notice(TurnStarted, started.value); }
    }

    method StartDrainingTurn() returns (completed: Option<T.TurnId>)
      requires Valid()
      modifies this, turns
      ensures Valid() && completed == old(turns.activeTurnId)
      ensures turns.View() == T.After(old(turns.View()), T.StartDraining)
      ensures View() == EmitAll(cfg, old(View()), T.Items(old(turns.View()), T.StartDraining))
    {
      completed := turns.StartDraining();
      if completed.Some? { Notice(TurnCompleted, completed.value); }
    }

    method FinishDrainingTurn(turn: Option<T.TurnId>)
      requires Valid()
      modifies turns
      ensures Valid() && View() == old(View())
      ensures turns.View() == T.After(old(turns.View()), T.FinishDraining(turn))
    {
      turns.FinishDraining(turn);
    }

    /** `emit` once the turn is settled. `files` is what `changedFiles.observe`
        finds in the payload: it is asked only about an event that was queued. */
    method EmitStamped(kind: Kind, turn: Option<T.TurnId>, ephemeral: bool, json: Option<string>, files: bool)
      requires Valid()
      modifies this
      ensures Valid()
      ensures View() == EmitAll(cfg, old(View()), T.Stamped(kind, turn, ephemeral, json, files && Queued(old(View()), ephemeral)))
    {
      ghost var p0, own := View(), T.Item(kind, turn, ephemeral, T.Given(json));
      var queued := Enqueue(kind, turn, ephemeral, json);
      assert View() == EmitAll(cfg, p0, [own]);
      if queued && files && turn.Some? {
        Notice(FilesChanged, turn.value);
        EmitAllConcat(cfg, p0, [own], [T.Bracket(FilesChanged, turn.value)]);
      } else {
        assert [own] + [] == [own];
      }
    }

    /** A terminal event closes the open turn before it is queued itself. */
    method CloseBefore(kind: Kind)
      requires Valid()
      modifies this, turns
      ensures Valid()
      ensures turns.View() == old(turns.View()).(active := if kind.IsTerminal() then None else old(turns.activeTurnId))
      ensures View() == EmitAll(cfg, old(View()), Before(old(turns.View()), kind))
    {
      if kind.IsTerminal() && turns.activeTurnId.Some? {
        var _ := CompleteTurn();
      }
    }

    method Emit(kind: Kind, unstamped: bool, ephemeral: bool, json: Option<string>, files: bool)
      requires Valid()
      modifies this, turns
      ensures Valid()
      ensures var call := AsCall(cfg, old(turns.View()), old(View()), kind, unstamped, ephemeral, json, files);
        turns.View() == T.After(old(turns.View()), call)
        && View() == EmitAll(cfg, EmitAll(cfg, old(View()), Before(old(turns.View()), kind)), Own(old(turns.View()), call))
    {
      hide EmitAll, EmitItem, Queued;
      var turn := if unstamped || (kind.IsTerminal() && turns.activeTurnId.Some?) then None
                  else if (kind.Sdk? || kind.TodoUpdated?) && turns.drainingTurnId.Some? then turns.drainingTurnId
                  else turns.activeTurnId;
      CloseBefore(kind);
      EmitStamped(kind, turn, ephemeral, json, files);
    }

    method NextBatch() returns (b: Batch)
      modifies `queue
      ensures (b, queue) == Gather(cfg, batchLimit, batchBytes, old(queue), EmptyBatch(cfg))
    {
      b := EmptyBatch(cfg);
      var i := 0;
      while i < |queue| && |b.events| < batchLimit
        invariant i == |b.events| <= |queue|
        invariant Gather(cfg, batchLimit, batchBytes, queue, b) == Gather(cfg, batchLimit, batchBytes, old(queue), EmptyBatch(cfg))
        decreases |queue| - i
      {
        var ev := queue[i];
        if ev.json.None? && ev.ephemeral {
          queue := Without(queue, i);
        } else {
          if ev.json.None? {
            ev := StubFor(cfg, ev, None);
            queue := queue[i := ev];
          } else {
            assert queue[i := ev] == queue;
          }
          if |b.events| > 0 && b.bytes + SizeIn(b, ev) > batchBytes { return; }
          b := Add(b, ev);
          i := i + 1;
        }
      }
    }

    /** `flush()` up to its request: the batch to send, if there is one. */
    method StartFlush() returns (sent: Option<Batch>)
      requires Valid()
      modifies this
      ensures Valid() && View() == EventDelivery.Flush(cfg, old(View()))
      ensures sent.Some? ==> awaiting == sent && !old(inFlight)
      ensures sent.None? ==> awaiting == old(awaiting)
    {
      timer := false;
      if inFlight || stopped || |queue| == 0 { return None; }
      inFlight := true;
      var b := NextBatch();
      awaiting := Some(b);
      return Some(b);
    }

    method RefusedForSize(b: Batch) returns (handled: bool)
      requires Valid()
      modifies `queue, `batchLimit, `batchBytes
      ensures Valid() && (View(), handled) == EventDelivery.RefusedForSize(cfg, old(View()), b)
    {
      if |b.events| > 1 {
        batchLimit := Max(1, |b.events| / 2);
        batchBytes := Min(batchBytes, Max(MIN_BATCH_BYTES, b.bytes / 2));
        return true;
      }
      if |b.events| == 0 { return |queue| == 0; }
      var first := b.events[0];
      if first.stub { return false; }
      var i := IndexOf(queue, first.seqNo);
      if i == |queue| { return true; }
      if first.ephemeral {
        queue := Without(queue, i);
      } else {
        queue := queue[i := StubFor(cfg, first, if |b.sizes| == 0 then None else Some(b.sizes[0]))];
      }
      return true;
    }

    method Stop()
      requires Valid()
      modifies this
      ensures Valid() && View() == StopPusher(old(View()))
    {
      stopped, timer := true, false;
    }

    method GiveUp()
      requires Valid()
      modifies this
      ensures Valid() && View() == EventDelivery.GiveUp(old(View()))
    {
      queue, inFlight, awaiting := [], false, None;
      Stop();
    }

    /** The rest of `flush()`, once the request of `b` is settled. */
    method Respond(b: Batch, a: Answer)
      requires Valid() && awaiting == Some(b)
      modifies this
      ensures Valid() && View() == EventDelivery.Respond(cfg, old(View()), b, a)
    {
      inFlight, awaiting := false, None;
      if Permanent(a) { GiveUp(); return; }
      if SizeRefusal(a) {
        var _ := RefusedForSize(b);
        Schedule();
        return;
      }
      if !Accepts(a) { Schedule(); return; }
      if exists e :: e in b.events && Terminal(e) {
        queue := [];
        Stop();
        return;
      }
      // With no event to read the last seq from, the original throws into its retry branch.
      if |b.events| == 0 { Schedule(); return; }
      var lastSeq := b.events[|b.events| - 1].seqNo;
      ghost var q0 := queue;
      while |queue| > 0 && queue[0].seqNo <= lastSeq
        invariant DropAcked(queue, lastSeq) == DropAcked(q0, lastSeq)
        invariant View() == old(View()).(awaiting := None, queue := queue) && Valid()
        decreases |queue|
      {
        queue := queue[1..];
      }
      batchLimit := MAX_BATCH;
      if |queue| > 0 { Schedule(); }
    }
  }
}
