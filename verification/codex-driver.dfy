/**
 The turn bookkeeping of `agent-base/agentd/drivers/codex.mjs` in its own form:
 variables of the driver that messages, notifications and reactions update in
 place, each tied to its step of `CodexTurns`.
 */
module CodexDriver {
  import opened Wrappers
  import C = CodexTurns

  class Driver {
    var turnActive: bool
    var currentTurnId: Option<nat>
    var openingTurns: seq<C.Opening>
    var pendingSteers: seq<C.Text>
    var abortGen: nat
    var turnGen: nat
    var closed: bool
    var finished: bool
    // What the reactions to requests remember: the unanswered steers, the generation of
    // each request, and how many messages there were.
    var steers: seq<C.Text>
    var gens: seq<nat>
    var queued: nat
    // The app-server and history: see `CodexTurns.World`.
    ghost var waiting: seq<nat>
    ghost var failing: set<nat>
    ghost var sent: seq<C.Sent>
    ghost var withdrawn: seq<C.Text>
    ghost var adopted: seq<C.Opening>
    ghost var cancelled: seq<nat>

    ghost function View(): C.World
      reads this
    {
      C.World(C.Driver(turnActive, currentTurnId, openingTurns, pendingSteers, abortGen, turnGen, closed, finished),
              waiting, failing, steers, gens, queued, sent, withdrawn, adopted, cancelled)
    }

    constructor ()
      ensures View() == C.Initial
    {
      turnActive, currentTurnId, openingTurns, pendingSteers := false, None, [], [];
      abortGen, turnGen, closed, finished := 0, 0, false, false;
      waiting, failing, steers, gens, queued := [], {}, [], [], 0;
      sent, withdrawn, adopted, cancelled := [], [], [], [];
    }

    /** The slot is claimed before the request goes out. */
    method ClaimSlot()
      modifies `turnActive, `currentTurnId, `openingTurns
      ensures turnActive && currentTurnId.None? && openingTurns == old(openingTurns) + [C.Opening(|gens|, abortGen)]
    {
      turnActive, currentTurnId := true, None;
      openingTurns := openingTurns + [C.Opening(|gens|, abortGen)];
    }

    method RequestTurn(text: C.Text)
      modifies `waiting, `gens, `sent
      ensures waiting == old(waiting) + [|old(gens)|] && gens == old(gens) + [abortGen]
      ensures sent == old(sent) + [C.Sent(text, abortGen)]
    {
      waiting, gens, sent := waiting + [|gens|], gens + [abortGen], sent + [C.Sent(text, abortGen)];
    }

    method StartTurn(text: C.Text)
      modifies this
      ensures View() == C.StartTurn(old(View()), text)
    {
      ClaimSlot();
      RequestTurn(text);
    }

    method SendSteer(text: C.Text)
      modifies this
      ensures View() == C.SendSteer(old(View()), text)
    {
      if currentTurnId.None? {
        StartTurn(text);
      } else {
        steers, sent := steers + [text], sent + [C.Sent(text, abortGen)];
      }
    }

    method ShiftSteer() returns (text: C.Text)
      requires pendingSteers != []
      modifies `pendingSteers
      ensures text == old(pendingSteers)[0] && pendingSteers == old(pendingSteers)[1..]
    {
      text := pendingSteers[0];
      pendingSteers := pendingSteers[1..];
    }

    method FlushSteers()
      modifies this
      ensures View() == C.FlushSteers(old(View()))
    {
      while currentTurnId.Some? && |pendingSteers| > 0
        invariant C.FlushSteers(View()) == C.FlushSteers(old(View()))
        decreases |pendingSteers|
      {
        hide C.StartTurn;
        var text := ShiftSteer();
        SendSteer(text);
      }
    }

    method Dispatch(text: C.Text)
      modifies this
      ensures View() == C.Dispatch(old(View()), text)
    {
      hide C.StartTurn, C.SendSteer;
      if !turnActive {
        StartTurn(text);
      } else if currentTurnId.Some? {
        SendSteer(text);
      } else {
        pendingSteers := pendingSteers + [text];
      }
    }

    method QueueMessage() returns (taken: bool)
      modifies this
      ensures View() == C.QueueMessage(old(View()))
      ensures taken <==> !old(closed) && !old(finished)
    {
      hide C.Dispatch;
      if closed || finished { return false; }
      var text := C.Text(queued, abortGen);
      queued := queued + 1;
      Dispatch(text);
      return true;
    }

    method Shift() returns (opening: Option<C.Opening>)
      modifies `openingTurns
      ensures opening == if old(openingTurns) == [] then None else Some(old(openingTurns)[0])
      ensures openingTurns == if old(openingTurns) == [] then [] else old(openingTurns)[1..]
    {
      if |openingTurns| == 0 { return None; }
      opening := Some(openingTurns[0]);
      openingTurns := openingTurns[1..];
    }

    method Adopt(id: nat, gen: nat)
      modifies this
      ensures View() == old(View()).(
        d := old(View()).d.(turnActive := true, currentTurnId := Some(id), turnGen := gen),
        adopted := old(adopted) + [C.Opening(id, old(abortGen))])
    {
      turnActive, currentTurnId, turnGen := true, Some(id), gen;
      adopted := adopted + [C.Opening(id, abortGen)];
    }

    /** The notification that turn `id` started. */
    method TurnStarted(id: nat)
      modifies this
      ensures View() == C.TurnStarted(old(View()), id)
    {
      hide C.FlushSteers;
      var opening := Shift();
      if opening.None? || opening.value.gen != abortGen {
        cancelled := cancelled + [id];
        return;
      }
      Adopt(id, opening.value.gen);
      FlushSteers();
    }

    method StartAnswered(r: nat)
      requires r < |gens|
      modifies this
      ensures View() == C.StartAnswered(old(View()), r)
    {
      hide C.FlushSteers;
      if abortGen != gens[r] || finished { return; }
      if currentTurnId.None? {
        currentTurnId := Some(r);
        adopted := adopted + [C.Opening(r, abortGen)];
        FlushSteers();
      }
    }

    /** `indexOf` and `splice`, in one pass. */
    method ReleaseSlot(r: nat)
      modifies `openingTurns
      ensures openingTurns == C.WithoutRequest(old(openingTurns), r)
    {
      var i := 0;
      while i < |openingTurns| && openingTurns[i].request != r
        invariant i <= |openingTurns| && openingTurns == old(openingTurns)
        invariant C.WithoutRequest(openingTurns, r) == openingTurns[..i] + C.WithoutRequest(openingTurns[i..], r)
      {
        assert openingTurns[i..][1..] == openingTurns[i + 1..];
        assert openingTurns[..i + 1] == openingTurns[..i] + [openingTurns[i]];
        i := i + 1;
      }
      if i < |openingTurns| {
        assert openingTurns[i..][1..] == openingTurns[i + 1..];
        openingTurns := openingTurns[..i] + openingTurns[i + 1..];
      } else {
        assert openingTurns[i..] == [] && openingTurns[..i] == openingTurns;
      }
    }

    method StartFailed(r: nat)
      requires r < |gens|
      modifies this
      ensures View() == C.StartFailed(old(View()), r)
    {
      hide C.WithoutRequest;
      ReleaseSlot(r);
      failing := failing - {r};
      if abortGen != gens[r] || finished { return; }
      turnActive, currentTurnId := false, None;
    }

    method SteerFailed(i: nat)
      requires i < |steers|
      modifies this
      ensures View() == C.SteerFailed(old(View()), i)
    {
      hide C.StartTurn;
      var text := steers[i];
      steers := steers[..i] + steers[i + 1..];
      if abortGen != text.gen || finished { return; }
      turnActive, currentTurnId := false, None;
      StartTurn(text);
    }

    method TurnCompleted(done: Option<nat>)
      modifies this
      ensures View() == C.TurnCompleted(old(View()), done)
    {
      if C.IsStale(done, currentTurnId, turnActive) { return; }
      turnActive, currentTurnId := false, None;
    }

    method WithdrawParked()
      modifies `pendingSteers, `withdrawn
      ensures pendingSteers == [] && withdrawn == old(withdrawn) + old(pendingSteers)
    {
      withdrawn, pendingSteers := withdrawn + pendingSteers, [];
    }

    /** `interrupt` up to its first await. */
    method Interrupt() returns (turn: Option<nat>)
      modifies this
      ensures View() == C.Interrupt(old(View())) && turn == old(currentTurnId)
    {
      turn := currentTurnId;
      WithdrawParked();
      abortGen, turnActive, currentTurnId := abortGen + 1, false, None;
    }
  }
}
