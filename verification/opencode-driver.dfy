/**
 The turn and result bookkeeping of `agent-base/agentd/drivers/opencode.mjs` in
 its own form: variables that messages, events and chained reactions update in
 place, each tied to its step of `OpenCodeResults`.
 */
module OpenCodeDriver {
  import opened Wrappers
  import O = OpenCodeResults

  class Driver {
    var turnActive: bool
    var turnGen: nat
    var turnSeq: nat
    var resultEmittedSeq: nat
    var abortGen: nat
    var lastPromptGen: Option<nat>
    var lastText: string
    var turnError: Option<bool>
    var closed: bool
    var finished: bool
    var serial: seq<O.Reaction>
    /** The result suspended at its awaits. */
    var emitting: Option<O.Running>
    // History: see `OpenCodeResults.World`.
    ghost var log: seq<O.Entry>
    ghost var results: seq<O.Result>
    ghost var prompts: set<nat>

    ghost function View(): O.World
      reads this
    {
      var d := O.Driver(
        turnActive, turnGen, turnSeq, resultEmittedSeq, abortGen, lastPromptGen, lastText, turnError, closed, finished);
      O.World(d, serial, emitting, log, results, prompts)
    }

    constructor ()
      ensures View() == O.Initial
    {
      turnActive, turnGen, turnSeq, resultEmittedSeq, abortGen := false, 0, 0, 0, 0;
      lastPromptGen, lastText, turnError, closed, finished := None, "", None, false, false;
      serial, emitting, log, results, prompts := [], None, [], [], {};
    }

    method ResetTurnState()
      modifies this
      ensures View() == O.ResetTurnState(old(View()))
    {
      turnSeq := turnSeq + 1;
      turnGen, turnError, lastText := abortGen, None, "";
      log := log + [O.Opened(turnSeq, abortGen)];
    }

    method MarkPrompt()
      modifies this
      ensures View() == O.Prompted(old(View()))
    {
      lastPromptGen := Some(abortGen);
      prompts := prompts + {abortGen};
    }

    method SendPrompt()
      modifies this
      ensures View() == O.SendPrompt(old(View()))
    {
      hide O.Prompted, O.ResetTurnState;
      MarkPrompt();
      ResetTurnState();
      turnActive := true;
    }

    method QueueMessage() returns (taken: bool)
      modifies this
      ensures View() == O.QueueMessage(old(View())) && (taken <==> !old(closed) && !old(finished))
    {
      hide O.Prompted, O.SendPrompt;
      if closed || finished { return false; }
      if turnActive { MarkPrompt(); } else { SendPrompt(); }
      return true;
    }

    method Read(text: string)
      modifies this
      ensures View() == O.ReadText(old(View()), text)
    {
      if text == "" { return; }
      lastText := text;
      log := log + [O.Read(text)];
    }

    /** `session.error`; an abort is known by its name. */
    method ReadError(isAbort: bool)
      modifies this
      ensures View() == O.ReadError(old(View()), isAbort)
    {
      turnError := Some(isAbort);
      log := log + [O.Erred(isAbort)];
    }

    /** `session.status` with `busy`. */
    method Busy(ending: bool)
      modifies this
      ensures View() == O.Busy(old(View()), ending)
    {
      hide O.ResetTurnState;
      if !turnActive && !finished && !closed && !ending && lastPromptGen == Some(abortGen) && resultEmittedSeq >= turnSeq {
        ResetTurnState();
        turnActive := true;
      }
    }

    /** `session.idle`: the snapshot is taken before anything can change it. */
    method Idle()
      modifies this
      ensures View() == O.Idle(old(View()))
    {
      if !turnActive { return; }
      var snap := O.Snap(turnSeq, turnGen, lastText, turnError);
      turnActive := false;
      log := log + [O.Idled(turnSeq)];
      serial := serial + [O.Report(snap)];
    }

    method Interrupt()
      modifies this
      ensures View() == O.Interrupt(old(View()))
    {
      abortGen, turnActive := abortGen + 1, false;
    }

    method Shift() returns (r: O.Reaction)
      requires |serial| > 0
      modifies `serial
      ensures r == old(serial)[0] && serial == old(serial)[1..]
    {
      r := serial[0];
      serial := serial[1..];
    }

    /** The next reaction of the chain, up to its first await. */
    method React()
      requires emitting.None? && serial != []
      modifies this
      ensures View() == O.React(old(View()))
    {
      var r := Shift();
      match r {
        case Report(snap) =>
          if snap.gen != abortGen || finished || resultEmittedSeq >= snap.seqNo { return; }
          resultEmittedSeq := snap.seqNo;
          emitting := Some(O.Running(snap, abortGen));
        case _ => finished := true;
      }
    }

    method EmitResult(ending: bool)
      requires emitting.Some?
      modifies this
      ensures View() == O.EmitResult(old(View()), ending)
    {
      var snap := emitting.value.snap;
      results := results + [O.Result(snap.seqNo, snap.gen, emitting.value.gen, snap.error == Some(false), snap.text)];
      emitting := None;
      if closed || ending { finished := true; }
    }
  }
}
