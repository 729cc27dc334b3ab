/**
 When a Codex turn ends and what happens then, told by the ids the notifications
 name: each step of any state, so of every run.
 */
module CodexTurnsEnds {
  import opened Wrappers
  import opened CodexTurns
  import opened CodexTurnsSafety

  predicate HasTurn(w: World) { w.d.turnActive || w.d.currentTurnId.Some? }

  /** A completion of the current turn, or one that names none, leaves no turn active
      and none current; one that names another turn, or any turn while the id of the
      turn that is opening is not known, changes nothing. */
  lemma CompletionEndsItsTurn(w: World, done: Option<nat>)
    ensures var w' := Next(w, Completed(done));
      if done.None? || done == w.d.currentTurnId then
        w' == w.(d := w.d.(turnActive := false, currentTurnId := None))
      else if w.d.currentTurnId.Some? || w.d.turnActive then w' == w
      else !HasTurn(w')
  {}

  /** The same of an error, but that one naming a turn counts while none is known. */
  lemma ErrorEndsItsTurn(w: World, turn: Option<nat>)
    ensures var w' := Next(w, ErrorRead(turn));
      if turn.Some? && w.d.currentTurnId.Some? && turn != w.d.currentTurnId then w' == w
      else w' == w.(d := w.d.(turnActive := false, currentTurnId := None))
  {}

  /** What may end an active turn. */
  predicate Ends(w: World, step: Step)
    requires Enabled(w, step)
  {
    match step
    case Completed(done) => done.None? || done == w.d.currentTurnId
    case ErrorRead(turn) => turn.None? || w.d.currentTurnId.None? || turn == w.d.currentTurnId
    case FailureSeen(r) => w.gens[r] == w.d.abortGen && !w.d.finished
    case Interrupted => true
    case ShutDown => true
    case _ => false
  }

  /** An active turn stops being active exactly by a completion or error of its own or
      of none named, its failed start in its own generation, an interrupt or a shutdown. */
  lemma TurnEndsExactly(w: World, step: Step)
    requires Enabled(w, step) && w.d.turnActive
    ensures !Next(w, step).d.turnActive <==> Ends(w, step)
  {
    FlushKeepsTurn(w);
    hide FlushSteers, WithoutRequest;
    match step
    case Started =>
      var slots := w.d.openingTurns;
      if slots != [] {
        FlushKeepsTurn(w.(waiting := w.waiting[1..],
            d := w.d.(openingTurns := slots[1..], turnActive := true, currentTurnId := Some(w.waiting[0]), turnGen := slots[0].gen),
            adopted := w.adopted + [Opening(w.waiting[0], w.d.abortGen)]));
      }
    case Answered(r) =>
      FlushKeepsTurn(w.(d := w.d.(currentTurnId := Some(r)), adopted := w.adopted + [Opening(r, w.d.abortGen)]));
    case _ =>
  }

  lemma FlushKeepsTurn(w: World)
    ensures var w' := FlushSteers(w);
      w'.d.turnActive == w.d.turnActive && w'.d.currentTurnId == w.d.currentTurnId && w'.d.abortGen == w.d.abortGen
    ensures w.d.currentTurnId.Some? ==> FlushSteers(w).d.pendingSteers == []
  {
    FlushShape(w);
    hide FlushSteers;
  }

  /** An interrupt and a shutdown leave no turn active and none current, and begin a new
      generation; an interrupt withdraws what is parked. */
  lemma InterruptBeginsAnew(w: World)
    ensures var w' := Next(w, Interrupted);
      && !HasTurn(w') && w'.d.abortGen == w.d.abortGen + 1 && w'.d.pendingSteers == []
      && w'.withdrawn == w.withdrawn + w.d.pendingSteers && w'.d.openingTurns == w.d.openingTurns
    ensures var w' := Next(w, ShutDown); !HasTurn(w') && w'.d.abortGen == w.d.abortGen + 1 && w'.d.closed
    ensures var w' := Next(w, Forced); w'.d.abortGen == w.d.abortGen + 1 && w'.d.closed && w'.d.finished
  {}

  /** Where a message goes: nowhere once the driver is closed or finished; with no turn
      active it opens one, in the generation in force; into the current turn where its
      id is known, as a steer; and else it waits, last. */
  lemma MessageGoes(w: World)
    ensures var w' := Next(w, Queue); var text := Text(w.queued, w.d.abortGen);
      if w.d.closed || w.d.finished then w' == w
      else if !w.d.turnActive then
        && w'.d.turnActive && w'.d.currentTurnId.None? && w'.sent == w.sent + [Sent(text, w.d.abortGen)]
        && w'.gens == w.gens + [w.d.abortGen] && w'.waiting == w.waiting + [|w.gens|]
        && w'.d.openingTurns == w.d.openingTurns + [Opening(|w.gens|, w.d.abortGen)]
      else if w.d.currentTurnId.Some? then
        w'.d == w.d && w'.sent == w.sent + [Sent(text, w.d.abortGen)] && w'.steers == w.steers + [text]
        && w'.gens == w.gens
      else w'.d.pendingSteers == w.d.pendingSteers + [text] && w'.sent == w.sent && w'.gens == w.gens
  {}

  /** So the message queued right after a turn ended opens a turn. */
  lemma NextMessageOpensATurn(w: World, step: Step)
    requires Enabled(w, step) && w.d.turnActive && Ends(w, step)
    requires var w' := Next(w, step); !w'.d.closed && !w'.d.finished
    ensures var w' := Next(w, step); var w'' := Next(w', Queue);
      w''.d.turnActive && w''.waiting == w'.waiting + [|w'.gens|] && w''.gens == w'.gens + [w'.d.abortGen]
  {
    TurnEndsExactly(w, step);
    MessageGoes(Next(w, step));
    hide Next, Ends;
  }

  /** The answer to a request makes its turn current exactly in the request's own
      generation, with none known and the driver not finished; and what was parked
      goes to it. Its failure ends the opening turn only in its own generation. */
  lemma AnswerAdopts(w: World, r: nat)
    requires r < |w.gens|
    ensures var w' := Next(w, Answered(r));
      if w.gens[r] == w.d.abortGen && !w.d.finished && w.d.currentTurnId.None? then
        && w'.d.currentTurnId == Some(r) && w'.adopted == w.adopted + [Opening(r, w.d.abortGen)]
        && w'.d.pendingSteers == [] && w'.steers == w.steers + w.d.pendingSteers
      else w' == w
  {
    FlushShape(w.(d := w.d.(currentTurnId := Some(r)), adopted := w.adopted + [Opening(r, w.d.abortGen)]));
    hide FlushSteers;
  }

  /** A steer refused under its turn opens a turn of its own, in its own generation only. */
  lemma RefusedSteerOpensATurn(w: World, i: nat)
    requires i < |w.steers|
    ensures var w' := Next(w, SteerFails(i)); var text := w.steers[i];
      && w'.steers == w.steers[..i] + w.steers[i + 1..]
      && Next(w, SteerAnswered(i)).steers == w'.steers
      && (text.gen == w.d.abortGen && !w.d.finished ==>
            && w'.d.turnActive && w'.d.currentTurnId.None? && w'.waiting == w.waiting + [|w.gens|]
            && w'.sent == w.sent + [Sent(text, w.d.abortGen)])
      && (text.gen != w.d.abortGen || w.d.finished ==> w'.d == w.d && w'.sent == w.sent && w'.gens == w.gens)
  {}

  lemma {:induction false} NothingTakenWhenOver(w: World, steps: seq<Step>)
    requires Legal(w, steps) && (w.d.closed || w.d.finished)
    ensures Run(w, steps).queued == w.queued
    decreases |steps|
  {
    if steps != [] {
      StaysOver(w, steps[0]);
      hide Next, Enabled;
      NothingTakenWhenOver(Next(w, steps[0]), steps[1..]);
    }
  }

  lemma StaysOver(w: World, step: Step)
    requires Enabled(w, step) && (w.d.closed || w.d.finished)
    ensures var w' := Next(w, step); (w'.d.closed || w'.d.finished) && w'.queued == w.queued
  {
    match step
    case Started =>
      var slots := w.d.openingTurns;
      if slots != [] {
        FlushShape(w.(waiting := w.waiting[1..],
            d := w.d.(openingTurns := slots[1..], turnActive := true, currentTurnId := Some(w.waiting[0]), turnGen := slots[0].gen),
            adopted := w.adopted + [Opening(w.waiting[0], w.d.abortGen)]));
      }
      hide FlushSteers;
    case Answered(r) =>
      FlushShape(w.(d := w.d.(currentTurnId := Some(r)), adopted := w.adopted + [Opening(r, w.d.abortGen)]));
      hide FlushSteers;
    case _ =>
  }

  /** Once the connection closed, the driver finished, or was stopped either way, no
      message is taken in any run that follows. */
  lemma NothingTakenOnceOver(w: World, step: Step, steps: seq<Step>)
    requires Enabled(w, step) && (step.Closed? || step.Finished? || step.ShutDown? || step.Forced?)
    requires Legal(Next(w, step), steps)
    ensures Run(Next(w, step), steps).queued == w.queued
  {
    NothingTakenWhenOver(Next(w, step), steps);
    hide Run, Legal;
  }
}
