/**
 Results of the OpenCode driver (`agent-base/agentd/drivers/opencode.mjs`): turns
 numbered by `turnSeq`, each idle's result reported by a chained reaction whose
 awaits interleave with the next turn.

 A step is one message, one event, or one part of a chained reaction: `emitResult`
 runs up to its first await, and from its last one on. What the server answers in
 between, cost and durability, is not part of this model; nor are compactions.
 */
module OpenCodeResults {
  import opened Wrappers

  /** What an idle saw, taken when it arrived. `error` says whether the turn's
      error was an abort, if it had one. */
  datatype Snap = Snap(seqNo: nat, gen: nat, text: string, error: Option<bool>)

  datatype Reaction = Report(snap: Snap) | Finish | Fail

  /** A result under way: the generation its reaction started in. */
  datatype Running = Running(snap: Snap, gen: nat)

  datatype Result = Result(seqNo: nat, gen: nat, startedGen: nat, failed: bool, text: string)

  /** The run so far, as far as texts, errors and turns go. */
  datatype Entry = Opened(seqNo: nat, gen: nat) | Read(text: string) | Erred(isAbort: bool) | Idled(seqNo: nat)

  datatype Driver = Driver(
    turnActive: bool, turnGen: nat, turnSeq: nat, resultEmittedSeq: nat, abortGen: nat, lastPromptGen: Option<nat>,
    lastText: string, turnError: Option<bool>, closed: bool, finished: bool)

  /** `reactions` is the chain, `running` the result between its awaits. `prompts`
      holds the generations a prompt was sent in. */
  datatype World = World(d: Driver, reactions: seq<Reaction>, running: Option<Running>, log: seq<Entry>,
      results: seq<Result>, prompts: set<nat>)

  // ---- turns --------------------------------------------------------------------------

  function ResetTurnState(w: World): World {
    w.(d := w.d.(turnSeq := w.d.turnSeq + 1, turnGen := w.d.abortGen, turnError := None, lastText := ""),
       log := w.log + [Opened(w.d.turnSeq + 1, w.d.abortGen)])
  }

  function Prompted(w: World): World {
    w.(d := w.d.(lastPromptGen := Some(w.d.abortGen)), prompts := w.prompts + {w.d.abortGen})
  }

  /** `sendPrompt`, and a command, which opens a turn the same way. */
  function SendPrompt(w: World): World {
    var w := ResetTurnState(Prompted(w));
    w.(d := w.d.(turnActive := true))
  }

  function QueueMessage(w: World): World {
    if w.d.closed || w.d.finished then w
    else if w.d.turnActive then Prompted(w)
    else SendPrompt(w)
  }

  function InvokeCommand(w: World): World {
    if w.d.closed || w.d.finished then w else SendPrompt(w)
  }

  function Chain(w: World, r: Reaction): World { w.(reactions := w.reactions + [r]) }

  /** A prompt sent in generation `gen` was refused; `armed` if it opened a turn. */
  function PromptFailed(w: World, gen: nat, armed: bool): World {
    if w.d.abortGen != gen || w.d.finished then w
    else Chain(if armed then w.(d := w.d.(turnActive := false)) else w, Fail)
  }

  // ---- events -------------------------------------------------------------------------

  function ReadText(w: World, text: string): World {
    if text == "" then w else w.(d := w.d.(lastText := text), log := w.log + [Read(text)])
  }

  /** `busy` with no turn open: the server started one the driver never armed. */
  predicate Rearms(w: World, ending: bool) {
    && !w.d.turnActive && !w.d.finished && !w.d.closed && !ending
    && w.d.lastPromptGen == Some(w.d.abortGen) && w.d.resultEmittedSeq >= w.d.turnSeq
  }

  function ReadError(w: World, isAbort: bool): World {
    w.(d := w.d.(turnError := Some(isAbort)), log := w.log + [Erred(isAbort)])
  }

  function Busy(w: World, ending: bool): World {
    if !Rearms(w, ending) then w
    else
      var w := ResetTurnState(w);
      w.(d := w.d.(turnActive := true))
  }

  function Idle(w: World): World {
    if !w.d.turnActive then w
    else
      Chain(w.(d := w.d.(turnActive := false), log := w.log + [Idled(w.d.turnSeq)]),
            Report(Snap(w.d.turnSeq, w.d.turnGen, w.d.lastText, w.d.turnError)))
  }

  function Interrupt(w: World): World {
    w.(d := w.d.(abortGen := w.d.abortGen + 1, turnActive := false))
  }

  // ---- the chain ----------------------------------------------------------------------

  predicate MayReact(w: World) { w.running.None? && w.reactions != [] }

  /** The next reaction of the chain, up to its first await. */
  function React(w: World): World
    requires MayReact(w)
  {
    var r := w.reactions[0];
    var w := w.(reactions := w.reactions[1..]);
    match r
    case Report(snap) =>
      if snap.gen != w.d.abortGen || w.d.finished || w.d.resultEmittedSeq >= snap.seqNo then w
      else w.(d := w.d.(resultEmittedSeq := snap.seqNo), running := Some(Running(snap, w.d.abortGen)))
    case _ => w.(d := w.d.(finished := true))
  }

  /** `emitResult` from its last await on: the result goes out from the snapshot. */
  function EmitResult(w: World, ending: bool): World
    requires w.running.Some?
  {
    var Running(snap, gen) := w.running.value;
    var failed := snap.error == Some(false);
    w.(running := None, results := w.results + [Result(snap.seqNo, snap.gen, gen, failed, snap.text)],
       d := if w.d.closed || ending then w.d.(finished := true) else w.d)
  }

  // ---- steps ----------------------------------------------------------------------------

  datatype Step =
    | Queue
    | Command
    | Refused(gen: nat, armed: bool)
    | Text(text: string)
    | TurnError(isAbort: bool)
    | BusyEvent(ending: bool)
    | IdleEvent
    | Interrupted
    | Closing
    | ShutDown
    | Forced
    | Reacts
    | Emits(ending: bool)

  predicate Enabled(w: World, step: Step) {
    (step.Reacts? ==> MayReact(w)) && (step.Emits? ==> w.running.Some?)
  }

  function Next(w: World, step: Step): World
    requires Enabled(w, step)
  {
    match step
    case Queue => QueueMessage(w)
    case Command => InvokeCommand(w)
    case Refused(gen, armed) => PromptFailed(w, gen, armed)
    case Text(text) => ReadText(w, text)
    case TurnError(isAbort) => ReadError(w, isAbort)
    case BusyEvent(ending) => Busy(w, ending)
    case IdleEvent => Idle(w)
    case Interrupted => Interrupt(w)
    case Closing =>
      var w := w.(d := w.d.(closed := true));
      if w.d.turnActive then w else Chain(w, Finish)
    case ShutDown => Chain(Interrupt(w.(d := w.d.(closed := true))), Finish)
    case Forced => w.(d := w.d.(closed := true, abortGen := w.d.abortGen + 1, finished := true))
    case Reacts => React(w)
    case Emits(ending) => EmitResult(w, ending)
  }

  const Initial := World(Driver(false, 0, 0, 0, 0, None, "", None, false, false), [], None, [], [], {})

  predicate Legal(w: World, steps: seq<Step>)
    decreases |steps|
  {
    steps == [] || (Enabled(w, steps[0]) && Legal(Next(w, steps[0]), steps[1..]))
  }

  function Run(w: World, steps: seq<Step>): World
    requires Legal(w, steps)
    decreases |steps|
  {
    if steps == [] then w else Run(Next(w, steps[0]), steps[1..])
  }
}

/** Every run of the result chain: one result a turn at most, in order, each of its own turn. */
module OpenCodeResultsSafety {
  import opened Wrappers
  import opened OpenCodeResults

  // ---- reading the log ------------------------------------------------------------------

  /** The turn opened last, 0 before the first, and its generation. */
  function Newest(log: seq<Entry>): (e: Entry)
    ensures e.Opened?
  {
    if log == [] then Opened(0, 0)
    else if log[|log| - 1].Opened? then log[|log| - 1] else Newest(log[..|log| - 1])
  }

  /** The text read last since that turn opened. */
  function LastRead(log: seq<Entry>): string {
    if log == [] || log[|log| - 1].Opened? then ""
    else if log[|log| - 1].Read? then log[|log| - 1].text else LastRead(log[..|log| - 1])
  }

  /** Whether the error read last since that turn opened was an abort, if there was one. */
  function LastError(log: seq<Entry>): Option<bool> {
    if log == [] || log[|log| - 1].Opened? then None
    else if log[|log| - 1].Erred? then Some(log[|log| - 1].isAbort) else LastError(log[..|log| - 1])
  }

  lemma LogPush(log: seq<Entry>, e: Entry)
    ensures Newest(log + [e]) == if e.Opened? then e else Newest(log)
    ensures LastError(log + [e]) == if e.Opened? then None else if e.Erred? then Some(e.isAbort) else LastError(log)
    ensures LastRead(log + [e]) == if e.Opened? then "" else if e.Read? then e.text else LastRead(log)
  {
    assert (log + [e])[..|log|] == log;
  }

  /** The turn of the snapshot idled when its text and its error were the last read of it. */
  ghost predicate Seen(log: seq<Entry>, snap: Snap) {
    exists i :: 0 <= i < |log| && log[i] == Idled(snap.seqNo) && Newest(log[..i]) == Opened(snap.seqNo, snap.gen)
      && LastRead(log[..i]) == snap.text && LastError(log[..i]) == snap.error
  }

  /** The turn of the result idled when its text was the last read of it, and it failed
      if the error read last of it was no abort. */
  ghost predicate IdledWith(log: seq<Entry>, r: Result) {
    exists i :: 0 <= i < |log| && log[i] == Idled(r.seqNo) && Newest(log[..i]) == Opened(r.seqNo, r.gen)
      && LastRead(log[..i]) == r.text && (r.failed <==> LastError(log[..i]) == Some(false))
  }

  lemma SeenStays(log: seq<Entry>, e: Entry, snap: Snap)
    requires Seen(log, snap)
    ensures Seen(log + [e], snap)
  {
    hide Newest, LastRead, LastError;
    var i :| 0 <= i < |log| && log[i] == Idled(snap.seqNo) && Newest(log[..i]) == Opened(snap.seqNo, snap.gen)
      && LastRead(log[..i]) == snap.text && LastError(log[..i]) == snap.error;
    assert (log + [e])[i] == log[i] && (log + [e])[..i] == log[..i];
  }

  lemma IdledStays(log: seq<Entry>, e: Entry, r: Result)
    requires IdledWith(log, r)
    ensures IdledWith(log + [e], r)
  {
    hide Newest, LastRead, LastError;
    var i :| 0 <= i < |log| && log[i] == Idled(r.seqNo) && Newest(log[..i]) == Opened(r.seqNo, r.gen)
      && LastRead(log[..i]) == r.text && (r.failed <==> LastError(log[..i]) == Some(false));
    assert (log + [e])[i] == log[i] && (log + [e])[..i] == log[..i];
  }

  // ---- the invariant ----------------------------------------------------------------------

  /** The log tells what the driver keeps of the newest turn. */
  predicate LogOk(w: World) {
    && LastRead(w.log) == w.d.lastText && LastError(w.log) == w.d.turnError && Newest(w.log).seqNo == w.d.turnSeq
    && (w.d.turnSeq > 0 ==> Newest(w.log) == Opened(w.d.turnSeq, w.d.turnGen))
    && (w.d.turnActive ==> w.d.turnSeq > 0)
  }

  /** The numbers still to be reported: after those claimed, ascending, and none of an open turn. */
  predicate ChainOk(reactions: seq<Reaction>, claimed: nat, top: nat) {
    && (forall i :: 0 <= i < |reactions| && reactions[i].Report? ==> claimed < reactions[i].snap.seqNo <= top)
    && (forall i, j :: 0 <= i < j < |reactions| && reactions[i].Report? && reactions[j].Report? ==>
          reactions[i].snap.seqNo < reactions[j].snap.seqNo)
  }

  predicate ResultsOk(results: seq<Result>, running: Option<Running>, claimed: nat) {
    && (forall i, j :: 0 <= i < j < |results| ==> results[i].seqNo < results[j].seqNo)
    && (forall i :: 0 <= i < |results| ==> results[i].seqNo <= claimed && results[i].gen == results[i].startedGen)
    && (running.Some? ==> running.value.snap.seqNo == claimed && running.value.gen == running.value.snap.gen)
    && (running.Some? ==> forall i :: 0 <= i < |results| ==> results[i].seqNo < claimed)
  }

  ghost predicate AllSeen(w: World) {
    && (forall i :: 0 <= i < |w.reactions| && w.reactions[i].Report? ==> Seen(w.log, w.reactions[i].snap))
    && (w.running.Some? ==> Seen(w.log, w.running.value.snap))
    && (forall i :: 0 <= i < |w.results| ==> IdledWith(w.log, w.results[i]))
  }

  /** Turns open only in a generation a prompt was sent in. */
  predicate PromptsOk(w: World) {
    && (w.d.lastPromptGen.Some? ==> w.d.lastPromptGen.value in w.prompts)
    && (forall i :: 0 <= i < |w.log| && w.log[i].Opened? ==> w.log[i].gen in w.prompts)
  }

  function Top(d: Driver): nat { if d.turnActive && d.turnSeq > 0 then d.turnSeq - 1 else d.turnSeq }

  ghost predicate Inv(w: World) {
    && LogOk(w)
    && ChainOk(w.reactions, w.d.resultEmittedSeq, Top(w.d)) && w.d.resultEmittedSeq <= Top(w.d)
    && ResultsOk(w.results, w.running, w.d.resultEmittedSeq)
    && AllSeen(w) && PromptsOk(w)
  }

  // ---- steps --------------------------------------------------------------------------------

  lemma SeenPush(w: World, e: Entry, d: Driver, prompts: set<nat>)
    requires AllSeen(w)
    ensures AllSeen(w.(d := d, log := w.log + [e], prompts := prompts))
  {
    hide IdledWith, Seen;
    forall snap | Seen(w.log, snap) ensures Seen(w.log + [e], snap) { SeenStays(w.log, e, snap); }
    forall r | IdledWith(w.log, r) ensures IdledWith(w.log + [e], r) { IdledStays(w.log, e, r); }
  }

  lemma OpenKeepsInv(w: World)
    requires Inv(w) && w.d.lastPromptGen == Some(w.d.abortGen)
    ensures var w' := ResetTurnState(w); Inv(w'.(d := w'.d.(turnActive := true)))
  {
    var w' := ResetTurnState(w);
    LogPush(w.log, Opened(w.d.turnSeq + 1, w.d.abortGen));
    SeenPush(w, Opened(w.d.turnSeq + 1, w.d.abortGen), w'.d.(turnActive := true), w.prompts);
    hide AllSeen, ResultsOk, Newest, LastRead, LastError;
  }

  lemma PromptKeepsInv(w: World)
    requires Inv(w)
    ensures Inv(Prompted(w))
  {
    hide ChainOk, ResultsOk, Newest, LastRead, LastError, IdledWith, Seen;
  }

  lemma SendKeepsInv(w: World)
    requires Inv(w)
    ensures Inv(SendPrompt(w))
  {
    PromptKeepsInv(w);
    OpenKeepsInv(Prompted(w));
    hide Inv;
  }

  lemma ReadKeepsInv(w: World, text: string)
    requires Inv(w)
    ensures Inv(ReadText(w, text))
  {
    if text != "" {
      LogPush(w.log, Read(text));
      SeenPush(w, Read(text), w.d.(lastText := text), w.prompts);
      hide AllSeen, ResultsOk, Newest, LastRead, LastError, ChainOk;
    }
  }

  lemma ChainPush(reactions: seq<Reaction>, claimed: nat, top: nat, top': nat, r: Reaction)
    requires ChainOk(reactions, claimed, top) && top <= top' && (r.Report? ==> claimed <= top < r.snap.seqNo <= top')
    ensures ChainOk(reactions + [r], claimed, top')
  {}

  lemma {:induction false} IdleKeepsInv(w: World)
    requires Inv(w)
    ensures Inv(Idle(w))
  {
    if w.d.turnActive {
      var snap := Snap(w.d.turnSeq, w.d.turnGen, w.d.lastText, w.d.turnError);
      var log' := w.log + [Idled(w.d.turnSeq)];
      LogPush(w.log, Idled(w.d.turnSeq));
      SeenPush(w, Idled(w.d.turnSeq), w.d.(turnActive := false), w.prompts);
      assert log'[|w.log|] == Idled(w.d.turnSeq) && log'[..|w.log|] == w.log;
      assert Seen(log', snap);
      ChainPush(w.reactions, w.d.resultEmittedSeq, w.d.turnSeq - 1, w.d.turnSeq, Report(snap));
      IdleSeen(w, snap);
      hide ResultsOk, Newest, LastRead, LastError, ChainOk, AllSeen;
    }
  }

  lemma IdleSeen(w: World, snap: Snap)
    requires w.d.turnActive && Seen(w.log + [Idled(w.d.turnSeq)], snap)
    requires AllSeen(w.(d := w.d.(turnActive := false), log := w.log + [Idled(w.d.turnSeq)]))
    ensures AllSeen(Chain(w.(d := w.d.(turnActive := false), log := w.log + [Idled(w.d.turnSeq)]), Report(snap)))
  {
    hide IdledWith, Seen;
  }

  lemma ErrorKeepsInv(w: World, isAbort: bool)
    requires Inv(w)
    ensures Inv(ReadError(w, isAbort))
  {
    LogPush(w.log, Erred(isAbort));
    SeenPush(w, Erred(isAbort), w.d.(turnError := Some(isAbort)), w.prompts);
    hide AllSeen, ResultsOk, Newest, LastRead, LastError, ChainOk;
  }

  /** Flags may change, the turn may close without an idle, and a last reaction be chained. */
  lemma FlagsKeepInv(w: World, d: Driver, last: seq<Reaction>)
    requires Inv(w) && d == w.d.(turnActive := d.turnActive, abortGen := d.abortGen, closed := d.closed, finished := d.finished)
    requires (d.turnActive ==> w.d.turnActive) && (last == [] || (|last| == 1 && !last[0].Report?))
    ensures Inv(w.(d := d, reactions := w.reactions + last))
  {
    hide Newest, LastRead, LastError, IdledWith, Seen, ResultsOk;
    if last == [] { assert w.reactions + last == w.reactions; }
  }

  lemma ChainTail(reactions: seq<Reaction>, claimed: nat, top: nat)
    requires ChainOk(reactions, claimed, top) && reactions != []
    ensures ChainOk(reactions[1..], if reactions[0].Report? then reactions[0].snap.seqNo else claimed, top)
    ensures ChainOk(reactions[1..], claimed, top)
  {}

  lemma SeenTail(w: World, d: Driver, running: Option<Running>)
    requires AllSeen(w) && w.reactions != []
    requires running.None? || (w.reactions[0].Report? && running.value.snap == w.reactions[0].snap)
    ensures AllSeen(w.(d := d, reactions := w.reactions[1..], running := running))
  {
    hide Seen, IdledWith;
  }

  lemma {:induction false} ReactKeepsInv(w: World)
    requires Inv(w) && MayReact(w)
    ensures Inv(React(w))
  {
    hide LogOk, ChainOk, AllSeen, PromptsOk;
    ChainTail(w.reactions, w.d.resultEmittedSeq, Top(w.d));
    SeenTail(w, React(w).d, React(w).running);
    HeadIsNext(w);
    SameLog(w, React(w));
  }

  lemma HeadIsNext(w: World)
    requires ChainOk(w.reactions, w.d.resultEmittedSeq, Top(w.d)) && w.reactions != []
    ensures var r := w.reactions[0]; r.Report? ==> w.d.resultEmittedSeq < r.snap.seqNo <= Top(w.d)
  {}

  lemma SameLog(w: World, w': World)
    requires LogOk(w) && PromptsOk(w) && w'.log == w.log && w'.prompts == w.prompts
    requires w'.d == w.d.(resultEmittedSeq := w'.d.resultEmittedSeq, finished := w'.d.finished)
    ensures LogOk(w') && PromptsOk(w')
  {
    hide Newest, LastRead, LastError;
  }

  lemma SeenIsIdled(log: seq<Entry>, snap: Snap, gen: nat)
    requires Seen(log, snap)
    ensures IdledWith(log, Result(snap.seqNo, snap.gen, gen, snap.error == Some(false), snap.text))
  {
    hide Newest, LastRead, LastError;
  }

  lemma {:induction false} EmitKeepsInv(w: World, ending: bool)
    requires Inv(w) && w.running.Some?
    ensures Inv(EmitResult(w, ending))
  {
    hide Newest, LastRead, LastError, IdledWith, Seen, ChainOk;
    SeenIsIdled(w.log, w.running.value.snap, w.running.value.gen);
  }

  lemma StepKeepsInv(w: World, step: Step)
    requires Inv(w) && Enabled(w, step)
    ensures Inv(Next(w, step))
  {
    hide Inv;
    match step
    case Queue => SendKeepsInv(w); PromptKeepsInv(w);
    case Command => SendKeepsInv(w);
    case Refused(gen, armed) =>
      FlagsKeepInv(w, w.d.(turnActive := if armed then false else w.d.turnActive), [Fail]);
    case Text(text) => ReadKeepsInv(w, text);
    case TurnError(isAbort) => ErrorKeepsInv(w, isAbort);
    case BusyEvent(ending) => if Rearms(w, ending) { OpenKeepsInv(w); }
    case IdleEvent => IdleKeepsInv(w);
    case Interrupted =>
      FlagsKeepInv(w, w.d.(abortGen := w.d.abortGen + 1, turnActive := false), []);
      assert w.reactions + [] == w.reactions;
    case Closing =>
      FlagsKeepInv(w, w.d.(closed := true), if w.d.turnActive then [] else [Finish]);
      assert w.reactions + [] == w.reactions;
    case ShutDown => FlagsKeepInv(w, w.d.(closed := true, abortGen := w.d.abortGen + 1, turnActive := false), [Finish]);
    case Forced =>
      FlagsKeepInv(w, w.d.(closed := true, abortGen := w.d.abortGen + 1, finished := true), []);
      assert w.reactions + [] == w.reactions;
    case Reacts => ReactKeepsInv(w);
    case Emits(ending) => EmitKeepsInv(w, ending);
  }

  lemma {:induction false} RunKeepsInv(w: World, steps: seq<Step>)
    requires Inv(w) && Legal(w, steps)
    ensures Inv(Run(w, steps))
    decreases |steps|
  {
    if steps != [] {
      hide Inv, Next;
      StepKeepsInv(w, steps[0]);
      RunKeepsInv(Next(w, steps[0]), steps[1..]);
    }
  }

  // ---- the main results ---------------------------------------------------------------------

  /** In every run: results come in strictly increasing turn numbers, so at most one
      a turn; each carries what had been read of its own turn when its idle
      arrived, and says that it failed exactly if the error read last of it was no
      abort; and none is of a turn whose generation was superseded before its
      reaction ran. */
  lemma ResultsAreNumbered(steps: seq<Step>)
    requires Legal(Initial, steps)
    ensures var w := Run(Initial, steps);
      && (forall i, j :: 0 <= i < j < |w.results| ==> w.results[i].seqNo < w.results[j].seqNo)
      && (forall i :: 0 <= i < |w.results| ==>
            IdledWith(w.log, w.results[i]) && w.results[i].gen == w.results[i].startedGen)
  {
    RunKeepsInv(Initial, steps);
    hide Run, IdledWith, Seen, LogOk, ChainOk, PromptsOk;
  }

  /** The number guard never costs a turn its result: a reaction whose turn was not
      interrupted reports it, unless the driver is finished. */
  lemma NoResultIsSkipped(steps: seq<Step>)
    requires Legal(Initial, steps) && MayReact(Run(Initial, steps))
    ensures var w := Run(Initial, steps); var r := w.reactions[0];
      r.Report? ==> (React(w).running == (if r.snap.gen == w.d.abortGen && !w.d.finished then Some(Running(r.snap, r.snap.gen)) else None))
  {
    RunKeepsInv(Initial, steps);
    hide Run, IdledWith, Seen, LogOk, PromptsOk, ResultsOk;
  }

  /** A cancelled turn does not come back: after an interrupt no turn opens, not by a
      `busy` either, until a prompt is sent in the new generation. */
  lemma TurnsNeedAPrompt(steps: seq<Step>)
    requires Legal(Initial, steps)
    ensures var w := Run(Initial, steps);
      && (forall i :: 0 <= i < |w.log| && w.log[i].Opened? ==> w.log[i].gen in w.prompts)
      && (w.d.turnActive && w.d.abortGen !in w.prompts ==> w.d.turnGen != w.d.abortGen)
  {
    RunKeepsInv(Initial, steps);
    var w := Run(Initial, steps);
    if w.d.turnActive { NewestIsLogged(w.log); }
    hide Run, IdledWith, Seen, ChainOk, ResultsOk;
  }

  lemma {:induction false} NewestIsLogged(log: seq<Entry>)
    ensures Newest(log) == Opened(0, 0) || exists i :: 0 <= i < |log| && log[i] == Newest(log)
  {
    if log != [] { NewestIsLogged(log[..|log| - 1]); }
  }
}
