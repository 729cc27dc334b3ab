/**
 When an OpenCode turn opens, what its end reports, and that no idle's result is lost.
 */
module OpenCodeTurns {
  import opened Wrappers
  import opened OpenCodeResults
  import opened OpenCodeResultsSafety

  // ---- what opens a turn ------------------------------------------------------------------------

  /** From `w` to `w'` the next turn was opened in the generation in force, with nothing read of it. */
  predicate OpensNext(w: World, w': World) {
    && w'.d.turnActive && w'.d.turnSeq == w.d.turnSeq + 1 && w'.d.turnGen == w.d.abortGen
    && w'.d.lastText == "" && w'.d.turnError == None && w'.log == w.log + [Opened(w.d.turnSeq + 1, w.d.abortGen)]
    && w'.d.abortGen == w.d.abortGen && w'.d.resultEmittedSeq == w.d.resultEmittedSeq
    && w'.d.closed == w.d.closed && w'.d.finished == w.d.finished && w'.reactions == w.reactions
    && w'.running == w.running && w'.results == w.results
  }

  /** A message goes nowhere once the driver is closed or finished. Into an open turn it
      is a follow-up, else it opens the next turn; a command always does. Either is the
      last prompt of its generation from then on. */
  lemma MessageGoes(w: World)
    ensures var w' := Next(w, Queue);
      if w.d.closed || w.d.finished then w' == w
      else
        && w'.d.lastPromptGen == Some(w.d.abortGen) && w'.prompts == w.prompts + {w.d.abortGen}
        && if w.d.turnActive then w'.d == w.d.(lastPromptGen := Some(w.d.abortGen)) && w'.log == w.log
           else OpensNext(w, w')
    ensures var w' := Next(w, Command);
      if w.d.closed || w.d.finished then w' == w
      else OpensNext(w, w') && w'.d.lastPromptGen == Some(w.d.abortGen) && w'.prompts == w.prompts + {w.d.abortGen}
  {}

  /** A `busy` opens the next turn exactly if none is open, the driver goes on, the last
      prompt was sent in this generation, and the result of the last turn was claimed. */
  lemma BusyOpensExactly(w: World, ending: bool)
    ensures var w' := Next(w, BusyEvent(ending));
      if w.d.turnActive || w.d.finished || w.d.closed || ending || w.d.lastPromptGen != Some(w.d.abortGen)
        || w.d.turnSeq > w.d.resultEmittedSeq
      then w' == w
      else OpensNext(w, w') && w'.d.lastPromptGen == w.d.lastPromptGen && w'.prompts == w.prompts
  {}

  /** Each text, unless it is empty, and each error is the last read of its turn. */
  lemma TextsAndErrorsAreRead(w: World, text: string, isAbort: bool)
    ensures Next(w, Text(text)) ==
      if text == "" then w else w.(d := w.d.(lastText := text), log := w.log + [Read(text)])
    ensures Next(w, TurnError(isAbort)) == w.(d := w.d.(turnError := Some(isAbort)), log := w.log + [Erred(isAbort)])
  {}

  // ---- what ends one ----------------------------------------------------------------------------

  /** An idle closes the open turn and chains its report, as it stands then; without an
      open turn it says nothing. */
  lemma IdleReports(w: World)
    ensures var w' := Next(w, IdleEvent);
      if !w.d.turnActive then w' == w
      else
        && w'.d == w.d.(turnActive := false) && w'.results == w.results && w'.running == w.running
        && w'.reactions == w.reactions + [Report(Snap(w.d.turnSeq, w.d.turnGen, w.d.lastText, w.d.turnError))]
  {}

  /** A refused prompt fails the driver only in its own generation, while it goes on, and
      closes the turn if it was what opened it. */
  lemma RefusalFails(w: World, gen: nat, armed: bool)
    ensures var w' := Next(w, Refused(gen, armed));
      if gen == w.d.abortGen && !w.d.finished then
        && w'.reactions == w.reactions + [Fail] && w'.log == w.log && w'.results == w.results
        && w'.d == w.d.(turnActive := w.d.turnActive && !armed)
      else w' == w
  {}

  /** An interrupt closes the open turn without a report and begins a new generation; so
      does a shutdown, after which the driver finishes. */
  lemma InterruptBeginsAnew(w: World)
    ensures var w' := Next(w, Interrupted);
      w'.d == w.d.(turnActive := false, abortGen := w.d.abortGen + 1) && w'.reactions == w.reactions && w'.log == w.log
    ensures var w' := Next(w, ShutDown);
      && w'.d == w.d.(turnActive := false, abortGen := w.d.abortGen + 1, closed := true)
      && w'.reactions == w.reactions + [Finish]
    ensures var w' := Next(w, Forced);
      w'.d == w.d.(abortGen := w.d.abortGen + 1, closed := true, finished := true) && w'.reactions == w.reactions
    ensures var w' := Next(w, Closing);
      && w'.d == w.d.(closed := true)
      && w'.reactions == (if w.d.turnActive then w.reactions else w.reactions + [Finish])
  {}

  /** A report whose generation stands, with a number not yet claimed, claims it; a result
      under way goes out; the end of the chain, and a result in a driver that closes,
      finish it. */
  lemma ReportsGoOut(w: World, ending: bool)
    ensures MayReact(w) ==>
      var w', r := Next(w, Reacts), w.reactions[0];
      && w'.reactions == w.reactions[1..] && w'.results == w.results && w'.log == w.log
      && (!r.Report? ==> w'.d == w.d.(finished := true) && w'.running.None?)
      && (r.Report? ==>
            if r.snap.gen == w.d.abortGen && !w.d.finished && r.snap.seqNo > w.d.resultEmittedSeq then
              w'.d == w.d.(resultEmittedSeq := r.snap.seqNo) && w'.running == Some(Running(r.snap, w.d.abortGen))
            else w'.d == w.d && w'.running.None?)
    ensures w.running.Some? ==>
      var w', run := Next(w, Emits(ending)), w.running.value;
      && w'.running.None? && w'.reactions == w.reactions && w'.log == w.log
      && w'.results ==
           w.results + [Result(run.snap.seqNo, run.snap.gen, run.gen, run.snap.error == Some(false), run.snap.text)]
      && w'.d == w.d.(finished := w.d.finished || w.d.closed || ending)
  {}

  // ---- no idle is lost --------------------------------------------------------------------------

  /** The turns whose idle came, in order. */
  function Idles(log: seq<Entry>): seq<nat> {
    if log == [] then []
    else Idles(log[..|log| - 1]) + if log[|log| - 1].Idled? then [log[|log| - 1].seqNo] else []
  }

  function Reported(results: seq<Result>): seq<nat> { seq(|results|, i requires 0 <= i < |results| => results[i].seqNo) }

  function UnderWay(running: Option<Running>): seq<nat> { if running.Some? then [running.value.snap.seqNo] else [] }

  function Chained(reactions: seq<Reaction>): seq<nat> {
    if reactions == [] then []
    else (if reactions[0].Report? then [reactions[0].snap.seqNo] else []) + Chained(reactions[1..])
  }

  lemma IdlesPush(log: seq<Entry>, e: Entry)
    ensures Idles(log + [e]) == Idles(log) + if e.Idled? then [e.seqNo] else []
  {
    assert (log + [e])[..|log|] == log;
  }

  lemma {:induction false} ChainedPush(reactions: seq<Reaction>, r: Reaction)
    ensures Chained(reactions + [r]) == Chained(reactions) + if r.Report? then [r.snap.seqNo] else []
  {
    hide Chained;
    ChainedNone();
    if reactions == [] {
      ChainedFirst(r, []);
      assert reactions + [r] == [r] + [];
    } else {
      var x, rest := reactions[0], reactions[1..];
      ChainedPush(rest, r);
      ChainedFirst(x, rest);
      ChainedFirst(x, rest + [r]);
      assert reactions == [x] + rest && reactions + [r] == [x] + (rest + [r]);
    }
  }

  lemma ChainedNone()
    ensures Chained([]) == []
  {}

  lemma ChainedFirst(r: Reaction, rest: seq<Reaction>)
    ensures Chained([r] + rest) == (if r.Report? then [r.snap.seqNo] else []) + Chained(rest)
  {
    assert ([r] + rest)[1..] == rest;
  }

  lemma ReportedPush(results: seq<Result>, r: Result)
    ensures Reported(results + [r]) == Reported(results) + [r.seqNo]
  {}

  /** Every idle was reported, its report is under way, or it is in the chain. */
  predicate NoneLost(w: World) {
    w.d.abortGen == 0 && !w.d.finished ==>
      Reported(w.results) + UnderWay(w.running) + Chained(w.reactions) == Idles(w.log)
  }

  /** No snapshot is of a generation to come. */
  predicate InTime(w: World) {
    && w.d.turnGen <= w.d.abortGen
    && forall i :: 0 <= i < |w.reactions| && w.reactions[i].Report? ==> w.reactions[i].snap.gen <= w.d.abortGen
  }

  lemma StepInTime(w: World, step: Step)
    requires InTime(w) && Enabled(w, step)
    ensures InTime(Next(w, step)) && w.d.abortGen <= Next(w, step).d.abortGen
  {}

  /** A step that leaves results and their reports alone. */
  lemma QuietStep(w: World, step: Step)
    requires Enabled(w, step) && !step.IdleEvent? && !step.Reacts? && !step.Emits?
    ensures var w' := Next(w, step);
      && w'.results == w.results && w'.running == w.running && Chained(w'.reactions) == Chained(w.reactions)
      && Idles(w'.log) == Idles(w.log) && (w.d.finished ==> w'.d.finished)
  {
    ChainedPush(w.reactions, Fail);
    ChainedPush(w.reactions, Finish);
    forall e { IdlesPush(w.log, e); }
    hide Chained, Idles;
  }

  lemma StepLosesNone(w: World, step: Step)
    requires NoneLost(w) && InTime(w) && Inv(w) && Enabled(w, step)
    ensures NoneLost(Next(w, step))
  {
    hide Inv;
    match step
    case IdleEvent =>
      IdlesPush(w.log, Idled(w.d.turnSeq));
      ChainedPush(w.reactions, Report(Snap(w.d.turnSeq, w.d.turnGen, w.d.lastText, w.d.turnError)));
      hide Chained, Idles, Reported, InTime;
    case Reacts =>
      InvHead(w);
      assert Chained(w.reactions) == (if w.reactions[0].Report? then [w.reactions[0].snap.seqNo] else []) + Chained(w.reactions[1..]);
      hide Chained, Idles, Reported;
    case Emits(ending) =>
      var snap := w.running.value.snap;
      ReportedPush(w.results, Result(snap.seqNo, snap.gen, w.running.value.gen, snap.error == Some(false), snap.text));
      hide Chained, Idles, Reported, InTime;
    case _ =>
      QuietStep(w, step);
      StepInTime(w, step);
      hide Chained, Idles, Reported, InTime, Next;
  }

  lemma InvHead(w: World)
    requires Inv(w) && MayReact(w)
    ensures w.reactions[0].Report? ==> w.d.resultEmittedSeq < w.reactions[0].snap.seqNo
  {
    hide LogOk, ResultsOk, AllSeen, PromptsOk;
  }

  lemma {:induction false} RunLosesNone(w: World, steps: seq<Step>)
    requires NoneLost(w) && InTime(w) && Inv(w) && Legal(w, steps)
    ensures NoneLost(Run(w, steps))
    decreases |steps|
  {
    if steps != [] {
      StepLosesNone(w, steps[0]);
      StepInTime(w, steps[0]);
      StepKeepsInv(w, steps[0]);
      hide NoneLost, InTime, Inv, Next, Enabled;
      RunLosesNone(Next(w, steps[0]), steps[1..]);
    }
  }

  /** In every run that was never interrupted and has not finished, the idles of open
      turns are, in order, those whose results went out, the one under way and those
      whose reports are still chained. */
  lemma EveryIdleIsReported(steps: seq<Step>)
    requires Legal(Initial, steps) && Run(Initial, steps).d.abortGen == 0 && !Run(Initial, steps).d.finished
    ensures var w := Run(Initial, steps);
      Reported(w.results) + UnderWay(w.running) + Chained(w.reactions) == Idles(w.log)
  {
    hide Run, Reported, Chained, Idles, Legal, InTime, Inv, UnderWay;
    StartIsOk();
    RunLosesNone(Initial, steps);
  }

  lemma StartIsOk()
    ensures NoneLost(Initial) && InTime(Initial) && Inv(Initial)
  {}
}
