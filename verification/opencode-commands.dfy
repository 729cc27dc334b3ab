/**
 The reservation of a command over the OpenCode driver's turns
 (`agent-base/agentd/drivers/opencode.mjs` with `withControl` of
 `session-control.mjs`): the server takes it by kind before the driver opens the
 command's turn, and the driver lets it go, by kind, where a turn's report, its
 refusal or an interrupt ends.

 Calls are numbered here; the program knows only that a command holds the
 session. Other control calls are not part of this model.
 */
module OpenCodeCommands {
  import opened Wrappers

  datatype Turn = Plain | Command(call: nat)

  /** `invoking` is the call whose turn is yet to open, `reporting` whether a report
      that passed its check is between its awaits, `aborts` the generations of the
      interrupts under way. */
  datatype World = World(
    idle: bool, reserved: Option<nat>, held: bool, invoking: Option<nat>, turn: Option<Turn>,
    reporting: bool, aborts: set<nat>, abortGen: nat, calls: nat, finished: bool)

  const Initial := World(true, None, false, None, None, false, {}, 0, 0, false)

  /** `releaseControl` */
  function Release(w: World): World { w.(reserved := if w.held then None else w.reserved, held := false) }

  /** The gate of a command and the reservation `withControl` takes. */
  function Reserve(w: World): World {
    if !w.idle || w.reserved.Some? then w
    else w.(reserved := Some(w.calls), invoking := Some(w.calls), calls := w.calls + 1)
  }

  /** The driver does not take the command: `withControl` lets go, by kind. */
  function Declined(w: World): World { w.(reserved := None, invoking := None) }

  function Open(w: World): World
    requires w.invoking.Some?
  {
    if w.finished then Declined(w)
    else w.(invoking := None, held := true, idle := false, turn := Some(Command(w.invoking.value)))
  }

  /** A message, which a reservation refuses; it joins the open turn or opens one. */
  function Message(w: World): World {
    if w.reserved.Some? || w.finished then w
    else w.(idle := false, turn := if w.turn.Some? then w.turn else Some(Plain))
  }

  /** The idle of the open turn came, and its report passed its check. */
  function Claim(w: World): World { w.(turn := None, reporting := true) }

  function ReportEnds(w: World): World {
    var w := Release(w.(reporting := false));
    if !w.finished && w.turn.None? then w.(idle := true) else w
  }

  function InterruptBegins(w: World): World {
    w.(abortGen := w.abortGen + 1, turn := None, aborts := w.aborts + {w.abortGen + 1})
  }

  function InterruptEnds(w: World, gen: nat): World {
    var w := Release(w.(aborts := w.aborts - {gen}));
    if !w.finished && w.abortGen == gen && w.turn.None? then w.(idle := true) else w
  }

  /** The server refused the open turn's prompt: the driver fails. */
  function Refused(w: World): World { Release(w.(turn := None, finished := true)) }

  datatype Step = Reserves | Opens | Declines | Messages | Claims | Reports | Aborts | Aborted(gen: nat) | Refuses

  predicate Enabled(w: World, step: Step) {
    match step
    case Opens => w.invoking.Some?
    case Declines => w.invoking.Some?
    case Claims => w.turn.Some? && !w.reporting && !w.finished
    case Reports => w.reporting
    case Aborted(gen) => gen in w.aborts
    case Refuses => w.turn.Some?
    case _ => true
  }

  function Next(w: World, step: Step): World
    requires Enabled(w, step)
  {
    match step
    case Reserves => Reserve(w)
    case Opens => Open(w)
    case Declines => Declined(w)
    case Messages => Message(w)
    case Claims => Claim(w)
    case Reports => ReportEnds(w)
    case Aborts => InterruptBegins(w)
    case Aborted(gen) => InterruptEnds(w, gen)
    case Refuses => Refused(w)
  }

  predicate Legal(steps: seq<Step>)
    decreases |steps|, 0
  {
    steps == [] ||
    (Legal(steps[..|steps| - 1]) && Enabled(Run(steps[..|steps| - 1]), steps[|steps| - 1]))
  }

  function Run(steps: seq<Step>): World
    requires Legal(steps)
    decreases |steps|, 1
  {
    if steps == [] then Initial else Next(Run(steps[..|steps| - 1]), steps[|steps| - 1])
  }

  // ---- what every run keeps ---------------------------------------------------------------------

  predicate Inv(w: World) {
    && (w.held <==> w.reserved.Some? && w.invoking.None?)
    && (w.invoking.Some? ==> w.reserved == w.invoking && w.turn.None?)
    && (w.turn.Some? ==> !w.idle)
    && (w.turn.Some? && w.turn.value.Command? && w.reserved.Some? ==> w.reserved == Some(w.turn.value.call))
    && (w.turn.Some? && w.turn.value.Plain? ==> w.reserved.None?)
    && (w.held && w.turn.None? ==> w.reporting || w.aborts != {})
  }

  predicate HasCommand(w: World) { w.turn.Some? && w.turn.value.Command? }

  /** A command's turn is open, and the session is not reserved for it. */
  predicate Unreserved(w: World) { HasCommand(w) && w.reserved.None? }

  /** The report of a turn, or an interrupt, ends: each closed its own turn when it
      began, so a turn open now is a later one. */
  predicate IsEnd(step: Step) { step.Reports? || step.Aborted? }

  predicate Closes(step: Step) { step.Claims? || step.Aborts? || step.Refuses? }

  lemma StepKeepsInv(w: World, step: Step)
    requires Inv(w) && Enabled(w, step)
    ensures Inv(Next(w, step))
  {}

  /** Every step: the open command's turn loses its reservation exactly where a
      report or an interrupt ends, and does not get it back. */
  lemma UnreservedStep(w: World, step: Step)
    requires Inv(w) && Enabled(w, step)
    ensures Unreserved(Next(w, step)) <==> HasCommand(w) && !Closes(step) && (Unreserved(w) || IsEnd(step))
  {}

  lemma {:induction false} RunKeepsInv(steps: seq<Step>)
    requires Legal(steps)
    ensures Inv(Run(steps))
    decreases |steps|
  {
    if steps != [] {
      hide Inv, Next, Enabled;
      RunKeepsInv(steps[..|steps| - 1]);
      StepKeepsInv(Run(steps[..|steps| - 1]), steps[|steps| - 1]);
    } else {
      assert Inv(Initial);
    }
  }

  // ---- the main results ---------------------------------------------------------------------------

  /** The run so far ended a report or an interrupt since the open command's turn opened. */
  predicate EndedUnder(steps: seq<Step>)
    requires Legal(steps)
    decreases |steps|
  {
    steps != [] &&
    var init, last := steps[..|steps| - 1], steps[|steps| - 1];
    HasCommand(Run(init)) && !Closes(last) && (IsEnd(last) || EndedUnder(init))
  }

  /** In every run: a command's turn runs unreserved exactly if, since it opened, the
      report of an earlier turn or an earlier interrupt has ended. */
  lemma {:induction false} UnreservedExactly(steps: seq<Step>)
    requires Legal(steps)
    ensures Unreserved(Run(steps)) <==> EndedUnder(steps)
    decreases |steps|
  {
    if steps != [] {
      hide Inv, Next, Enabled, Closes, IsEnd;
      var init, last := steps[..|steps| - 1], steps[|steps| - 1];
      UnreservedExactly(init);
      RunKeepsInv(init);
      UnreservedStep(Run(init), last);
      hide HasCommand;
      if Unreserved(Run(init)) { HasIt(Run(init)); }
    } else {
      assert Run(steps) == Initial;
    }
  }

  lemma HasIt(w: World)
    requires Unreserved(w)
    ensures HasCommand(w)
  {}

  /** Nothing that began before is under way. */
  predicate Quiet(w: World) { !w.reporting && w.aborts == {} }

  predicate OpensQuietly(steps: seq<Step>)
    requires Legal(steps)
    decreases |steps|
  {
    steps != [] ==>
      var init, last := steps[..|steps| - 1], steps[|steps| - 1];
      OpensQuietly(init) && (last.Opens? ==> Quiet(Run(init)))
  }

  lemma {:induction false} QuietStays(steps: seq<Step>)
    requires Legal(steps) && OpensQuietly(steps)
    ensures HasCommand(Run(steps)) ==> Quiet(Run(steps))
    ensures !Unreserved(Run(steps))
    decreases |steps|
  {
    if steps != [] {
      var init, last := steps[..|steps| - 1], steps[|steps| - 1];
      QuietStays(init);
      RunKeepsInv(init);
      UnreservedStep(Run(init), last);
      QuietStep(Run(init), last);
      hide Inv, Next, Run, OpensQuietly, HasCommand;
    } else {
      assert Run(steps) == Initial;
    }
  }

  lemma QuietStep(w: World, step: Step)
    requires Inv(w) && Enabled(w, step) && (HasCommand(w) ==> Quiet(w)) && (step.Opens? ==> Quiet(w))
    ensures HasCommand(Next(w, step)) ==> Quiet(Next(w, step))
    ensures HasCommand(w) ==> !IsEnd(step)
  {}

  /** A command's turn can lose its reservation exactly if an earlier report or
      interrupt is under way when it opens: then one more step may take it, and in a
      run where every turn opens with nothing under way none is ever lost. */
  lemma LostOnlyIfUnderWay(steps: seq<Step>)
    requires Legal(steps)
    ensures OpensQuietly(steps) ==> !Unreserved(Run(steps))
    ensures HasCommand(Run(steps)) && !Quiet(Run(steps)) ==>
      exists step :: Enabled(Run(steps), step) && Unreserved(Next(Run(steps), step))
  {
    if OpensQuietly(steps) { QuietStays(steps); }
    var w := Run(steps);
    RunKeepsInv(steps);
    if HasCommand(w) && w.reporting {
      UnreservedStep(w, Reports);
      assert Enabled(w, Reports) && Unreserved(Next(w, Reports));
    } else if HasCommand(w) && w.aborts != {} {
      var gen :| gen in w.aborts;
      UnreservedStep(w, Aborted(gen));
      assert Enabled(w, Aborted(gen)) && Unreserved(Next(w, Aborted(gen)));
    }
    hide Run, OpensQuietly, Inv, Next;
  }

  /** And in every run the reservation never outlives its call: it stands only while
      the call's turn is to open, is open, or a report or an interrupt is under way. */
  lemma NeverOutlives(steps: seq<Step>)
    requires Legal(steps) && Run(steps).reserved.Some?
    ensures var w := Run(steps); w.invoking == w.reserved || w.turn == Some(Command(w.reserved.value)) || !Quiet(w)
  {
    RunKeepsInv(steps);
    hide Run;
  }

  /** A turn's report is under way when an interrupt of what came after it makes the
      session idle; a command opens its turn, and the report ends. */
  const LATE := [Messages, Claims, Aborts, Aborted(1), Reserves, Opens, Reports]

  function LateWorld(n: nat): World {
    if n == 0 then Initial
    else if n == 1 then World(false, None, false, None, Some(Plain), false, {}, 0, 0, false)
    else if n == 2 then World(false, None, false, None, None, true, {}, 0, 0, false)
    else if n == 3 then World(false, None, false, None, None, true, {1}, 1, 0, false)
    else if n == 4 then World(true, None, false, None, None, true, {}, 1, 0, false)
    else if n == 5 then World(true, Some(0), false, Some(0), None, true, {}, 1, 1, false)
    else if n == 6 then World(false, Some(0), true, None, Some(Command(0)), true, {}, 1, 1, false)
    else World(false, None, false, None, Some(Command(0)), false, {}, 1, 1, false)
  }

  lemma LateStep(n: nat)
    requires n < 7
    ensures Enabled(LateWorld(n), LATE[n]) && Next(LateWorld(n), LATE[n]) == LateWorld(n + 1)
  {
    assert {1} - {1} == {} && {} + {1} == {1};
  }

  lemma {:induction false} LateRun(n: nat)
    requires n <= 7
    ensures Legal(LATE[..n]) && Run(LATE[..n]) == LateWorld(n)
  {
    if n > 0 {
      LateRun(n - 1);
      LateStep(n - 1);
      assert LATE[..n][..n - 1] == LATE[..n - 1] && LATE[..n][n - 1] == LATE[n - 1];
      hide Next, Enabled, LateWorld;
    }
  }

  lemma LateReportTakesTheReservation()
    ensures Legal(LATE) && Unreserved(Run(LATE)) && Run(LATE).calls == 1
  {
    LateRun(7);
    assert LATE[..7] == LATE;
  }

  /** A command is reserved exactly on an idle session nobody holds; it opens its turn, or
      without one lets go of the reservation. */
  lemma CommandsOpen(w: World)
    ensures var w' := Next(w, Reserves);
      if w.idle && w.reserved.None? then
        w' == w.(reserved := Some(w.calls), invoking := Some(w.calls), calls := w.calls + 1)
      else w' == w
    ensures Enabled(w, Opens) ==>
      var w' := Next(w, Opens);
      if w.finished then w' == w.(reserved := None, invoking := None)
      else w' == w.(invoking := None, held := true, idle := false, turn := Some(Command(w.invoking.value)))
    ensures Enabled(w, Declines) ==> Next(w, Declines) == w.(reserved := None, invoking := None)
  {}

  /** The end of a report, and of the newest interrupt, leaves an idle session exactly if
      the driver goes on and no turn is open; an earlier interrupt's changes nothing of
      that; a refused prompt finishes the driver. */
  lemma EndsGoIdle(w: World, gen: nat)
    ensures Enabled(w, Reports) ==>
      var w' := Next(w, Reports); w'.idle == (w.idle || (!w.finished && w.turn.None?)) && !w'.reporting
    ensures Enabled(w, Aborted(gen)) ==>
      var w' := Next(w, Aborted(gen));
      && w'.idle == (w.idle || (!w.finished && w.turn.None? && gen == w.abortGen)) && w'.aborts == w.aborts - {gen}
    ensures Enabled(w, Refuses) ==>
      var w' := Next(w, Refuses); w'.finished && w'.turn.None? && w'.idle == w.idle
    ensures var w' := Next(w, Messages);
      if w.reserved.Some? || w.finished then w' == w
      else !w'.idle && w'.turn == if w.turn.Some? then w.turn else Some(Plain)
  {}
}
