/**
 When the Claude driver (`agent-base/agentd/drivers/claude.mjs`) turns its session
 idle: by a counter of consumed input over the queue that feeds the SDK.

 A step is the code between two awaits. `input()` has its item a moment before
 it counts it: the promise is settled in one step, the `await` resumes in a later
 one. A message is known by its number. Compactions, the background-task count
 and states other than idle and working are not part of this model.
 */
module ClaudeIdle {
  import opened Wrappers
  import Q = PromiseQueues

  /** `input()`: between pulls, waiting on its promise, or over. */
  datatype Pump = Ready | Awaiting(slot: nat) | Over

  /** An `interrupt()`: waiting for the SDK, then for the disk. */
  datatype Interrupting = Asked(consumed: nat) | Syncing(consumed: nat)

  /** What a result decided. `before` is what was consumed when it arrived. */
  datatype Decision = WentIdle(before: nat) | Rotated(before: nat) | Left

  /** `result` is the counter a result that is being synced saw; `mark` is that of
      the result or interrupt which last found the session to be idle. */
  datatype Session = Session(
    queue: Q.Queue<nat>, pump: Pump, consumed: nat, idle: bool, result: Option<nat>,
    interrupts: seq<Interrupting>, mark: nat, decisions: seq<Decision>)

  datatype Step =
    | Message
    | Pull
    | Resume
    | ResultArrives
    | ResultSynced(draining: bool)
    | CliTurn
    | Close
    | InterruptAsked
    | InterruptAnswered(i: nat)
    | InterruptSynced(i: nat)

  const Start := Session(Q.NewQueue(), Ready, 0, true, None, [], 0, [])

  predicate Enabled(s: Session, step: Step) {
    match step
    case Pull => s.pump.Ready?
    case Resume => s.pump.Awaiting? && s.pump.slot < |s.queue.slots| && !s.queue.slots[s.pump.slot].Waiting?
    case ResultArrives => s.result.None?
    case ResultSynced(_) => s.result.Some?
    case InterruptAnswered(i) => i < |s.interrupts| && s.interrupts[i].Asked?
    case InterruptSynced(i) => i < |s.interrupts| && s.interrupts[i].Syncing?
    case _ => true
  }

  /** The result branch of `runLoop` after its sync. */
  function Decide(s: Session, draining: bool): Session
    requires s.result.Some?
  {
    var before := s.result.value;
    var s := s.(result := None);
    if draining then s.(decisions := s.decisions + [Left])
    else if s.queue.items == [] && s.consumed == before then
      s.(idle := true, mark := before, decisions := s.decisions + [WentIdle(before)])
    else s.(decisions := s.decisions + [Rotated(before)])
  }

  function WithoutAt(q: seq<Interrupting>, i: nat): seq<Interrupting>
    requires i < |q|
  {
    q[..i] + q[i + 1..]
  }

  function Next(s: Session, step: Step): Session
    requires Enabled(s, step)
  {
    match step
    case Message => if s.queue.closed then s else s.(queue := Q.AfterPush(s.queue, |s.queue.pushed|), idle := false)
    case Pull => s.(queue := Q.AfterNext(s.queue), pump := Awaiting(|s.queue.slots|))
    case Resume =>
      if s.queue.slots[s.pump.slot].Closed? then s.(pump := Over)
      else s.(pump := Ready, consumed := s.consumed + 1, idle := false)
    case ResultArrives => s.(result := Some(s.consumed))
    case ResultSynced(draining) => Decide(s, draining)
    case CliTurn => s.(idle := false)
    case Close => s.(queue := Q.AfterClose(s.queue))
    case InterruptAsked => s.(interrupts := s.interrupts + [Asked(s.consumed)])
    case InterruptAnswered(i) =>
      var before := s.interrupts[i].consumed;
      if s.queue.items == [] && s.consumed == before then s.(interrupts := s.interrupts[i := Syncing(before)])
      else s.(interrupts := WithoutAt(s.interrupts, i))
    case InterruptSynced(i) =>
      var before := s.interrupts[i].consumed;
      var s := s.(interrupts := WithoutAt(s.interrupts, i));
      if s.consumed == before then s.(idle := true, mark := before) else s
  }

  predicate Legal(s: Session, steps: seq<Step>)
    decreases |steps|
  {
    steps == [] || (Enabled(s, steps[0]) && Legal(Next(s, steps[0]), steps[1..]))
  }

  function Run(s: Session, steps: seq<Step>): Session
    requires Legal(s, steps)
    decreases |steps|
  {
    if steps == [] then s else Run(Next(s, steps[0]), steps[1..])
  }

  // ---- what every run keeps -------------------------------------------------------------

  /** A message that left the queue and is not counted yet. */
  function InTransit(s: Session): nat {
    if s.pump.Awaiting? && s.pump.slot < |s.queue.slots| && s.queue.slots[s.pump.slot].Given? then 1 else 0
  }

  /** The pump has at most its last promise open; the rest it counted. */
  predicate PumpOk(s: Session) {
    && Q.Valid(s.queue)
    && (s.pump.Ready? ==> s.consumed == |s.queue.slots| <= |s.queue.pushed|)
    && (s.pump.Awaiting? ==> s.pump.slot + 1 == |s.queue.slots| && s.consumed == s.pump.slot <= |s.queue.pushed|)
    && (s.pump.Over? ==> s.queue.closed && s.consumed == |s.queue.pushed| && |s.queue.slots| == s.consumed + 1)
    && (s.result.Some? ==> s.result.value <= s.consumed)
  }

  lemma StepKeepsPump(s: Session, step: Step)
    requires PumpOk(s) && Enabled(s, step)
    ensures PumpOk(Next(s, step))
  {
    hide Q.SettleAll, Q.Settle;
    match step
    case Message => Q.StepKeepsValid(s.queue, Q.DoPush(|s.queue.pushed|));
    case Pull => Q.StepKeepsValid(s.queue, Q.DoNext);
    case Close => Q.StepKeepsValid(s.queue, Q.DoClose);
    case _ =>
  }

  lemma {:induction false} RunKeepsPump(s: Session, steps: seq<Step>)
    requires PumpOk(s) && Legal(s, steps)
    ensures PumpOk(Run(s, steps))
    decreases |steps|
  {
    if steps != [] {
      hide PumpOk, Next, Enabled;
      StepKeepsPump(s, steps[0]);
      RunKeepsPump(Next(s, steps[0]), steps[1..]);
    }
  }

  /** Every accepted message is queued, on its way, or counted. */
  lemma Counted(s: Session)
    requires PumpOk(s)
    ensures |s.queue.items| + InTransit(s) + s.consumed == |s.queue.pushed|
  {}

  /** An idle session saw nothing consumed since what made it idle. */
  predicate MarkOk(s: Session) { s.idle ==> s.consumed == s.mark }

  /** Idle over a message still queued. */
  predicate IdleOverQueue(s: Session) { s.idle && s.queue.items != [] }

  /** Idle while a result is synced that came before what was consumed since. */
  predicate IdlePastResult(s: Session) { s.idle && s.result.Some? && s.result.value < s.consumed }

  /** The step is an interrupt's last look, and nothing was consumed since it was asked for. */
  predicate InterruptIdles(s: Session, step: Step)
    requires Enabled(s, step)
  {
    step.InterruptSynced? && s.consumed == s.interrupts[step.i].consumed
  }

  lemma StepKeepsMark(s: Session, step: Step)
    requires PumpOk(s) && MarkOk(s) && Enabled(s, step)
    ensures MarkOk(Next(s, step))
  {
    hide Q.SettleAll, Q.Settle;
  }

  /** Only an interrupt leaves a session idle over the queue, or past a result:
      where something is queued, or was consumed since the result, at its last look. */
  lemma OnlyInterruptsMislead(s: Session, step: Step)
    requires PumpOk(s) && Enabled(s, step)
    ensures !IdleOverQueue(s) ==>
      (IdleOverQueue(Next(s, step)) <==> InterruptIdles(s, step) && s.queue.items != [])
    ensures !IdlePastResult(s) ==>
      (IdlePastResult(Next(s, step)) <==> InterruptIdles(s, step) && s.result.Some? && s.result.value < s.consumed)
  {
    hide Q.SettleAll, Q.Settle;
  }

  /** At the last look of every interrupt that idles the session, all messages
      accepted were consumed before it was asked for, or one is on its way. */
  predicate NoneLate(s: Session, steps: seq<Step>)
    requires Legal(s, steps)
    decreases |steps|
  {
    steps == [] ||
    (&& (InterruptIdles(s, steps[0]) ==> |s.queue.pushed| == s.interrupts[steps[0].i].consumed + InTransit(s))
     && NoneLate(Next(s, steps[0]), steps[1..]))
  }

  /** At each such look, nothing was consumed since a result being synced. */
  predicate NonePast(s: Session, steps: seq<Step>)
    requires Legal(s, steps)
    decreases |steps|
  {
    steps == [] ||
    (&& (InterruptIdles(s, steps[0]) && s.result.Some? ==> s.result.value == s.consumed)
     && NonePast(Next(s, steps[0]), steps[1..]))
  }

  lemma {:induction false} RunKeepsIdle(s: Session, steps: seq<Step>)
    requires PumpOk(s) && MarkOk(s) && Legal(s, steps)
    ensures MarkOk(Run(s, steps))
    ensures !IdleOverQueue(s) && NoneLate(s, steps) ==> !IdleOverQueue(Run(s, steps))
    ensures !IdlePastResult(s) && NonePast(s, steps) ==> !IdlePastResult(Run(s, steps))
    decreases |steps|
  {
    if steps != [] {
      hide PumpOk, MarkOk, IdleOverQueue, IdlePastResult, InterruptIdles, Next, Enabled;
      StepKeepsPump(s, steps[0]);
      StepKeepsMark(s, steps[0]);
      OnlyInterruptsMislead(s, steps[0]);
      Counted(s);
      LooksBack(s, steps[0]);
      RunKeepsIdle(Next(s, steps[0]), steps[1..]);
    }
  }

  lemma LooksBack(s: Session, step: Step)
    requires Enabled(s, step)
    ensures InterruptIdles(s, step) ==> step.InterruptSynced? && s.interrupts[step.i].consumed == s.consumed
  {}

  // ---- the main results -------------------------------------------------------------------

  /** In every run, a result turns the session idle exactly when every message
      accepted so far was consumed before the result arrived, or is the one on its
      way from the queue to the counter. Otherwise the turn rotates and the state
      is left as it is. The result of a turn that drains leaves both. */
  lemma ResultDecides(steps: seq<Step>)
    requires Legal(Start, steps) && Run(Start, steps).result.Some?
    ensures var s := Run(Start, steps); Next(s, ResultSynced(true)) == s.(result := None, decisions := s.decisions + [Left])
    ensures var s := Run(Start, steps); var s' := Next(s, ResultSynced(false)); var before := s.result.value;
      s' == if |s.queue.pushed| == before + InTransit(s)
            then s.(result := None, idle := true, mark := before, decisions := s.decisions + [WentIdle(before)])
            else s.(result := None, decisions := s.decisions + [Rotated(before)])
  {
    RunKeepsPump(Start, steps);
    Counted(Run(Start, steps));
    hide Run, InTransit;
  }

  /** In every run, the last look of an interrupt turns a working session idle
      exactly when nothing was consumed since it was asked for; and leaves nothing
      queued then exactly when also every message accepted was consumed before it
      was asked for, or is the one on its way. */
  lemma InterruptDecides(steps: seq<Step>, i: nat)
    requires Legal(Start, steps) && Enabled(Run(Start, steps), InterruptSynced(i)) && !Run(Start, steps).idle
    ensures var s := Run(Start, steps); var s' := Next(s, InterruptSynced(i)); var before := s.interrupts[i].consumed;
      && (s'.idle <==> |s.queue.pushed| == before + |s.queue.items| + InTransit(s))
      && (s'.idle && s'.queue.items == [] <==> s.consumed == before && |s.queue.pushed| == before + InTransit(s))
      && s' == s.(interrupts := s.interrupts[..i] + s.interrupts[i + 1..], idle := s'.idle,
                  mark := if s'.idle then before else s.mark)
  {
    RunKeepsPump(Start, steps);
    Counted(Run(Start, steps));
    hide Run, InTransit;
  }

  /** An interrupt knows what was consumed when it was asked for. Once it is answered it
      goes on to its sync exactly if nothing is queued and nothing was consumed since,
      and else it is over. */
  lemma InterruptLooks(s: Session, i: nat)
    ensures Next(s, InterruptAsked) == s.(interrupts := s.interrupts + [Asked(s.consumed)])
    ensures Enabled(s, InterruptAnswered(i)) ==>
      var before := s.interrupts[i].consumed;
      Next(s, InterruptAnswered(i)) ==
        if s.queue.items == [] && s.consumed == before then s.(interrupts := s.interrupts[i := Syncing(before)])
        else s.(interrupts := s.interrupts[..i] + s.interrupts[i + 1..])
  {}

  /** What puts a session to work: a message taken, one counted, a turn the CLI starts. */
  lemma WorkStarts(s: Session)
    ensures !Next(s, CliTurn).idle && Next(s, CliTurn) == s.(idle := false)
    ensures var s' := Next(s, Message);
      if s.queue.closed then s' == s else !s'.idle && s'.queue.pushed == s.queue.pushed + [|s.queue.pushed|]
    ensures PumpOk(s) && Enabled(s, Resume) ==>
      var s' := Next(s, Resume);
      if InTransit(s) == 1 then s' == s.(pump := Ready, consumed := s.consumed + 1, idle := false)
      else s.queue.closed && s' == s.(pump := Over)
  {
    hide Q.SettleAll, Q.Settle;
  }

  /** Once the queue is closed no message is taken in any run that follows. */
  lemma ClosedTakesNothing(s: Session, steps: seq<Step>)
    requires Legal(Next(s, Close), steps)
    ensures Run(Next(s, Close), steps).queue.pushed == s.queue.pushed && Run(Next(s, Close), steps).queue.closed
  {
    RunClosed(Next(s, Close), steps);
    hide Run, Legal;
  }

  lemma {:induction false} RunClosed(s: Session, steps: seq<Step>)
    requires Legal(s, steps) && s.queue.closed
    ensures Run(s, steps).queue.pushed == s.queue.pushed && Run(s, steps).queue.closed
    decreases |steps|
  {
    if steps != [] {
      StepClosed(s, steps[0]);
      hide Next, Enabled;
      RunClosed(Next(s, steps[0]), steps[1..]);
    }
  }

  lemma StepClosed(s: Session, step: Step)
    requires Enabled(s, step) && s.queue.closed
    ensures Next(s, step).queue.pushed == s.queue.pushed && Next(s, step).queue.closed
  {
    hide Q.SettleAll, Q.Settle;
  }

  /** Interrupts included: once the message on its way is counted, a session is idle
      only if every message accepted was consumed before the result or interrupt
      that made it idle, as long as no interrupt's last look missed a queued one;
      and a turn rotates only in a session that stays working, as long as none came
      between a result and its sync with something consumed since. */
  lemma IdleMeansAnswered(steps: seq<Step>)
    requires Legal(Start, steps)
    ensures var s := Run(Start, steps);
      && (NoneLate(Start, steps) && s.idle && InTransit(s) == 0 ==> |s.queue.pushed| == s.mark)
      && (NoneLate(Start, steps) && NonePast(Start, steps) ==>
            s.result.Some? && |s.queue.pushed| != s.result.value + InTransit(s) ==> !s.idle)
  {
    StartIsOk();
    RunKeepsPump(Start, steps);
    RunKeepsIdle(Start, steps);
    Counted(Run(Start, steps));
    hide Run, InTransit, NoneLate, NonePast;
  }

  lemma StartIsOk()
    ensures PumpOk(Start) && MarkOk(Start) && !IdleOverQueue(Start) && !IdlePastResult(Start)
  {}

  /** Without interrupts nothing can be missed. */
  lemma {:induction false} WithoutInterrupts(s: Session, steps: seq<Step>)
    requires Legal(s, steps) && forall i :: 0 <= i < |steps| ==> !steps[i].InterruptSynced?
    ensures NoneLate(s, steps) && NonePast(s, steps)
    decreases |steps|
  {
    if steps != [] {
      hide Next, Enabled, InTransit;
      WithoutInterrupts(Next(s, steps[0]), steps[1..]);
    }
  }

  /** So in every run without interrupts an idle session, nothing on its way, answered
      every message, and a turn rotates only in a session that stays working. */
  lemma IdleWithoutInterrupts(steps: seq<Step>)
    requires Legal(Start, steps) && forall i :: 0 <= i < |steps| ==> !steps[i].InterruptSynced?
    ensures var s := Run(Start, steps);
      && (s.idle && InTransit(s) == 0 ==> |s.queue.pushed| == s.mark)
      && (s.result.Some? && |s.queue.pushed| != s.result.value + InTransit(s) ==> !s.idle)
  {
    WithoutInterrupts(Start, steps);
    IdleMeansAnswered(steps);
    hide Run, InTransit, NoneLate, NonePast;
  }

  /** The message on its way puts the session back to work as soon as it is counted. */
  lemma TransitHeals(s: Session)
    requires PumpOk(s) && InTransit(s) == 1
    ensures Enabled(s, Resume) && !Next(s, Resume).idle && InTransit(Next(s, Resume)) == 0
  {}

  /** The gap: a message handed over while a result syncs, not counted yet when the
      sync is done. The session goes idle with that message on its way. */
  const HANDOVER := [Pull, ResultArrives, Message, ResultSynced(false)]

  lemma IdleWhileHandedOver()
    ensures Legal(Start, HANDOVER)
    ensures var s := Run(Start, HANDOVER); s.idle && |s.queue.pushed| == 1 && s.consumed == 0 && InTransit(s) == 1
  {
    var s1 := Next(Start, Pull);
    var s2 := Next(s1, ResultArrives);
    var s3 := Next(s2, Message);
    assert s3.queue.slots == [Q.Given(0)];
    var s4 := Next(s3, ResultSynced(false));
    assert HANDOVER[1..][1..] == HANDOVER[2..] && HANDOVER[2..][1..] == HANDOVER[3..] && HANDOVER[3..][1..] == [];
    assert Legal(s4, []) && Run(s4, []) == s4;
    assert Legal(s3, HANDOVER[3..]) && Run(s3, HANDOVER[3..]) == s4;
    assert Legal(s2, HANDOVER[2..]) && Run(s2, HANDOVER[2..]) == s4;
    assert Legal(s1, HANDOVER[1..]) && Run(s1, HANDOVER[1..]) == s4;
  }

  /** And an interrupt looks at the queue only before its sync: a message queued
      during it, with the SDK not asking for one, is queued in an idle session. */
  const LATE := [InterruptAsked, InterruptAnswered(0), Message, InterruptSynced(0)]

  lemma InterruptIdlesOverQueued()
    ensures Legal(Start, LATE)
    ensures var s := Run(Start, LATE); s.idle && s.queue.items == [0] && InTransit(s) == 0
  {
    var s1 := Next(Start, InterruptAsked);
    var s2 := Next(s1, InterruptAnswered(0));
    var s3 := Next(s2, Message);
    var s4 := Next(s3, InterruptSynced(0));
    assert LATE[1..][1..] == LATE[2..] && LATE[2..][1..] == LATE[3..] && LATE[3..][1..] == [];
    assert Legal(s4, []) && Run(s4, []) == s4;
    assert Legal(s3, LATE[3..]) && Run(s3, LATE[3..]) == s4;
    assert Legal(s2, LATE[2..]) && Run(s2, LATE[2..]) == s4;
    assert Legal(s1, LATE[1..]) && Run(s1, LATE[1..]) == s4;
  }
}
