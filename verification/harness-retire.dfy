/**
 `retireDriver` of `agent-base/agentd/server.mjs` with `settledWithin` and
 `retireGrace` of `session-setup.mjs`: how long a swap waits for the old harness
 and when it vouches that it is gone. Times are milliseconds from the start.
 */
module HarnessRetire {
  const RETIRE_GRACE_MS: nat := 20000
  const RETIRE_BACKGROUND_GRACE_MS: nat := 3000
  const RETIRE_ABORT_MS: nat := 10000

  /** A promise of a boolean: pending for good, or settled at a time. */
  datatype Promise = Never | At(when: nat, value: bool)

  /** When a wait ends, and with what. */
  datatype Waited = Waited(until: nat, value: bool)

  function RetireGrace(backgroundTasks: nat): nat {
    if backgroundTasks > 0 then RETIRE_BACKGROUND_GRACE_MS else RETIRE_GRACE_MS
  }

  /** The promise's value, or false once `ms` have passed since `from`. */
  function SettledWithin(p: Promise, from: nat, ms: nat): Waited {
    if p.At? && p.when < from + ms then Waited(if p.when < from then from else p.when, p.value) else Waited(from + ms, false)
  }

  /** `stopped` is the harness's wind-down, false when it failed; `force` the stop
      asked for once the grace, which background tasks shorten, is over. */
  function RetireDriver(stopped: Promise, force: Promise, background: nat): Waited {
    var first := SettledWithin(stopped, 0, RetireGrace(background));
    if first.value then first
    else SettledWithin(stopped, SettledWithin(force, first.until, RETIRE_ABORT_MS).until, RETIRE_ABORT_MS)
  }

  function Later(a: nat, b: nat): nat { if a < b then b else a }

  /** When the forced stop of a harness given up at `from` was waited for: 10 s at most. */
  function ForcedBy(force: Promise, from: nat): nat {
    if force.At? && force.when < from + 10000 then Later(from, force.when) else from + 10000
  }

  /** A harness has 20 s to wind down, or 3 s with tasks in the background, before it is
      stopped, and 10 s more from when that was waited for. It is vouched gone exactly if
      its own wind-down said so by then, and no sooner than it said so; one that failed
      is waited for no longer than the forced stop. */
  lemma VouchesOnlyForTheGone(stopped: Promise, force: Promise, background: nat)
    ensures var r, grace := RetireDriver(stopped, force, background), if background == 0 then 20000 else 3000;
      var forced := ForcedBy(force, if stopped.At? && !stopped.value then Min(grace, stopped.when) else grace);
      && (r.value <==> stopped.At? && stopped.value && stopped.when < forced + 10000)
      && r.until ==
           if r.value && stopped.when < grace then stopped.when
           else if stopped.At? && stopped.when < forced + 10000 then Later(forced, stopped.when)
           else forced + 10000
  {}

  function Min(a: nat, b: nat): nat { if a < b then a else b }
}
