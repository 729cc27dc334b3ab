/**
 `RenewableIdentity` of `agent-base/agentd/credential-broker.mjs`: one credential,
 renewed by one request at a time, with backoff.

 A step is one call of `get` up to its await, or a renewal that settled together
 with the reactions of every caller waiting for it. The clock is an argument of
 each step and does not run backwards. What the metadata service answers is one
 too; it never gives a token it gave before. Times are milliseconds.
 */
module Identity {
  import opened Wrappers

  const EXPIRY_MARGIN_MS := 30000.0
  const MAX_LIFETIME_MS := 3600000.0
  const REFUSALS := {400, 401, 403, 404, 410}

  /** A token, when to renew it, until when it is usable, and how long it lives from its receipt. */
  datatype Credential = Credential(token: string, renewAt: real, expiresAt: real, received: real, lifetime: real)

  /** A failed renewal: its status, and how many refusals in a row it made, if it was one. */
  datatype Failure = Failure(status: Option<nat>, refusals: Option<nat>)

  datatype Outcome = Renewed | Refused | Failed

  /** A token handed to a caller, and when. */
  datatype Served = Served(token: string, at: real, received: real, lifetime: real)

  /** An error handed to a caller, and the renewals settled by then. */
  datatype Thrown = Thrown(failure: Failure, outcomes: seq<Outcome>)

  /** The identity, the callers waiting for its renewal (by whether each wants a
      fresh token), and the run so far: tokens handed out or ever received, those
      rejected, revoked or closed, how renewals ended, the diagnostics (true for a
      recovery), errors handed out, when the failures since the last success were, and how many
      renewals began and ended. */
  datatype State = State(
    credential: Option<Credential>, renewing: bool, retryAt: real, failures: nat, refused: nat,
    lastError: Option<Failure>, closed: bool,
    clock: real, waiting: seq<bool>, served: seq<Served>, issued: set<string>, dead: set<string>,
    outcomes: seq<Outcome>, diagnostics: seq<bool>, thrown: seq<Thrown>, failedAt: seq<real>, begun: nat, ended: nat)

  const Initial := State(None, false, 0.0, 0, 0, None, false, 0.0, [], [], {}, {}, [], [], [], [], 0, 0)

  predicate Usable(s: State, now: real) { s.credential.Some? && now < s.credential.value.expiresAt }

  function Kill(s: State): State {
    s.(credential := None, dead := if s.credential.Some? then s.dead + {s.credential.value.token} else s.dead)
  }

  function Serve(s: State, now: real): State
    requires s.credential.Some?
  {
    var c := s.credential.value;
    s.(served := s.served + [Served(c.token, now, c.received, c.lifetime)])
  }

  /** The `catch` of `get`: the old token while it is usable, else the error. */
  function ServeOrThrow(s: State, strict: bool, failure: Failure, now: real): State {
    if !s.closed && !strict && Usable(s, now) then Serve(s, now)
    else s.(thrown := s.thrown + [Thrown(failure, s.outcomes)])
  }

  /** `get`; a closed identity answers nobody. */
  function Get(s: State, rejected: bool, strict: bool, now: real): State {
    var s := s.(clock := now);
    if s.closed then s
    else
      var s := if rejected then Kill(s) else s;
      if !strict && !rejected && s.credential.Some? && now < s.credential.value.renewAt then Serve(s, now)
      else
        var s := if !s.renewing && now >= s.retryAt then s.(renewing := true, begun := s.begun + 1) else s;
        if s.renewing then s.(waiting := s.waiting + [strict])
        else ServeOrThrow(s, strict, s.lastError.GetOr(Failure(None, None)), now)
  }

  // ---- a renewal that settled ---------------------------------------------------------

  function Doubled(n: nat): real { if n == 0 then 1.0 else 2.0 * Doubled(n - 1) }

  function Backoff(failures: nat): real {
    var grown := 1000.0 * Doubled(if failures < 5 then failures else 5);
    if grown < 30000.0 then grown else 30000.0
  }

  datatype Answer = Token(token: string, lifetime: real) | Error(status: Option<nat>)

  predicate Valid(a: Answer) { a.Token? && EXPIRY_MARGIN_MS < a.lifetime <= MAX_LIFETIME_MS }

  /** Every caller that waited gets the new token. */
  function ServeAll(s: State, n: nat, now: real): (r: State)
    requires s.credential.Some?
    ensures r.credential == s.credential
  {
    if n == 0 then s else Serve(ServeAll(s, n - 1, now), now)
  }

  function ServeOrThrowAll(s: State, callers: seq<bool>, failure: Failure, now: real): State {
    if callers == [] then s
    else ServeOrThrow(ServeOrThrowAll(s, callers[..|callers| - 1], failure, now), callers[|callers| - 1], failure, now)
  }

  function Renew(s: State, token: string, lifetime: real, now: real): State {
    s.(credential := Some(Credential(token, now + lifetime / 2.0, now + lifetime - EXPIRY_MARGIN_MS, now, lifetime)),
       retryAt := 0.0, failures := 0, refused := 0, lastError := None,
       issued := s.issued + {token}, outcomes := s.outcomes + [Renewed],
       diagnostics := if s.lastError.Some? then s.diagnostics + [true] else s.diagnostics, failedAt := [])
  }

  function Refuse(s: State): State { Kill(s).(refused := s.refused + 1, outcomes := s.outcomes + [Refused]) }

  function Fail(s: State, failure: Failure, now: real): State {
    s.(diagnostics := if s.lastError.None? then s.diagnostics + [false] else s.diagnostics, lastError := Some(failure),
       retryAt := now + Backoff(s.failures), failures := s.failures + 1, failedAt := s.failedAt + [now])
  }

  /** The `catch` of `renew`, then that of each waiting `get`. */
  function RenewalFailed(s: State, callers: seq<bool>, status: Option<nat>, now: real): State {
    var refusal := status.Some? && status.value in REFUSALS;
    var s := if refusal then Refuse(s) else s.(refused := 0, outcomes := s.outcomes + [Failed]);
    var failure := Failure(status, if refusal then Some(s.refused) else None);
    ServeOrThrowAll(Fail(s, failure, now), callers, failure, now)
  }

  function Settle(s: State, a: Answer, now: real): State {
    var callers := s.waiting;
    var status := if a.Error? then a.status else None;
    var s := s.(clock := now, renewing := false, waiting := [], ended := s.ended + 1);
    if s.closed then ServeOrThrowAll(s, callers, Failure(status, None), now)
    else if Valid(a) then ServeAll(Renew(s, a.token, a.lifetime, now), |callers|, now)
    else RenewalFailed(s, callers, status, now)
  }

  function Close(s: State): State { Kill(s).(closed := true) }

  // ---- runs -----------------------------------------------------------------------------

  datatype Step = DoGet(rejected: bool, strict: bool) | DoSettle(answer: Answer) | DoClose

  predicate Enabled(s: State, step: Step, now: real) {
    && s.clock <= now
    && (step.DoSettle? ==> s.renewing && (step.answer.Token? ==> step.answer.token !in s.issued))
  }

  function Next(s: State, step: Step, now: real): State {
    match step
    case DoGet(rejected, strict) => Get(s, rejected, strict, now)
    case DoSettle(a) => Settle(s, a, now)
    case DoClose => Close(s)
  }

  predicate Legal(s: State, steps: seq<(Step, real)>)
    decreases |steps|
  {
    steps == [] || (Enabled(s, steps[0].0, steps[0].1) && Legal(Next(s, steps[0].0, steps[0].1), steps[1..]))
  }

  function Run(s: State, steps: seq<(Step, real)>): State
    requires Legal(s, steps)
    decreases |steps|
  {
    if steps == [] then s else Run(Next(s, steps[0].0, steps[0].1), steps[1..])
  }
}

/** What every run of a renewable identity keeps. */
module IdentitySafety {
  import opened Wrappers
  import opened Identity
  import EventDelivery

  // ---- the parts of the invariant -----------------------------------------------------------

  /** A credential is as its receipt and lifetime say. */
  predicate Anchored(c: Option<Credential>) {
    c.Some? ==>
      && EXPIRY_MARGIN_MS < c.value.lifetime <= MAX_LIFETIME_MS
      && c.value.renewAt == c.value.received + c.value.lifetime / 2.0
      && c.value.expiresAt == c.value.received + c.value.lifetime - EXPIRY_MARGIN_MS
  }

  /** A token is handed out only within its lifetime; and within the margin, or at
      its receipt, if it lives a minute or more. */
  predicate InLifetime(s: Served) {
    && s.at < s.received + s.lifetime
    && (s.lifetime >= 2.0 * EXPIRY_MARGIN_MS ==> s.at < s.received + s.lifetime - EXPIRY_MARGIN_MS)
  }

  predicate ServedOk(served: seq<Served>) { forall i :: 0 <= i < |served| ==> InLifetime(served[i]) }

  predicate TokensOk(credential: Option<Credential>, issued: set<string>, dead: set<string>) {
    && dead <= issued
    && (credential.Some? ==> credential.value.token in issued && credential.value.token !in dead)
  }

  /** How many renewals in a row were refused, the last ones. */
  function TrailingRefusals(outcomes: seq<Outcome>): nat {
    if outcomes == [] || !outcomes[|outcomes| - 1].Refused? then 0 else 1 + TrailingRefusals(outcomes[..|outcomes| - 1])
  }

  predicate StampOk(f: Failure, outcomes: seq<Outcome>) { f.refusals.Some? ==> f.refusals.value == TrailingRefusals(outcomes) }

  predicate RefusalsOk(refused: nat, lastError: Option<Failure>, outcomes: seq<Outcome>, thrown: seq<Thrown>) {
    && refused == TrailingRefusals(outcomes)
    && (lastError.Some? ==> StampOk(lastError.value, outcomes))
    && (forall i :: 0 <= i < |thrown| ==> StampOk(thrown[i].failure, thrown[i].outcomes))
  }

  /** Errors and recoveries alternate, an error first. */
  predicate Alternate(diagnostics: seq<bool>) { forall i :: 0 <= i < |diagnostics| ==> diagnostics[i] == (i % 2 == 1) }

  predicate DiagnosticsOk(diagnostics: seq<bool>, lastError: Option<Failure>) {
    Alternate(diagnostics) && (lastError.Some? <==> |diagnostics| % 2 == 1)
  }

  /** The failures since the last success lie at least their backoff apart. */
  predicate Spaced(failedAt: seq<real>) {
    forall i :: 0 < i < |failedAt| ==> failedAt[i] >= failedAt[i - 1] + Backoff(i - 1)
  }

  predicate BackoffOk(s: State) {
    && Spaced(s.failedAt) && s.failures == |s.failedAt|
    && (s.failedAt != [] ==> s.retryAt == s.failedAt[|s.failedAt| - 1] + Backoff(|s.failedAt| - 1))
    && (s.renewing ==> s.retryAt <= s.clock)
    && (s.failedAt == [] ==> s.retryAt <= 0.0)
  }

  predicate Inv(s: State) {
    && Anchored(s.credential) && ServedOk(s.served) && TokensOk(s.credential, s.issued, s.dead)
    && RefusalsOk(s.refused, s.lastError, s.outcomes, s.thrown)
    && DiagnosticsOk(s.diagnostics, s.lastError) && BackoffOk(s)
    && (s.waiting != [] ==> s.renewing)
    && s.clock >= 0.0
    && s.begun == s.ended + (if s.renewing then 1 else 0)
  }

  // ---- steps ----------------------------------------------------------------------------------

  lemma ServePush(served: seq<Served>, x: Served)
    requires ServedOk(served) && InLifetime(x)
    ensures ServedOk(served + [x])
  {}

  /** Handing the credential out while it may be. */
  lemma ServeKeepsInv(s: State, now: real)
    requires Inv(s) && s.credential.Some?
    requires now < s.credential.value.renewAt || Usable(s, now) || now == s.credential.value.received
    ensures Inv(Serve(s, now))
  {
    var c := s.credential.value;
    ServePush(s.served, Served(c.token, now, c.received, c.lifetime));
    hide ServedOk, TokensOk, RefusalsOk, DiagnosticsOk, Spaced;
  }

  lemma ThrowKeepsInv(s: State, failure: Failure)
    requires Inv(s) && StampOk(failure, s.outcomes)
    ensures Inv(s.(thrown := s.thrown + [Thrown(failure, s.outcomes)]))
  {
    hide ServedOk, TokensOk, TrailingRefusals, DiagnosticsOk, Spaced, Anchored;
  }

  lemma ServeOrThrowKeepsInv(s: State, strict: bool, failure: Failure, now: real)
    requires Inv(s) && StampOk(failure, s.outcomes)
    ensures Inv(ServeOrThrow(s, strict, failure, now)) && ServeOrThrow(s, strict, failure, now).outcomes == s.outcomes
  {
    hide Inv, StampOk;
    if !s.closed && !strict && Usable(s, now) { ServeKeepsInv(s, now); } else { ThrowKeepsInv(s, failure); }
  }

  lemma {:induction false} ServeOrThrowAllKeepsInv(s: State, callers: seq<bool>, failure: Failure, now: real)
    requires Inv(s) && StampOk(failure, s.outcomes)
    ensures Inv(ServeOrThrowAll(s, callers, failure, now)) && ServeOrThrowAll(s, callers, failure, now).outcomes == s.outcomes
  {
    hide Inv, StampOk, ServeOrThrow;
    if callers != [] {
      var init := callers[..|callers| - 1];
      ServeOrThrowAllKeepsInv(s, init, failure, now);
      ServeOrThrowKeepsInv(ServeOrThrowAll(s, init, failure, now), callers[|callers| - 1], failure, now);
    }
  }

  lemma {:induction false} ServeAllKeepsInv(s: State, n: nat, now: real)
    requires Inv(s) && s.credential.Some? && now == s.credential.value.received
    ensures Inv(ServeAll(s, n, now)) && ServeAll(s, n, now).credential == s.credential
  {
    hide Inv;
    if n > 0 {
      ServeAllKeepsInv(s, n - 1, now);
      ServeKeepsInv(ServeAll(s, n - 1, now), now);
    }
  }

  lemma KillKeepsInv(s: State)
    requires Inv(s)
    ensures Inv(Kill(s))
  {
    hide ServedOk, RefusalsOk, DiagnosticsOk, Spaced;
  }

  lemma ClockKeepsInv(s: State, now: real)
    requires Inv(s) && s.clock <= now
    ensures Inv(s.(clock := now))
  {
    hide ServedOk, RefusalsOk, DiagnosticsOk, Spaced, Anchored, TokensOk;
  }

  lemma WaitKeepsInv(s: State, strict: bool, now: real)
    requires Inv(s) && s.clock == now && (s.renewing || now >= s.retryAt)
    ensures Inv(s.(renewing := true, waiting := s.waiting + [strict], begun := if s.renewing then s.begun else s.begun + 1))
  {
    hide ServedOk, RefusalsOk, DiagnosticsOk, Spaced, Anchored, TokensOk;
  }

  lemma GetKeepsInv(s: State, rejected: bool, strict: bool, now: real)
    requires Inv(s) && s.clock <= now
    ensures Inv(Get(s, rejected, strict, now))
  {
    hide Inv, StampOk, Serve, ServeOrThrow;
    var s1 := s.(clock := now);
    ClockKeepsInv(s, now);
    if !s.closed {
      var s2 := if rejected then Kill(s1) else s1;
      KillKeepsInv(s1);
      if !strict && !rejected && s2.credential.Some? && now < s2.credential.value.renewAt {
        ServeKeepsInv(s2, now);
      } else if s2.renewing || now >= s2.retryAt {
        WaitKeepsInv(s2, strict, now);
      } else {
        LastErrorIsStamped(s2);
        ServeOrThrowKeepsInv(s2, strict, s2.lastError.GetOr(Failure(None, None)), now);
      }
    }
  }

  lemma LastErrorIsStamped(s: State)
    requires Inv(s)
    ensures StampOk(s.lastError.GetOr(Failure(None, None)), s.outcomes)
  {
    hide TrailingRefusals;
  }

  lemma TrailingPush(outcomes: seq<Outcome>, o: Outcome)
    ensures TrailingRefusals(outcomes + [o]) == if o.Refused? then 1 + TrailingRefusals(outcomes) else 0
  {
    assert (outcomes + [o])[..|outcomes|] == outcomes;
  }

  lemma AlternatePush(diagnostics: seq<bool>, d: bool)
    requires Alternate(diagnostics) && d == (|diagnostics| % 2 == 1)
    ensures Alternate(diagnostics + [d])
  {}

  lemma RenewKeepsInv(s: State, token: string, lifetime: real, now: real)
    requires Inv(s) && s.clock == now && !s.renewing && s.waiting == []
    requires EXPIRY_MARGIN_MS < lifetime <= MAX_LIFETIME_MS && token !in s.issued
    ensures Inv(Renew(s, token, lifetime, now))
  {
    TrailingPush(s.outcomes, Renewed);
    if s.lastError.Some? { AlternatePush(s.diagnostics, true); }
    hide ServedOk, TrailingRefusals, Alternate;
  }

  /** A settled failure before its error is recorded: the count of refusals is right already. */
  predicate Mid(s: State, outcomes: seq<Outcome>) {
    && Anchored(s.credential) && ServedOk(s.served) && TokensOk(s.credential, s.issued, s.dead)
    && s.outcomes == outcomes && s.refused == TrailingRefusals(outcomes)
    && (forall i :: 0 <= i < |s.thrown| ==> StampOk(s.thrown[i].failure, s.thrown[i].outcomes))
    && DiagnosticsOk(s.diagnostics, s.lastError) && s.waiting == [] && s.clock >= 0.0
    && Spaced(s.failedAt) && s.failures == |s.failedAt| && !s.renewing && s.begun == s.ended
    && (s.failedAt != [] ==> s.clock >= s.failedAt[|s.failedAt| - 1] + Backoff(|s.failedAt| - 1))
  }

  lemma RefuseIsMid(s: State, refusal: bool)
    requires Inv(s.(renewing := true, begun := s.begun + 1)) && !s.renewing && s.waiting == []
    ensures Mid(if refusal then Refuse(s) else s.(refused := 0, outcomes := s.outcomes + [Failed]),
                s.outcomes + [if refusal then Refused else Failed])
  {
    TrailingPush(s.outcomes, if refusal then Refused else Failed);
    hide ServedOk, TrailingRefusals, Alternate, Spaced, Backoff;
  }

  lemma FailKeepsInv(s: State, failure: Failure, now: real)
    requires Mid(s, s.outcomes) && s.clock == now && StampOk(failure, s.outcomes)
    ensures Inv(Fail(s, failure, now))
  {
    if s.lastError.None? { AlternatePush(s.diagnostics, false); }
    BackoffIsPositive(s.failures);
    hide ServedOk, TrailingRefusals, Alternate, Anchored, TokensOk, Backoff;
  }

  lemma BackoffIsPositive(n: nat)
    ensures 0.0 < Backoff(n) <= 30000.0
  {
    DoubledIsPositive(if n < 5 then n else 5);
  }

  lemma {:induction false} DoubledIsPositive(n: nat)
    ensures Doubled(n) >= 1.0
  {
    if n > 0 { DoubledIsPositive(n - 1); }
  }

  lemma RenewalFailedKeepsInv(s: State, callers: seq<bool>, status: Option<nat>, now: real)
    requires Inv(s.(renewing := true, begun := s.begun + 1)) && !s.renewing && s.waiting == [] && s.clock == now
    ensures Inv(RenewalFailed(s, callers, status, now))
  {
    hide Inv, Mid, StampOk, ServeOrThrowAll, Refuse, Fail;
    var refusal := status.Some? && status.value in REFUSALS;
    var s1 := if refusal then Refuse(s) else s.(refused := 0, outcomes := s.outcomes + [Failed]);
    var failure := Failure(status, if refusal then Some(s1.refused) else None);
    RefuseIsMid(s, refusal);
    MidFacts(s, s1, refusal, status);
    FailKeepsInv(s1, failure, now);
    FailKeepsOutcomes(s1, failure, now);
    ServeOrThrowAllKeepsInv(Fail(s1, failure, now), callers, failure, now);
  }

  lemma SettleKeepsInv(s: State, a: Answer, now: real)
    requires Inv(s) && s.clock <= now && s.renewing && (a.Token? ==> a.token !in s.issued)
    ensures Inv(Settle(s, a, now))
  {
    hide Inv, StampOk, ServeOrThrowAll, ServeAll, Renew, RenewalFailed;
    var status := if a.Error? then a.status else None;
    var s1 := s.(clock := now, renewing := false, waiting := [], ended := s.ended + 1);
    StopKeepsInv(s, now);
    if s.closed {
      NoStamp(status, s1.outcomes);
      ServeOrThrowAllKeepsInv(s1, s.waiting, Failure(status, None), now);
    } else if Valid(a) {
      RenewKeepsInv(s1, a.token, a.lifetime, now);
      RenewedNow(s1, a.token, a.lifetime, now);
      ServeAllKeepsInv(Renew(s1, a.token, a.lifetime, now), |s.waiting|, now);
    } else {
      RenewalFailedKeepsInv(s1, s.waiting, status, now);
    }
  }

  lemma StopKeepsInv(s: State, now: real)
    requires Inv(s) && s.clock <= now && s.renewing
    ensures var s1 := s.(clock := now, renewing := false, waiting := [], ended := s.ended + 1); Inv(s1) && Inv(s1.(renewing := true, begun := s1.begun + 1))
  {
    hide ServedOk, RefusalsOk, DiagnosticsOk, Spaced, Anchored, TokensOk;
  }

  lemma NoStamp(status: Option<nat>, outcomes: seq<Outcome>)
    ensures StampOk(Failure(status, None), outcomes)
  {}

  lemma RenewedNow(s: State, token: string, lifetime: real, now: real)
    ensures var c := Renew(s, token, lifetime, now).credential; c.Some? && c.value.received == now
  {}

  lemma MidFacts(s1: State, s2: State, refusal: bool, status: Option<nat>)
    requires s2 == if refusal then Refuse(s1) else s1.(refused := 0, outcomes := s1.outcomes + [Failed])
    requires Mid(s2, s1.outcomes + [if refusal then Refused else Failed])
    ensures Mid(s2, s2.outcomes) && s2.clock == s1.clock
    ensures StampOk(Failure(status, if refusal then Some(s2.refused) else None), s2.outcomes)
  {
    hide ServedOk, TrailingRefusals, DiagnosticsOk, Spaced, Anchored, TokensOk;
  }

  lemma FailKeepsOutcomes(s: State, failure: Failure, now: real)
    ensures Fail(s, failure, now).outcomes == s.outcomes
  {}

  lemma StepKeepsInv(s: State, step: Step, now: real)
    requires Inv(s) && Enabled(s, step, now)
    ensures Inv(Next(s, step, now))
  {
    match step
    case DoGet(rejected, strict) => GetKeepsInv(s, rejected, strict, now); hide Inv, Get;
    case DoSettle(a) => SettleKeepsInv(s, a, now); hide Inv, Settle;
    case DoClose => KillKeepsInv(s); hide Kill, ServedOk, RefusalsOk, DiagnosticsOk, Spaced, Anchored, TokensOk;
  }

  lemma {:induction false} RunKeepsInv(s: State, steps: seq<(Step, real)>)
    requires Inv(s) && Legal(s, steps)
    ensures Inv(Run(s, steps))
    decreases |steps|
  {
    if steps != [] {
      hide Inv, Next, Enabled;
      StepKeepsInv(s, steps[0].0, steps[0].1);
      RunKeepsInv(Next(s, steps[0].0, steps[0].1), steps[1..]);
    }
  }

  lemma StartIsInv()
    ensures Inv(Initial)
  {}

  // ---- the main results ---------------------------------------------------------------------------

  /** No token is handed out at or after its lifetime, counted from its receipt, nor
      within 30 s of its end if it lives a minute or more. */
  lemma TokensAreInLifetime(steps: seq<(Step, real)>)
    requires Legal(Initial, steps)
    ensures ServedOk(Run(Initial, steps).served)
  {
    StartIsInv();
    RunKeepsInv(Initial, steps);
    hide Run, InLifetime, Anchored, TokensOk, RefusalsOk, DiagnosticsOk, BackoffOk;
  }

  /** At most one renewal is in flight: none begins before the last has ended. */
  lemma OneRenewalAtATime(steps: seq<(Step, real)>)
    requires Legal(Initial, steps)
    ensures var s := Run(Initial, steps); s.ended <= s.begun <= s.ended + 1 && (s.renewing <==> s.begun > s.ended)
  {
    StartIsInv();
    RunKeepsInv(Initial, steps);
    hide Run, ServedOk, Anchored, TokensOk, RefusalsOk, DiagnosticsOk, BackoffOk;
  }

  /** Diagnostics alternate between error and recovery, the first an error. */
  lemma DiagnosticsAlternate(steps: seq<(Step, real)>)
    requires Legal(Initial, steps)
    ensures Alternate(Run(Initial, steps).diagnostics)
  {
    StartIsInv();
    RunKeepsInv(Initial, steps);
    hide Run, ServedOk, Anchored, TokensOk, RefusalsOk, BackoffOk, Alternate;
  }

  function BackoffSum(n: nat): real { if n == 0 then 0.0 else BackoffSum(n - 1) + Backoff(n - 1) }

  lemma {:induction false} SpacedSpan(failedAt: seq<real>, n: nat)
    requires Spaced(failedAt) && n < |failedAt|
    ensures failedAt[n] >= failedAt[0] + BackoffSum(n)
  {
    if n > 0 { SpacedSpan(failedAt, n - 1); }
    hide Backoff;
  }

  /** Consecutive failures take at least their backoff, 1, 2, 4, 8, 16, 30, 30, … seconds. */
  lemma FailuresAreSpaced(steps: seq<(Step, real)>, n: nat)
    requires Legal(Initial, steps) && n < |Run(Initial, steps).failedAt|
    ensures var at := Run(Initial, steps).failedAt; at[n] >= at[0] + BackoffSum(n)
  {
    StartIsInv();
    RunKeepsInv(Initial, steps);
    SpacedSpan(Run(Initial, steps).failedAt, n);
    hide Run, Spaced, ServedOk, Anchored, TokensOk, RefusalsOk, DiagnosticsOk;
  }

  lemma BackoffTable(n: nat)
    ensures Backoff(n) == if n == 0 then 1000.0 else if n == 1 then 2000.0 else if n == 2 then 4000.0
      else if n == 3 then 8000.0 else if n == 4 then 16000.0 else 30000.0
  {
    assert Doubled(0) == 1.0 && Doubled(1) == 2.0 && Doubled(2) == 4.0 && Doubled(3) == 8.0 && Doubled(4) == 16.0 && Doubled(5) == 32.0;
  }

  /** A token rejected, revoked or closed is never handed out again. */
  lemma DeadStaysDead(s: State, step: Step, now: real)
    requires Inv(s) && Enabled(s, step, now)
    ensures s.served <= Next(s, step, now).served && s.dead <= Next(s, step, now).dead
    ensures forall i :: |s.served| <= i < |Next(s, step, now).served| ==> Next(s, step, now).served[i].token !in s.dead
  {
    match step
    case DoGet(rejected, strict) =>
    case DoSettle(a) =>
      var s1 := s.(clock := now, renewing := false, waiting := [], ended := s.ended + 1);
      SettleServes(s, a, now);
    case DoClose =>
  }

  /** What the waiting callers were given is all one token. */
  predicate Adds(s: State, s': State, token: Option<string>) {
    && s.served <= s'.served && s'.dead == s.dead && s'.credential == s.credential
    && forall i :: |s.served| <= i < |s'.served| ==> Some(s'.served[i].token) == token
  }

  function TokenOf(s: State): Option<string> { if s.credential.Some? then Some(s.credential.value.token) else None }

  lemma {:induction false} ServeAllAdds(s: State, n: nat, now: real)
    requires s.credential.Some?
    ensures Adds(s, ServeAll(s, n, now), TokenOf(s))
  {
    if n > 0 { ServeAllAdds(s, n - 1, now); }
  }

  lemma {:induction false} ServeOrThrowAllAdds(s: State, callers: seq<bool>, failure: Failure, now: real)
    ensures Adds(s, ServeOrThrowAll(s, callers, failure, now), TokenOf(s))
  {
    if callers != [] { ServeOrThrowAllAdds(s, callers[..|callers| - 1], failure, now); }
  }

  lemma SettleServes(s: State, a: Answer, now: real)
    requires Inv(s) && (a.Token? ==> a.token !in s.issued)
    ensures s.served <= Settle(s, a, now).served && s.dead <= Settle(s, a, now).dead
    ensures forall i :: |s.served| <= i < |Settle(s, a, now).served| ==> Settle(s, a, now).served[i].token !in s.dead
  {
    var callers := s.waiting;
    var s1 := s.(clock := now, renewing := false, waiting := [], ended := s.ended + 1);
    hide ServeAll, ServeOrThrowAll, Backoff, ServedOk, RefusalsOk, DiagnosticsOk, BackoffOk, Anchored;
    if s.closed {
      ServeOrThrowAllAdds(s1, callers, Failure(if a.Error? then a.status else None, None), now);
    } else if Valid(a) {
      ServeAllAdds(Renew(s1, a.token, a.lifetime, now), |callers|, now);
    } else {
      var status := if a.Error? then a.status else None;
      var refusal := status.Some? && status.value in REFUSALS;
      var s2 := if refusal then Refuse(s1) else s1.(refused := 0, outcomes := s1.outcomes + [Failed]);
      var failure := Failure(status, if refusal then Some(s2.refused) else None);
      ServeOrThrowAllAdds(Fail(s2, failure, now), callers, failure, now);
    }
  }

  lemma {:induction false} TrailingAre(outcomes: seq<Outcome>, k: nat)
    requires k <= TrailingRefusals(outcomes)
    ensures k <= |outcomes| && forall i :: |outcomes| - k <= i < |outcomes| ==> outcomes[i].Refused?
  {
    if k > 0 {
      TrailingAre(outcomes[..|outcomes| - 1], k - 1);
      assert forall i :: 0 <= i < |outcomes| - 1 ==> outcomes[..|outcomes| - 1][i] == outcomes[i];
    }
  }

  /** The pusher gives up on a thrown refusal only if the identity's last six
      renewals were all refused, however often one refusal was handed out. */
  lemma GivesUpOnlyOnRevocation(steps: seq<(Step, real)>, i: nat)
    requires Legal(Initial, steps) && i < |Run(Initial, steps).thrown|
    requires var f := Run(Initial, steps).thrown[i].failure;
      f.refusals.Some? && EventDelivery.Permanent(EventDelivery.Thrown(f.status, f.refusals.value))
    ensures var outcomes := Run(Initial, steps).thrown[i].outcomes;
      |outcomes| >= 6 && forall j :: |outcomes| - 6 <= j < |outcomes| ==> outcomes[j].Refused?
  {
    StartIsInv();
    RunKeepsInv(Initial, steps);
    var t := Run(Initial, steps).thrown[i];
    assert StampOk(t.failure, t.outcomes);
    TrailingAre(t.outcomes, 6);
    hide Run, Inv;
  }

  // ---- the margin ---------------------------------------------------------------------------------

  /** A token asked for at the start and received at `received`, and a caller at `at`. */
  function HandedOut(token: string, lifetime: real, received: real, at: real): seq<(Step, real)> {
    [(DoGet(false, false), 0.0), (DoSettle(Token(token, lifetime)), received), (DoGet(false, false), at)]
  }

  /** Before half its lifetime is over a credential is handed out as it is, and is
      usable then exactly if its end is still further than the margin. */
  lemma HandedOutAsItIs(token: string, lifetime: real, received: real, at: real)
    requires Valid(Token(token, lifetime)) && 0.0 <= received <= at < received + lifetime / 2.0
    ensures Legal(Initial, HandedOut(token, lifetime, received, at))
    ensures var s := Run(Initial, HandedOut(token, lifetime, received, at));
      && s.served == [Served(token, received, received, lifetime), Served(token, at, received, lifetime)]
      && (Usable(s, at) <==> at < received + lifetime - EXPIRY_MARGIN_MS)
  {
    var steps := HandedOut(token, lifetime, received, at);
    var s1 := Next(Initial, steps[0].0, 0.0);
    var s2 := Next(s1, steps[1].0, received);
    var r := Renew(s1.(clock := received, renewing := false, waiting := [], ended := s1.ended + 1), token, lifetime, received);
    assert s1.waiting == [false] && s2 == ServeAll(r, 1, received);
    assert ServeAll(r, 0, received) == r && s2 == Serve(r, received);
    assert s2.served == [Served(token, received, received, lifetime)];
    var s3 := Next(s2, steps[2].0, at);
    assert s3 == Serve(s2.(clock := at), at);
    assert steps[1..][1..] == steps[2..] && steps[2..][1..] == [];
    assert Legal(s3, []) && Run(s3, []) == s3;
    assert Legal(s2, steps[2..]) && Run(s2, steps[2..]) == s3;
    assert Legal(s1, steps[1..]) && Run(s1, steps[1..]) == s3;
  }

  /** The margin is missed: some caller is handed the token when it is not usable. */
  ghost predicate MarginMissed(token: string, lifetime: real, received: real) {
    exists at ::
      && received <= at < received + lifetime / 2.0
      && Legal(Initial, HandedOut(token, lifetime, received, at))
      && !Usable(Run(Initial, HandedOut(token, lifetime, received, at)), at)
  }

  /** Of the credentials accepted, exactly those that live less than a minute miss it;
      and each of them from 30 s before its end until half its lifetime is over. */
  lemma ShortLifetimeMissesTheMargin(token: string, lifetime: real, received: real)
    requires Valid(Token(token, lifetime)) && received >= 0.0
    ensures MarginMissed(token, lifetime, received) <==> lifetime < 2.0 * EXPIRY_MARGIN_MS
    ensures forall at :: received + lifetime - EXPIRY_MARGIN_MS <= at < received + lifetime / 2.0 ==>
      && Legal(Initial, HandedOut(token, lifetime, received, at))
      && !Usable(Run(Initial, HandedOut(token, lifetime, received, at)), at)
  {
    forall at | received <= at < received + lifetime / 2.0
      ensures Legal(Initial, HandedOut(token, lifetime, received, at))
      ensures Usable(Run(Initial, HandedOut(token, lifetime, received, at)), at) <==> at < received + lifetime - EXPIRY_MARGIN_MS
    {
      HandedOutAsItIs(token, lifetime, received, at);
    }
    hide Legal, Run, Usable, HandedOut;
    if lifetime < 2.0 * EXPIRY_MARGIN_MS {
      var at := received + lifetime - EXPIRY_MARGIN_MS;
      HandedOutAsItIs(token, lifetime, received, at);
      assert Legal(Initial, HandedOut(token, lifetime, received, at));
      assert !Usable(Run(Initial, HandedOut(token, lifetime, received, at)), at);
    }
  }
}
