/**
 What a caller of a renewable identity gets, spelled out by statuses, lifetimes
 and times: each step of any state, so of every run.
 */
module IdentityRules {
  import opened Wrappers
  import opened Identity

  predicate IsRefusal(status: nat) { status == 400 || status == 401 || status == 403 || status == 404 || status == 410 }

  /** A token is accepted with a lifetime over 30 s and of an hour at most. */
  predicate IsAccepted(a: Answer) { a.Token? && 30000.0 < a.lifetime && a.lifetime <= 3600000.0 }

  /** The credential is fresh: nobody asked to look again, and half its lifetime is ahead. */
  predicate IsFresh(s: State, rejected: bool, strict: bool, now: real) {
    !strict && !rejected && s.credential.Some? && now < s.credential.value.renewAt
  }

  /** What a caller gets without waiting: a fresh credential's token at once; else a
      place behind the one renewal, begun if none runs and it is not put off; and
      while it is put off the token so long as it is usable, to a caller that is
      not strict and did not reject it, or else the last error. */
  lemma GetGives(s: State, rejected: bool, strict: bool, now: real)
    requires !s.closed
    ensures var s' := Get(s, rejected, strict, now);
      if IsFresh(s, rejected, strict, now) then
        s'.served == s.served + [TokenNow(s, now)] && s'.waiting == s.waiting && s'.thrown == s.thrown && s'.begun == s.begun
      else if s.renewing || now >= s.retryAt then
        && s'.renewing && s'.waiting == s.waiting + [strict] && s'.served == s.served && s'.thrown == s.thrown
        && s'.begun == s.begun + if s.renewing then 0 else 1
      else if !strict && !rejected && s.credential.Some? && now < s.credential.value.expiresAt then
        s'.served == s.served + [TokenNow(s, now)] && s'.thrown == s.thrown && s'.begun == s.begun
      else
        && s'.served == s.served && s'.begun == s.begun
        && s'.thrown == s.thrown + [Thrown(s.lastError.GetOr(Failure(None, None)), s.outcomes)]
    ensures var s' := Get(s, rejected, strict, now);
      if rejected then s'.credential.None? && (s.credential.Some? ==> s.credential.value.token in s'.dead)
      else s'.credential == s.credential
  {}

  function TokenNow(s: State, now: real): Served
    requires s.credential.Some?
  {
    Served(s.credential.value.token, now, s.credential.value.received, s.credential.value.lifetime)
  }

  lemma {:induction false} ServedAll(s: State, n: nat, now: real)
    requires s.credential.Some?
    ensures var s' := ServeAll(s, n, now);
      && s' == s.(served := s'.served) && |s'.served| == |s.served| + n && s.served <= s'.served
      && forall i :: |s.served| <= i < |s'.served| ==> s'.served[i] == TokenNow(s, now)
  {
    if n > 0 { ServedAll(s, n - 1, now); }
  }

  /** A renewal that brought an accepted token: every caller that waited, strict or not,
      gets that token and no other, and the failures are over. */
  lemma RenewalServesTheNewToken(s: State, a: Answer, now: real)
    requires !s.closed && IsAccepted(a)
    ensures var s' := Settle(s, a, now);
      && s'.outcomes == s.outcomes + [Renewed] && s'.thrown == s.thrown && s'.waiting == [] && !s'.renewing
      && s'.failures == 0 && s'.refused == 0 && s'.lastError.None?
      && s'.credential.Some? && s'.credential.value.token == a.token
      && s'.credential.value.renewAt == now + a.lifetime / 2.0
      && s'.credential.value.expiresAt == now + a.lifetime - 30000.0
      && |s'.served| == |s.served| + |s.waiting| && s.served <= s'.served
      && forall i :: |s.served| <= i < |s'.served| ==> s'.served[i] == Served(a.token, now, now, a.lifetime)
  {
    ServedAll(Renew(s.(clock := now, renewing := false, waiting := [], ended := s.ended + 1), a.token, a.lifetime, now),
              |s.waiting|, now);
    hide ServeAll;
  }

  function CountNot(callers: seq<bool>): nat {
    if callers == [] then 0 else CountNot(callers[..|callers| - 1]) + if callers[|callers| - 1] then 0 else 1
  }

  lemma {:induction false} ThrownAll(s: State, callers: seq<bool>, failure: Failure, now: real)
    ensures var s' := ServeOrThrowAll(s, callers, failure, now);
      var kind := !s.closed && s.credential.Some? && now < s.credential.value.expiresAt;
      && s' == s.(served := s'.served, thrown := s'.thrown) && s.served <= s'.served
      && |s'.served| == |s.served| + (if kind then CountNot(callers) else 0)
      && |s'.thrown| == |s.thrown| + |callers| - (if kind then CountNot(callers) else 0)
      && (forall i :: |s.served| <= i < |s'.served| ==> s.credential.Some? && s'.served[i] == TokenNow(s, now))
      && CountNot(callers) <= |callers|
  {
    if callers != [] { ThrownAll(s, callers[..|callers| - 1], failure, now); }
  }

  /** A renewal refused with 400, 401, 403, 404 or 410 revokes the token at once, and
      every caller that waited gets the error. Any other failure, a token with no
      acceptable lifetime among them, leaves the old token: while it is usable the
      callers that are not strict get it, the strict ones always the error. */
  lemma FailedRenewalGives(s: State, a: Answer, now: real)
    requires !s.closed && !IsAccepted(a)
    ensures var s' := Settle(s, a, now);
      var refused := a.Error? && a.status.Some? && IsRefusal(a.status.value);
      var given := if refused || s.credential.None? || now >= s.credential.value.expiresAt then 0 else CountNot(s.waiting);
      && s'.outcomes == s.outcomes + [if refused then Refused else Failed] && s'.waiting == [] && !s'.renewing
      && s'.refused == (if refused then s.refused + 1 else 0) && s'.failures == s.failures + 1
      && s'.credential == (if refused then None else s.credential)
      && (refused && s.credential.Some? ==> s.credential.value.token in s'.dead)
      && |s'.served| == |s.served| + given && |s'.thrown| == |s.thrown| + |s.waiting| - given
      && s'.lastError.Some? && s'.retryAt > now
  {
    var status := if a.Error? then a.status else None;
    var refusal := status.Some? && status.value in REFUSALS;
    var s1 := s.(clock := now, renewing := false, waiting := [], ended := s.ended + 1);
    var s2 := if refusal then Refuse(s1) else s1.(refused := 0, outcomes := s1.outcomes + [Failed]);
    var failure := Failure(status, if refusal then Some(s2.refused) else None);
    ThrownAll(Fail(s2, failure, now), s.waiting, failure, now);
    Positive(s.failures);
    hide ServeOrThrowAll, Backoff;
  }

  lemma Positive(failures: nat)
    ensures Backoff(failures) > 0.0
  {
    DoubledPositive(if failures < 5 then failures else 5);
  }

  lemma {:induction false} DoubledPositive(n: nat)
    ensures Doubled(n) > 0.0
  {
    if n > 0 { DoubledPositive(n - 1); }
  }

  // ---- after a close ---------------------------------------------------------------------------

  /** Closed, with no token kept: nobody was served since `s0`, and no renewal began. */
  predicate StaysClosed(s0: State, s: State) {
    s.closed && s.credential.None? && s.served == s0.served && s.begun == s0.begun
  }

  lemma ClosedStays(s0: State, s: State, step: Step, now: real)
    requires StaysClosed(s0, s)
    ensures StaysClosed(s0, Next(s, step, now))
  {
    if step.DoSettle? {
      var s1 := s.(clock := now, renewing := false, waiting := [], ended := s.ended + 1);
      ThrownAll(s1, s.waiting, Failure(if step.answer.Error? then step.answer.status else None, None), now);
      hide ServeOrThrowAll;
    }
  }

  lemma {:induction false} ClosedForGood(s0: State, s: State, steps: seq<(Step, real)>)
    requires StaysClosed(s0, s) && Legal(s, steps)
    ensures StaysClosed(s0, Run(s, steps))
    decreases |steps|
  {
    if steps != [] {
      ClosedStays(s0, s, steps[0].0, steps[0].1);
      hide StaysClosed, Next, Enabled;
      ClosedForGood(s0, Next(s, steps[0].0, steps[0].1), steps[1..]);
    }
  }

  /** A renewal that settles after the close brings every caller that waited an error. */
  lemma ClosedRenewalThrows(s: State, a: Answer, now: real)
    requires s.closed
    ensures var s' := Settle(s, a, now);
      && s'.waiting == [] && !s'.renewing && s'.credential == s.credential
      && s'.served == s.served && |s'.thrown| == |s.thrown| + |s.waiting|
  {
    var s1 := s.(clock := now, renewing := false, waiting := [], ended := s.ended + 1);
    ThrownAll(s1, s.waiting, Failure(if a.Error? then a.status else None, None), now);
    hide ServeOrThrowAll;
  }

  /** Once closed an identity keeps no token, serves nobody, those included who wait for
      a renewal under way, and begins no renewal, however the run goes on. */
  lemma ClosedServesNobody(s: State, now: real, steps: seq<(Step, real)>)
    requires Legal(Next(s, DoClose, now), steps)
    ensures var s' := Run(Next(s, DoClose, now), steps);
      s'.closed && s'.credential.None? && s'.served == s.served && s'.begun == s.begun
    ensures s.credential.Some? ==> s.credential.value.token in Next(s, DoClose, now).dead
  {
    ClosedForGood(s, Next(s, DoClose, now), steps);
    hide Run, Legal;
  }
}
