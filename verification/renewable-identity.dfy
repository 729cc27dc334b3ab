/**
 `RenewableIdentity` of `agent-base/agentd/credential-broker.mjs` in its own form:
 an object that `get`, a settled renewal and `close` update in place, each tied
 to its step of `Identity`.
 */
module CredentialBroker {
  import opened Wrappers
  import I = Identity

  class RenewableIdentity {
    var credential: Option<I.Credential>
    var renewing: bool
    var retryAt: real
    var failures: nat
    var refused: nat
    var lastError: Option<I.Failure>
    var closed: bool
    /** The callers awaiting the renewal. */
    var waiting: seq<bool>
    /** History: see `Identity.State`. */
    ghost var past: I.State

    ghost function View(): I.State
      reads this
    {
      past.(credential := credential, renewing := renewing, retryAt := retryAt, failures := failures, refused := refused,
            lastError := lastError, closed := closed, waiting := waiting)
    }

    constructor ()
      ensures View() == I.Initial
    {
      credential, renewing, retryAt, failures, refused, lastError, closed, waiting := None, false, 0.0, 0, 0, None,
          false, [];
      past := I.Initial;
    }

    predicate Usable(now: real)
      reads this
    {
      credential.Some? && now < credential.value.expiresAt
    }

    method Kill()
      modifies `credential, `past
      ensures View() == I.Kill(old(View()))
    {
      if credential.Some? { past := past.(dead := past.dead + {credential.value.token}); }
      credential := None;
    }

    method Serve(now: real)
      requires credential.Some?
      modifies `past
      ensures View() == I.Serve(old(View()), now)
    {
      var c := credential.value;
      past := past.(served := past.served + [I.Served(c.token, now, c.received, c.lifetime)]);
    }

    method ServeOrThrow(strict: bool, failure: I.Failure, now: real)
      modifies `past
      ensures View() == I.ServeOrThrow(old(View()), strict, failure, now)
    {
      if !closed && !strict && Usable(now) {
        Serve(now);
      } else {
        past := past.(thrown := past.thrown + [I.Thrown(failure, past.outcomes)]);
      }
    }

    method StartRenewal()
      modifies `renewing, `past
      ensures View() == old(View()).(renewing := true, begun := old(past).begun + 1)
    {
      renewing := true;
      past := past.(begun := past.begun + 1);
    }

    method Get(rejected: bool, strict: bool, now: real)
      modifies this
      ensures View() == I.Get(old(View()), rejected, strict, now)
    {
      hide I.Serve, I.ServeOrThrow;
      past := past.(clock := now);
      if closed { return; }
      if rejected { Kill(); }
      if !strict && !rejected && credential.Some? && now < credential.value.renewAt {
        Serve(now);
        return;
      }
      if !renewing && now >= retryAt { StartRenewal(); }
      if renewing {
        waiting := waiting + [strict];
      } else {
        ServeOrThrow(strict, lastError.GetOr(I.Failure(None, None)), now);
      }
    }

    method Renewed(token: string, lifetime: real, now: real)
      modifies this
      ensures View() == I.Renew(old(View()), token, lifetime, now) && credential.Some?
    {
      credential := Some(I.Credential(token, now + lifetime / 2.0, now + lifetime - I.EXPIRY_MARGIN_MS, now, lifetime));
      past := past.(issued := past.issued + {token}, outcomes := past.outcomes + [I.Renewed], failedAt := [],
                    diagnostics := if lastError.Some? then past.diagnostics + [true] else past.diagnostics);
      retryAt, failures, refused, lastError := 0.0, 0, 0, None;
    }

    method Refused()
      modifies this
      ensures View() == I.Refuse(old(View()))
    {
      Kill();
      refused := refused + 1;
      past := past.(outcomes := past.outcomes + [I.Refused]);
    }

    method Failed(failure: I.Failure, now: real)
      modifies this
      ensures View() == I.Fail(old(View()), failure, now)
    {
      hide I.Backoff;
      past := past.(diagnostics := if lastError.None? then past.diagnostics + [false] else past.diagnostics,
                    failedAt := past.failedAt + [now]);
      lastError := Some(failure);
      retryAt := now + I.Backoff(failures);
      failures := failures + 1;
    }

    /** The reactions of the callers, in the order they came. */
    method Reject(callers: seq<bool>, failure: I.Failure, now: real)
      modifies `past
      ensures View() == I.ServeOrThrowAll(old(View()), callers, failure, now)
    {
      for i := 0 to |callers|
        invariant View() == I.ServeOrThrowAll(old(View()), callers[..i], failure, now)
      {
        hide I.ServeOrThrow;
        assert callers[..i + 1][..i] == callers[..i];
        ServeOrThrow(callers[i], failure, now);
      }
      assert callers[..|callers|] == callers;
    }

    method Resolve(n: nat, now: real)
      requires credential.Some?
      modifies `past
      ensures View() == I.ServeAll(old(View()), n, now)
    {
      for i := 0 to n
        invariant View() == I.ServeAll(old(View()), i, now)
      {
        hide I.Serve;
        Serve(now);
      }
    }

    method RenewalFailed(callers: seq<bool>, status: Option<nat>, now: real)
      modifies this
      ensures View() == I.RenewalFailed(old(View()), callers, status, now)
    {
      hide I.Refuse, I.Fail, I.ServeOrThrowAll;
      var refusal := status.Some? && status.value in I.REFUSALS;
      if refusal {
        Refused();
      } else {
        refused := 0;
        past := past.(outcomes := past.outcomes + [I.Failed]);
      }
      var failure := I.Failure(status, if refusal then Some(refused) else None);
      Failed(failure, now);
      Reject(callers, failure, now);
    }

    method TakeCallers(now: real) returns (callers: seq<bool>)
      modifies this
      ensures callers == old(waiting)
      ensures View() == old(View()).(clock := now, renewing := false, waiting := [], ended := old(past).ended + 1)
    {
      callers := waiting;
      renewing, waiting := false, [];
      past := past.(clock := now, ended := past.ended + 1);
    }

    method Settle(a: I.Answer, now: real)
      modifies this
      ensures View() == I.Settle(old(View()), a, now)
    {
      hide I.ServeOrThrowAll, I.ServeAll, I.Renew, I.RenewalFailed;
      var status := if a.Error? then a.status else None;
      var callers := TakeCallers(now);
      if closed {
        Reject(callers, I.Failure(status, None), now);
      } else if I.Valid(a) {
        Renewed(a.token, a.lifetime, now);
        Resolve(|callers|, now);
      } else {
        RenewalFailed(callers, status, now);
      }
    }

    method Close()
      modifies this
      ensures View() == I.Close(old(View()))
    {
      Kill();
      closed := true;
    }
  }
}
