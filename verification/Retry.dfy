/** Retrying a step: the attempt loop and the 64-bit backoff arithmetic. */
module Retry {
  import opened Common

  datatype Policy = Policy(maxAttempts: int, backoff: string, initialDelay: int, maxDelay: int, onExhausted: string)

  const SECOND := 1_000_000_000
  const TWO63 := 0x8000_0000_0000_0000
  const TWO64 := 0x1_0000_0000_0000_0000

  predicate IsInt64(x: int) {
    -TWO63 <= x < TWO63
  }

  /** `defaultErrorPolicyForStep`. */
  function Defaulted(stepType: string, p: Policy): Policy {
    Policy(
      if p.maxAttempts > 0 then p.maxAttempts
      else if stepType == "integration" || stepType == "agent" then 3
      else 1,
      if p.backoff == "" then "none" else p.backoff,
      if p.initialDelay <= 0 then 5 * SECOND else p.initialDelay,
      if p.maxDelay <= 0 then 60 * SECOND else p.maxDelay,
      if p.onExhausted == "" then "fail" else p.onExhausted)
  }

  // ---- Backoff --------------------------------------------------------------------------------------------

  function Pow2(n: nat): nat {
    if n == 0 then 1 else 2 * Pow2(n - 1)
  }

  /** Two's complement wrap-around to 64 bits. */
  function Wrap(x: int): int {
    (x + TWO63) % TWO64 - TWO63
  }

  /** Go's `<<` on int64: the bits shifted out are lost, whatever the count. */
  function ShiftLeft(x: int, n: nat): int {
    Wrap(x * Pow2(n))
  }

  /** `calculateBackoff`; Go panics on a negative shift, so retry counts start at one. */
  function Backoff(policy: Policy, retryCount: int): int
    requires retryCount >= 1
  {
    var p := Defaulted("", policy);
    var delay :=
      if p.backoff == "none" then 0
      else if p.backoff == "linear" then Wrap(retryCount * p.initialDelay)
      else if p.backoff == "exponential" then ShiftLeft(p.initialDelay, retryCount - 1)
      else p.initialDelay;
    if delay > p.maxDelay then p.maxDelay
    else if delay < 0 then p.initialDelay
    else delay
  }

  /** The first delay a policy asks for: five seconds unless it says otherwise. */
  function FirstDelay(policy: Policy): int {
    if policy.initialDelay > 0 then policy.initialDelay else 5_000_000_000
  }

  /** The longest delay a policy asks for: a minute unless it says otherwise. */
  function LongestDelay(policy: Policy): int {
    if policy.maxDelay > 0 then policy.maxDelay else 60_000_000_000
  }

  /** For every policy and retry count, overflow included, the delay is between zero and the larger delay. */
  lemma {:induction false} BackoffIsBounded(policy: Policy, retryCount: int)
    requires retryCount >= 1
    ensures 0 <= Backoff(policy, retryCount) <= Max(FirstDelay(policy), LongestDelay(policy))
  {
  }

  lemma WrapIsIdentity(x: int)
    requires IsInt64(x)
    ensures Wrap(x) == x
  {
  }

  /** The other policies: no wait, a linear wait while the product fits, and a constant wait for an unknown name. */
  lemma {:induction false} OtherBackoffs(policy: Policy, retryCount: int)
    requires retryCount >= 1
    requires IsInt64(policy.initialDelay) && IsInt64(policy.maxDelay)
    ensures policy.backoff in ["", "none"] ==> Backoff(policy, retryCount) == 0
    ensures policy.backoff == "linear" && retryCount * FirstDelay(policy) < TWO63 ==>
              Backoff(policy, retryCount) == Min(LongestDelay(policy), retryCount * FirstDelay(policy))
    ensures policy.backoff !in ["", "none", "linear", "exponential"] ==>
              Backoff(policy, retryCount) == Min(LongestDelay(policy), FirstDelay(policy))
  {
    if policy.backoff == "linear" && retryCount * FirstDelay(policy) < TWO63 {
      LinearBackoff(policy, retryCount);
    }
  }

  lemma {:induction false} LinearBackoff(policy: Policy, retryCount: int)
    requires retryCount >= 1 && policy.backoff == "linear" && retryCount * FirstDelay(policy) < TWO63
    ensures Backoff(policy, retryCount) == Min(LongestDelay(policy), retryCount * FirstDelay(policy))
  {
    var product := retryCount * FirstDelay(policy);
    assert product > 0;
    WrapIsIdentity(product);
    assert Wrap(retryCount * Defaulted("", policy).initialDelay) == product;
  }

  lemma {:induction false} GrowsByDoubling(x: int, n: nat)
    requires x > 0
    ensures x * Pow2(n) > 0 && x * Pow2(n + 1) == 2 * (x * Pow2(n))
  {
    if n > 0 {
      GrowsByDoubling(x, n - 1);
    }
    assert x * (2 * Pow2(n)) == 2 * (x * Pow2(n));
  }

  /** What exponential backoff promises before the longest delay cuts it off: the first delay, doubled every time. */
  function Doubled(policy: Policy, retryCount: int): int
    requires retryCount >= 1
  {
    FirstDelay(policy) * Pow2(retryCount - 1)
  }

  /**
   * The exponential delay is the promised one exactly when the product has not overflowed, or when the
   * wrapped value still runs into the maximum (or is negative while both delays agree).
   */
  lemma {:induction false} ExponentialIsIdealExactly(policy: Policy, retryCount: int)
    requires retryCount >= 1 && policy.backoff == "exponential"
    requires IsInt64(policy.initialDelay) && IsInt64(policy.maxDelay)
    ensures var product := Doubled(policy, retryCount);
            Backoff(policy, retryCount) == Min(LongestDelay(policy), product) <==>
              || product < TWO63
              || Wrap(product) >= LongestDelay(policy)
              || (Wrap(product) < 0 && FirstDelay(policy) == LongestDelay(policy))
  {
    var product := Doubled(policy, retryCount);
    GrowsByDoubling(FirstDelay(policy), retryCount - 1);
    if product < TWO63 {
      WrapIsIdentity(product);
    }
  }

  /** Before the product overflows, waiting longer never means waiting less. */
  lemma {:induction false} ExponentialRises(policy: Policy, retryCount: int)
    requires retryCount >= 1 && policy.backoff == "exponential"
    requires IsInt64(policy.initialDelay) && IsInt64(policy.maxDelay)
    requires Doubled(policy, retryCount + 1) < TWO63
    ensures Backoff(policy, retryCount) <= Backoff(policy, retryCount + 1)
  {
    GrowsByDoubling(FirstDelay(policy), retryCount - 1);
    ExponentialIsIdealExactly(policy, retryCount);
    ExponentialIsIdealExactly(policy, retryCount + 1);
  }

  lemma {:induction false} HighPowersAreMultiples(n: nat) returns (k: nat)
    requires n >= 64
    ensures Pow2(n) == TWO64 * k
  {
    if n == 64 {
      assert Pow2(16) == 0x1_0000 by {
        assert Pow2(8) == 0x100;
      }
      DoublePower(16);
      DoublePower(32);
      k := 1;
    } else {
      var half := HighPowersAreMultiples(n - 1);
      k := 2 * half;
    }
  }

  lemma {:induction false} DoublePower(n: nat)
    ensures Pow2(2 * n) == Pow2(n) * Pow2(n)
  {
    if n > 0 {
      DoublePower(n - 1);
      assert Pow2(2 * n) == 2 * Pow2(2 * n - 1) == 4 * Pow2(2 * (n - 1));
      assert Pow2(n) * Pow2(n) == (2 * Pow2(n - 1)) * (2 * Pow2(n - 1)) == 4 * (Pow2(n - 1) * Pow2(n - 1));
    }
  }

  /** From the 65th retry on every bit has been shifted out: an exponential policy no longer waits at all. */
  lemma {:induction false} LateRetriesDoNotWait(policy: Policy, retryCount: int)
    requires policy.backoff == "exponential" && retryCount >= 65
    ensures Backoff(policy, retryCount) == 0
  {
    var x := Defaulted("", policy).initialDelay;
    var k := HighPowersAreMultiples(retryCount - 1);
    assert x * Pow2(retryCount - 1) == TWO64 * (x * k) by {
      assert x * (TWO64 * k) == TWO64 * (x * k);
    }
    WrapMultiple(x * k);
  }

  lemma WrapMultiple(m: int)
    ensures Wrap(TWO64 * m) == 0
  {
    assert (TWO64 * m + TWO63) % TWO64 == TWO63;
  }

  // ---- The attempt loop -----------------------------------------------------------------------------------

  datatype Attempt = Succeeds | AwaitsReview | Errs

  /** What becomes of an exhausted step. */
  datatype Verdict = SkipStep | FailStep | FailThenGoto(target: string)

  datatype End =
    | NoExecutor
    | CompletedWith(attempts: nat)
    | Parked
    | NoLongerActive
    | Exhausted(attempts: nat, verdict: Verdict)

  function OnExhausted(action: string): Verdict {
    if action == "skip" then SkipStep
    else if "goto:" <= action then FailThenGoto(action[5..])
    else FailStep
  }

  /** The attempts a policy grants: three for integrations and agents and one for others, unless it says otherwise. */
  function Attempts(stepType: string, policy: Policy): int {
    if policy.maxAttempts > 0 then policy.maxAttempts
    else if stepType in ["integration", "agent"] then 3
    else 1
  }

  /** The verdict is the one the policy names; without a name, or with an unknown one, the step fails. */
  ghost predicate Befits(policy: Policy, verdict: Verdict) {
    && (verdict == SkipStep <==> policy.onExhausted == "skip")
    && (forall t :: verdict == FailThenGoto(t) <==> policy.onExhausted == "goto:" + t)
  }

  lemma {:induction false} ExhaustionBefits(stepType: string, policy: Policy)
    ensures Befits(policy, OnExhausted(Defaulted(stepType, policy).onExhausted))
  {
    var action := policy.onExhausted;
    if "goto:" <= action {
      assert action == "goto:" + action[5..];
    }
    forall t
      ensures OnExhausted(Defaulted(stepType, policy).onExhausted) == FailThenGoto(t) <==> action == "goto:" + t
    {
      assert ("goto:" + t)[5..] == t && ("goto:" + t)[..5] == "goto:";
    }
  }

  /**
   * `executeWithRetry`: `registered` says whether the step type has an executor, `run` is the executor,
   * `active` whether the row is still active when a failed attempt increments the stored retry count, and
   * `others` the increments other dispatches made meanwhile.
   */
  method ExecuteWithRetry(
    stepType: string, registered: bool, policy: Policy, stored: nat,
    run: nat -> Attempt, active: nat -> bool, others: nat -> nat)
    returns (end: End, calls: nat, retryCount: nat, waits: seq<int>)
    ensures end.NoExecutor? <==> !registered
    ensures !registered ==> calls == 0 && retryCount == stored && waits == []
    ensures registered ==> 1 <= calls <= Max(1, Attempts(stepType, policy) - stored)
    ensures forall k :: 1 <= k < calls ==> run(k).Errs? && active(k)
    ensures registered ==>
              && (end.CompletedWith? <==> run(calls).Succeeds?)
              && (end.Parked? <==> run(calls).AwaitsReview?)
              && (end.NoLongerActive? <==> run(calls).Errs? && !active(calls))
    ensures end.CompletedWith? ==> end.attempts == calls
    ensures end.Exhausted? ==>
              retryCount >= Attempts(stepType, policy) && end.attempts == calls && Befits(policy, end.verdict)
    ensures end.Exhausted? && (forall k :: others(k) == 0) ==> calls == Max(1, Attempts(stepType, policy) - stored)
    ensures registered ==> |waits| == calls - 1
    ensures (forall k :: others(k) == 0) ==>
              forall k :: 0 <= k < |waits| ==> waits[k] == Backoff(policy, stored + k + 1)
  {
    calls, retryCount, waits := 0, stored, [];
    if !registered {
      return NoExecutor, calls, retryCount, waits;
    }
    var p := Defaulted(stepType, policy);
    ExhaustionBefits(stepType, policy);
    var attempt := 0;
    while true
      invariant attempt > 0 ==> retryCount < p.maxAttempts
      invariant retryCount >= stored + attempt
      invariant (forall k :: others(k) == 0) ==> retryCount == stored + attempt
      invariant forall k :: 1 <= k <= attempt ==> run(k).Errs? && active(k)
      invariant |waits| == attempt
      invariant (forall k :: others(k) == 0) ==>
                  forall k :: 0 <= k < attempt ==> waits[k] == Backoff(policy, stored + k + 1)
      decreases p.maxAttempts - retryCount
    {
      attempt := attempt + 1;
      calls := attempt;
      match run(attempt) {
        case AwaitsReview => return Parked, calls, retryCount, waits;
        case Succeeds => return CompletedWith(attempt), calls, retryCount, waits;
        case Errs =>
      }
      if !active(attempt) {
        return NoLongerActive, calls, retryCount, waits;
      }
      retryCount := retryCount + others(attempt) + 1;
      if retryCount < p.maxAttempts {
        waits := waits + [Backoff(p, retryCount)];
        continue;
      }
      return Exhausted(attempt, OnExhausted(p.onExhausted)), calls, retryCount, waits;
    }
  }
}
