/**
 Retrying an operation under a policy (packages/agent-core/src/retry.ts): backoff, vendor
 waits, budget and stops. Milliseconds, jitter and the coin are reals; what each try meets
 (its outcome, the clock, the coin, how the pause after it ends) is an arbitrary function
 of its index.
 */
module Retry {
  import opened Wrappers

  function Max(a: real, b: real): real {
    if a >= b then a else b
  }

  function Min(a: real, b: real): real {
    if a <= b then a else b
  }

  /** Math.round: halves go up. */
  function Round(x: real): int {
    (x + 0.5).Floor
  }

  function Pow2(n: nat): nat {
    if n == 0 then 1 else 2 * Pow2(n - 1)
  }

  // ---------------------------------------------------------------------------
  // Policy
  // ---------------------------------------------------------------------------

  datatype Policy = Policy(
    attempts: real, baseDelayMs: real, maxDelayMs: real, maxWaitMs: real, deadlineMs: real, jitter: real)

  datatype Overrides = Overrides(
    attempts: Option<real>, baseDelayMs: Option<real>, maxDelayMs: Option<real>,
    maxWaitMs: Option<real>, deadlineMs: Option<real>, jitter: Option<real>)

  const DEFAULT_RETRY_POLICY := Policy(3.0, 150.0, 1000.0, 5000.0, 8000.0, 0.5)

  function WithOverrides(o: Overrides): Policy {
    var d := DEFAULT_RETRY_POLICY;
    Policy(
      o.attempts.GetOr(d.attempts), o.baseDelayMs.GetOr(d.baseDelayMs), o.maxDelayMs.GetOr(d.maxDelayMs),
      o.maxWaitMs.GetOr(d.maxWaitMs), o.deadlineMs.GetOr(d.deadlineMs), o.jitter.GetOr(d.jitter))
  }

  predicate Sane(p: Policy) {
    && p.attempts >= 1.0 && p.attempts == p.attempts.Floor as real
    && 0.0 <= p.baseDelayMs <= p.maxDelayMs <= p.maxWaitMs
    && 0.0 <= p.deadlineMs && 0.0 <= p.jitter <= 1.0
  }

  function Clamp(merged: Policy): (p: Policy)
    ensures Sane(p)
    ensures Sane(merged) ==> p == merged
  {
    var baseDelayMs := Max(0.0, merged.baseDelayMs);
    var maxDelayMs := Max(baseDelayMs, Max(0.0, merged.maxDelayMs));
    var maxWaitMs := Max(maxDelayMs, Max(0.0, merged.maxWaitMs));
    Policy(
      Max(1.0, merged.attempts.Floor as real), baseDelayMs, maxDelayMs, maxWaitMs,
      Max(0.0, merged.deadlineMs), Min(1.0, Max(0.0, merged.jitter)))
  }

  // A policy whose fields are any JavaScript numbers.

  datatype Num = Fin(value: real) | PosInf | NegInf | NaN

  datatype RawPolicy = RawPolicy(
    attempts: Num, baseDelayMs: Num, maxDelayMs: Num, maxWaitMs: Num, deadlineMs: Num, jitter: Num)

  /** Math.max. */
  function MaxNum(a: Num, b: Num): Num {
    if a.NaN? || b.NaN? then NaN
    else if a.PosInf? || b.PosInf? then PosInf
    else if a.NegInf? then b
    else if b.NegInf? then a
    else Fin(Max(a.value, b.value))
  }

  function ClampRaw(merged: RawPolicy): RawPolicy {
    var baseDelayMs := MaxNum(Fin(0.0), merged.baseDelayMs);
    var maxDelayMs := MaxNum(baseDelayMs, MaxNum(Fin(0.0), merged.maxDelayMs));
    var maxWaitMs := MaxNum(maxDelayMs, MaxNum(Fin(0.0), merged.maxWaitMs));
    RawPolicy(
      if merged.attempts.Fin? then Fin(Max(1.0, merged.attempts.value.Floor as real)) else Fin(1.0),
      if baseDelayMs.Fin? then baseDelayMs else Fin(0.0),
      if maxDelayMs.Fin? then maxDelayMs else baseDelayMs,
      if maxWaitMs.Fin? then maxWaitMs else maxDelayMs,
      if merged.deadlineMs.Fin? then Fin(Max(0.0, merged.deadlineMs.value)) else Fin(0.0),
      if merged.jitter.Fin? then Fin(Min(1.0, Max(0.0, merged.jitter.value))) else Fin(0.5))
  }

  function AsRaw(p: Policy): RawPolicy {
    RawPolicy(Fin(p.attempts), Fin(p.baseDelayMs), Fin(p.maxDelayMs), Fin(p.maxWaitMs), Fin(p.deadlineMs),
      Fin(p.jitter))
  }

  /** On finite policies the guards do nothing. */
  lemma FiniteClampAgrees(merged: Policy)
    ensures ClampRaw(AsRaw(merged)) == AsRaw(Clamp(merged))
  {
  }

  /**
   A field that is no number falls back: one attempt, no base delay, the delay before it, no budget,
   half jittered.
   */
  lemma OtherNumbersFallBack(merged: RawPolicy)
    ensures var p := ClampRaw(merged);
            && (!merged.attempts.Fin? ==> p.attempts == Fin(1.0))
            && (merged.baseDelayMs in {NaN, PosInf, NegInf} ==> p.baseDelayMs == Fin(0.0))
            && (merged.baseDelayMs.Fin? && merged.maxDelayMs in {NaN, PosInf} ==> p.maxDelayMs == p.baseDelayMs)
            && (HasDelays(merged) && merged.maxWaitMs in {NaN, PosInf} ==> p.maxWaitMs == p.maxDelayMs)
            && (!merged.deadlineMs.Fin? ==> p.deadlineMs == Fin(0.0))
            && (!merged.jitter.Fin? ==> p.jitter == Fin(0.5))
  {
  }

  predicate HasDelays(merged: RawPolicy) {
    merged.baseDelayMs !in {NaN, PosInf} && merged.maxDelayMs !in {NaN, PosInf}
  }

  lemma ClampedPolicy(merged: RawPolicy) returns (p: Policy)
    requires HasDelays(merged)
    ensures Sane(p) && ClampRaw(merged) == AsRaw(p)
  {
    var r := ClampRaw(merged);
    p := Policy(
      r.attempts.value, r.baseDelayMs.value, r.maxDelayMs.value, r.maxWaitMs.value, r.deadlineMs.value, r.jitter.value);
  }

  lemma OthersStayUnusable(merged: RawPolicy, p: Policy)
    requires ClampRaw(merged) == AsRaw(p)
    ensures HasDelays(merged)
  {
    assert ClampRaw(merged).maxDelayMs.Fin? && ClampRaw(merged).maxWaitMs.Fin?;
  }

  /**
   What the guards against other numbers achieve: a usable policy exactly when both delays are not
   NaN and not infinite.
   */
  lemma ClampIsUsableExactly(merged: RawPolicy)
    ensures (exists p :: Sane(p) && ClampRaw(merged) == AsRaw(p)) <==> HasDelays(merged)
  {
    hide Sane, ClampRaw, AsRaw, HasDelays;
    if HasDelays(merged) {
      var p := ClampedPolicy(merged);
    }
    forall p | ClampRaw(merged) == AsRaw(p) ensures HasDelays(merged) {
      OthersStayUnusable(merged, p);
    }
  }

  function RetryPolicy(overrides: Overrides): (p: Policy)
    ensures Sane(p)
  {
    Clamp(WithOverrides(overrides))
  }

  // ---------------------------------------------------------------------------
  // Backoff
  // ---------------------------------------------------------------------------

  function Ceiling(attempt: nat, p: Policy): real {
    Min(p.maxDelayMs, p.baseDelayMs * Pow2(if attempt == 0 then 0 else attempt - 1) as real)
  }

  /** The share of a pause that is not randomized, and the share that is. */
  function Fixed(ceiling: real, jitter: real): real {
    ceiling * (1.0 - jitter)
  }

  function Share(ceiling: real, jitter: real): real {
    ceiling * jitter
  }

  function Spread(ceiling: real, jitter: real, coin: real): real {
    Share(ceiling, jitter) * coin
  }

  function BackoffMs(attempt: nat, p: Policy, coin: real): int {
    var ceiling := Ceiling(attempt, p);
    if ceiling <= 0.0 then 0
    else if p.jitter == 0.0 then Round(ceiling)
    else Round(Fixed(ceiling, p.jitter) + Spread(ceiling, p.jitter, coin))
  }

  lemma Scales(a: real, b: real, c: real)
    requires 0.0 <= c && a <= b
    ensures c * a <= c * b
  {
  }

  lemma SharesAddUp(ceiling: real, jitter: real)
    ensures Fixed(ceiling, jitter) + Share(ceiling, jitter) == ceiling
  {
  }

  lemma PartOf(whole: real, part: real)
    requires 0.0 <= whole && 0.0 <= part <= 1.0
    ensures 0.0 <= whole * part <= whole
  {
    Scales(0.0, part, whole);
    Scales(part, 1.0, whole);
  }

  lemma ShareIsPart(ceiling: real, jitter: real)
    requires 0.0 <= ceiling && 0.0 <= jitter <= 1.0
    ensures 0.0 <= Share(ceiling, jitter) <= ceiling
  {
    PartOf(ceiling, jitter);
  }

  lemma SpreadIsPart(ceiling: real, jitter: real, coin: real)
    requires 0.0 <= Share(ceiling, jitter) && 0.0 <= coin < 1.0
    ensures 0.0 <= Spread(ceiling, jitter, coin) <= Share(ceiling, jitter)
  {
    hide Share;
    var share := Share(ceiling, jitter);
    assert Spread(ceiling, jitter, coin) == share * coin;
    PartOf(share, coin);
  }

  /** Before rounding, a jittered pause lies between its fixed share and the ceiling. */
  lemma JitterStaysUnder(ceiling: real, jitter: real, coin: real)
    requires 0.0 <= ceiling && 0.0 <= jitter <= 1.0 && 0.0 <= coin < 1.0
    ensures 0.0 <= Fixed(ceiling, jitter) <= Fixed(ceiling, jitter) + Spread(ceiling, jitter, coin) <= ceiling
  {
    hide Fixed, Share, Spread;
    ShareIsPart(ceiling, jitter);
    SpreadIsPart(ceiling, jitter, coin);
    SharesAddUp(ceiling, jitter);
  }

  lemma CeilingBounds(attempt: nat, p: Policy)
    requires Sane(p)
    ensures 0.0 <= Ceiling(attempt, p) <= p.maxDelayMs
  {
    Scales(0.0, Pow2(if attempt == 0 then 0 else attempt - 1) as real, p.baseDelayMs);
  }

  lemma RoundIsMonotone(a: real, b: real)
    requires a <= b
    ensures Round(a) <= Round(b)
  {
  }

  lemma RoundOfWhole(n: int)
    ensures Round(n as real) == n
  {
  }

  /** The backoff is at least its fixed share, at most the cap on the desk's own pauses, each rounded. */
  lemma BackoffBounds(attempt: nat, p: Policy, coin: real)
    requires Sane(p) && 0.0 <= coin < 1.0
    ensures Round(Fixed(Ceiling(attempt, p), p.jitter)) <= BackoffMs(attempt, p, coin) <= Round(p.maxDelayMs)
    ensures BackoffMs(attempt, p, coin) >= 0
  {
    hide Ceiling, Round, Fixed, Share, Spread;
    var ceiling, jitter := Ceiling(attempt, p), p.jitter;
    CeilingBounds(attempt, p);
    JitterStaysUnder(ceiling, jitter, coin);
    var fixed, spread := Fixed(ceiling, jitter), Fixed(ceiling, jitter) + Spread(ceiling, jitter, coin);
    RoundOfWhole(0);
    RoundIsMonotone(0.0, fixed);
    RoundIsMonotone(fixed, spread);
    RoundIsMonotone(spread, ceiling);
    RoundIsMonotone(ceiling, p.maxDelayMs);
  }

  /** The first pause is the base delay, within the cap. */
  lemma FirstCeiling(p: Policy)
    requires Sane(p)
    ensures Ceiling(1, p) == p.baseDelayMs
  {
    assert Pow2(0) == 1;
  }

  /** Each further try waits at least as long, before jitter, up to the cap. */
  lemma CeilingGrows(attempt: nat, p: Policy)
    requires Sane(p) && attempt >= 1
    ensures Ceiling(attempt + 1, p) == Min(p.maxDelayMs, 2.0 * Ceiling(attempt, p))
  {
    var growth := Pow2(attempt - 1) as real;
    assert Pow2(attempt) as real == 2.0 * growth;
    assert p.baseDelayMs * (2.0 * growth) == 2.0 * (p.baseDelayMs * growth);
    Scales(0.0, growth, p.baseDelayMs);
  }

  // ---------------------------------------------------------------------------
  // The loop
  // ---------------------------------------------------------------------------

  /** An error: its class name, its message, and the wait it carries when it is an HTTP status that named one. */
  datatype Failure = Failure(name: string, message: string, retryAfterMs: Option<real>)

  predicate IsAbortError(e: Failure) {
    e.name == "AbortError" || e.name == "TimeoutError"
  }

  datatype Attempted<T> = Returned(value: T) | Threw(error: Failure)

  datatype PauseEnd = Slept | Rejected(reason: Failure)

  /** What try number `k` meets, in the order the engine looks. */
  datatype Try<T> = Try(
    stoppedBefore: bool, beganAt: real, outcome: Attempted<T>,
    stoppedAfter: bool, failedAt: real, coin: real, pause: PauseEnd)

  datatype Options = Options(
    overrides: Overrides, abortReason: Failure,
    shouldRetry: (Failure, nat) -> bool, delayFor: Failure -> Option<real>)

  datatype Context = Context(attempt: nat, remainingMs: real)

  datatype Report<T> =
    | Succeeded(value: T, attempts: nat, waitedMs: real)
    | GaveUp(error: Failure, attempts: nat, waitedMs: real, aborted: bool)

  function Remaining(p: Policy, startedAt: real, now: real): real {
    Max(0.0, p.deadlineMs - (now - startedAt))
  }

  /** The vendor's own schedule, when it gave a positive one. */
  function ProviderWait(o: Options, e: Failure): Option<real> {
    var asked := o.delayFor(e);
    if asked.Some? && asked.value > 0.0 then asked else None
  }

  function Delay(o: Options, attempt: nat, e: Failure, coin: real): real {
    Max(BackoffMs(attempt, RetryPolicy(o.overrides), coin) as real, ProviderWait(o, e).GetOr(0.0))
  }

  /** Does the call pause after this failed try? */
  predicate Pauses<T>(o: Options, startedAt: real, t: Try<T>, attempt: nat) {
    var p := RetryPolicy(o.overrides);
    && !t.stoppedBefore && t.outcome.Threw?
    && !IsAbortError(t.outcome.error) && !t.stoppedAfter
    && (attempt as real) < p.attempts && o.shouldRetry(t.outcome.error, attempt)
    && ProviderWait(o, t.outcome.error).GetOr(0.0) <= p.maxWaitMs
    && Remaining(p, startedAt, t.failedAt) > Delay(o, attempt, t.outcome.error, t.coin)
  }

  predicate GoesOn<T>(o: Options, startedAt: real, t: Try<T>, attempt: nat) {
    Pauses(o, startedAt, t, attempt) && t.pause.Slept?
  }

  /** The report of a call that ends at this try, having waited `waitedMs` before it. */
  function Ending<T>(o: Options, startedAt: real, t: Try<T>, attempt: nat, waitedMs: real): Report<T>
    requires attempt >= 1
  {
    if t.stoppedBefore then GaveUp(o.abortReason, attempt - 1, waitedMs, true)
    else if t.outcome.Returned? then Succeeded(t.outcome.value, attempt, waitedMs)
    else if Pauses(o, startedAt, t, attempt) && t.pause.Rejected? then
      GaveUp(
        if IsAbortError(t.pause.reason) then t.outcome.error else t.pause.reason,
        attempt, waitedMs, IsAbortError(t.pause.reason))
    else GaveUp(t.outcome.error, attempt, waitedMs, IsAbortError(t.outcome.error) || t.stoppedAfter)
  }

  function Sum(pauses: seq<real>): real {
    if pauses == [] then 0.0 else Sum(pauses[..|pauses| - 1]) + pauses[|pauses| - 1]
  }

  /** The engine saw a stop around this try. */
  predicate SawStop<T>(t: Try<T>) {
    t.stoppedBefore || t.stoppedAfter || (t.outcome.Threw? && IsAbortError(t.outcome.error)) || t.pause.Rejected?
  }

  /** The pauses of a call whose tries before the `n`th all went on. */
  ghost predicate WentOn<T>(o: Options, startedAt: real, tries: nat -> Try<T>, pauses: seq<real>) {
    forall i :: 0 <= i < |pauses| ==> (
      && GoesOn(o, startedAt, tries(i), i + 1)
      && pauses[i] == Delay(o, i + 1, tries(i).outcome.error, tries(i).coin))
  }

  lemma PausesGrow<T>(o: Options, startedAt: real, tries: nat -> Try<T>, pauses: seq<real>, delay: real)
    requires WentOn(o, startedAt, tries, pauses) && GoesOn(o, startedAt, tries(|pauses|), |pauses| + 1)
    requires delay == Delay(o, |pauses| + 1, tries(|pauses|).outcome.error, tries(|pauses|).coin)
    ensures WentOn(o, startedAt, tries, pauses + [delay])
    ensures Sum(pauses + [delay]) == Sum(pauses) + delay
  {
    hide GoesOn, Delay;
    assert (pauses + [delay])[..|pauses|] == pauses;
  }

  lemma WentOnAt<T>(o: Options, startedAt: real, tries: nat -> Try<T>, pauses: seq<real>, i: nat)
    requires WentOn(o, startedAt, tries, pauses) && i < |pauses|
    ensures GoesOn(o, startedAt, tries(i), i + 1)
    ensures pauses[i] == Delay(o, i + 1, tries(i).outcome.error, tries(i).coin)
  {
    hide GoesOn, Delay;
  }

  lemma WentOnBefore<T>(o: Options, startedAt: real, tries: nat -> Try<T>, pauses: seq<real>, k: nat)
    requires WentOn(o, startedAt, tries, pauses) && k <= |pauses|
    ensures WentOn(o, startedAt, tries, pauses[..k])
  {
    hide GoesOn, Delay;
  }

  lemma NoPauses<T>(o: Options, startedAt: real, tries: nat -> Try<T>)
    ensures WentOn(o, startedAt, tries, []) && Sum([]) == 0.0
  {
  }

  /** The pauses of a call, having made some already. */
  function PausesFrom<T>(o: Options, startedAt: real, tries: nat -> Try<T>, pauses: seq<real>): seq<real>
    decreases RetryPolicy(o.overrides).attempts.Floor - |pauses|
  {
    var t := tries(|pauses|);
    if GoesOn(o, startedAt, t, |pauses| + 1) then
      PausesFrom(o, startedAt, tries, pauses + [Delay(o, |pauses| + 1, t.outcome.error, t.coin)])
    else pauses
  }

  lemma {:induction false} PausesGoOn<T>(o: Options, startedAt: real, tries: nat -> Try<T>, pauses: seq<real>, n: nat)
    requires WentOn(o, startedAt, tries, pauses) && !GoesOn(o, startedAt, tries(|pauses|), |pauses| + 1)
    requires n <= |pauses|
    ensures PausesFrom(o, startedAt, tries, pauses[..n]) == pauses
    decreases |pauses| - n
  {
    hide GoesOn, Delay, WentOn;
    if n == |pauses| {
      assert pauses[..n] == pauses;
    } else {
      WentOnAt(o, startedAt, tries, pauses, n);
      assert pauses[..n + 1] == pauses[..n] + [pauses[n]];
      PausesGoOn(o, startedAt, tries, pauses, n + 1);
    }
  }

  /** A call has one list of pauses: the one that went on and then does not. */
  lemma {:induction false} PausesEnd<T>(o: Options, startedAt: real, tries: nat -> Try<T>, pauses: seq<real>)
    requires WentOn(o, startedAt, tries, pauses)
    ensures var all := PausesFrom(o, startedAt, tries, pauses);
            WentOn(o, startedAt, tries, all) && !GoesOn(o, startedAt, tries(|all|), |all| + 1)
    decreases RetryPolicy(o.overrides).attempts.Floor - |pauses|
  {
    hide Delay, WentOn, GoesOn, RetryPolicy;
    var t := tries(|pauses|);
    if GoesOn(o, startedAt, t, |pauses| + 1) {
      AttemptsAreLimited(o, startedAt, t, |pauses| + 1);
      var delay := Delay(o, |pauses| + 1, t.outcome.error, t.coin);
      PausesGrow(o, startedAt, tries, pauses, delay);
      PausesEnd(o, startedAt, tries, pauses + [delay]);
    }
  }

  lemma AttemptsAreLimited<T>(o: Options, startedAt: real, t: Try<T>, attempt: nat)
    requires GoesOn(o, startedAt, t, attempt)
    ensures attempt < RetryPolicy(o.overrides).attempts.Floor && t.outcome.Threw?
  {
  }

  /**
   The loop over the tries, up to the first that does not go on.
   `calls` is what each operation was handed, `pauses` what the engine slept between them.
   */
  method WithRetry<T>(tries: nat -> Try<T>, o: Options, startedAt: real)
    returns (report: Report<T>, calls: seq<Context>, pauses: seq<real>)
    ensures |calls| == report.attempts
    ensures report.attempts as real <= RetryPolicy(o.overrides).attempts
    ensures forall i :: 0 <= i < |calls| ==>
      calls[i] == Context(i, Remaining(RetryPolicy(o.overrides), startedAt, tries(i).beganAt))
    ensures WentOn(o, startedAt, tries, pauses) && !GoesOn(o, startedAt, tries(|pauses|), |pauses| + 1)
    ensures report == Ending(o, startedAt, tries(|pauses|), |pauses| + 1, Sum(pauses))
  {
    hide BackoffMs, Ceiling, Remaining, Clamp, WithOverrides, RetryPolicy, Round, WentOn, Sum;
    NoPauses(o, startedAt, tries);
    var policy := RetryPolicy(o.overrides);
    var waitedMs := 0.0;
    var attempt: nat := 1;
    calls, pauses := [], [];
    while true
      invariant |calls| == |pauses| == attempt - 1
      invariant attempt as real <= policy.attempts
      invariant waitedMs == Sum(pauses)
      invariant forall i :: 0 <= i < |calls| ==> calls[i] == Context(i, Remaining(policy, startedAt, tries(i).beganAt))
      invariant WentOn(o, startedAt, tries, pauses)
      decreases policy.attempts.Floor - attempt
    {
      var t := tries(attempt - 1);
      if t.stoppedBefore {
        report := GaveUp(o.abortReason, attempt - 1, waitedMs, true);
        return;
      }
      calls := calls + [Context(attempt - 1, Remaining(policy, startedAt, t.beganAt))];
      if t.outcome.Returned? {
        report := Succeeded(t.outcome.value, attempt, waitedMs);
        return;
      }
      var error := t.outcome.error;
      if IsAbortError(error) || t.stoppedAfter {
        report := GaveUp(error, attempt, waitedMs, true);
        return;
      }
      var worthAnotherTry := o.shouldRetry(error, attempt);
      if attempt as real >= policy.attempts || !worthAnotherTry {
        report := GaveUp(error, attempt, waitedMs, false);
        return;
      }
      var remainingMs := Remaining(policy, startedAt, t.failedAt);
      var providerWaitMs := ProviderWait(o, error);
      if providerWaitMs.Some? && providerWaitMs.value > policy.maxWaitMs {
        report := GaveUp(error, attempt, waitedMs, false);
        return;
      }
      var delayMs := Max(BackoffMs(attempt, policy, t.coin) as real, providerWaitMs.GetOr(0.0));
      if remainingMs <= delayMs {
        report := GaveUp(error, attempt, waitedMs, false);
        return;
      }
      if t.pause.Rejected? {
        report := GaveUp(
          if IsAbortError(t.pause.reason) then error else t.pause.reason,
          attempt, waitedMs, IsAbortError(t.pause.reason));
        return;
      }
      PausesGrow(o, startedAt, tries, pauses, delayMs);
      pauses := pauses + [delayMs];
      waitedMs := waitedMs + delayMs;
      attempt := attempt + 1;
    }
  }

  // ---------------------------------------------------------------------------
  // What a call promises
  // ---------------------------------------------------------------------------

  ghost predicate FairCoins<T>(tries: nat -> Try<T>) {
    forall k :: 0.0 <= tries(k).coin < 1.0
  }

  /** The clock never runs backwards, and a pause takes at least as long as it was asked to. */
  ghost predicate ClockKeepsPace<T>(o: Options, startedAt: real, tries: nat -> Try<T>, n: nat) {
    && startedAt <= tries(0).beganAt
    && (forall k: nat :: tries(k).beganAt <= tries(k).failedAt)
    && (forall k: nat :: k < n && tries(k).outcome.Threw? ==>
          tries(k).failedAt + Delay(o, k + 1, tries(k).outcome.error, tries(k).coin) <= tries(k + 1).beganAt)
  }

  lemma StopsDoNotGoOn<T>(o: Options, startedAt: real, t: Try<T>, attempt: nat)
    ensures GoesOn(o, startedAt, t, attempt) ==> !SawStop(t)
  {
  }

  lemma StopsComeFirst<T>(t: Try<T>)
    ensures t.stoppedBefore ==> SawStop(t)
  {
  }

  lemma EndingCounts<T>(o: Options, startedAt: real, t: Try<T>, attempt: nat, waitedMs: real)
    requires attempt >= 1
    ensures Ending(o, startedAt, t, attempt, waitedMs).attempts == if t.stoppedBefore then attempt - 1 else attempt
  {
    hide Pauses;
  }

  /**
   Another try is made exactly when the operation failed without a stop, tries are left, the caller
   wants one, the vendor asks for no more than the longest wait, the pause is shorter than what is left
   of the budget, and nothing ends the pause.
   */
  lemma GoesOnExactly<T>(o: Options, startedAt: real, t: Try<T>, attempt: nat)
    requires 0.0 <= t.coin < 1.0
    ensures var p := RetryPolicy(o.overrides);
            GoesOn(o, startedAt, t, attempt) <==> (
              && !t.stoppedBefore && t.outcome.Threw? && !t.stoppedAfter
              && t.outcome.error.name !in {"AbortError", "TimeoutError"}
              && attempt as real < p.attempts && o.shouldRetry(t.outcome.error, attempt)
              && (forall wait :: o.delayFor(t.outcome.error) == Some(wait) && wait > 0.0 ==> wait <= p.maxWaitMs)
              && Delay(o, attempt, t.outcome.error, t.coin) < p.deadlineMs - (t.failedAt - startedAt)
              && t.pause == Slept)
  {
    if t.outcome.Threw? {
      DelaysExactly(o, attempt, t.outcome.error, t.coin);
      hide Delay, RetryPolicy;
    }
  }

  /** The pause is the longer of the desk's own backoff and the vendor's wait. */
  lemma DelaysExactly(o: Options, attempt: nat, e: Failure, coin: real)
    requires 0.0 <= coin < 1.0
    ensures var p, delay := RetryPolicy(o.overrides), Delay(o, attempt, e, coin);
            && 0.0 <= BackoffMs(attempt, p, coin) as real <= delay
            && (forall wait :: o.delayFor(e) == Some(wait) && wait > 0.0 ==> wait <= delay)
            && (delay == BackoffMs(attempt, p, coin) as real || o.delayFor(e) == Some(delay))
  {
    BackoffBounds(attempt, RetryPolicy(o.overrides), coin);
    hide BackoffMs, RetryPolicy;
  }

  /**
   The backoff: the base delay doubled after every attempt but the first, at most the cap, with its
   share of the coin, rounded.
   */
  lemma BackoffExactly(attempt: nat, p: Policy, coin: real, doublings: real)
    requires Sane(p) && attempt >= 1 && 0.0 <= coin < 1.0 && doublings == Pow2(attempt - 1) as real
    ensures var ceiling := Min(p.maxDelayMs, p.baseDelayMs * doublings);
            BackoffMs(attempt, p, coin) == Round(ceiling * (1.0 - p.jitter) + ceiling * p.jitter * coin)
  {
    var ceiling := Ceiling(attempt, p);
    CeilingBounds(attempt, p);
    assert ceiling == Min(p.maxDelayMs, p.baseDelayMs * doublings);
    hide Ceiling, Round, Pow2, Sane, Min;
    assert Fixed(ceiling, p.jitter) == ceiling * (1.0 - p.jitter);
    SpreadIs(ceiling, p.jitter, coin);
    hide Fixed, Share, Spread;
    if ceiling == 0.0 {
      NothingToJitter(ceiling, p.jitter, coin);
      RoundOfWhole(0);
    } else if p.jitter == 0.0 {
      NotJittered(ceiling, p.jitter, coin);
    }
  }

  lemma SpreadIs(ceiling: real, jitter: real, coin: real)
    ensures Spread(ceiling, jitter, coin) == ceiling * jitter * coin
  {
  }

  lemma NothingToJitter(ceiling: real, jitter: real, coin: real)
    requires ceiling == 0.0
    ensures ceiling * (1.0 - jitter) + ceiling * jitter * coin == 0.0
  {
  }

  lemma NotJittered(ceiling: real, jitter: real, coin: real)
    requires jitter == 0.0
    ensures ceiling * (1.0 - jitter) + ceiling * jitter * coin == ceiling
  {
  }

  /** Three tries, from 150 ms to 1 s apart and at most 5 s for a vendor, within 8 s, half of it jittered. */
  lemma DefaultPolicy()
    ensures RetryPolicy(Overrides(None, None, None, None, None, None))
         == Policy(3.0, 150.0, 1000.0, 5000.0, 8000.0, 0.5)
  {
  }

  /** What the report says about the try it ends at. */
  lemma EndingMeans<T>(o: Options, startedAt: real, t: Try<T>, attempt: nat, waitedMs: real)
    requires attempt >= 1
    ensures var r := Ending(o, startedAt, t, attempt, waitedMs);
            && (r.Succeeded? <==> !t.stoppedBefore && t.outcome.Returned?)
            && (r.Succeeded? ==> r.value == t.outcome.value)
            && (r.GaveUp? && !r.aborted ==> !t.stoppedBefore && t.outcome.Threw? && !t.stoppedAfter)
            && r.waitedMs == waitedMs
            && (r.GaveUp? ==> (r.aborted <==> (
                  || t.stoppedBefore || t.stoppedAfter || t.outcome.error.name in {"AbortError", "TimeoutError"}
                  || (Pauses(o, startedAt, t, attempt) && t.pause.Rejected?
                      && t.pause.reason.name in {"AbortError", "TimeoutError"}))))
            && (r.GaveUp? ==>
                  r.error == if t.stoppedBefore then o.abortReason
                             else if && Pauses(o, startedAt, t, attempt) && t.pause.Rejected?
                                     && t.pause.reason.name !in {"AbortError", "TimeoutError"}
                             then t.pause.reason else t.outcome.error)
  {
    hide Delay, Remaining, ProviderWait;
  }

  /** An operation that runs comes after no stop the engine has seen: before a try, in it, or during a pause. */
  lemma NothingRunsAfterAStop<T>(o: Options, startedAt: real, tries: nat -> Try<T>, pauses: seq<real>, i: nat)
    requires WentOn(o, startedAt, tries, pauses)
    requires i < Ending(o, startedAt, tries(|pauses|), |pauses| + 1, Sum(pauses)).attempts
    ensures i <= |pauses| && !tries(i).stoppedBefore
    ensures forall j: nat :: j < i ==> !SawStop(tries(j))
  {
    hide Sum, Ending, GoesOn, WentOn, SawStop;
    EndingCounts(o, startedAt, tries(|pauses|), |pauses| + 1, Sum(pauses));
    if i < |pauses| {
      WentOnAt(o, startedAt, tries, pauses, i);
      StopsDoNotGoOn(o, startedAt, tries(i), i + 1);
      StopsComeFirst(tries(i));
    }
    forall j: nat | j < |pauses| ensures !SawStop(tries(j)) {
      WentOnAt(o, startedAt, tries, pauses, j);
      StopsDoNotGoOn(o, startedAt, tries(j), j + 1);
    }
  }

  /**
   Every pause is at least what the vendor asked for and at most the longest wait, up to rounding
   the desk's own cap.
   */
  lemma PauseBounds<T>(o: Options, startedAt: real, t: Try<T>, attempt: nat)
    requires GoesOn(o, startedAt, t, attempt) && 0.0 <= t.coin < 1.0
    ensures var p, delay := RetryPolicy(o.overrides), Delay(o, attempt, t.outcome.error, t.coin);
            && 0.0 <= delay && ProviderWait(o, t.outcome.error).GetOr(0.0) <= delay
            && delay <= Max(Round(p.maxDelayMs) as real, p.maxWaitMs)
  {
    BackoffBounds(attempt, RetryPolicy(o.overrides), t.coin);
  }

  /** With whole milliseconds the rounding is invisible: no pause exceeds `maxWaitMs`. */
  lemma WholePausesStayUnderMaxWait<T>(o: Options, startedAt: real, t: Try<T>, attempt: nat)
    requires GoesOn(o, startedAt, t, attempt) && 0.0 <= t.coin < 1.0
    requires var p := RetryPolicy(o.overrides); p.maxDelayMs == p.maxDelayMs.Floor as real
    ensures Delay(o, attempt, t.outcome.error, t.coin) <= RetryPolicy(o.overrides).maxWaitMs
  {
    hide GoesOn, Delay, BackoffMs, Clamp, WithOverrides, RetryPolicy, Round;
    PauseBounds(o, startedAt, t, attempt);
    RoundOfWhole(RetryPolicy(o.overrides).maxDelayMs.Floor);
  }

  /** A pause of the loop exceeds `maxWaitMs` only by the desk's own backoff. */
  lemma OnlyBackoffExceeds<T>(o: Options, startedAt: real, t: Try<T>, attempt: nat)
    requires GoesOn(o, startedAt, t, attempt)
    ensures Delay(o, attempt, t.outcome.error, t.coin) <= RetryPolicy(o.overrides).maxWaitMs
       <==> BackoffMs(attempt, RetryPolicy(o.overrides), t.coin) as real <= RetryPolicy(o.overrides).maxWaitMs
  {
    hide BackoffMs, Clamp, WithOverrides, RetryPolicy, Remaining;
  }

  /** The longest pause the backoff can make after this attempt, whatever the coin. */
  function LongestBackoff(attempt: nat, p: Policy): int {
    var ceiling := Ceiling(attempt, p);
    if ceiling <= 0.0 then 0 else if p.jitter == 0.0 then Round(ceiling) else RoundBelow(ceiling)
  }

  /** What numbers just below x round to: at half a millisecond the ceiling itself is out of reach of the coin. */
  function RoundBelow(x: real): int {
    -(-(x - 0.5)).Floor
  }

  lemma RoundBelowIsClose(x: real)
    ensures RoundBelow(x) as real - 0.5 < x <= RoundBelow(x) as real + 0.5
  {
  }

  lemma ProductIsNegative(a: real, b: real)
    requires a > 0.0 && b < 0.0
    ensures a * b < 0.0
  {
  }

  lemma Quotient(a: real, d: real) returns (q: real)
    requires 0.0 <= a < d
    ensures 0.0 <= q < 1.0 && d * q == a
  {
    q := a / d;
    assert d * q == a;
    if q >= 1.0 {
      Scales(1.0, q, d);
      assert false;
    }
    if q < 0.0 {
      ProductIsNegative(d, q);
      assert false;
    }
  }

  /** Some coin makes that pause. */
  lemma LongestIsReached(attempt: nat, p: Policy) returns (coin: real)
    requires Sane(p)
    ensures 0.0 <= coin < 1.0 && BackoffMs(attempt, p, coin) >= LongestBackoff(attempt, p)
  {
    hide Ceiling;
    var ceiling, jitter := Ceiling(attempt, p), p.jitter;
    coin := 0.0;
    if ceiling > 0.0 && jitter > 0.0 {
      var goal := RoundBelow(ceiling) as real - 0.5;
      RoundBelowIsClose(ceiling);
      var fixed, share := Fixed(ceiling, jitter), Share(ceiling, jitter);
      SharesAddUp(ceiling, jitter);
      hide Fixed, Share;
      if fixed < goal {
        coin := Quotient(goal - fixed, share);
      }
      hide Spread, RoundBelow;
      AtLeastRounds(Fixed(ceiling, jitter) + Spread(ceiling, jitter, coin), RoundBelow(ceiling));
    }
  }

  lemma AtLeastRounds(x: real, n: int)
    requires x >= n as real - 0.5
    ensures Round(x) >= n
  {
  }

  lemma BelowRounds(x: real, n: int)
    requires x < n as real + 0.5
    ensures Round(x) <= n
  {
  }

  /** No coin makes a longer one. */
  lemma LongestIsLongest(attempt: nat, p: Policy, coin: real)
    requires Sane(p) && 0.0 <= coin < 1.0
    ensures BackoffMs(attempt, p, coin) <= LongestBackoff(attempt, p)
  {
    hide Ceiling, Round, RoundBelow, Spread, Share, Fixed;
    var ceiling, jitter := Ceiling(attempt, p), p.jitter;
    if ceiling > 0.0 && jitter > 0.0 {
      StrictlyUnder(ceiling, jitter, coin);
      RoundBelowIsClose(ceiling);
      BelowRounds(Fixed(ceiling, jitter) + Spread(ceiling, jitter, coin), RoundBelow(ceiling));
    }
  }

  lemma ShareShrinks(share: real, coin: real)
    requires share > 0.0 && coin < 1.0
    ensures share * coin < share
  {
    assert share * (1.0 - coin) > 0.0;
  }

  lemma ProductIsPositive(ceiling: real, jitter: real)
    requires 0.0 < ceiling && 0.0 < jitter
    ensures Share(ceiling, jitter) > 0.0
  {
  }

  lemma StrictlyUnder(ceiling: real, jitter: real, coin: real)
    requires 0.0 < ceiling && 0.0 < jitter && coin < 1.0
    ensures Fixed(ceiling, jitter) + Spread(ceiling, jitter, coin) < ceiling
  {
    ProductIsPositive(ceiling, jitter);
    SharesAddUp(ceiling, jitter);
    hide Fixed, Share;
    ShareShrinks(Share(ceiling, jitter), coin);
  }

  /** The desk's own pauses stay within `maxWaitMs`, whatever the coin, exactly when the longest of them does. */
  lemma BackoffFitsExactly(attempt: nat, p: Policy)
    requires Sane(p)
    ensures (forall coin :: 0.0 <= coin < 1.0 ==> BackoffMs(attempt, p, coin) as real <= p.maxWaitMs)
       <==> LongestBackoff(attempt, p) as real <= p.maxWaitMs
  {
    hide BackoffMs, LongestBackoff;
    forall coin | 0.0 <= coin < 1.0 ensures BackoffMs(attempt, p, coin) <= LongestBackoff(attempt, p) {
      LongestIsLongest(attempt, p, coin);
    }
    var coin := LongestIsReached(attempt, p);
    assert BackoffMs(attempt, p, coin) >= LongestBackoff(attempt, p);
  }

  /** Without jitter a pause of the loop is within `maxWaitMs` exactly when the rounded ceiling is. */
  lemma UnjitteredPauseFitsExactly<T>(o: Options, startedAt: real, t: Try<T>, attempt: nat)
    requires GoesOn(o, startedAt, t, attempt) && RetryPolicy(o.overrides).jitter == 0.0
    ensures var p := RetryPolicy(o.overrides);
            Delay(o, attempt, t.outcome.error, t.coin) <= p.maxWaitMs
            <==> Round(Ceiling(attempt, p)) as real <= p.maxWaitMs
  {
    hide Delay, Clamp, WithOverrides, RetryPolicy, Ceiling, Round, Remaining;
    var p := RetryPolicy(o.overrides);
    OnlyBackoffExceeds(o, startedAt, t, attempt);
    CeilingBounds(attempt, p);
    RoundOfWhole(0);
    assert BackoffMs(attempt, p, t.coin) == Round(Ceiling(attempt, p));
  }

  /** Limits of 0.6 ms without jitter: a call goes on after a pause of 1 ms. */
  lemma FractionalCapCanBeExceeded(message: string)
    ensures
      var limits := Overrides(Some(2.0), Some(0.6), Some(0.6), Some(0.6), None, Some(0.0));
      var o := Options(limits, Failure("AbortError", "", None), (e: Failure, n: nat) => true, (e: Failure) => None);
      var t: Try<int> := Try(false, 0.0, Threw(Failure("Error", message, None)), false, 0.0, 0.0, Slept);
      GoesOn(o, 0.0, t, 1) && Delay(o, 1, t.outcome.error, t.coin) == 1.0 && RetryPolicy(limits).maxWaitMs == 0.6
  {
    var p := Policy(2.0, 0.6, 0.6, 0.6, 8000.0, 0.0);
    var limits := Overrides(Some(2.0), Some(0.6), Some(0.6), Some(0.6), None, Some(0.0));
    assert RetryPolicy(limits) == p;
    assert Pow2(0) == 1;
    assert Ceiling(1, p) == 0.6;
    assert BackoffMs(1, p, 0.0) == 1;
  }

  /** A pause is shorter than what was left of the budget when its try failed. */
  lemma PauseFits<T>(o: Options, startedAt: real, t: Try<T>, attempt: nat)
    requires GoesOn(o, startedAt, t, attempt) && 0.0 <= t.coin < 1.0
    ensures var delay := Delay(o, attempt, t.outcome.error, t.coin);
            && t.outcome.Threw? && 0.0 <= delay
            && (t.failedAt - startedAt) + delay < RetryPolicy(o.overrides).deadlineMs
  {
    PauseBounds(o, startedAt, t, attempt);
    hide Delay, RetryPolicy;
  }

  lemma PaceAt<T>(o: Options, startedAt: real, tries: nat -> Try<T>, n: nat, k: nat)
    requires ClockKeepsPace(o, startedAt, tries, n) && k < n
    ensures ClockKeepsPace(o, startedAt, tries, k) && tries(k).beganAt <= tries(k).failedAt
    ensures tries(k).outcome.Threw? ==>
      tries(k).failedAt + Delay(o, k + 1, tries(k).outcome.error, tries(k).coin) <= tries(k + 1).beganAt
  {
    hide Delay;
  }

  lemma PaceAtStart<T>(o: Options, startedAt: real, tries: nat -> Try<T>, n: nat)
    requires ClockKeepsPace(o, startedAt, tries, n)
    ensures startedAt <= tries(0).beganAt
  {
    hide Delay;
  }

  /** All the waiting fits the wall-clock budget, and is behind the clock when the next try begins. */
  lemma {:induction false} WaitingFitsTheBudget<T>(o: Options, startedAt: real, tries: nat -> Try<T>, pauses: seq<real>)
    requires WentOn(o, startedAt, tries, pauses) && FairCoins(tries) && ClockKeepsPace(o, startedAt, tries, |pauses|)
    ensures 0.0 <= Sum(pauses)
    ensures pauses != [] ==> Sum(pauses) < RetryPolicy(o.overrides).deadlineMs
    ensures startedAt + Sum(pauses) <= tries(|pauses|).beganAt
  {
    hide WentOn, GoesOn, Delay, RetryPolicy, ClockKeepsPace;
    if pauses == [] {
      PaceAtStart(o, startedAt, tries, 0);
    } else {
      var k: nat := |pauses| - 1;
      WentOnBefore(o, startedAt, tries, pauses, k);
      WentOnAt(o, startedAt, tries, pauses, k);
      PaceAt(o, startedAt, tries, |pauses|, k);
      WaitingFitsTheBudget(o, startedAt, tries, pauses[..k]);
      PauseFits(o, startedAt, tries(k), k + 1);
    }
  }

  /** When pauses take exactly as long as asked, every retry is handed some of the budget. */
  lemma RetriesHaveTimeLeft<T>(o: Options, startedAt: real, tries: nat -> Try<T>, pauses: seq<real>, i: nat)
    requires WentOn(o, startedAt, tries, pauses) && FairCoins(tries) && i < |pauses|
    requires tries(i + 1).beganAt == tries(i).failedAt + pauses[i]
    ensures Remaining(RetryPolicy(o.overrides), startedAt, tries(i + 1).beganAt) > 0.0
  {
    assert GoesOn(o, startedAt, tries(i), i + 1);
    PauseBounds(o, startedAt, tries(i), i + 1);
  }
}
