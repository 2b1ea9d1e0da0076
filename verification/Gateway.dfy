/** The gateway's retry loop: how often a provider is called, how long a caller is held, and what comes back. */
module Gateway {
  import opened Rows

  datatype LLMError =
    | RateLimited(retryAfter: Option<real>)
    | TimedOut
    | ProviderError(status: Option<int>)
    | Permanent(code: string)          // configuration, authentication, a response that does not fit

  /** Whether the same request could plausibly succeed: every 4xx but 408 and 429 says it cannot. */
  predicate IsRetryable(e: LLMError) {
    match e
    case RateLimited(_) => true
    case TimedOut => true
    case ProviderError(Some(status)) => 400 <= status < 500 ==> status == 408 || status == 429
    case ProviderError(None) => true
    case Permanent(_) => false
  }

  datatype RetryPolicy = RetryPolicy(maxRetries: int, baseDelay: real, maxDelay: real)

  function MaxAttempts(p: RetryPolicy): int {
    p.maxRetries + 1
  }

  function PowerOfTwo(n: nat): (power: real)
    ensures power >= 1.0
  {
    if n == 0 then 1.0 else 2.0 * PowerOfTwo(n - 1)
  }

  function BackoffCeiling(p: RetryPolicy, attempt: nat): real
    requires attempt >= 1
  {
    var doubled := p.baseDelay * PowerOfTwo(attempt - 1);
    if doubled <= p.maxDelay then doubled else p.maxDelay
  }

  datatype Reply<T> = Ok(value: T) | Err(error: LLMError)

  /** The provider, by attempt, and the randomness: what `uniform(0, ceiling)` draws after each attempt. */
  datatype World<T> = World(reply: nat -> Reply<T>, jitter: (nat, real) -> real)

  /** The hint of a rate limit, if this error carries one. */
  function Hint(e: LLMError): Option<real> {
    if e.RateLimited? then e.retryAfter else None
  }

  /** `_delay_before_retry`: how long to wait, or `None` to give up. */
  function DelayBeforeRetry<T>(p: RetryPolicy, w: World<T>, attempt: nat, e: LLMError): Option<real>
    requires attempt >= 1
  {
    if attempt >= MaxAttempts(p) || !IsRetryable(e) then None
    else
      match Hint(e)
      case Some(hint) => if hint > p.maxDelay then None else Some(if hint > 0.0 then hint else 0.0)
      case None => Some(w.jitter(attempt, BackoffCeiling(p, attempt)))
  }

  /** Attempt `i + 1` failed, and was followed by a wait. */
  predicate WaitedAfter<T>(p: RetryPolicy, w: World<T>, i: nat, waited: real) {
    w.reply(i + 1).Err? && DelayBeforeRetry(p, w, i + 1, w.reply(i + 1).error) == Some(waited)
  }

  predicate Retried<T>(p: RetryPolicy, w: World<T>, slept: seq<real>) {
    forall i | 0 <= i < |slept| :: WaitedAfter(p, w, i, slept[i])
  }

  /** A failure that suggests no wait of its own. */
  predicate HintFree<T>(w: World<T>, i: nat) {
    w.reply(i + 1).Err? ==> Hint(w.reply(i + 1).error).None?
  }

  datatype Outcome<T> = Returned(value: T) | Raised(error: LLMError) | AssertionFailed

  /**
   The loop, for any policy. One more call than there were waits; the value of the first attempt
   that succeeded, or the error of the one that was not followed by another; and the assertion at
   the end is reached exactly under a policy that allows no attempt at all.
   */
  method Attempt<T>(p: RetryPolicy, w: World<T>) returns (outcome: Outcome<T>, calls: nat, slept: seq<real>)
    ensures outcome.AssertionFailed? <==> p.maxRetries < 0
    ensures Retried(p, w, slept)
    ensures calls == |slept| + if outcome.AssertionFailed? then 0 else 1
    ensures p.maxRetries >= 0 ==>
              && 1 <= calls <= p.maxRetries + 1
              && match w.reply(calls)
                 case Ok(value) => outcome == Returned(value)
                 case Err(error) => outcome == Raised(error) && DelayBeforeRetry(p, w, calls, error).None?
    ensures p.maxRetries < 0 ==> calls == 0
  {
    slept, calls := [], 0;
    var attempt := 1;
    while attempt < MaxAttempts(p) + 1
      invariant attempt == |slept| + 1 && calls == |slept|
      invariant slept != [] || p.maxRetries >= 0 ==> attempt <= MaxAttempts(p)
      invariant Retried(p, w, slept)
      decreases MaxAttempts(p) + 1 - attempt
    {
      calls := calls + 1;
      match w.reply(attempt)
      case Ok(value) => return Returned(value), calls, slept;
      case Err(error) =>
        var delay := DelayBeforeRetry(p, w, attempt, error);
        if delay.None? { return Raised(error), calls, slept; }
        slept := slept + [delay.value];
      attempt := attempt + 1;
    }
    outcome := AssertionFailed;
  }

  /**
   Giving up happens for these reasons and no other: the retries are used up; the error says it would
   be the same again, as every 4xx but 408 and 429 does; or the provider asks for more than the cap.
   */
  lemma GivesUpExactlyWhen<T>(p: RetryPolicy, w: World<T>, attempt: nat, e: LLMError)
    requires attempt >= 1
    ensures DelayBeforeRetry(p, w, attempt, e).None? <==>
              || attempt > p.maxRetries
              || e.Permanent?
              || (e.ProviderError? && e.status.Some? && 400 <= e.status.value <= 499 && e.status.value != 408 && e.status.value != 429)
              || (e.RateLimited? && e.retryAfter.Some? && e.retryAfter.value > p.maxDelay)
  {
  }

  /** What a rate limit asks for is what is waited, if it is any time at all; otherwise what was drawn. */
  lemma WaitsAsAsked<T>(p: RetryPolicy, w: World<T>, attempt: nat, e: LLMError)
    requires attempt >= 1 && DelayBeforeRetry(p, w, attempt, e).Some?
    ensures var waited := DelayBeforeRetry(p, w, attempt, e).value;
            if e.RateLimited? && e.retryAfter.Some? then
              waited >= 0.0 && (e.retryAfter.value >= 0.0 ==> waited == e.retryAfter.value) && (e.retryAfter.value < 0.0 ==> waited == 0.0)
            else waited == w.jitter(attempt, BackoffCeiling(p, attempt))
  {
  }

  /** What may be drawn starts at the base and doubles with every attempt, up to the cap. */
  lemma CeilingsDouble(p: RetryPolicy, attempt: nat)
    requires p.baseDelay >= 0.0 && p.maxDelay >= 0.0 && attempt >= 1
    ensures BackoffCeiling(p, 1) == if p.baseDelay < p.maxDelay then p.baseDelay else p.maxDelay
    ensures var next := 2.0 * BackoffCeiling(p, attempt);
            BackoffCeiling(p, attempt + 1) == if next < p.maxDelay then next else p.maxDelay
  {
    var power := PowerOfTwo(attempt - 1);
    assert PowerOfTwo(attempt) == 2.0 * power;
    assert p.baseDelay * (2.0 * power) == 2.0 * (p.baseDelay * power);
    assert p.baseDelay * power >= 0.0;
    assert PowerOfTwo(0) == 1.0 && p.baseDelay * 1.0 == p.baseDelay;
  }

  // -- How long a caller is held -------------------------------------------------------------------

  predicate Sane(p: RetryPolicy) {
    p.baseDelay >= 0.0 && p.maxDelay >= 0.0
  }

  /** The draw stays between zero and the ceiling it was given. */
  ghost predicate Uniform<T(!new)>(w: World<T>) {
    forall n: nat, ceiling: real | ceiling >= 0.0 :: 0.0 <= w.jitter(n, ceiling) <= ceiling
  }

  lemma CeilingsAreBounded(p: RetryPolicy, attempt: nat)
    requires Sane(p) && attempt >= 1
    ensures 0.0 <= BackoffCeiling(p, attempt) <= p.maxDelay
    ensures BackoffCeiling(p, attempt) <= p.baseDelay * PowerOfTwo(attempt - 1)
  {
    assert p.baseDelay * PowerOfTwo(attempt - 1) >= 0.0;
  }

  /** No single wait is negative, or longer than the deployment allows, hint or no hint. */
  lemma WaitIsBounded<T(!new)>(p: RetryPolicy, w: World<T>, i: nat, waited: real)
    requires Sane(p) && Uniform(w) && WaitedAfter(p, w, i, waited)
    ensures 0.0 <= waited <= p.maxDelay
    ensures i + 1 <= p.maxRetries && !w.reply(i + 1).error.Permanent?
    ensures HintFree(w, i) ==> waited <= p.baseDelay * PowerOfTwo(i)
  {
    CeilingsAreBounded(p, i + 1);
    assert 0.0 <= w.jitter(i + 1, BackoffCeiling(p, i + 1)) <= BackoffCeiling(p, i + 1);
  }

  function Total(slept: seq<real>): real {
    if slept == [] then 0.0 else Total(slept[..|slept| - 1]) + slept[|slept| - 1]
  }

  function Times(n: nat, delay: real): real {
    n as real * delay
  }

  lemma TimesOneMore(n: nat, delay: real)
    ensures Times(n + 1, delay) == Times(n, delay) + delay
  {
    assert (n + 1) as real == n as real + 1.0;
  }

  lemma {:induction false} TimesGrow(m: nat, n: nat, delay: real)
    requires m <= n && delay >= 0.0
    ensures Times(m, delay) <= Times(n, delay)
  {
    if m < n {
      TimesGrow(m, n - 1, delay);
      TimesOneMore(n - 1, delay);
    }
  }

  /** All the waits together: never more than the cap each time. */
  lemma {:induction false} TotalIsCapped<T(!new)>(p: RetryPolicy, w: World<T>, slept: seq<real>)
    requires Sane(p) && Uniform(w) && Retried(p, w, slept)
    ensures 0.0 <= Total(slept) <= Times(|slept|, p.maxDelay)
  {
    if slept != [] {
      hide Times, Uniform, WaitedAfter;
      var n := |slept| - 1;
      assert Retried(p, w, slept[..n]);
      TotalIsCapped(p, w, slept[..n]);
      WaitIsBounded(p, w, n, slept[n]);
      TimesOneMore(n, p.maxDelay);
    }
  }

  /** What the doubling adds up to: base, twice base, four times base, ... */
  function Doublings(p: RetryPolicy, n: nat): real {
    p.baseDelay * (PowerOfTwo(n) - 1.0)
  }

  lemma DoublingsOneMore(p: RetryPolicy, n: nat)
    ensures Doublings(p, n + 1) == Doublings(p, n) + p.baseDelay * PowerOfTwo(n)
  {
    var power := PowerOfTwo(n);
    assert PowerOfTwo(n + 1) == 2.0 * power;
    assert p.baseDelay * (2.0 * power - 1.0) == p.baseDelay * (power - 1.0) + p.baseDelay * power;
  }

  /** ... and, when no provider hints at a wait of its own, never more than the doubling adds up to. */
  lemma {:induction false} HintFreeTotalIsBounded<T(!new)>(p: RetryPolicy, w: World<T>, slept: seq<real>)
    requires Sane(p) && Uniform(w) && Retried(p, w, slept)
    requires forall i | 0 <= i < |slept| :: HintFree(w, i)
    ensures Total(slept) <= Doublings(p, |slept|)
  {
    if slept == [] {
      assert PowerOfTwo(0) - 1.0 == 0.0;
    } else {
      hide Uniform, WaitedAfter, HintFree, Doublings, Sane;
      var n := |slept| - 1;
      assert Retried(p, w, slept[..n]);
      HintFreeTotalIsBounded(p, w, slept[..n]);
      WaitIsBounded(p, w, n, slept[n]);
      DoublingsOneMore(p, n);
    }
  }

  lemma {:induction false} DoublingsGrow(p: RetryPolicy, m: nat, n: nat)
    requires Sane(p) && m <= n
    ensures Doublings(p, m) <= Doublings(p, n)
  {
    if m < n {
      DoublingsGrow(p, m, n - 1);
      DoublingsOneMore(p, n - 1);
      assert p.baseDelay * PowerOfTwo(n - 1) >= 0.0;
    }
  }

  lemma WaitsFitThePolicy<T(!new)>(p: RetryPolicy, w: World<T>, slept: seq<real>)
    requires Sane(p) && Uniform(w) && Retried(p, w, slept)
    ensures slept != [] ==> |slept| <= p.maxRetries
  {
    if slept != [] { WaitIsBounded(p, w, |slept| - 1, slept[|slept| - 1]); }
  }

  /** How long a caller can be held, whatever the provider does: a cap per retry, or what the doubling adds up to. */
  lemma CallersAreHeldBriefly<T(!new)>(p: RetryPolicy, w: World<T>, slept: seq<real>)
    requires Sane(p) && Uniform(w) && Retried(p, w, slept) && p.maxRetries >= 0
    ensures 0.0 <= Total(slept) <= Times(p.maxRetries, p.maxDelay)
    ensures (forall i | 0 <= i < |slept| :: HintFree(w, i)) ==> Total(slept) <= Doublings(p, p.maxRetries)
  {
    hide Times, Doublings, Uniform;
    WaitsFitThePolicy(p, w, slept);
    TotalIsCapped(p, w, slept);
    TimesGrow(|slept|, p.maxRetries, p.maxDelay);
    DoublingsGrow(p, |slept|, p.maxRetries);
    if forall i | 0 <= i < |slept| :: HintFree(w, i) {
      HintFreeTotalIsBounded(p, w, slept);
    }
  }
}
