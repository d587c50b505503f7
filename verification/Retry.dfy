/**
 The backoff policy: exponential in the attempt that just failed, capped, with
 optional full jitter.  Floats are modelled as `real`, and the random draw as any
 value in `[0, delay]`.
 */
module Retry {

  datatype RetryPolicy = RetryPolicy(baseDelay: real, maxDelay: real, jitter: bool) {
    predicate Valid() {
      0.0 <= baseDelay && 0.0 <= maxDelay
    }

    /** The delay before jitter, for the attempt (counted from 1) that failed. */
    function Delay(attempt: int): real {
      Min(baseDelay * Pow2(attempt - 1), maxDelay)
    }

    /** What `next_delay_seconds` may return. */
    predicate MayReturn(attempt: int, delay: real) {
      if jitter then 0.0 <= delay <= Delay(attempt) else delay == Delay(attempt)
    }
  }

  datatype ErrorClass = Transient | Permanent

  /** Queue-agnostic: whether to retry depends only on the scan's own counters. */
  predicate ShouldRetry(attempt: nat, maxAttempts: nat) {
    attempt < maxAttempts
  }

  function Min(a: real, b: real): real {
    if a <= b then a else b
  }

  function Pow2(n: int): (r: real)
    ensures r > 0.0
    decreases if n < 0 then -n else n
  {
    if n == 0 then 1.0
    else if n > 0 then 2.0 * Pow2(n - 1)
    else Pow2(n + 1) / 2.0
  }

  lemma Pow2Doubles(n: int)
    ensures Pow2(n + 1) == 2.0 * Pow2(n)
  {
  }

  lemma ScaledNonNegative(a: real, b: real)
    requires 0.0 <= a && 0.0 <= b
    ensures 0.0 <= a * b
  {
  }

  lemma DelayIsNonNegative(p: RetryPolicy, attempt: int)
    requires p.Valid()
    ensures 0.0 <= p.Delay(attempt) <= p.maxDelay
  {
    ScaledNonNegative(p.baseDelay, Pow2(attempt - 1));
  }

  /**
   Delays begin with the base, never shrink from one attempt to the next, exactly double
   while the double stays under the cap, and always lie in `[0, cap]`, jitter included;
   without jitter the delay is what is returned, with it anything up to the delay.
   */
  lemma DelayGrowsToCap(p: RetryPolicy, attempt: int, drawn: real)
    requires p.Valid() && p.MayReturn(attempt, drawn)
    ensures 0.0 <= p.Delay(attempt) <= p.Delay(attempt + 1) <= p.maxDelay
    ensures p.Delay(attempt + 1) == Min(2.0 * p.Delay(attempt), p.maxDelay)
    ensures p.Delay(1) == if p.baseDelay <= p.maxDelay then p.baseDelay else p.maxDelay
    ensures 0.0 <= drawn <= p.Delay(attempt) <= p.maxDelay && (!p.jitter ==> drawn == p.Delay(attempt))
  {
    Pow2Doubles(attempt - 1);
    ScaledNonNegative(p.baseDelay, Pow2(attempt - 1));
    assert p.baseDelay * Pow2(attempt) == 2.0 * (p.baseDelay * Pow2(attempt - 1));
  }

  /** The sum of the uncapped-then-capped delays of the requeues at attempts 1..k. */
  function TotalDelay(p: RetryPolicy, k: nat): real {
    if k == 0 then 0.0 else TotalDelay(p, k - 1) + p.Delay(k)
  }

  /** The two bounds on the sum of the first `k` delays. */
  function Geometric(p: RetryPolicy, k: nat): real {
    p.baseDelay * (Pow2(k) - 1.0)
  }

  function Linear(p: RetryPolicy, k: nat): real {
    (k as real) * p.maxDelay
  }

  lemma BoundsAtZero(p: RetryPolicy)
    ensures Geometric(p, 0) == 0.0 && Linear(p, 0) == 0.0
  {
    assert Pow2(0) - 1.0 == 0.0;
    assert p.baseDelay * 0.0 == 0.0;
  }

  lemma GeometricStep(base: real, power: real)
    ensures base * (2.0 * power - 1.0) == base * (power - 1.0) + base * power
  {
  }

  /** The geometric bound grows by the uncapped delay, which is no less than the delay. */
  lemma GeometricGrows(p: RetryPolicy, k: nat)
    requires k > 0
    ensures Geometric(p, k - 1) + p.Delay(k) <= Geometric(p, k)
  {
    var power := Pow2(k - 1);
    assert Pow2(k) == 2.0 * power;
    GeometricStep(p.baseDelay, power);
    assert Geometric(p, k) == Geometric(p, k - 1) + p.baseDelay * power;
    assert p.Delay(k) <= p.baseDelay * power;
  }

  lemma LinearStep(k: real, cap: real)
    ensures (k + 1.0) * cap == k * cap + cap
  {
  }

  lemma LinearGrows(p: RetryPolicy, k: nat)
    requires k > 0
    ensures Linear(p, k - 1) + p.maxDelay == Linear(p, k)
  {
    assert k as real == (k - 1) as real + 1.0;
    LinearStep((k - 1) as real, p.maxDelay);
  }

  lemma {:induction false} TotalDelayBound(p: RetryPolicy, k: nat)
    requires p.Valid()
    ensures 0.0 <= TotalDelay(p, k)
    ensures TotalDelay(p, k) <= Geometric(p, k)
    ensures TotalDelay(p, k) <= Linear(p, k)
  {
    if k == 0 {
      BoundsAtZero(p);
    } else {
      TotalDelayBound(p, k - 1);
      DelayIsNonNegative(p, k);
      GeometricGrows(p, k);
      LinearGrows(p, k);
    }
  }
}
