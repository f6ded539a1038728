/**
 * The query client's options (src/App.tsx): three retries, a retry delay
 * that doubles from one second and is capped at thirty, and the stale and
 * cache times. Times are in milliseconds.
 */
module AppConfig {
  const Retry := 3
  const StaleTime := 5 * 60 * 1000
  const CacheTime := 10 * 60 * 1000
  const MaxRetryDelay := 30000

  function Pow2(i: nat): (r: nat)
    ensures r >= 1
  {
    if i == 0 then 1 else 2 * Pow2(i - 1)
  }

  /** `retryDelay(attemptIndex)`: `min(1000 * 2 ** attemptIndex, 30000)`. */
  function RetryDelay(attemptIndex: nat): (d: nat)
    ensures 1000 <= d <= MaxRetryDelay
    ensures d == MaxRetryDelay || d == 1000 * Pow2(attemptIndex)
    ensures d <= 1000 * Pow2(attemptIndex)
  {
    var raw := 1000 * Pow2(attemptIndex);
    if raw < MaxRetryDelay then raw else MaxRetryDelay
  }

  lemma {:induction false} Pow2Monotone(i: nat, j: nat)
    requires i <= j
    ensures Pow2(i) <= Pow2(j)
    decreases j
  {
    if i < j {
      Pow2Monotone(i, j - 1);
    }
  }

  /** A later attempt never waits less. */
  lemma RetryDelayMonotone(i: nat, j: nat)
    requires i <= j
    ensures RetryDelay(i) <= RetryDelay(j)
  {
    Pow2Monotone(i, j);
  }

  /** The first five attempts wait 1, 2, 4, 8 and 16 seconds; from the sixth on, the cap of 30 seconds. */
  lemma RetryDelaySchedule(i: nat)
    ensures i < Retry ==> RetryDelay(i) == 1000 * Pow2(i) < MaxRetryDelay
    ensures RetryDelay(0) == 1000 && RetryDelay(1) == 2000 && RetryDelay(2) == 4000
    ensures RetryDelay(3) == 8000 && RetryDelay(4) == 16000
    ensures i >= 5 ==> RetryDelay(i) == MaxRetryDelay
  {
    assert Pow2(4) == 16 && Pow2(5) == 32;
    if i >= 5 {
      Pow2Monotone(5, i);
    }
  }

  /** The time spent waiting before the first `n` retries. */
  function TotalRetryWait(n: nat): nat {
    if n == 0 then 0 else TotalRetryWait(n - 1) + RetryDelay(n - 1)
  }

  /** Below the cap the waits double, so `n` retries wait 2^n − 1 seconds in all. */
  lemma {:induction false} RetryWaitGeometric(n: nat)
    requires n <= 5
    ensures TotalRetryWait(n) == 1000 * (Pow2(n) - 1)
  {
    if n > 0 {
      RetryWaitGeometric(n - 1);
      Pow2Monotone(n - 1, 4);
      assert Pow2(4) == 16;
      assert RetryDelay(n - 1) == 1000 * Pow2(n - 1);
    }
  }

  /**
   * A failing query is tried `Retry` more times, waiting 7 seconds in all,
   * well inside the five minutes its data stay fresh, which are half the
   * ten minutes unused data are kept.
   */
  lemma Durations()
    ensures TotalRetryWait(Retry) == 7000
    ensures TotalRetryWait(Retry) < StaleTime && 2 * StaleTime == CacheTime
  {
    RetryWaitGeometric(Retry);
    assert Pow2(3) == 8;
  }
}
