/**
 * The default options of the shared query client: stale window, garbage
 * collection window, one retry, and capped exponential back-off.
 */
module QueryClient {

  /** Default time (ms) a cached query counts as fresh: five minutes. */
  const DefaultStaleTime := 1000 * 60 * 5
  /** Time (ms) an unused cache entry is kept: ten minutes. */
  const GcTime := 1000 * 60 * 10
  /** Number of automatic retries of a failed query. */
  const Retry := 1
  const MaxRetryDelay := 30000

  function Pow2(n: nat): (r: nat)
    ensures r >= 1
  {
    if n == 0 then 1 else 2 * Pow2(n - 1)
  }

  /** `Math.min(1000 * 2 ** attemptIndex, 30000)`. */
  function RetryDelay(attemptIndex: nat): (ms: nat)
    ensures 1000 <= ms <= MaxRetryDelay
  {
    if 1000 * Pow2(attemptIndex) < MaxRetryDelay then 1000 * Pow2(attemptIndex) else MaxRetryDelay
  }

  lemma {:induction false} Pow2Monotone(m: nat, n: nat)
    requires m <= n
    ensures Pow2(m) <= Pow2(n)
  {
    if m < n {
      Pow2Monotone(m, n - 1);
    }
  }

  /** Waiting longer never becomes waiting less: the delay is non-decreasing. */
  lemma RetryDelayMonotone(m: nat, n: nat)
    requires m <= n
    ensures RetryDelay(m) <= RetryDelay(n)
  {
    Pow2Monotone(m, n);
  }

  /** The delay starts at one second and doubles until it reaches the cap. */
  lemma RetryDelayDoubles(n: nat)
    ensures RetryDelay(0) == 1000
    ensures RetryDelay(n + 1) == if 2 * RetryDelay(n) < MaxRetryDelay then 2 * RetryDelay(n) else MaxRetryDelay
  {
    if 1000 * Pow2(n) >= MaxRetryDelay {
      assert 1000 * Pow2(n + 1) >= MaxRetryDelay;
    }
  }

  /** The fifth delay is 16 s; from the sixth on the cap of 30 s applies. */
  lemma {:induction false} RetryDelayCapped(n: nat)
    ensures RetryDelay(4) == 16000
    ensures n >= 5 ==> RetryDelay(n) == MaxRetryDelay
  {
    assert Pow2(4) == 16 && Pow2(5) == 32;
    if n >= 5 {
      Pow2Monotone(5, n);
    }
  }

  /** A failed attempt is retried while fewer than `Retry` failures have been seen. */
  predicate ShouldRetry(failureCount: nat)
  {
    failureCount < Retry
  }

  /** What one query run amounts to: attempts made, time spent waiting, success. */
  datatype Run = Run(attempts: nat, waitedMs: nat, succeeded: bool)

  /**
   * A query run under the default policy, from `failureCount` failures on;
   * `succeeds(k)` says whether the attempt made after `k` failures succeeds.
   */
  function RunQuery(succeeds: nat -> bool, failureCount: nat): (r: Run)
    ensures r.attempts >= 1
    ensures r.succeeded ==> exists k :: failureCount <= k < failureCount + r.attempts && succeeds(k)
    decreases Retry - failureCount
  {
    if succeeds(failureCount) then Run(1, 0, true)
    else if ShouldRetry(failureCount) then
      var rest := RunQuery(succeeds, failureCount + 1);
      Run(rest.attempts + 1, RetryDelay(failureCount) + rest.waitedMs, rest.succeeded)
    else Run(1, 0, false)
  }

  /** A failed query is retried at most once, after one second. */
  lemma RetriedAtMostOnce(succeeds: nat -> bool)
    ensures RunQuery(succeeds, 0).attempts <= 2
    ensures RunQuery(succeeds, 0).succeeded <==> succeeds(0) || succeeds(1)
    ensures RunQuery(succeeds, 0).waitedMs == if succeeds(0) then 0 else 1000
  {
  }
}
