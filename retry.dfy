/**
 * The job client's retry policy (lib/innngest/client.ts): the delay before
 * retry `attempt` is 2^attempt seconds, in milliseconds, with at most five
 * attempts.
 */
module InngestClient {
  function Pow2(n: nat): (r: nat)
    ensures r >= 1
  {
    if n == 0 then 1 else 2 * Pow2(n - 1)
  }

  datatype RetryPolicy = RetryPolicy(delay: nat, maxAttempts: nat)

  const MaxAttempts: nat := 5

  /** `retryFunction(attempt)` */
  function RetryFunction(attempt: nat): (r: RetryPolicy)
    ensures r.maxAttempts == 5
    ensures r.delay >= 1000 && r.delay % 1000 == 0
  {
    RetryPolicy(Pow2(attempt) * 1000, MaxAttempts)
  }

  lemma FirstDelay()
    ensures RetryFunction(0).delay == 1000
  {
  }

  lemma DelayDoubles(attempt: nat)
    ensures RetryFunction(attempt + 1).delay == 2 * RetryFunction(attempt).delay
  {
  }

  /** Later attempts wait strictly longer. */
  lemma {:induction false} DelayIncreasing(a: nat, b: nat)
    requires a < b
    ensures RetryFunction(a).delay < RetryFunction(b).delay
  {
    DelayDoubles(b - 1);
    if a < b - 1 {
      DelayIncreasing(a, b - 1);
    }
  }

  /** The delay is 2^a seconds: it grows by a factor 2^k over k more attempts. */
  lemma {:induction false} DelayScales(a: nat, k: nat)
    ensures RetryFunction(a + k).delay == Pow2(k) * RetryFunction(a).delay
  {
    if k > 0 {
      DelayScales(a, k - 1);
      DelayDoubles(a + k - 1);
    }
  }
}
