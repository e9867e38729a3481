/** The backoff computations, in the 64-bit arithmetic they are written in. Durations are nanoseconds. */
module Backoff {

  const TWO_63: int := 0x8000_0000_0000_0000
  const TWO_62: int := 0x4000_0000_0000_0000
  const TWO_64: int := 0x1_0000_0000_0000_0000
  const MINUTE: int := 60_000_000_000
  const TWO_SECONDS: int := 2_000_000_000

  predicate IsInt64(x: int) { -TWO_63 <= x < TWO_63 }

  /** The value of an int64 expression whose mathematical value is `x`. */
  function Wrap64(x: int): (r: int)
    ensures IsInt64(r)
    ensures IsInt64(x) ==> r == x
  {
    (x + TWO_63) % TWO_64 - TWO_63
  }

  function Pow2(n: nat): (r: nat)
    ensures r >= 1
  {
    if n == 0 then 1 else 2 * Pow2(n - 1)
  }

  function Min(a: int, b: int): int { if a <= b then a else b }

  lemma {:induction false} Pow2Monotone(m: nat, n: nat)
    requires m <= n
    ensures Pow2(m) <= Pow2(n)
    decreases n - m
  {
    if m < n {
      Pow2Monotone(m + 1, n);
    }
  }

  lemma ScaledMonotone(d: nat, a: nat, b: nat)
    requires a <= b
    ensures d * a <= d * b
  {
  }

  lemma DoubleFirst(b: int, steps: nat)
    requires steps >= 1
    ensures b * Pow2(steps) == (2 * b) * Pow2(steps - 1)
  {
  }

  // ----- the outbox dispatcher's retryBackoff

  /** `steps` rounds of the doubling loop, starting from `b`. */
  function Doubled(b: int, steps: nat): int
    decreases steps
  {
    if steps == 0 then b else
    var twice := Wrap64(b * 2);
    if twice >= MINUTE then MINUTE else Doubled(twice, steps - 1)
  }

  function RetryBackoff(retryDelay: int, attemptCount: int): int {
    if attemptCount <= 1 then retryDelay else Doubled(retryDelay, attemptCount - 1)
  }

  /** The loop of the source computes `RetryBackoff`. */
  method ComputeRetryBackoff(retryDelay: int, attemptCount: int) returns (backoff: int)
    ensures backoff == RetryBackoff(retryDelay, attemptCount)
  {
    if attemptCount <= 1 {
      return retryDelay;
    }
    backoff := retryDelay;
    var step := 1;
    while step < attemptCount
      invariant 1 <= step <= attemptCount
      invariant Doubled(backoff, attemptCount - step) == RetryBackoff(retryDelay, attemptCount)
    {
      backoff := Wrap64(backoff * 2);
      if backoff >= MINUTE {
        return MINUTE;
      }
      step := step + 1;
    }
  }

  lemma {:induction false} DoubledIsExact(b: int, steps: nat)
    requires 0 < b < TWO_62 && steps >= 1
    ensures Doubled(b, steps) == Min(b * Pow2(steps), MINUTE)
    decreases steps
  {
    DoubleFirst(b, steps);
    if 2 * b >= MINUTE {
      ScaledMonotone(2 * b, 1, Pow2(steps - 1));
    } else if steps > 1 {
      DoubledIsExact(2 * b, steps - 1);
    }
  }

  /**
   From the second attempt on the backoff is `min(d * 2^(n-1), one minute)` with no overflow, for every `n`,
   exactly when the configured delay is below 2^62 ns.
   */
  lemma RetryBackoffExact(d: int)
    requires 0 < d < TWO_63
    ensures (forall n | n >= 2 :: RetryBackoff(d, n) == Min(d * Pow2(n - 1), 60_000_000_000))
            <==> d < 0x4000_0000_0000_0000
  {
    if d < TWO_62 {
      forall n | n >= 2 ensures RetryBackoff(d, n) == Min(d * Pow2(n - 1), MINUTE) {
        DoubledIsExact(d, n - 1);
      }
    } else {
      assert Wrap64(d * 2) == d * 2 - TWO_64;
      assert Doubled(d, 1) == Doubled(d * 2 - TWO_64, 0);
      assert RetryBackoff(d, 2) < 0;
      assert Pow2(1) == 2;
    }
  }

  lemma RetryBackoffGrows(d: int, n: int)
    requires 0 < d <= MINUTE
    ensures RetryBackoff(d, n) <= RetryBackoff(d, n + 1)
  {
    if n >= 1 {
      DoubledIsExact(d, n);
      if n >= 2 {
        DoubledIsExact(d, n - 1);
        ScaledMonotone(d, Pow2(n - 1), Pow2(n));
      }
    }
  }

  /** The first retry waits the configured delay, however long; later ones never more than a minute. */
  lemma FirstRetryWaitsDelay(d: int, n: int)
    requires 0 < d < TWO_62
    ensures n <= 1 ==> RetryBackoff(d, n) == d
    ensures n >= 2 ==> 0 < RetryBackoff(d, n) <= 60_000_000_000
  {
    if n >= 2 {
      DoubledIsExact(d, n - 1);
      ScaledMonotone(d, 1, Pow2(n - 1));
    }
  }

  /** Later attempts never wait less, exactly when the configured delay is at most a minute. */
  lemma RetryBackoffMonotone(d: int)
    requires 0 < d < TWO_62
    ensures (forall n: int :: RetryBackoff(d, n) <= RetryBackoff(d, n + 1)) <==> d <= MINUTE
  {
    if d <= MINUTE {
      forall n: int ensures RetryBackoff(d, n) <= RetryBackoff(d, n + 1) {
        RetryBackoffGrows(d, n);
      }
    } else {
      DoubledIsExact(d, 1);
      var one := 1;
      assert !(RetryBackoff(d, one) <= RetryBackoff(d, one + 1));
    }
  }

  // ----- the webhook service's backoffForAttempt

  /** `1 << k` on an int64. */
  function ShiftOne(k: nat): int {
    if k >= 64 then 0 else Wrap64(Pow2(k))
  }

  function BackoffForAttempt(initialBackoff: int, attempt: int): int {
    if attempt <= 1 then initialBackoff else Wrap64(initialBackoff * ShiftOne(attempt - 1))
  }

  lemma Pow63()
    ensures Pow2(62) == TWO_62 && Pow2(63) == TWO_63
  {
    assert Pow2(8) == 256;
    assert Pow2(16) == 65536;
    assert Pow2(24) == 0x100_0000;
    assert Pow2(32) == 0x1_0000_0000;
    assert Pow2(40) == 0x100_0000_0000;
    assert Pow2(48) == 0x1_0000_0000_0000;
    assert Pow2(56) == 0x100_0000_0000_0000;
  }

  /** The shift and the product are the mathematical ones exactly when the product fits. */
  lemma BackoffForAttemptExact(initialBackoff: int, attempt: int)
    requires 0 < initialBackoff < TWO_63 && attempt >= 1
    ensures BackoffForAttempt(initialBackoff, attempt) == initialBackoff * Pow2(attempt - 1)
            <==> initialBackoff * Pow2(attempt - 1) < TWO_63
  {
    Pow63();
    if attempt >= 2 {
      ScaledMonotone(Pow2(attempt - 1), 1, initialBackoff);
      if attempt - 1 >= 63 {
        Pow2Monotone(63, attempt - 1);
      }
      if initialBackoff * Pow2(attempt - 1) < TWO_63 {
        assert Wrap64(Pow2(attempt - 1)) == Pow2(attempt - 1);
      }
    }
  }

  /** Every attempt that can be retried gets its exact backoff precisely when the last of them does. */
  lemma EveryRetryExact(initialBackoff: int, maxAttempts: int)
    requires 0 < initialBackoff < TWO_63 && maxAttempts >= 2
    ensures (forall attempt | 1 <= attempt < maxAttempts ::
               BackoffForAttempt(initialBackoff, attempt) == initialBackoff * Pow2(attempt - 1))
            <==> initialBackoff * Pow2(maxAttempts - 2) < TWO_63
  {
    BackoffForAttemptExact(initialBackoff, maxAttempts - 1);
    if initialBackoff * Pow2(maxAttempts - 2) < TWO_63 {
      forall attempt | 1 <= attempt < maxAttempts
        ensures BackoffForAttempt(initialBackoff, attempt) == initialBackoff * Pow2(attempt - 1)
      {
        Pow2Monotone(attempt - 1, maxAttempts - 2);
        ScaledMonotone(initialBackoff, Pow2(attempt - 1), Pow2(maxAttempts - 2));
        BackoffForAttemptExact(initialBackoff, attempt);
      }
    }
  }

  /** With the default two seconds, retries are exact for up to 34 attempts and no more. */
  lemma DefaultBackoffAllows34(maxAttempts: int)
    requires maxAttempts >= 2
    ensures (forall attempt | 1 <= attempt < maxAttempts ::
               BackoffForAttempt(TWO_SECONDS, attempt) == TWO_SECONDS * Pow2(attempt - 1))
            <==> maxAttempts <= 34
  {
    EveryRetryExact(TWO_SECONDS, maxAttempts);
    assert Pow2(8) == 256;
    assert Pow2(16) == 65536;
    assert Pow2(24) == 0x100_0000;
    assert Pow2(32) == 0x1_0000_0000;
    assert Pow2(33) == 0x2_0000_0000;
    if maxAttempts <= 34 {
      Pow2Monotone(maxAttempts - 2, 32);
    } else {
      Pow2Monotone(33, maxAttempts - 2);
    }
  }
}
