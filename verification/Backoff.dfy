/** The delay before a failed deletion is tried again. */
module Backoff {
  import opened Arithmetic
  import opened Lifecycle

  const RETRY_BASE: Time := 5 * SECOND

  const RETRY_MAX: Time := 5 * 60 * SECOND

  ghost function Doubled(n: nat): (r: nat)
    ensures r >= 1
  {
    if n == 0 then 1 else 2 * Doubled(n - 1)
  }

  /** Five seconds, doubled once per earlier failure, and never more than five minutes. */
  ghost function Delay(failures: nat): Time {
    Min(RETRY_BASE * Doubled(failures), RETRY_MAX)
  }

  lemma {:induction false} DoubledGrows(m: nat, n: nat)
    requires m <= n
    ensures Doubled(m) <= Doubled(n)
  {
    if m < n {
      DoubledGrows(m, n - 1);
    }
  }

  /** A deletion that keeps failing is never tried sooner than before. */
  lemma DelayGrows(m: nat, n: nat)
    requires m <= n
    ensures RETRY_BASE <= Delay(m) <= Delay(n) <= RETRY_MAX
  {
    DoubledGrows(m, n);
    DoubledGrows(0, m);
  }

  /** The loop of `retryDelete`: it stops doubling at the cap. */
  method RetryDelay(retryCount: nat) returns (delay: Time)
    ensures delay == Delay(retryCount)
  {
    delay := RETRY_BASE;
    for k := 0 to retryCount
      invariant delay == RETRY_BASE * Doubled(k) < RETRY_MAX
    {
      delay := delay * 2;
      if delay >= RETRY_MAX {
        DoubledGrows(k + 1, retryCount);
        return RETRY_MAX;
      }
    }
  }
}
