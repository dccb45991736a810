/** Deterministic bounded exponential backoff. */
module Backoff {
  import opened Wrappers

  const DEFAULT_BASE: real := 2.0
  const DEFAULT_CAP: real := 300.0
  const MAX_EXPONENT := 16

  /** `base * 2**exponent`. */
  function Doubled(base: real, exponent: nat): real {
    if exponent == 0 then base else 2.0 * Doubled(base, exponent - 1)
  }

  function Min(a: real, b: real): real {
    if a <= b then a else b
  }

  function Exponent(attemptCount: int): nat
    requires attemptCount >= 1
  {
    if attemptCount - 1 <= MAX_EXPONENT then attemptCount - 1 else MAX_EXPONENT
  }

  function Delay(attemptCount: int, base: real, cap: real): real
    requires attemptCount >= 1
  {
    Min(Doubled(base, Exponent(attemptCount)), cap)
  }

  /** `backoff_delay_seconds`; attempts are counted from one. */
  function BackoffDelaySeconds(attemptCount: int, base: real, cap: real): Result<real, string> {
    if attemptCount < 1 then Err("attempt_count must be >= 1") else Ok(Delay(attemptCount, base, cap))
  }

  lemma {:induction false} DoubledGrows(base: real, i: nat, j: nat)
    requires base > 0.0 && i <= j
    ensures 0.0 < Doubled(base, i) <= Doubled(base, j)
    decreases j
  {
    if i < j {
      DoubledGrows(base, i, j - 1);
    } else if i > 0 {
      DoubledGrows(base, i - 1, i - 1);
    }
  }

  /** For a positive base the delay never falls as attempts go on, and never exceeds the cap. */
  lemma DelayIsMonotoneAndCapped(a: int, b: int, base: real, cap: real)
    requires 1 <= a <= b && base > 0.0
    ensures Delay(a, base, cap) <= Delay(b, base, cap) <= cap
  {
    DoubledGrows(base, Exponent(a), Exponent(b));
  }

  /**
   Up to attempt 17 each delay is twice the one before until the cap cuts it off; from attempt 17 on it
   stays put. So a small base saturates at `base * 2**16`, which may be below the cap.
   */
  lemma DelayDoublesUntilItSaturates(a: int, base: real, cap: real)
    requires a >= 1 && base > 0.0 && cap > 0.0
    ensures a <= MAX_EXPONENT ==> Delay(a + 1, base, cap) == Min(2.0 * Delay(a, base, cap), cap)
    ensures a > MAX_EXPONENT ==> Delay(a + 1, base, cap) == Delay(a, base, cap)
    ensures a > MAX_EXPONENT ==> Delay(a, base, cap) == Min(Doubled(base, MAX_EXPONENT), cap)
  {
    if a <= MAX_EXPONENT {
      assert Doubled(base, a) == 2.0 * Doubled(base, a - 1);
      DoubledGrows(base, a - 1, a);
    }
  }

  /** The delays of a worker, in seconds: 2, 4, 8, ... 256 after attempts 1 to 8, and five minutes from then on. */
  function DefaultDelay(attempt: int): real {
    match attempt
    case 1 => 2.0
    case 2 => 4.0
    case 3 => 8.0
    case 4 => 16.0
    case 5 => 32.0
    case 6 => 64.0
    case 7 => 128.0
    case 8 => 256.0
    case _ => 300.0
  }

  lemma DefaultDelays(attempt: int)
    requires attempt >= 1
    ensures Delay(attempt, DEFAULT_BASE, DEFAULT_CAP) == DefaultDelay(attempt)
  {
    assert Doubled(2.0, 3) == 16.0 && Doubled(2.0, 6) == 128.0 && Doubled(2.0, 8) == 512.0;
    if attempt > 8 {
      DoubledGrows(2.0, 8, Exponent(attempt));
    }
  }

  /** The cap is reached by some attempt exactly when seventeen doublings-worth of base reach it. */
  lemma CapIsReachedIff(base: real, cap: real)
    requires base > 0.0
    ensures (exists a: int :: a >= 1 && Delay(a, base, cap) == cap) <==> Doubled(base, MAX_EXPONENT) >= cap
  {
    if Doubled(base, MAX_EXPONENT) >= cap {
      assert Delay(MAX_EXPONENT + 1, base, cap) == cap;
    }
    forall a: int | a >= 1 && Delay(a, base, cap) == cap
      ensures Doubled(base, MAX_EXPONENT) >= cap
    {
      DoubledGrows(base, Exponent(a), MAX_EXPONENT);
    }
  }
}
