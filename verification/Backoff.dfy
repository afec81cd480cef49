/** The retry delay computed by `queue_retry` (src/hive/shared.rs). */
module Backoff {
  import opened Words
  import opened Wrappers

  /** `u64::checked_pow` with base 2. */
  function CheckedPow2(exponent: nat): Option<nat> {
    if Pow2(exponent) <= U64_MAX then Some(Pow2(exponent)) else None
  }

  function CheckedMul(a: nat, b: nat): Option<nat> {
    if a * b <= U64_MAX then Some(a * b) else None
  }

  /** The delay in nanoseconds before attempt number `attempt`; `None` is the panic of the final
      `unwrap`. */
  function Delay(factor: Option<nat>, attempt: nat): Option<nat>
    requires attempt >= 1
  {
    match factor
    case None => Some(0)
    case Some(f) =>
      match CheckedPow2(attempt - 1)
      case None => None
      case Some(multiplier) =>
        match CheckedMul(f, multiplier)
        case Some(nanos) => Some(nanos)
        case None => Some(U64_MAX)
  }

  lemma PowFitsIff(exponent: nat)
    ensures Pow2(exponent) <= U64_MAX <==> exponent <= 63
  {
    Pow2Of64();
    if exponent <= 63 {
      Pow2Monotone(exponent, 63);
    } else {
      Pow2Monotone(64, exponent);
    }
  }

  /** The delay is missing (the worker panics) exactly when a factor is configured and the attempt
      number exceeds 64; otherwise it is the exponential delay capped at the largest u64. */
  lemma DelayIsCappedExponential(factor: Option<nat>, attempt: nat)
    requires attempt >= 1
    ensures Delay(factor, attempt).None? <==> factor.Some? && attempt > 64
    ensures factor.Some? && attempt <= 64 ==>
              var exact := factor.value * Pow2(attempt - 1);
              Delay(factor, attempt) == Some(if exact < U64_MAX then exact else U64_MAX)
    ensures factor.None? ==> Delay(factor, attempt) == Some(0)
  {
    PowFitsIff(attempt - 1);
  }

  lemma MulMonotone(f: nat, a: nat, b: nat)
    requires a <= b
    ensures f * a <= f * b
  {
    assert f * (b - a) >= 0;
  }

  /** Waiting never gets shorter with more attempts. */
  lemma DelayIsMonotone(factor: Option<nat>, attempt: nat, later: nat)
    requires 1 <= attempt <= later
    requires Delay(factor, later).Some?
    ensures Delay(factor, attempt).Some?
    ensures Delay(factor, attempt).value <= Delay(factor, later).value
  {
    DelayIsCappedExponential(factor, attempt);
    DelayIsCappedExponential(factor, later);
    if factor.Some? {
      Pow2Monotone(attempt - 1, later - 1);
      MulMonotone(factor.value, Pow2(attempt - 1), Pow2(later - 1));
    }
  }
}
