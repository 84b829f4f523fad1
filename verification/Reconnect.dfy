/**
  The reconnect policy (apps/desktop/src/reconnect.rs): is there another attempt, and after what delay.

  Durations are whole nanoseconds below the range of the platform's duration type; the jitter fraction is
  a real number or not finite at all.
 */
module Reconnect {
  import opened Options

  const U32_MAX: nat := 0xFFFF_FFFF
  const DURATION_MAX: nat := 0x1_0000_0000_0000_0000 * 1_000_000_000 - 1

  type u32 = n: nat | n <= U32_MAX
  type Duration = d: nat | d <= DURATION_MAX

  datatype Backoff = Backoff(base: Duration, cap: Duration, factor: u32)

  /** The policy the program ships with, in nanoseconds: half a second at first, at most half a minute. */
  const DEFAULT_BACKOFF := Backoff(500_000_000, 30_000_000_000, 2)

  datatype Float = Finite(value: real) | NotFinite

  function Min(a: nat, b: nat): nat {
    if a <= b then a else b
  }

  function Pow(base: nat, exponent: nat): nat {
    if exponent == 0 then 1 else base * Pow(base, exponent - 1)
  }

  /** 32-bit multiplication that stays at the top of the range instead of overflowing. */
  function SaturatingMul(a: u32, b: u32): u32 {
    if a * b <= U32_MAX then a * b else U32_MAX
  }

  /** Power by repeated saturating multiplication. */
  function SaturatingPow(base: u32, exponent: u32): u32 {
    if exponent == 0 then 1 else SaturatingMul(base, SaturatingPow(base, exponent - 1))
  }

  function SaturatingScale(d: Duration, m: u32): Duration {
    if d * m <= DURATION_MAX then d * m else DURATION_MAX
  }

  /** The longest delay before the `attempt`-th retry. */
  function Ceiling(b: Backoff, attempt: u32): Duration {
    var steps := if attempt == 0 then 0 else attempt - 1;
    Min(SaturatingScale(b.base, SaturatingPow(b.factor, steps)), b.cap)
  }

  /** The jitter fraction, brought into range: what is not finite counts as zero. */
  function Clamp(rand01: Float): (f: real)
    ensures 0.0 <= f <= 1.0
  {
    match rand01
    case NotFinite => 0.0
    case Finite(v) => if v < 0.0 then 0.0 else if v > 1.0 then 1.0 else v
  }

  function Fraction(whole: real, f: real): (part: real)
    requires 0.0 <= whole && 0.0 <= f <= 1.0
    ensures 0.0 <= part <= whole
  {
    whole * f
  }

  function Delay(b: Backoff, attempt: u32, rand01: Float): real {
    Fraction(Ceiling(b, attempt) as real, Clamp(rand01))
  }

  // ---------------------------------------------------------------- the schedule

  lemma MulMonotone(a: nat, b: nat, c: nat)
    requires a <= b
    ensures a * c <= b * c
  {
  }

  lemma {:induction false} PowPositive(base: nat, exponent: nat)
    requires base >= 1
    ensures Pow(base, exponent) >= 1
  {
    if exponent > 0 {
      PowPositive(base, exponent - 1);
      assert base * Pow(base, exponent - 1) >= 1 * 1 by {
        MulMonotone(1, base, Pow(base, exponent - 1));
      }
    }
  }

  lemma {:induction false} ZeroPow(exponent: nat)
    ensures Pow(0, exponent) == if exponent == 0 then 1 else 0
  {
  }

  /** Saturating step by step ends where saturating once would. */
  lemma {:induction false} SaturatingPowIsMin(base: u32, exponent: u32)
    ensures SaturatingPow(base, exponent) == Min(Pow(base, exponent), U32_MAX)
  {
    if exponent > 0 {
      SaturatingPowIsMin(base, exponent - 1);
      var p := Pow(base, exponent - 1);
      if p > U32_MAX && base > 0 {
        MulMonotone(1, base, U32_MAX);
        MulMonotone(1, base, p);
      }
    }
  }

  lemma {:induction false} PowMonotone(base: nat, m: nat, n: nat)
    requires base >= 1 && m <= n
    ensures Pow(base, m) <= Pow(base, n)
  {
    if m < n {
      PowMonotone(base, m, n - 1);
      PowPositive(base, n - 1);
      MulMonotone(1, base, Pow(base, n - 1));
    }
  }

  /** The delay never leaves [0, cap], whatever the attempt and whatever the jitter source hands over. */
  lemma DelayWithinCap(b: Backoff, attempt: u32, rand01: Float)
    ensures 0.0 <= Delay(b, attempt, rand01) <= b.cap as real
  {
    var c := Ceiling(b, attempt);
    assert c <= b.cap;
    assert 0.0 <= Fraction(c as real, Clamp(rand01)) <= c as real;
  }

  lemma CeilingIsMin(b: Backoff, attempt: u32)
    ensures
      var steps := if attempt == 0 then 0 else attempt - 1;
      Ceiling(b, attempt) == Min(b.base * Min(Pow(b.factor, steps), U32_MAX), b.cap)
  {
    SaturatingPowIsMin(b.factor, if attempt == 0 then 0 else attempt - 1);
  }

  lemma ScaleMonotone(c: nat, a: nat, b: nat)
    requires a <= b
    ensures c * a <= c * b
  {
  }

  /** With a factor of at least one the ceiling never falls from one attempt to a later one. */
  lemma CeilingMonotone(b: Backoff, m: u32, n: u32)
    requires b.factor >= 1 && m <= n
    ensures Ceiling(b, m) <= Ceiling(b, n)
  {
    var i, j := if m == 0 then 0 else m - 1, if n == 0 then 0 else n - 1;
    PowMonotone(b.factor, i, j);
    CeilingIsMin(b, m);
    CeilingIsMin(b, n);
    ScaleMonotone(b.base, Min(Pow(b.factor, i), U32_MAX), Min(Pow(b.factor, j), U32_MAX));
  }

  /** The unbounded exponential schedule the saturating one stands for. */
  function ExactCeiling(b: Backoff, attempt: u32): nat {
    Min(b.base * Pow(b.factor, if attempt == 0 then 0 else attempt - 1), b.cap)
  }

  /** Whether the 32-bit multiplier can be what stops the growth below the cap. */
  predicate Exact(b: Backoff) {
    b.factor <= 1 || b.base == 0 || b.base * U32_MAX >= b.cap
  }

  lemma {:induction false} OnePow(exponent: nat)
    ensures Pow(1, exponent) == 1
  {
    if exponent > 0 {
      OnePow(exponent - 1);
    }
  }

  lemma ExactAt(b: Backoff, attempt: u32)
    requires Exact(b)
    ensures Ceiling(b, attempt) == ExactCeiling(b, attempt)
  {
    var steps: nat := if attempt == 0 then 0 else attempt - 1;
    CeilingIsMin(b, attempt);
    ZeroPow(steps);
    OnePow(steps);
    var p := Pow(b.factor, steps);
    if p > U32_MAX && b.base > 0 {
      ScaleMonotone(b.base, U32_MAX, p);
    }
  }

  lemma {:induction false} PowGrowsWithBase(a: nat, b: nat, n: nat)
    requires a <= b
    ensures Pow(a, n) <= Pow(b, n)
  {
    if n > 0 {
      PowGrowsWithBase(a, b, n - 1);
      MulMonotone(a, b, Pow(a, n - 1));
      ScaleMonotone(b, Pow(a, n - 1), Pow(b, n - 1));
    }
  }

  lemma {:induction false} PowAdds(base: nat, m: nat, n: nat)
    ensures Pow(base, m + n) == Pow(base, m) * Pow(base, n)
  {
    if m == 0 {
      assert Pow(base, 0) == 1;
    } else {
      PowAdds(base, m - 1, n);
      assert Pow(base, m + n) == base * Pow(base, m + n - 1);
      assert base * (Pow(base, m - 1) * Pow(base, n)) == (base * Pow(base, m - 1)) * Pow(base, n);
    }
  }

  /** By the 33rd retry a factor of two or more has outgrown 32 bits. */
  lemma Outgrown(factor: u32)
    requires factor >= 2
    ensures Pow(factor, 32) > U32_MAX
  {
    PowGrowsWithBase(2, factor, 32);
    assert Pow(2, 8) == 256 by {
      PowAdds(2, 4, 4);
      assert Pow(2, 1) == 2 && Pow(2, 2) == 4 && Pow(2, 3) == 8 && Pow(2, 4) == 16;
    }
    PowAdds(2, 8, 8);
    PowAdds(2, 16, 16);
  }

  lemma StrictScale(c: nat, a: nat, b: nat)
    requires a < b && c > 0
    ensures c * a < c * b
  {
  }

  /**
    The saturating arithmetic follows the exponential schedule on every attempt exactly when the
    multiplier cannot saturate below the cap: a constant or zero schedule, or a base that reaches the cap
    within 32 bits. The default policy is one of these.
   */
  lemma ExactlyWhenExact(b: Backoff)
    ensures (forall attempt: u32 :: Ceiling(b, attempt) == ExactCeiling(b, attempt)) <==> Exact(b)
    ensures Exact(DEFAULT_BACKOFF)
  {
    if Exact(b) {
      forall attempt: u32 ensures Ceiling(b, attempt) == ExactCeiling(b, attempt) {
        ExactAt(b, attempt);
      }
    } else {
      Outgrown(b.factor);
      CeilingIsMin(b, 33);
      var p := Pow(b.factor, 32);
      assert b.base * p > b.base * U32_MAX by {
        StrictScale(b.base, U32_MAX, p);
      }
      assert Ceiling(b, 33) != ExactCeiling(b, 33);
    }
  }

  /**
    The jitter chooses a point between no delay and the ceiling: half the fraction, half the ceiling. Outside the unit
    interval it stays at the end it left by, and what is not a number waits not at all.
   */
  lemma JitterIsProportional(b: Backoff, attempt: u32, f: real)
    ensures 0.0 <= f <= 1.0 ==> Delay(b, attempt, Finite(f)) == f * Ceiling(b, attempt) as real
    ensures f <= 0.0 ==> Delay(b, attempt, Finite(f)) == 0.0
    ensures f >= 1.0 ==> Delay(b, attempt, Finite(f)) == Ceiling(b, attempt) as real
    ensures Delay(b, attempt, NotFinite) == 0.0
  {
    var c := Ceiling(b, attempt) as real;
    assert c * 0.0 == 0.0 && c * 1.0 == c && c * f == f * c;
  }

  /** The shipped policy's ceilings: half a second, one, two, … sixteen seconds, then half a minute for good. */
  lemma ShippedSchedule(attempt: u32)
    requires attempt >= 1
    ensures Ceiling(DEFAULT_BACKOFF, attempt)
         == if attempt <= 6 then 500_000_000 * Pow(2, attempt - 1) else 30_000_000_000
    ensures Pow(2, 0) == 1 && Pow(2, 1) == 2 && Pow(2, 2) == 4 && Pow(2, 3) == 8 && Pow(2, 4) == 16 && Pow(2, 5) == 32
  {
    ExactlyWhenExact(DEFAULT_BACKOFF);
    assert Pow(2, 0) == 1 && Pow(2, 1) == 2 && Pow(2, 2) == 4 && Pow(2, 3) == 8 && Pow(2, 4) == 16 && Pow(2, 5) == 32;
    if attempt > 6 {
      PowMonotone(2, 6, attempt - 1);
      assert Pow(2, 6) == 64;
    }
    assert Ceiling(DEFAULT_BACKOFF, attempt) == ExactCeiling(DEFAULT_BACKOFF, attempt);
  }

  // ---------------------------------------------------------------- decisions

  datatype PumpEnd = Exited(code: Option<u32>) | Dropped

  datatype Decision =
    | Exit(code: Option<u32>)
    | Retry(attempt: u32, delay: real)
    | GiveUp

  datatype Policy = Policy(enabled: bool, maxAttempts: u32, backoff: Backoff)

  function RetryOrGiveUp(p: Policy, attempt: u32, rand01: Float): Decision {
    if !p.enabled || p.maxAttempts == 0 || attempt > p.maxAttempts then GiveUp
    else Retry(attempt, Delay(p.backoff, attempt, rand01))
  }

  function Decide(p: Policy, end: PumpEnd, attempt: u32, rand01: Float): Decision {
    match end
    case Exited(code) => Exit(code)
    case Dropped => RetryOrGiveUp(p, attempt, rand01)
  }

  /** 32-bit successor, wrapping as an optimised build does. */
  function Next(attempt: u32): u32 {
    if attempt == U32_MAX then 0 else attempt + 1
  }

  function AfterFailedAttempt(p: Policy, attempt: u32, retryable: bool, rand01: Float): Decision {
    if !retryable then GiveUp else RetryOrGiveUp(p, Next(attempt), rand01)
  }

  /** The attempts left after attempt `n`, were it to fail. */
  function Remaining(p: Policy, n: u32): int {
    p.maxAttempts - n
  }

  /**
    A retry that follows a failed attempt is the next attempt, within the maximum, with fewer attempts
    remaining, for every maximum but the largest 32-bit number; a failure that cannot be retried, the last
    attempt, a disabled policy and a maximum of zero all end it.
   */
  lemma RetriesCountUp(p: Policy, attempt: u32, retryable: bool, rand01: Float)
    requires p.maxAttempts < U32_MAX && attempt <= p.maxAttempts
    ensures
      var d := AfterFailedAttempt(p, attempt, retryable, rand01);
      && !d.Exit?
      && (d.Retry? <==> retryable && p.enabled && p.maxAttempts > 0 && attempt < p.maxAttempts)
      && (d.Retry? ==> d.attempt == attempt + 1 && 0 <= Remaining(p, d.attempt) < Remaining(p, attempt))
      && (d.Retry? ==> 0.0 <= d.delay <= p.backoff.cap as real)
  {
    if attempt < p.maxAttempts {
      DelayWithinCap(p.backoff, attempt + 1, rand01);
    }
  }

  /** For every maximum the attempt considered next is the successor in 32 bits: after the largest number comes 0. */
  lemma NextAttemptWraps(p: Policy, attempt: u32, rand01: Float, next: int)
    requires p.enabled && p.maxAttempts > 0 && next == (attempt + 1) % 0x1_0000_0000
    ensures
      var d := AfterFailedAttempt(p, attempt, true, rand01);
      && (d.Retry? <==> next <= p.maxAttempts)
      && (d.Retry? ==> d.attempt == next && d.delay == Delay(p.backoff, next, rand01))
      && (attempt == U32_MAX ==> d.Retry? && d.attempt == 0)
  {
    assert U32_MAX + 1 == 0x1_0000_0000;
  }
}
