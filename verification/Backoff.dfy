/** The reconciler's retry interval (core/reconciler/reconciler.go, backoffFor) in Go's int64
    arithmetic: shifts wrap, and shifting by 64 or more leaves zero. Durations are nanoseconds. */
module Backoff {

  const TWO_63: int := 0x8000_0000_0000_0000
  const TWO_64: int := 0x1_0000_0000_0000_0000

  function Pow2(n: nat): (p: nat)
    ensures p >= 1
  {
    if n == 0 then 1 else 2 * Pow2(n - 1)
  }

  /** The int64 that is congruent to x modulo 2^64. */
  function Wrap64(x: int): int {
    var m := x % TWO_64;
    if m >= TWO_63 then m - TWO_64 else m
  }

  /** `base << n`. For n >= 64 the product is a multiple of 2^64, so this is 0, as in Go. */
  function Shl(base: int, n: nat): int {
    Wrap64(base * Pow2(n))
  }

  /** backoffFor(attempt) before jitter is added; `fail` counts before calling, so attempt >= 1. */
  function Interval(base: int, max: int, attempt: nat): int
    requires attempt >= 1
  {
    var d := Shl(base, attempt - 1);
    if d <= 0 || d > max then max else d
  }

  function Min(x: int, y: int): int {
    if x <= y then x else y
  }

  /** The interval the documentation names: the base doubled once per earlier failure, capped. */
  function Ideal(base: int, max: int, attempt: nat): int
    requires attempt >= 1
  {
    Min(base * Pow2(attempt - 1), max)
  }

  lemma {:induction false} Pow2Splits(a: nat, b: nat)
    ensures Pow2(a + b) == Pow2(a) * Pow2(b)
  {
    if a > 0 {
      Pow2Splits(a - 1, b);
    }
  }

  lemma Pow2Values()
    ensures Pow2(31) == 0x8000_0000 && Pow2(32) == 0x1_0000_0000 && Pow2(64) == TWO_64
  {
    assert Pow2(8) == 256 && Pow2(7) == 128;
    Pow2Splits(8, 8);
    Pow2Splits(8, 7);
    assert Pow2(16) == 0x1_0000 && Pow2(15) == 0x8000;
    Pow2Splits(16, 16);
    Pow2Splits(16, 15);
    Pow2Splits(32, 32);
  }

  lemma MulMono(a: nat, x: int, y: int)
    requires x <= y
    ensures a * x <= a * y
  {
  }

  lemma Factor(base: int, p: int, k: int, m: int)
    ensures base * p - k * (p * m) == (base - k * m) * p
  {
    assert k * (p * m) == (k * m) * p;
  }

  /** A wrapped shift is still a multiple of the power it was shifted by. */
  lemma WrapKeepsFactor(base: int, n: nat) returns (q: int)
    requires n <= 64
    ensures Shl(base, n) == q * Pow2(n)
  {
    var p, m := Pow2(n), Pow2(64 - n);
    Pow2Splits(n, 64 - n);
    Pow2Values();
    assert TWO_64 == p * m;
    var x := base * p;
    var k := if x % TWO_64 >= TWO_63 then x / TWO_64 + 1 else x / TWO_64;
    assert Wrap64(x) == x - k * TWO_64;
    Factor(base, p, k, m);
    q := base - k * m;
  }

  lemma MultipleWraps(k: int)
    ensures Wrap64(k * TWO_64) == 0
  {
  }

  lemma ShlPastWidth(base: int, n: nat)
    requires n >= 64
    ensures Shl(base, n) == 0
  {
    var r := Pow2(n - 64);
    assert Pow2(n) == TWO_64 * r by {
      Pow2Splits(64, n - 64);
      Pow2Values();
    }
    MultipleWraps(base * r);
    assert base * (TWO_64 * r) == (base * r) * TWO_64 by { Factor(0, TWO_64, -base, r); }
  }

  /** The guard cannot be fooled: a positive multiple of p exceeds max once base * p overflows. */
  lemma GuardHolds(base: int, max: int, p: nat, q: int)
    requires base >= 1 && base * max < TWO_63 <= base * p
    ensures max < p
    ensures q * p <= 0 || max < q * p
  {
    if p <= max {
      MulMono(base, p, max);
    }
    if q >= 1 {
      MulMono(p, 1, q);
    } else {
      MulMono(p, q, 0);
    }
  }

  /** With base * max below 2^63 no wrapped value can pass the guard: the interval is exactly the
      doubled base capped at max, for every attempt. */
  lemma IntervalIsIdeal(base: int, max: int, attempt: nat)
    requires attempt >= 1 && base >= 1 && base * max < TWO_63
    ensures Interval(base, max, attempt) == Ideal(base, max, attempt)
  {
    var n := attempt - 1;
    var p := Pow2(n);
    var x := base * p;
    MulMono(p, 1, base);
    assert x >= p >= 1;
    if x < TWO_63 {
      assert Shl(base, n) == x;
    } else {
      var q := 0;
      if n >= 64 {
        ShlPastWidth(base, n);
      } else {
        q := WrapKeepsFactor(base, n);
      }
      GuardHolds(base, max, p, q);
      assert Interval(base, max, attempt) == max;
    }
  }

  lemma {:induction false} Pow2Grows(a: nat, b: nat)
    requires a <= b
    ensures Pow2(a) <= Pow2(b)
  {
    Pow2Splits(b - a, a);
    MulMono(Pow2(a), 1, Pow2(b - a));
  }

  /** Under the same bound the interval never shrinks and never exceeds the cap. */
  lemma IntervalMonotoneAndCapped(base: int, max: int, a: nat, b: nat)
    requires 1 <= a <= b && base >= 1 && base * max < TWO_63
    ensures Interval(base, max, a) <= Interval(base, max, b) <= max
  {
    IntervalIsIdeal(base, max, a);
    IntervalIsIdeal(base, max, b);
    Pow2Grows(a - 1, b - 1);
    var p, q := Pow2(a - 1), Pow2(b - 1);
    MulMono(base, p, q);
  }

  /** The daemon's settings, 500 ms doubling up to 10 s, are within the bound. */
  lemma DaemonIntervals(attempt: nat)
    requires attempt >= 1
    ensures Interval(500_000_000, 10_000_000_000, attempt) == Ideal(500_000_000, 10_000_000_000, attempt)
  {
    IntervalIsIdeal(500_000_000, 10_000_000_000, attempt);
  }

  /** For any settings, one attempt gets its ideal interval unless the true product overflows and
      wraps to a positive value under the cap, which the guard lets through. */
  lemma IdealIffNoWrapUnderCap(base: int, max: int, attempt: nat)
    requires attempt >= 1 && base >= 1 && max < TWO_63
    ensures Interval(base, max, attempt) == Ideal(base, max, attempt)
      <==> !(base * Pow2(attempt - 1) >= TWO_63 && 0 < Shl(base, attempt - 1) < max)
  {
    assert base * Pow2(attempt - 1) >= 1;
  }

  /** Some shift shorter than the word overflows and wraps to a positive value under the cap. */
  ghost predicate WrapsUnderCap(base: int, max: int) {
    exists n: nat :: n < 64 && base * Pow2(n) >= TWO_63 && 0 < Shl(base, n) < max
  }

  /** The settings give every attempt its ideal interval exactly when no such shift exists, which takes at
      most 64 products to check. */
  lemma EveryAttemptIdealIff(base: int, max: int)
    requires base >= 1 && max < TWO_63
    ensures (forall attempt: nat | attempt >= 1 :: Interval(base, max, attempt) == Ideal(base, max, attempt))
      <==> !WrapsUnderCap(base, max)
  {
    if n: nat :| n < 64 && base * Pow2(n) >= TWO_63 && 0 < Shl(base, n) < max {
      IdealIffNoWrapUnderCap(base, max, n + 1);
      assert Interval(base, max, n + 1) != Ideal(base, max, n + 1);
    } else {
      forall attempt: nat | attempt >= 1
        ensures Interval(base, max, attempt) == Ideal(base, max, attempt)
      {
        IdealIffNoWrapUnderCap(base, max, attempt);
        if attempt - 1 >= 64 {
          ShlPastWidth(base, attempt - 1);
        }
      }
    }
  }

  /** Outside the bound it does happen: with base 2^32 + 1 and cap 2^40, the 33rd retry wraps from
      2^64 + 2^32 down to 2^32, and comes 256 times sooner than the 32nd. */
  lemma WrappedIntervalPassesGuard()
    ensures var base, max := 0x1_0000_0001, 0x100_0000_0000;
      && Interval(base, max, 33) == 0x1_0000_0000 < max == Ideal(base, max, 33)
      && Interval(base, max, 33) < Interval(base, max, 32)
  {
    Pow2Values();
    var base := 0x1_0000_0001;
    assert base * Pow2(32) == 0x1_0000_0001_0000_0000;
    assert base * Pow2(31) == 0x8000_0000_8000_0000;
    assert Shl(base, 32) == 0x1_0000_0000 && Shl(base, 31) < 0;
  }
}
