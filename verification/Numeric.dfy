/** Machine integer ranges, saturating addition and decimal rounding. */
module Numeric {

  const I32_MAX: int := 0x7FFF_FFFF
  const I32_MIN: int := -0x8000_0000
  const I64_MAX: int := 0x7FFF_FFFF_FFFF_FFFF
  const I64_MIN: int := -0x8000_0000_0000_0000
  const I128_MAX: int := 0x7FFF_FFFF_FFFF_FFFF_FFFF_FFFF_FFFF_FFFF
  const I128_MIN: int := -0x8000_0000_0000_0000_0000_0000_0000_0000

  type i32 = x: int | I32_MIN <= x <= I32_MAX
  type i64 = x: int | I64_MIN <= x <= I64_MAX

  predicate FitsI32(x: int) { I32_MIN <= x <= I32_MAX }
  predicate FitsI64(x: int) { I64_MIN <= x <= I64_MAX }
  predicate FitsI128(x: int) { I128_MIN <= x <= I128_MAX }

  /** `i64::saturating_add`. */
  function SaturatingAdd(a: i64, b: i64): i64 {
    if a + b > I64_MAX then I64_MAX
    else if a + b < I64_MIN then I64_MIN
    else a + b
  }

  /** Where a saturating counter of non-negative terms stands when the exact total is `x`. */
  function Cap(x: nat): i64 {
    if x > I64_MAX then I64_MAX else x
  }

  function Max(a: int, b: int): int { if a >= b then a else b }

  function Pow10(n: nat): nat
    ensures Pow10(n) >= 1
  {
    if n == 0 then 1 else 10 * Pow10(n - 1)
  }

  lemma {:induction false} Pow10Adds(a: nat, b: nat)
    ensures Pow10(a + b) == Pow10(a) * Pow10(b)
  {
    if a > 0 {
      Pow10Adds(a - 1, b);
      assert Pow10(a + b) == 10 * Pow10(a - 1 + b);
      assert (10 * Pow10(a - 1)) * Pow10(b) == 10 * (Pow10(a - 1) * Pow10(b));
    }
  }

  lemma {:induction false} Pow10Grows(a: nat, b: nat)
    requires a <= b
    ensures Pow10(a) <= Pow10(b)
    decreases b
  {
    if a < b { Pow10Grows(a, b - 1); }
  }

  /** r is the quotient num / den rounded to the nearest integer, halves upwards. */
  predicate RoundsHalfUp(r: int, num: int, den: int)
    requires den > 0
  {
    (2 * r - 1) * den <= 2 * num < (2 * r + 1) * den
  }

  /** The nearest integer is unique, so `RoundsHalfUp` pins its result down. */
  lemma RoundsHalfUpUnique(r: int, s: int, num: int, den: int)
    requires den > 0 && RoundsHalfUp(r, num, den) && RoundsHalfUp(s, num, den)
    ensures r == s
  {
    ScalingKeepsOrder(2 * r + 1, 2 * s - 1, den);
    ScalingKeepsOrder(2 * s + 1, 2 * r - 1, den);
  }

  /** Adding half the divisor before a flooring division rounds half up. */
  lemma HalfDivisorRounds(num: nat, den: int)
    requires den > 0
    ensures RoundsHalfUp((num + den / 2) / den, num, den)
  {
    var half, r := den / 2, (num + den / 2) / den;
    assert r * den <= num + half < r * den + den by {
      assert num + half == r * den + (num + half) % den;
    }
    assert (2 * r - 1) * den == 2 * (r * den) - den;
    assert (2 * r + 1) * den == 2 * (r * den) + den;
    assert den % 2 == 1 ==> 2 * num != 2 * (r * den) + den;
  }

  /** Cancelling a common factor of numerator and denominator keeps the rounded quotient. */
  lemma RoundingCancels(r: int, num: int, den: int, factor: int)
    requires den > 0 && factor > 0
    ensures den * factor > 0
    ensures RoundsHalfUp(r, num, den) <==> RoundsHalfUp(r, num * factor, den * factor)
  {
    assert (2 * r - 1) * (den * factor) == ((2 * r - 1) * den) * factor;
    assert (2 * r + 1) * (den * factor) == ((2 * r + 1) * den) * factor;
    assert 2 * (num * factor) == (2 * num) * factor;
    ScalingKeepsOrder((2 * r - 1) * den, 2 * num, factor);
    ScalingKeepsOrder((2 * r + 1) * den, 2 * num, factor);
  }

  lemma ScalingKeepsOrder(a: int, b: int, factor: int)
    requires factor > 0
    ensures a <= b <==> a * factor <= b * factor
  {
    if a <= b { assert (b - a) * factor >= 0; } else { assert (a - b) * factor > 0; }
  }

  /** Truncating division, as Rust's `/` and `checked_div` on signed integers. */
  function TruncDiv(a: int, b: int): int
    requires b != 0
  {
    if a >= 0 then a / b else -((-a) / b)
  }
}
