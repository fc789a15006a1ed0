/**
 * Exact decimal arithmetic of `java.math.BigDecimal` as Dafny reals, with the one
 * rounding rule the backend uses: `RoundingMode.HALF_UP` (and the deprecated
 * `BigDecimal.ROUND_HALF_UP`, which is the same rule) -- round to the nearest
 * multiple of 10^-scale, ties away from zero.
 */
module Rounding {

  function Pow10(n: nat): (r: nat)
    ensures r >= 1
  {
    if n == 0 then 1 else 10 * Pow10(n - 1)
  }

  /** True when m is an integer. */
  predicate IsWhole(m: real) {
    m.Floor as real == m
  }

  /** True when x has at most `scale` fraction digits: x * 10^scale is an integer. */
  predicate HasScale(x: real, scale: nat) {
    IsWhole(x * Pow10(scale) as real)
  }

  /** The integer that x * 10^scale is, for x with at most `scale` fraction digits. */
  lemma ScaledUnits(x: real, scale: nat) returns (k: int)
    requires HasScale(x, scale)
    ensures k as real == x * Pow10(scale) as real
  {
    var m := x * Pow10(scale) as real;
    assert IsWhole(m);
    k := m.Floor;
  }

  /**
   * The number of units of 10^-scale that HALF_UP rounding keeps: the integer
   * nearest to x * 10^scale, a tie going away from zero.
   */
  function HalfUpUnits(x: real, scale: nat): (k: int)
    ensures x >= 0.0 ==> k >= 0 && k as real - 0.5 <= x * Pow10(scale) as real < k as real + 0.5
    ensures x < 0.0 ==> k <= 0 && k as real - 0.5 < x * Pow10(scale) as real <= k as real + 0.5
  {
    var m := x * Pow10(scale) as real;
    if x >= 0.0 then (m + 0.5).Floor else -((-m + 0.5).Floor)
  }

  /** Field facts about dividing by a positive scale factor, kept apart from the callers. */
  lemma Cancel(a: real, x: real, p: real)
    requires p >= 1.0
    ensures (a / p) * p == a
    ensures (a / p - x) * p == a - x * p
    ensures a >= 0.0 ==> a / p >= 0.0
    ensures a <= 0.0 ==> a / p <= 0.0
  {
  }

  /** `x.setScale(scale, HALF_UP)`, and `a.divide(b, scale, HALF_UP)` for x = a / b. */
  function RoundHalfUp(x: real, scale: nat): (r: real)
    ensures HasScale(r, scale)
    ensures -0.5 <= (r - x) * Pow10(scale) as real <= 0.5
    ensures x >= 0.0 ==> r >= 0.0 && -0.5 < (r - x) * Pow10(scale) as real
    ensures x < 0.0 ==> r <= 0.0 && (r - x) * Pow10(scale) as real < 0.5
  {
    var p := Pow10(scale) as real;
    var k := HalfUpUnits(x, scale);
    UnitsHaveScale(k, scale);
    Cancel(k as real, x, p);
    k as real / p
  }

  lemma UnitsHaveScale(k: int, scale: nat)
    ensures HasScale(k as real / Pow10(scale) as real, scale)
  {
    var p := Pow10(scale) as real;
    Cancel(k as real, 0.0, p);
    assert (k as real / p) * p == k as real;
  }

  /** The integer that the HALF_UP bracket of HalfUpUnits admits is unique. */
  lemma {:induction false} HalfUpUnitsUnique(x: real, scale: nat, k: int)
    requires x >= 0.0 ==> k as real - 0.5 <= x * Pow10(scale) as real < k as real + 0.5
    requires x < 0.0 ==> k as real - 0.5 < x * Pow10(scale) as real <= k as real + 0.5
    ensures HalfUpUnits(x, scale) == k
  {
  }

  /** RoundHalfUp keeps HalfUpUnits(x, scale) units of 10^-scale. */
  lemma RoundIsUnits(x: real, scale: nat)
    ensures RoundHalfUp(x, scale) == HalfUpUnits(x, scale) as real / Pow10(scale) as real
  {
  }

  /** Field facts for undoing a scale factor, kept apart from the callers. */
  lemma Rescale(x: real, a: real, p: real)
    requires p >= 1.0 && a == x * p
    ensures a / p == x
  {
  }

  lemma NegateQuotient(a: real, p: real)
    requires p >= 1.0
    ensures (-a) / p == -(a / p)
  {
  }

  /** Rounding leaves a value that already has `scale` fraction digits unchanged. */
  lemma RoundHalfUpExact(x: real, scale: nat)
    requires HasScale(x, scale)
    ensures RoundHalfUp(x, scale) == x
  {
    var k := ScaledUnits(x, scale);
    HalfUpUnitsUnique(x, scale, k);
    RoundIsUnits(x, scale);
    Rescale(x, k as real, Pow10(scale) as real);
  }

  /** The unit count of -x is minus that of x. */
  lemma NegateUnits(x: real, scale: nat)
    ensures HalfUpUnits(-x, scale) == -HalfUpUnits(x, scale)
  {
    var k := HalfUpUnits(x, scale);
    assert (-x) * Pow10(scale) as real == -(x * Pow10(scale) as real);
    HalfUpUnitsUnique(-x, scale, -k);
  }

  /** HALF_UP is symmetric about zero: rounding -x gives minus the rounding of x. */
  lemma RoundHalfUpNegate(x: real, scale: nat)
    ensures RoundHalfUp(-x, scale) == -RoundHalfUp(x, scale)
  {
    NegateUnits(x, scale);
    RoundIsUnits(x, scale);
    RoundIsUnits(-x, scale);
    NegateQuotient(HalfUpUnits(x, scale) as real, Pow10(scale) as real);
  }

  /** HALF_UP rounding is monotonic. */
  lemma RoundHalfUpMonotonic(x: real, y: real, scale: nat)
    requires x <= y
    ensures RoundHalfUp(x, scale) <= RoundHalfUp(y, scale)
  {
    var p := Pow10(scale) as real;
    var i, j := HalfUpUnits(x, scale), HalfUpUnits(y, scale);
    HalfUpUnitsMonotonic(x, y, scale);
    Ordered(i as real, j as real, p);
  }

  lemma HalfUpUnitsMonotonic(x: real, y: real, scale: nat)
    requires x <= y
    ensures HalfUpUnits(x, scale) <= HalfUpUnits(y, scale)
  {
    Ordered(x, y, Pow10(scale) as real);
  }

  /** Multiplying and dividing by a positive factor keep the order. */
  lemma Ordered(a: real, b: real, p: real)
    requires p >= 1.0 && a <= b
    ensures a * p <= b * p && a / p <= b / p
  {
    assert (b - a) * p >= 0.0;
    assert b / p - a / p == (b - a) / p;
  }

  /**
   * `a.divide(b, 4, HALF_UP).multiply(new BigDecimal("100"))`: the ratio a / b
   * as a percentage with two decimals. The source divides only where b is known
   * to be non-zero, or throws an ArithmeticException.
   */
  function PercentOf(a: real, b: real): (r: real)
    requires b != 0.0
    ensures r == RoundHalfUp(a / b, 4) * 100.0
    ensures HasScale(r, 2)
    ensures -0.005 <= r - a / b * 100.0 <= 0.005
  {
    var q := RoundHalfUp(a / b, 4);
    assert Pow10(4) == 10000 && Pow10(2) == 100;
    assert q * 100.0 * 100.0 == q * 10000.0;
    q * 100.0
  }

  /** PercentOf depends only on the ratio of its arguments. */
  lemma PercentOfRatio(a: real, b: real, c: real, d: real)
    requires b != 0.0 && d != 0.0 && a / b == c / d
    ensures PercentOf(a, b) == PercentOf(c, d)
  {
  }

  /** Scaling part and whole by the same non-zero factor leaves the percentage unchanged. */
  lemma PercentOfScaled(part: real, whole: real, x: real, a: real, q: real)
    requires a != 0.0 && q != 0.0 && part == x * q && whole == a * q
    ensures whole != 0.0
    ensures PercentOf(part, whole) == PercentOf(x, a)
  {
    assert (x / a) * whole == part;
    PercentOfRatio(part, whole, x, a);
  }

  /** A percentage of a positive whole has the sign of the part. */
  lemma PercentOfSign(a: real, b: real)
    requires b > 0.0
    ensures a >= 0.0 ==> PercentOf(a, b) >= 0.0
    ensures a < 0.0 ==> PercentOf(a, b) <= 0.0
  {
    if a >= 0.0 {
      assert a / b >= 0.0;
    } else {
      assert a / b < 0.0;
    }
  }
}
