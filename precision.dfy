/**
 * The float helpers of the host framework, stated on exact reals:
 * `float_round` in its half-up mode (halves go away from zero),
 * `float_is_zero` and `float_compare` for a rounding unit (a currency's
 * `rounding`, a unit of measure's `rounding`, or 10^-digits), and the
 * currency methods `round` and `is_zero` built on them.
 */
module Precision {
  /** Rounds to the nearest integer; halves go away from zero. */
  function RoundHalfUp(x: real): (r: int)
    ensures x >= 0.0 ==> r as real <= x + 0.5 < r as real + 1.0
    ensures x < 0.0 ==> r as real - 1.0 < x - 0.5 <= r as real
  {
    if x >= 0.0 then (x + 0.5).Floor else -((-x + 0.5).Floor)
  }

  /** `float_round(x, precision_rounding=unit)`: the nearest multiple of `unit`. */
  function RoundToUnit(x: real, unit: real): real
    requires unit > 0.0
  {
    (RoundHalfUp(x / unit) as real) * unit
  }

  /** `float_is_zero(x, precision_rounding=unit)`: x rounds to zero. */
  predicate IsZero(x: real, unit: real)
    requires unit > 0.0
  {
    RoundHalfUp(x / unit) == 0
  }

  /** `float_compare(a, b, precision_rounding=unit)`: -1, 0 or 1 after rounding both. */
  function Compare(a: real, b: real, unit: real): (c: int)
    requires unit > 0.0
    ensures -1 <= c <= 1
  {
    var d := RoundToUnit(a, unit) - RoundToUnit(b, unit);
    if IsZero(d, unit) then 0 else if d < 0.0 then -1 else 1
  }

  /** A unit of 10^-digits, the `precision_digits` form of the helpers. */
  function DigitsUnit(digits: nat): (u: real)
    ensures u > 0.0
  {
    if digits == 0 then 1.0 else DigitsUnit(digits - 1) / 10.0
  }

  /** A value rounds to zero exactly when it lies strictly inside half a unit of zero. */
  lemma IsZeroIff(x: real, unit: real)
    requires unit > 0.0
    ensures IsZero(x, unit) <==> -unit / 2.0 < x < unit / 2.0
  {
    var q := x / unit;
    assert x == q * unit;
    if q >= 0.0 {
      assert IsZero(x, unit) <==> q < 0.5;
    } else {
      assert IsZero(x, unit) <==> q > -0.5;
    }
  }

  lemma ScaledInt(k: int, unit: real)
    requires unit > 0.0
    ensures (k as real * unit) / unit == k as real
  {
  }

  lemma RoundOfInt(k: int)
    ensures RoundHalfUp(k as real) == k
  {
  }

  /** `float_compare` compares the two values' rounded multiples of the unit. */
  lemma {:induction false} CompareByMultiples(a: real, b: real, unit: real)
    requires unit > 0.0
    ensures var ka, kb := RoundHalfUp(a / unit), RoundHalfUp(b / unit);
            Compare(a, b, unit) == if ka == kb then 0 else if ka < kb then -1 else 1
  {
    var ka, kb := RoundHalfUp(a / unit), RoundHalfUp(b / unit);
    var d := RoundToUnit(a, unit) - RoundToUnit(b, unit);
    assert d == (ka - kb) as real * unit;
    ScaledInt(ka - kb, unit);
    assert d / unit == (ka - kb) as real;
    RoundOfInt(ka - kb);
    assert IsZero(d, unit) <==> ka == kb;
    assert d < 0.0 <==> ka < kb;
  }

  /** Rounding never reverses an order. */
  lemma RoundHalfUpMonotone(x: real, y: real)
    requires x <= y
    ensures RoundHalfUp(x) <= RoundHalfUp(y)
  {
    var rx, ry := RoundHalfUp(x), RoundHalfUp(y);
    if x >= 0.0 {
      assert rx as real <= x + 0.5 < ry as real + 1.0;
    } else if y < 0.0 {
      assert rx as real - 1.0 < x - 0.5 <= ry as real;
    } else {
      assert rx as real - 1.0 < x - 0.5 && y + 0.5 < ry as real + 1.0;
    }
  }

  /** Adding a whole unit moves the rounded value up by at least one. */
  lemma RoundHalfUpShift(x: real)
    ensures RoundHalfUp(x + 1.0) >= RoundHalfUp(x) + 1
  {
    var r0, r1 := RoundHalfUp(x), RoundHalfUp(x + 1.0);
    if x >= 0.0 {
      assert r0 as real <= x + 0.5 < r1 as real;
    } else if x + 1.0 < 0.0 {
      assert r0 as real < x + 0.5 <= r1 as real;
    } else {
      assert r0 as real < x + 0.5 < r1 as real;
    }
  }

  /** A value no greater than another never compares above it. */
  lemma CompareLe(a: real, b: real, unit: real)
    requires unit > 0.0 && a <= b
    ensures Compare(a, b, unit) <= 0
  {
    CompareByMultiples(a, b, unit);
    assert a / unit <= b / unit;
    RoundHalfUpMonotone(a / unit, b / unit);
  }

  /** Dividing by the unit keeps a gap of one unit as a gap of one. */
  lemma QuotientGap(a: real, b: real, unit: real)
    requires unit > 0.0 && a >= b + unit
    ensures a / unit >= b / unit + 1.0
  {
    var qa, qb := a / unit, b / unit;
    assert a == qa * unit && b == qb * unit;
    var t := qa - qb;
    assert t * unit == a - b;
  }

  /** A value at least one unit above another compares above it. */
  lemma CompareAboveByUnit(a: real, b: real, unit: real)
    requires unit > 0.0 && a >= b + unit
    ensures Compare(a, b, unit) == 1
  {
    CompareByMultiples(a, b, unit);
    QuotientGap(a, b, unit);
    RoundHalfUpMonotone(b / unit + 1.0, a / unit);
    RoundHalfUpShift(b / unit);
  }
}
