/** The JavaScript number operations the core applies to its exact values:
    `Math.round`, `Math.floor`, `Math.ceil` and `toFixed`. Multipliers and
    ratios are Dafny `real`s, i.e. exact rationals. */
module Numeric {

  /** `Math.floor` */
  function Floor(x: real): (n: int)
    ensures n as real <= x < n as real + 1.0
  {
    x.Floor
  }

  /** `Math.ceil` */
  function Ceil(x: real): (n: int)
    ensures n as real - 1.0 < x <= n as real
  {
    -((-x).Floor)
  }

  /** `Math.round`: the nearest integer, a half rounded towards +infinity. */
  function Round(x: real): (n: int)
    ensures n as real - 0.5 <= x < n as real + 0.5
  {
    (x + 0.5).Floor
  }

  /** `Number(x.toFixed(0))`: the nearest integer, a half rounded away from
      zero (toFixed formats the magnitude and prefixes the sign). */
  function Fixed0(x: real): (n: int)
    ensures x >= 0.0 ==> n as real - 0.5 <= x < n as real + 0.5
    ensures x < 0.0 ==> n as real - 0.5 < x <= n as real + 0.5
  {
    if x >= 0.0 then Round(x) else -Round(-x)
  }

  /** `Number(x.toFixed(1))`: x to the nearest tenth, a half rounded away
      from zero. */
  function Fixed1(x: real): (r: real)
    ensures x >= 0.0 ==> r - 0.05 <= x < r + 0.05 && r >= 0.0
    ensures x < 0.0 ==> r - 0.05 < x <= r + 0.05 && r <= 0.0
    ensures (r * 10.0).Floor as real == r * 10.0
  {
    var n := Fixed0(x * 10.0);
    assert (n as real / 10.0) * 10.0 == n as real;
    n as real / 10.0
  }

  lemma RoundOfInteger(n: int)
    ensures Round(n as real) == n
  {
  }

  /** Rounding is monotone. */
  lemma RoundMonotone(x: real, y: real)
    requires x <= y
    ensures Round(x) <= Round(y)
  {
  }

  /** Both forms of toFixed are monotone on non-negative values. */
  lemma FixedMonotone(x: real, y: real)
    requires 0.0 <= x <= y
    ensures Fixed0(x) <= Fixed0(y) && Fixed1(x) <= Fixed1(y)
  {
    RoundMonotone(x, y);
    RoundMonotone(x * 10.0, y * 10.0);
  }

  /** Fixed1 of a value in [0, 100] stays in [0, 100]. */
  lemma Fixed1Bounds(x: real)
    requires 0.0 <= x <= 100.0
    ensures 0.0 <= Fixed1(x) <= 100.0
  {
    assert Round(x * 10.0) <= 1000 by { RoundMonotone(x * 10.0, 1000.0); }
  }

  /** Multiplying by a non-negative factor keeps the order. */
  lemma MulMonotone(a: real, x: real, y: real)
    requires 0.0 <= a && x <= y
    ensures a * x <= a * y
  {
    assert a * y - a * x == a * (y - x);
  }

  /** A part of a positive whole, as a fraction, lies between 0 and 1. */
  lemma FractionBounds(part: int, whole: int)
    requires 0 <= part <= whole && whole > 0
    ensures 0.0 <= part as real / whole as real <= 1.0
  {
    var q := part as real / whole as real;
    assert q * whole as real == part as real;
    if q > 1.0 {
      MulMonotone(whole as real, 1.0, q);
      assert false;
    }
  }

  /** Rounding commutes with adding a whole number. */
  lemma RoundShift(n: int, x: real)
    ensures Round(n as real + x) == n + Round(x)
  {
  }

  /** `Math.floor(a / b)` for a positive whole divisor is integer division. */
  lemma FloorDiv(a: int, b: int)
    requires b > 0
    ensures Floor(a as real / b as real) == a / b
  {
    var q, m := a / b, a % b;
    assert a == q * b + m && 0 <= m < b;
    assert a as real == q as real * b as real + m as real;
    assert a as real / b as real == q as real + m as real / b as real;
    assert 0.0 <= m as real / b as real < 1.0;
  }
}
