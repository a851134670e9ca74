/**
 * The numeric helpers the core relies on: Unity's Mathf.Clamp, Mathf.Clamp01,
 * Mathf.Min and Mathf.Max, and the two C# integer conversions the source uses
 * (the `(int)` cast of a float, and `/` on two ints). Floats are modelled as
 * `real`, ints as unbounded `int`.
 */
module Mathf {

  /** Mathf.Clamp(float): raise to `min`, else lower to `max`. */
  function Clamp(value: real, min: real, max: real): (r: real)
    ensures min <= max ==> min <= r <= max
    ensures min <= value <= max ==> r == value
    ensures r == value || r == min || r == max
    ensures value < min ==> r == min
    ensures min <= value && max < value ==> r == max
  {
    if value < min then min else if value > max then max else value
  }

  /** Mathf.Clamp(int): the same rule on integers. */
  function ClampInt(value: int, min: int, max: int): (r: int)
    ensures min <= max ==> min <= r <= max
    ensures min <= value <= max ==> r == value
    ensures r == value || r == min || r == max
    ensures value < min ==> r == min
    ensures min <= value && max < value ==> r == max
  {
    if value < min then min else if value > max then max else value
  }

  /** Mathf.Clamp01: the value limited to [0,1]. */
  function Clamp01(value: real): (r: real)
    ensures 0.0 <= r <= 1.0
    ensures 0.0 <= value <= 1.0 ==> r == value
    ensures value <= 0.0 ==> r == 0.0
    ensures value >= 1.0 ==> r == 1.0
  {
    if value < 0.0 then 0.0 else if value > 1.0 then 1.0 else value
  }

  /** Mathf.Min on two floats. */
  function Min(a: real, b: real): (r: real)
    ensures r <= a && r <= b
    ensures r == a || r == b
  {
    if a < b then a else b
  }

  /** Mathf.Max on two floats. */
  function Max(a: real, b: real): (r: real)
    ensures a <= r && b <= r
    ensures r == a || r == b
  {
    if a > b then a else b
  }

  function Abs(a: int): nat {
    if a < 0 then -a else a
  }

  /** The C# cast `(int)f`: the float truncated toward zero. */
  function Truncate(v: real): (r: int)
    ensures 0.0 <= v ==> r as real <= v < r as real + 1.0
    ensures v < 0.0 ==> r as real - 1.0 < v <= r as real
  {
    if v >= 0.0 then v.Floor else -((-v).Floor)
  }

  /**
   * C# `a / b` on ints: the quotient truncated toward zero, so its magnitude is
   * |a| div |b| and its sign is the product of the operands' signs (unlike
   * Dafny's Euclidean `/`).
   */
  function TruncDiv(a: int, b: int): (q: int)
    requires b != 0
    ensures Abs(q) == Abs(a) / Abs(b)
    ensures q != 0 ==> ((q > 0) <==> ((a > 0) == (b > 0)))
  {
    var m: int := NatDiv(Abs(a), Abs(b));
    if (a < 0) == (b < 0) then m else -m
  }

  function NatDiv(x: nat, y: nat): nat
    requires y > 0
  {
    x / y
  }

  /** Truncating an integral bound never moves a clamped value outside that bound. */
  lemma TruncateWithinIntBounds(v: real, lo: int, hi: int)
    requires lo as real <= v <= hi as real
    ensures lo <= Truncate(v) <= hi
  {
    if v >= 0.0 {
      assert Truncate(v) as real <= v;
      assert lo as real < Truncate(v) as real + 1.0;
    } else {
      assert v <= Truncate(v) as real;
      assert Truncate(v) as real - 1.0 < hi as real;
    }
  }

  /** Truncation leaves integers alone. */
  lemma TruncateOfInt(n: int)
    ensures Truncate(n as real) == n
  {
  }

  /** Facts about x / d for positive d that the solver does not find unaided. */
  lemma QuotientFacts(x: real, d: real)
    requires 0.0 < d
    ensures (x / d) * d == x
    ensures x <= 0.0 ==> x / d <= 0.0
    ensures x < 0.0 ==> x / d < 0.0
    ensures x >= d ==> x / d >= 1.0
    ensures x > d ==> x / d > 1.0
    ensures 0.0 <= x <= d ==> 0.0 <= x / d <= 1.0
  {
    var q := x / d;
    assert q * d == x;
  }

  /** A fraction in [0,1] of a non-negative width stays within that width. */
  lemma ScaleWithin(c: real, w: real)
    requires 0.0 <= c <= 1.0 && 0.0 <= w
    ensures 0.0 <= c * w <= w
  {
    assert c * w <= 1.0 * w;
  }
}
