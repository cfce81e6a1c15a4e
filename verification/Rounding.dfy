/** Rounding as `roundTo` does it, on exact fractions: the nearest whole number, halves away from zero. */
module Rounding {
  function Max(a: int, b: int): (m: int)
    ensures m >= a && m >= b && (m == a || m == b)
  {
    if a >= b then a else b
  }

  function Min(a: int, b: int): (m: int)
    ensures m <= a && m <= b && (m == a || m == b)
  {
    if a <= b then a else b
  }

  function Abs(a: int): (m: nat)
    ensures m == a || m == -a
  {
    if a < 0 then -a else a
  }

  /** n/d rounded to the nearest whole number. */
  function RoundDiv(n: int, d: int): (r: int)
    requires d > 0
    ensures n >= 0 ==> r >= 0 && 2 * n - d < 2 * (d * r) <= 2 * n + d
    ensures n < 0 ==> r <= 0 && 2 * n - d <= 2 * (d * r) < 2 * n + d
  {
    if n >= 0 then
      var r := (2 * n + d) / (2 * d);
      HalfUp(n, d);
      r
    else
      var r := (2 * -n + d) / (2 * d);
      HalfUp(-n, d);
      assert d * -r == -(d * r);
      -r
  }

  lemma HalfUp(n: nat, d: nat)
    requires d > 0
    ensures var r := (2 * n + d) / (2 * d);
            r >= 0 && 2 * n - d < 2 * (d * r) <= 2 * n + d
  {
    var r := (2 * n + d) / (2 * d);
    assert 2 * n + d == (2 * d) * r + (2 * n + d) % (2 * d);
    assert (2 * d) * r == 2 * (d * r);
  }

  /** Multiples of d keep their distance. */
  lemma StrictlyBelow(d: int, a: int, b: int)
    requires d > 0
    ensures a < b ==> d * a + d <= d * b
  {
    if a < b {
      MulMonotone(d, a + 1, b);
      assert d * (a + 1) == d * a + d;
    }
  }

  /** Rounding is monotone. */
  lemma RoundDivMonotone(m: int, n: int, d: int)
    requires d > 0 && m <= n
    ensures RoundDiv(m, d) <= RoundDiv(n, d)
  {
    var a, b := RoundDiv(m, d), RoundDiv(n, d);
    StrictlyBelow(d, b, a);
  }

  /** Rounding a whole number, or a fraction moved by a whole number. */
  lemma RoundDivShift(n: nat, k: nat, d: int)
    requires d > 0
    ensures RoundDiv(n + d * k, d) == RoundDiv(n, d) + k
  {
    var a, b := RoundDiv(n, d), RoundDiv(n + d * k, d);
    MulMonotone(d, 0, k);
    RoundsTo(n + d * k, d, a + k);
    assert d * (a + k) == d * a + d * k;
  }

  /** The rounded value is the only whole number that near. */
  lemma RoundsTo(n: nat, d: int, r: int)
    requires d > 0
    ensures 2 * n - d < 2 * (d * r) <= 2 * n + d ==> RoundDiv(n, d) == r
  {
    StrictlyBelow(d, r, RoundDiv(n, d));
    StrictlyBelow(d, RoundDiv(n, d), r);
  }

  lemma RoundDivWhole(k: nat, d: int)
    requires d > 0
    ensures RoundDiv(d * k, d) == k
  {
    RoundDivShift(0, k, d);
    assert RoundDiv(0, d) == 0 by { RoundDivNonZero(0, d); }
  }

  lemma RoundDivNonZero(n: nat, d: int)
    requires d > 0
    ensures RoundDiv(n, d) > 0 <==> 2 * n >= d
  {
    var r := RoundDiv(n, d);
    if r > 0 { MulMonotone(d, 1, r); }
    if r == 0 { assert d * r == 0; }
  }

  lemma RoundDivNegate(n: int, d: int)
    requires d > 0
    ensures RoundDiv(-n, d) == -RoundDiv(n, d)
  {
  }

  lemma MulMonotone(d: int, a: int, b: int)
    requires d >= 0 && a <= b
    ensures d * a <= d * b
  {
    assert d * b == d * a + d * (b - a);
    assert d * (b - a) >= 0;
  }

  /** A share of at most the whole, of a whole number, rounds to at most that number. */
  lemma RoundDivAtMost(a: nat, k: nat, d: int)
    requires d > 0 && k <= d
    ensures 0 <= RoundDiv(a * k, d) <= a
  {
    MulMonotone(a, k, d);
    assert a * k >= 0;
    RoundDivMonotone(a * k, d * a, d);
    RoundDivWhole(a, d);
  }
}
