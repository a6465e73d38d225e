/** Cutting an amount to a number of decimal places. */
module Truncation {
  import opened Reals

  /** Decimal places of the amounts a strategy trades with. */
  const PRECISION := 8

  function Pow10(n: nat): (p: real)
    ensures p >= 1.0
  {
    if n == 0 then 1.0 else 10.0 * Pow10(n - 1)
  }

  /** Conversion to an integer, toward zero. */
  function ToInt(r: real): int {
    if r >= 0.0 then r.Floor else -((-r).Floor)
  }

  function Over(n: int, d: real): real
    requires d >= 1.0
  {
    n as real / d
  }

  function CutAt(f: real, d: real): real
    requires d >= 1.0
  {
    Over(ToInt(f * d), d)
  }

  function TruncateFloat(f: real, precision: nat): real {
    CutAt(f, Pow10(precision))
  }

  lemma OverTimes(n: int, d: real)
    requires d >= 1.0
    ensures Over(n, d) * d == n as real
  {
  }

  lemma OrderByProduct(a: real, b: real, d: real)
    requires d >= 1.0
    ensures a <= b <==> a * d <= b * d
  {
    if a <= b {
      ProductSign(b - a, d);
      assert (b - a) * d == b * d - a * d;
    } else {
      ProductPositive(a - b, d);
      assert (a - b) * d == a * d - b * d;
    }
  }

  lemma CutAtBounds(f: real, d: real)
    requires f >= 0.0 && d >= 1.0
    ensures 0.0 <= CutAt(f, d) <= f < CutAt(f, d) + Over(1, d)
  {
    hide Over;
    ProductSign(f, d);
    var a, u := CutAt(f, d), Over(1, d);
    OverTimes(ToInt(f * d), d);
    OverTimes(1, d);
    OrderByProduct(0.0, a, d);
    OrderByProduct(a, f, d);
    OrderByProduct(a + u, f, d);
    assert (a + u) * d == a * d + u * d;
  }

  lemma CutAtLargest(f: real, d: real, n: int)
    requires f >= 0.0 && d >= 1.0 && Over(n, d) <= f
    ensures Over(n, d) <= CutAt(f, d)
  {
    hide Over;
    ProductSign(f, d);
    var m := ToInt(f * d);
    OverTimes(n, d);
    OverTimes(m, d);
    OrderByProduct(Over(n, d), f, d);
    assert n <= m;
    OrderByProduct(Over(n, d), Over(m, d), d);
  }

  lemma CutAtOdd(f: real, d: real)
    requires d >= 1.0
    ensures CutAt(-f, d) == -CutAt(f, d)
  {
    hide Over;
    var n := ToInt(f * d);
    assert (-f) * d == -(f * d);
    OverTimes(n, d);
    OverTimes(-n, d);
    var a, b := Over(-n, d), -Over(n, d);
    assert b * d == -(Over(n, d) * d);
    OrderByProduct(a, b, d);
    OrderByProduct(b, a, d);
  }

  /** A non-negative amount loses less than one unit of its last place, and never goes up. */
  lemma TruncateBounds(f: real, precision: nat)
    requires f >= 0.0
    ensures 0.0 <= TruncateFloat(f, precision) <= f < TruncateFloat(f, precision) + Over(1, Pow10(precision))
  {
    CutAtBounds(f, Pow10(precision));
  }

  /** It is the largest multiple of the last place that does not exceed the amount. */
  lemma TruncateLargest(f: real, precision: nat, n: int)
    requires f >= 0.0 && Over(n, Pow10(precision)) <= f
    ensures Over(n, Pow10(precision)) <= TruncateFloat(f, precision)
  {
    CutAtLargest(f, Pow10(precision), n);
  }

  /** Negative amounts are cut toward zero as well. */
  lemma TruncateOdd(f: real, precision: nat)
    ensures TruncateFloat(-f, precision) == -TruncateFloat(f, precision)
  {
    CutAtOdd(f, Pow10(precision));
  }

  /** The smallest amount: 10 to the minus 8. */
  const UNIT := 0.00000001

  /** An amount cut for trading. */
  function Cut(f: real): real {
    TruncateFloat(f, PRECISION)
  }

  lemma CutBounds(f: real)
    requires f >= 0.0
    ensures 0.0 <= Cut(f) <= f < Cut(f) + UNIT
  {
    TruncateBounds(f, PRECISION);
    assert Pow10(4) == 10000.0;
    assert Pow10(8) == 100000000.0;
  }
}
