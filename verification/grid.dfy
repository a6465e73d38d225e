/** The candlestick grid: times are whole nanoseconds counted from the base time
    every bucket is measured from, so time 0 is the base time itself. */
module Grid {
  const SECOND := 1_000_000_000
  const MINUTE := 60 * SECOND

  function Width(tick: nat): nat {
    tick * MINUTE
  }

  /** The last grid point at or before t, reached in steps of w from zero. */
  function FloorTo(t: nat, w: nat): (b: int)
    requires w > 0
    ensures 0 <= b <= t
  {
    if t < w then 0 else FloorTo(t - w, w) + w
  }

  /** The grid point a time is projected to: toward the base time from either side. */
  function CandlestickBucket(t: int, tick: nat): int
    requires tick >= 1
  {
    if t >= 0 then FloorTo(t, Width(tick)) else -FloorTo(-t, Width(tick))
  }

  /** A time that starts a bucket of the grid. */
  predicate Aligned(b: int, tick: nat) {
    tick >= 1 && b >= 0 && CandlestickBucket(b, tick) == b
  }

  // ---------- the arithmetic of the code ----------

  /** Integer division rounding toward zero, as Go's `/` does. */
  function TruncDiv(a: int, b: int): int
    requires b > 0
  {
    if a >= 0 then a / b else -((-a) / b)
  }

  lemma MulMonotone(a: int, b: int, w: int)
    requires a <= b && w >= 0
    ensures a * w <= b * w
  {
    assert (b - a) * w >= 0;
  }

  lemma DivUnique(t: int, w: int, k: int)
    requires w > 0
    requires k * w <= t < k * w + w
    ensures t / w == k
  {
    var q, r := t / w, t % w;
    assert t == q * w + r;
    if q < k {
      MulMonotone(q + 1, k, w);
    } else if q > k {
      MulMonotone(k + 1, q, w);
    }
  }

  lemma DivStep(x: nat, m: nat)
    requires m >= 1
    ensures (x + m) / m == x / m + 1
  {
    var q := x / m;
    assert x == q * m + x % m;
    assert (q + 1) * m == q * m + m;
    DivUnique(x + m, m, q + 1);
  }

  lemma {:induction false} FloorToFormula(t: nat, m: nat)
    requires m >= 1
    ensures FloorTo(t, m * SECOND) == t / SECOND / m * (m * SECOND)
  {
    var w := m * SECOND;
    if t < w {
      DivUnique(t / SECOND, m, 0);
    } else {
      FloorToFormula(t - w, m);
      var rest := (t - w) / SECOND;
      assert rest + m == t / SECOND;
      DivStep(rest, m);
      OneMore(rest / m, w);
    }
  }

  lemma OneMore(q: int, w: int)
    ensures (q + 1) * w == q * w + w
  {
  }

  /** The code divides whole seconds by the seconds of a tick and multiplies back: for every
      time, before the base included, that is the projection above. */
  lemma BucketFormula(t: int, tick: nat)
    requires tick >= 1
    ensures CandlestickBucket(t, tick) == TruncDiv(TruncDiv(t, SECOND), tick * 60) * Width(tick)
  {
    var m := tick * 60;
    assert Width(tick) == m * SECOND;
    if t >= 0 {
      FloorToFormula(t, m);
      assert t / SECOND >= 0;
    } else {
      FloorToFormula(-t, m);
      var q := (-t) / SECOND / m;
      assert (-q) * Width(tick) == -(q * Width(tick));
      if (-t) / SECOND == 0 {
        assert 0 / m == 0;
      }
    }
  }

  // ---------- what a bucket is ----------

  lemma {:induction false} FloorToBounds(t: nat, w: nat)
    requires w > 0
    ensures FloorTo(t, w) <= t < FloorTo(t, w) + w
    ensures FloorTo(FloorTo(t, w), w) == FloorTo(t, w)
  {
    if t >= w {
      FloorToBounds(t - w, w);
    }
  }

  lemma {:induction false} FloorToUnique(t: nat, b: nat, w: nat)
    requires w > 0 && FloorTo(b, w) == b && b <= t < b + w
    ensures FloorTo(t, w) == b
  {
    if b >= w {
      FloorToUnique(t - w, b - w, w);
    }
  }

  /** From the base time on, a time lies in its own bucket, and a bucket starts on the grid. */
  lemma BucketContains(t: nat, tick: nat)
    requires tick >= 1
    ensures 0 <= CandlestickBucket(t, tick) <= t < CandlestickBucket(t, tick) + Width(tick)
    ensures Aligned(CandlestickBucket(t, tick), tick)
  {
    FloorToBounds(t, Width(tick));
  }

  /** From the base time on, the times of the bucket that starts at b are exactly those of its
      half-open interval. */
  lemma InBucketIff(b: int, t: nat, tick: nat)
    requires Aligned(b, tick)
    ensures CandlestickBucket(t, tick) == b <==> b <= t < b + Width(tick)
  {
    FloorToBounds(t, Width(tick));
    if b <= t < b + Width(tick) {
      FloorToUnique(t, b, Width(tick));
    }
  }

  /** For every time, earlier than the base included: the bucket of a time contains it exactly
      when the time is not before the base, or is itself a grid point. */
  lemma BucketContainsIff(t: int, tick: nat)
    requires tick >= 1
    ensures CandlestickBucket(t, tick) <= t < CandlestickBucket(t, tick) + Width(tick)
       <==> t >= 0 || Aligned(-t, tick)
  {
    FloorToBounds(if t >= 0 then t else -t, Width(tick));
  }

  /** A moment before the base time is put into the bucket that starts after it. */
  lemma BeforeBaseOutside()
    ensures CandlestickBucket(-1, 1) == 0
    ensures !(CandlestickBucket(-1, 1) <= -1 < CandlestickBucket(-1, 1) + Width(1))
  {
    assert FloorTo(1, Width(1)) == 0;
  }

  lemma NextAligned(b: int, tick: nat)
    requires Aligned(b, tick)
    ensures Aligned(b + Width(tick), tick)
  {
  }

  /** Two grid points that differ are at least a bucket apart. */
  lemma AlignedApart(a: int, b: int, tick: nat)
    requires Aligned(a, tick) && Aligned(b, tick) && a < b
    ensures a + Width(tick) <= b
  {
    InBucketIff(a, b, tick);
  }

  // Grid points on either side of the base time.

  predicate OnGrid(x: int, tick: nat) {
    tick >= 1 && CandlestickBucket(x, tick) == x
  }

  lemma BucketOnGrid(t: int, tick: nat)
    requires tick >= 1
    ensures OnGrid(CandlestickBucket(t, tick), tick)
  {
    FloorToBounds(if t >= 0 then t else -t, Width(tick));
  }

  lemma OnGridStep(p: int, q: int, tick: nat)
    requires OnGrid(p, tick) && OnGrid(q, tick) && p < q
    ensures OnGrid(p + Width(tick), tick) && p + Width(tick) <= q
  {
    if p >= 0 {
      AlignedApart(p, q, tick);
    } else if q < 0 {
      AlignedApart(-q, -p, tick);
    }
  }

  lemma BucketMonotone(s: int, t: int, tick: nat)
    requires tick >= 1 && s <= t
    ensures CandlestickBucket(s, tick) <= CandlestickBucket(t, tick)
  {
    if s >= 0 {
      LaterNotEarlier(s, t, tick);
    } else if t < 0 {
      LaterNotEarlier(-t, -s, tick);
    }
  }

  lemma LaterNotEarlier(s: nat, t: nat, tick: nat)
    requires tick >= 1 && s <= t
    ensures CandlestickBucket(s, tick) <= CandlestickBucket(t, tick)
  {
    BucketContains(s, tick);
    BucketContains(t, tick);
    if CandlestickBucket(t, tick) < CandlestickBucket(s, tick) {
      AlignedApart(CandlestickBucket(t, tick), CandlestickBucket(s, tick), tick);
    }
  }

  /** The times projected to a grid point: the bucket that starts there, before the base the one
      that ends there, and at the base both. */
  lemma BucketIs(b: int, t: int, tick: nat)
    requires OnGrid(b, tick)
    ensures CandlestickBucket(t, tick) == b
       <==> if b > 0 then b <= t < b + Width(tick)
            else if b < 0 then b < t + Width(tick) && t <= b
            else 0 < t + Width(tick) && t < Width(tick)
  {
    if b >= 0 && t >= 0 {
      InBucketIff(b, t, tick);
    } else if b <= 0 && t <= 0 {
      InBucketIff(-b, -t, tick);
    }
  }

  // ---------- grids that divide one another ----------

  /** a divides b. */
  predicate Divides(a: nat, b: nat) {
    a >= 1 && (b == 0 || (b >= a && Divides(a, b - a)))
  }

  lemma {:induction false} DividesIsMod(a: nat, b: nat)
    requires a >= 1
    ensures Divides(a, b) <==> b % a == 0
  {
    if b < a {
      DivUnique(b, a, 0);
    } else {
      DividesIsMod(a, b - a);
      DivStep(b - a, a);
      assert (b - a) / a * a + a == b / a * a;
    }
  }

  lemma {:induction false} DividesSum(a: nat, b: nat, c: nat)
    requires Divides(a, b) && Divides(a, c)
    ensures Divides(a, b + c)
  {
    if b > 0 {
      DividesSum(a, b - a, c);
    }
  }

  lemma {:induction false} DividesTransitive(a: nat, b: nat, c: nat)
    requires Divides(a, b) && Divides(b, c)
    ensures Divides(a, c)
  {
    if c > 0 {
      DividesTransitive(a, b, c - b);
      DividesSum(a, b, c - b);
    }
  }

  lemma {:induction false} FloorToStep(p: nat, a: nat, b: nat)
    requires Divides(a, b) && FloorTo(p, Width(a)) == p
    ensures FloorTo(p + Width(b), Width(a)) == p + Width(b)
  {
    if b > 0 {
      FloorToStep(p, a, b - a);
    }
  }

  lemma {:induction false} FloorToNested(p: nat, a: nat, b: nat)
    requires b >= 1 && Divides(a, b) && FloorTo(p, Width(b)) == p
    ensures FloorTo(p, Width(a)) == p
  {
    if p > 0 {
      FloorToNested(p - Width(b), a, b);
      FloorToStep(p - Width(b), a, b);
    }
  }

  /** When a divides b, every grid point of b is one of a, ... */
  lemma AlignedNested(p: int, a: nat, b: nat)
    requires b >= 1 && Divides(a, b) && Aligned(p, b)
    ensures Aligned(p, a)
  {
    FloorToNested(p, a, b);
  }

  /** ... the end of a bucket of a stays within the bucket of b it starts in, ... */
  lemma BucketFits(p: int, a: nat, b: nat)
    requires b >= 1 && Divides(a, b) && Aligned(p, a)
    ensures CandlestickBucket(p, b) <= p && p + Width(a) <= CandlestickBucket(p, b) + Width(b)
  {
    BucketContains(p, b);
    var q := CandlestickBucket(p, b);
    NextAligned(q, b);
    AlignedNested(q + Width(b), a, b);
    AlignedApart(p, q + Width(b), a);
  }

  /** ... and projecting to a first does not change the projection to b. */
  lemma BucketNested(t: int, a: nat, b: nat)
    requires b >= 1 && Divides(a, b)
    ensures t >= 0 ==> CandlestickBucket(t, a) >= 0
    ensures CandlestickBucket(CandlestickBucket(t, a), b) == CandlestickBucket(t, b)
  {
    NestedFromBase(if t >= 0 then t else -t, a, b);
  }

  lemma NestedFromBase(t: nat, a: nat, b: nat)
    requires b >= 1 && Divides(a, b)
    ensures CandlestickBucket(t, a) >= 0
    ensures CandlestickBucket(CandlestickBucket(t, a), b) == CandlestickBucket(t, b)
  {
    BucketContains(t, a);
    var p := CandlestickBucket(t, a);
    BucketFits(p, a, b);
    BucketContains(p, b);
    InBucketIff(CandlestickBucket(p, b), t, b);
  }
}
