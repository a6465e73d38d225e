/** What a trader that is seeded from a window of the history may decide differently: nothing, where
    the value is farther from the threshold than the window can move it. */
module Windows {
  import opened Candlesticks
  import opened Coarsening
  import opened Reals
  import opened Ema
  import opened Dema
  import opened Rsi
  import opened WilderSmoothing
  import opened Strategies
  import opened IndicatorSets
  import opened Trading
  import opened Traders
  import opened Live

  function Last(xs: seq<real>, n: nat): (ys: seq<real>)
    requires n <= |xs|
    ensures |ys| == n
  {
    xs[|xs| - n..]
  }

  function Max(x: real, y: real): real {
    if x < y then y else x
  }

  // ---------- the difference of averages ----------

  /** How far the average of the last n prices, between lo and hi, may be from that of all. */
  function AverageError(period: nat, n: nat, lo: real, hi: real): real
    requires period <= n
  {
    Pow(Decay(period), n - period) * (hi - lo)
  }

  function DemaError(short: nat, long: nat, n: nat, lo: real, hi: real): real
    requires short <= n && long <= n && lo > 0.0
  {
    Max(AverageError(short, n, lo, hi), AverageError(long, n, lo, hi)) / (2.0 * lo)
  }

  /** Relative differences of pairs that are no more than d apart. */
  lemma DifferencesApart(s: real, l: real, t: real, m: real, d: real, lo: real)
    requires 0.0 < lo && lo <= s && lo <= l && lo <= t && lo <= m
    requires -d <= s - t <= d && -d <= l - m <= d
    ensures -(d / (2.0 * lo)) <= RelativeDifference(s, l) - RelativeDifference(t, m) <= d / (2.0 * lo)
  {
    hide RelativeDifference, Times;
    var v, w := RelativeDifference(s, l), RelativeDifference(t, m);
    GapScaled(s, l, t, m, d);
    QuotientBounds(v - w, t + m, d, 2.0 * lo);
  }

  lemma GapScaled(s: real, l: real, t: real, m: real, d: real)
    requires 0.0 < s && 0.0 < l && 0.0 < t && 0.0 < m
    requires -d <= s - t <= d && -d <= l - m <= d
    ensures -d <= Times(RelativeDifference(s, l) - RelativeDifference(t, m), t + m) <= d
  {
    hide RelativeDifference, Times, Cross;
    var v, w := RelativeDifference(s, l), RelativeDifference(t, m);
    DifferenceIs(s, l);
    DifferenceIs(t, m);
    CrossGap(s, l, t, m, v, w);
    CrossBounds(s, l, t, m, d);
    CancelBounds(s + l, Times(v - w, t + m), d);
  }

  lemma DifferenceIs(s: real, l: real)
    requires s + l > 0.0
    ensures Times(RelativeDifference(s, l), 2.0 * (s + l)) == s - l
  {
    var q := (s - l) / (s + l);
    assert q * (s + l) == s - l;
  }

  lemma CrossGap(s: real, l: real, t: real, m: real, v: real, w: real)
    requires Times(v, 2.0 * (s + l)) == s - l && Times(w, 2.0 * (t + m)) == t - m
    ensures Times(s + l, Times(v - w, t + m)) == Cross(s, l, t, m)
  {
    var a, b := s + l, t + m;
    assert a * ((v - w) * b) == ((v * 2.0 * a) * b - (w * 2.0 * b) * a) / 2.0;
    assert (s - l) * b - (t - m) * a == 2.0 * (s * m - l * t);
  }

  function Cross(s: real, l: real, t: real, m: real): real {
    s * m - l * t
  }

  /** The cross product of two pairs that are no more than d apart. */
  lemma CrossBounds(s: real, l: real, t: real, m: real, d: real)
    requires s >= 0.0 && l >= 0.0 && -d <= s - t <= d && -d <= l - m <= d
    ensures -Times(s + l, d) <= Cross(s, l, t, m) <= Times(s + l, d)
  {
    ProductSign(s, d - (m - l));
    ProductSign(s, d + (m - l));
    ProductSign(l, d - (s - t));
    ProductSign(l, d + (s - t));
    assert s * m - l * t == s * (m - l) + l * (s - t);
    assert s * (d - (m - l)) == s * d - s * (m - l) && s * (d + (m - l)) == s * d + s * (m - l);
    assert l * (d - (s - t)) == l * d - l * (s - t) && l * (d + (s - t)) == l * d + l * (s - t);
    assert (s + l) * d == s * d + l * d;
  }

  lemma CancelLess(a: real, x: real, y: real)
    requires a > 0.0 && a * x <= a * y
    ensures x <= y
  {
    if x > y { ProductPositive(a, x - y); }
  }

  lemma CancelBounds(a: real, x: real, d: real)
    requires a > 0.0 && -Times(a, d) <= Times(a, x) <= Times(a, d)
    ensures -d <= x <= d
  {
    CancelLess(a, x, d);
    assert a * -d == -(a * d);
    CancelLess(a, -d, x);
  }

  lemma QuotientBounds(gap: real, b: real, d: real, low: real)
    requires 0.0 < low <= b && -d <= Times(gap, b) <= d
    ensures -(d / low) <= gap <= d / low
  {
    var q := d / low;
    assert q * low == d;
    if gap > q {
      Scaled(gap, q, b, low, d);
    }
    if gap < -q {
      assert -gap * b == -(gap * b);
      Scaled(-gap, q, b, low, d);
    }
  }

  lemma Scaled(gap: real, q: real, b: real, low: real, d: real)
    requires 0.0 < low <= b && q * low == d && gap > q && d >= 0.0
    ensures gap * b > d
  {
    if q < 0.0 { ProductPositive(-q, low); }
    ProductPositive(gap - q, b);
    ProductSign(q, b - low);
    assert (gap - q) * b == gap * b - q * b && q * (b - low) == q * b - q * low;
  }

  /** The difference computed from the last n prices is within the error of that of all. */
  lemma WindowDema(short: nat, long: nat, xs: seq<real>, n: nat, lo: real, hi: real)
    requires 1 <= short <= n && 1 <= long <= n <= |xs| && AllWithin(xs, lo, hi) && lo > 0.0
    ensures var v, w := SpecValue(DemaSpec(short, long), xs), SpecValue(DemaSpec(short, long), Last(xs, n));
            var error := DemaError(short, long, n, lo, hi);
            v.Some? && w.Some? && -error <= v.value - w.value <= error
  {
    hide Average, Pow, DemaFold, DemaValueOf;
    var ys := Last(xs, n);
    assert AllWithin(ys, lo, hi) && AllAbove(xs, 0.0) && AllAbove(ys, 0.0);
    DemaComputes(short, long, xs);
    DemaComputes(short, long, ys);
    HistoryWindowSuffices(short, xs, n, lo, hi);
    HistoryWindowSuffices(long, xs, n, lo, hi);
    AverageBounds(short, xs, lo, hi);
    AverageBounds(long, xs, lo, hi);
    AverageBounds(short, ys, lo, hi);
    AverageBounds(long, ys, lo, hi);
    hide RelativeDifference, AverageError;
    var d := Max(AverageError(short, n, lo, hi), AverageError(long, n, lo, hi));
    ErrorsAre(short, n, lo, hi);
    ErrorsAre(long, n, lo, hi);
    DifferencesApart(Average(short, xs), Average(long, xs), Average(short, ys), Average(long, ys), d, lo);
  }

  lemma ErrorsAre(period: nat, n: nat, lo: real, hi: real)
    requires period <= n
    ensures AverageError(period, n, lo, hi) == Pow(Decay(period), n - period) * (hi - lo)
  {
  }

  // ---------- the relative strength index ----------

  /** All the movement that the running averages know of. */
  function Movement(p: nat, xs: seq<real>): real {
    RsiFold(p, xs).averageGain + RsiFold(p, xs).averageLoss
  }

  /** How far apart the running averages were at the end of the window's own seed. */
  function SeedGap(p: nat, xs: seq<real>, n: nat): real
    requires p + 1 <= n <= |xs|
  {
    var k := |xs| - n + p + 1;
    var all, seed := RsiFold(p, xs[..k]), RsiFold(p, xs[|xs| - n..k]);
    Max(Abs(all.averageGain - seed.averageGain), Abs(all.averageLoss - seed.averageLoss))
  }

  /** How far the running averages of the last n prices are from those of all, at most. */
  function RsiGap(p: nat, xs: seq<real>, n: nat): real
    requires p + 1 <= n <= |xs|
  {
    Times(Pow(Keeps(p), n - p - 1), SeedGap(p, xs, n))
  }

  /** The gains' share of all movement. */
  lemma Share(g: real, l: real) returns (q: real)
    requires g >= 0.0 && l >= 0.0 && g + l > 0.0
    ensures RsiOf(g, l) == 100.0 * q && Times(q, g + l) == g
  {
    RsiIsShare(g, l);
    q := g / (g + l);
  }

  /** Indices of averages that are no more than d apart. */
  lemma SharesApart(g: real, l: real, h: real, m: real, d: real)
    requires g >= 0.0 && l >= 0.0 && h >= 0.0 && m >= 0.0
    requires -d <= g - h <= d && -d <= l - m <= d
    ensures -100.0 * d <= Times(RsiOf(g, l) - RsiOf(h, m), g + l) <= 100.0 * d
  {
    hide RsiFromRs, Times;
    if g + l > 0.0 {
      var q := Share(g, l);
      if h + m > 0.0 {
        var r := Share(h, m);
        SharesWithin(g, l, h, m, d, q, r);
        HundredTimes(q - r, g + l);
      } else {
        StillShare(g, l, d, q);
      }
    } else {
      NoTimes(RsiOf(g, l) - RsiOf(h, m));
    }
    hide RsiOf;
  }

  lemma NoTimes(x: real)
    ensures Times(x, 0.0) == 0.0
  {
  }

  lemma HundredTimes(x: real, y: real)
    ensures Times(100.0 * x, y) == 100.0 * Times(x, y)
  {
  }

  lemma SharesWithin(g: real, l: real, h: real, m: real, d: real, q: real, r: real)
    requires g >= 0.0 && l >= 0.0 && h >= 0.0 && m >= 0.0 && g + l > 0.0 && h + m > 0.0
    requires -d <= g - h <= d && -d <= l - m <= d
    requires Times(q, g + l) == g && Times(r, h + m) == h
    ensures -d <= Times(q - r, g + l) <= d
  {
    hide Times, Cross;
    ShareGap(g, l, h, m, q, r);
    OtherBounds(g, l, h, m, d);
    CancelBounds(h + m, Times(q - r, g + l), d);
  }

  lemma StillShare(g: real, l: real, d: real, q: real)
    requires g >= 0.0 && l >= 0.0 && g + l > 0.0 && -d <= g <= d && -d <= l <= d && Times(q, g + l) == g
    ensures -100.0 * d <= Times(100.0 * q - 50.0, g + l) <= 100.0 * d
  {
    assert Times(100.0 * q - 50.0, g + l) == 100.0 * Times(q, g + l) - 50.0 * (g + l);
  }

  /** The cross product bounded by the other pair. */
  lemma OtherBounds(g: real, l: real, h: real, m: real, d: real)
    requires h >= 0.0 && m >= 0.0 && -d <= g - h <= d && -d <= l - m <= d
    ensures -Times(h + m, d) <= Cross(g, l, h, m) <= Times(h + m, d)
  {
    CrossBounds(h, m, g, l, d);
    assert Cross(g, l, h, m) == -Cross(h, m, g, l);
  }

  lemma ShareGap(g: real, l: real, h: real, m: real, q: real, r: real)
    requires Times(q, g + l) == g && Times(r, h + m) == h
    ensures Times(h + m, Times(q - r, g + l)) == Cross(g, l, h, m)
  {
    var a, b := g + l, h + m;
    assert b * ((q - r) * a) == q * a * b - r * b * a;
    assert g * b - h * a == g * m - l * h;
  }

  /** When nothing is left of a history's movement, its last prices have none either. */
  lemma StillWindow(p: nat, amounts: seq<real>, more: seq<real>)
    requires 1 <= p <= |amounts| && AllNonNegative(more + amounts) && Carried(p, more + amounts) == 0.0
    ensures Carried(p, amounts) == 0.0
  {
    var all := more + amounts;
    assert AllNonNegative(amounts) by {
      assert forall i :: 0 <= i < |amounts| ==> amounts[i] == all[|more| + i];
    }
    if p == 1 {
      PeriodOne(all);
      PeriodOne(amounts);
      assert all[|all| - 1] == amounts[|amounts| - 1];
    } else {
      CarriedVersusWilder(p, all);
      CarriedVersusWilder(p, amounts);
      assert forall i :: 0 <= i < |amounts| ==> amounts[i] == all[|more| + i];
    }
  }

  lemma GainsOfLast(xs: seq<real>, n: nat)
    requires 1 <= n <= |xs|
    ensures Gains(xs) == Gains(xs)[..|xs| - n] + Gains(Last(xs, n))
    ensures WilderSmoothing.Losses(xs) == WilderSmoothing.Losses(xs)[..|xs| - n] + WilderSmoothing.Losses(Last(xs, n))
  {
    hide GainOf, LossOf;
  }

  lemma StillAverages(p: nat, xs: seq<real>, n: nat)
    requires 1 <= p && p + 1 <= n <= |xs| && Movement(p, xs) == 0.0
    ensures Movement(p, Last(xs, n)) == 0.0
  {
    var ys := Last(xs, n);
    AveragesAreCarried(p, xs);
    AveragesAreCarried(p, ys);
    RsiShape(p, xs);
    AmountsNonNegative(xs);
    GainsOfLast(xs, n);
    hide Carried, Gains, WilderSmoothing.Losses, RsiFold, AllNonNegative;
    StillWindow(p, Gains(ys), Gains(xs)[..|xs| - n]);
    StillWindow(p, WilderSmoothing.Losses(ys), WilderSmoothing.Losses(xs)[..|xs| - n]);
  }

  lemma GapBounds(q: real, d: real, gap: real, most: real)
    requires q >= 0.0 && gap == Times(q, d) && Abs(d) <= most
    ensures -Times(q, most) <= gap <= Times(q, most)
  {
    ProductSign(q, most - d);
    ProductSign(q, most + d);
    assert q * (most - d) == q * most - q * d && q * (most + d) == q * most + q * d;
  }

  lemma WindowAverages(p: nat, xs: seq<real>, n: nat)
    requires 1 <= p && p + 1 <= n <= |xs|
    ensures var k, q := |xs| - n + p + 1, Pow(Keeps(p), n - p - 1);
            var all, seed := RsiFold(p, xs[..k]), RsiFold(p, xs[|xs| - n..k]);
            var s, t := RsiFold(p, xs), RsiFold(p, Last(xs, n));
            && q >= 0.0
            && s.averageGain - t.averageGain == Times(q, all.averageGain - seed.averageGain)
            && s.averageLoss - t.averageLoss == Times(q, all.averageLoss - seed.averageLoss)
  {
    hide RsiFold, Pow, Abs;
    WindowForgetsIff(p, xs, n);
    PowNonNegative(Keeps(p), n - p - 1);
  }

  lemma AveragesApart(p: nat, xs: seq<real>, n: nat)
    requires 1 <= p && p + 1 <= n <= |xs|
    ensures var s, t, d := RsiFold(p, xs), RsiFold(p, Last(xs, n)), RsiGap(p, xs, n);
            && -d <= s.averageGain - t.averageGain <= d
            && -d <= s.averageLoss - t.averageLoss <= d
  {
    hide RsiFold, Pow, Times, Keeps;
    WindowAverages(p, xs, n);
    var k := |xs| - n + p + 1;
    var all, seed, q := RsiFold(p, xs[..k]), RsiFold(p, xs[|xs| - n..k]), Pow(Keeps(p), n - p - 1);
    var s, t := RsiFold(p, xs), RsiFold(p, Last(xs, n));
    GapBounds(q, all.averageGain - seed.averageGain, s.averageGain - t.averageGain, SeedGap(p, xs, n));
    GapBounds(q, all.averageLoss - seed.averageLoss, s.averageLoss - t.averageLoss, SeedGap(p, xs, n));
  }

  /** The index computed from the last n prices is within the gap, over the movement, of that of all,
      and the same when there is no movement. */
  lemma WindowRsi(p: nat, xs: seq<real>, n: nat)
    requires 1 <= p && p + 1 <= n <= |xs|
    ensures var v, w := SpecValue(RsiSpec(p), xs), SpecValue(RsiSpec(p), Last(xs, n));
            && v.Some? && w.Some?
            && -100.0 * RsiGap(p, xs, n) <= Times(v.value - w.value, Movement(p, xs)) <= 100.0 * RsiGap(p, xs, n)
            && (Movement(p, xs) == 0.0 ==> v == w)
  {
    hide RsiFold, RsiGap, Last, RsiOf, Times;
    RsiShape(p, xs);
    RsiShape(p, Last(xs, n));
    AveragesApart(p, xs, n);
    if Movement(p, xs) == 0.0 {
      StillAverages(p, xs, n);
    }
    var s, t := RsiFold(p, xs), RsiFold(p, Last(xs, n));
    SharesApart(s.averageGain, s.averageLoss, t.averageGain, t.averageLoss, RsiGap(p, xs, n));
    hide Movement;
    assert Movement(p, xs) == s.averageGain + s.averageLoss;
  }

  // ---------- the gap is known beforehand ----------

  lemma SmoothWithin(p: nat, average: real, x: real, top: real)
    requires 1 <= p <= 14 && 0.0 <= average <= top && 0.0 <= x <= top
    ensures 0.0 <= Smooth(p, average, x) <= top
  {
    var n := p as real - 1.0;
    ProductSign(average, n);
    ProductSign(top - average, n);
    ProductSign(top, 13.0 - n);
    assert (top - average) * n == top * n - average * n && top * (13.0 - n) == 13.0 * top - top * n;
  }

  lemma {:induction false} CarriedWithin(p: nat, amounts: seq<real>, top: real)
    requires 1 <= p <= 14 && p <= |amounts| && AllWithin(amounts, 0.0, top)
    ensures 0.0 <= Carried(p, amounts) <= top
    decreases |amounts|
  {
    hide Smooth;
    if |amounts| == p {
      MeanBounds(amounts, 0.0, top);
    } else {
      CarriedWithin(p, amounts[..|amounts| - 1], top);
      SmoothWithin(p, Carried(p, amounts[..|amounts| - 1]), amounts[|amounts| - 1], top);
    }
  }

  lemma AveragesWithin(p: nat, xs: seq<real>, lo: real, hi: real)
    requires 1 <= p <= 14 && p < |xs| && AllWithin(xs, lo, hi)
    ensures 0.0 <= RsiFold(p, xs).averageGain <= hi - lo && 0.0 <= RsiFold(p, xs).averageLoss <= hi - lo
  {
    hide RsiFold, Carried;
    AveragesAreCarried(p, xs);
    CarriedWithin(p, Gains(xs), hi - lo);
    CarriedWithin(p, WilderSmoothing.Losses(xs), hi - lo);
  }

  /** For periods up to 14 the gap is at most ((p - 1) / 14)^(n - p - 1) times the price range. */
  lemma RsiGapBound(p: nat, xs: seq<real>, n: nat, lo: real, hi: real)
    requires 1 <= p <= 14 && p + 1 <= n <= |xs| && AllWithin(xs, lo, hi)
    ensures RsiGap(p, xs, n) <= Pow(Keeps(p), n - p - 1) * (hi - lo)
  {
    hide RsiFold, Pow;
    var k, q := |xs| - n + p + 1, Pow(Keeps(p), n - p - 1);
    AveragesWithin(p, xs[..k], lo, hi);
    AveragesWithin(p, xs[|xs| - n..k], lo, hi);
    PowNonNegative(Keeps(p), n - p - 1);
    ProductSign(q, hi - lo - SeedGap(p, xs, n));
    assert q * (hi - lo - SeedGap(p, xs, n)) == q * (hi - lo) - q * SeedGap(p, xs, n);
  }

  // ---------- decisions ----------

  /** Two numbers on the same side of a threshold. */
  predicate SameSide(v: real, w: real, threshold: real) {
    (v < threshold <==> w < threshold) && (v > threshold <==> w > threshold)
  }

  /** The difference over all prices is farther from the threshold than the last n can move it. */
  predicate DemaClear(short: nat, long: nat, xs: seq<real>, n: nat, lo: real, hi: real, threshold: real)
    requires short <= n && long <= n && lo > 0.0
  {
    var v := SpecValue(DemaSpec(short, long), xs);
    v.Some? && Abs(v.value - threshold) > DemaError(short, long, n, lo, hi)
  }

  /** The index over all prices is farther from the threshold than the last n can move it: by more
      than 100 times the gap over all movement, or by nothing when there is no movement. */
  predicate RsiClear(p: nat, xs: seq<real>, n: nat, threshold: real)
    requires p + 1 <= n <= |xs|
  {
    var v := SpecValue(RsiSpec(p), xs);
    v.Some? && (Movement(p, xs) == 0.0
                || Times(Abs(v.value - threshold), Movement(p, xs)) > 100.0 * RsiGap(p, xs, n))
  }

  lemma DemaSides(short: nat, long: nat, xs: seq<real>, n: nat, lo: real, hi: real, threshold: real)
    requires 1 <= short <= n && 1 <= long <= n <= |xs| && AllWithin(xs, lo, hi) && lo > 0.0
    requires DemaClear(short, long, xs, n, lo, hi, threshold)
    ensures var v, w := SpecValue(DemaSpec(short, long), xs), SpecValue(DemaSpec(short, long), Last(xs, n));
            v.Some? && w.Some? && SameSide(v.value, w.value, threshold)
  {
    hide SpecValue, DemaError;
    WindowDema(short, long, xs, n, lo, hi);
  }

  lemma SideKept(v: real, w: real, threshold: real, move: real, error: real)
    requires move >= 0.0 && -error <= Times(v - w, move) <= error && Times(Abs(v - threshold), move) > error
    ensures SameSide(v, w, threshold)
  {
    if Abs(v - threshold) <= v - w { ProductSign(v - w - Abs(v - threshold), move); }
    if Abs(v - threshold) <= w - v { ProductSign(w - v - Abs(v - threshold), move); }
  }

  lemma RsiSides(p: nat, xs: seq<real>, n: nat, threshold: real)
    requires 1 <= p && p + 1 <= n <= |xs| && RsiClear(p, xs, n, threshold)
    ensures var v, w := SpecValue(RsiSpec(p), xs), SpecValue(RsiSpec(p), Last(xs, n));
            v.Some? && w.Some? && SameSide(v.value, w.value, threshold)
  {
    hide SpecValue, RsiGap, RsiFold, Times, Last;
    WindowRsi(p, xs, n);
    RsiShape(p, xs);
    if Movement(p, xs) != 0.0 {
      SideKept(SpecValue(RsiSpec(p), xs).value, SpecValue(RsiSpec(p), Last(xs, n)).value, threshold,
               Movement(p, xs), 100.0 * RsiGap(p, xs, n));
    }
  }

  // ---------- what a decision compares ----------

  /** The values a strategy reads of a set, as computed from a price history. */
  predicate ReadsValues(s: Strategy, point: IndicatorSet, xs: seq<real>) {
    && Shaped(s, point) && Complete(point)
    && point.values[0] == ValuesAt(Indicators(s), xs)[0]
    && (s.S1? ==> point.values[3] == ValuesAt(Indicators(s), xs)[3])
  }

  /** Enough prices for every value the decision reads: for S1, of the set before, too. */
  predicate Enough(s: Strategy, n: nat) {
    match s
    case EMACrossover(short, long, _, _) => n >= short && n >= long
    case RSIStrategy(period, _, _) => n >= period + 1
    case S1(short, long, _, _, _, _) => n >= short + 1 && n >= long + 1 && n >= RSI_PERIOD + 2
  }

  /** Every value that the decision to buy or to sell compares is clear of its threshold. */
  predicate Clear(s: Strategy, state: TradeState, xs: seq<real>, n: nat, lo: real, hi: real)
    requires GoodStrategy(s) && Enough(s, n) && n <= |xs| && lo > 0.0
  {
    match (s, state)
    case (_, UnknownState) => true
    case (EMACrossover(short, long, up, _), TryingToBuy) => DemaClear(short, long, xs, n, lo, hi, up)
    case (EMACrossover(short, long, _, down), TryingToSell) => DemaClear(short, long, xs, n, lo, hi, down)
    case (RSIStrategy(period, buy, _), TryingToBuy) => RsiClear(period, xs, n, buy)
    case (RSIStrategy(period, _, sell), TryingToSell) => RsiClear(period, xs, n, sell)
    case (S1(short, long, up, _, rsiExit, rsiEntrance), TryingToBuy) =>
      var before := xs[..|xs| - 1];
      && DemaClear(short, long, xs, n, lo, hi, up) && RsiClear(RSI_PERIOD, xs, n, rsiEntrance)
      && DemaClear(short, long, before, n - 1, lo, hi, up) && RsiClear(RSI_PERIOD, before, n - 1, rsiExit)
    case (S1(short, long, _, down, rsiExit, _), TryingToSell) =>
      DemaClear(short, long, xs, n, lo, hi, down) && RsiClear(RSI_PERIOD, xs, n, rsiExit)
  }

  predicate SameSideAt(a: IndicatorSet, b: IndicatorSet, k: nat, threshold: real) {
    && k < |a.values| && k < |b.values| && a.values[k].Some? && b.values[k].Some?
    && SameSide(a.values[k].value, b.values[k].value, threshold)
  }

  /** What two sets must agree on for the decision of a state. */
  predicate SameSides(s: Strategy, state: TradeState, a: IndicatorSet, b: IndicatorSet) {
    match (s, state)
    case (_, UnknownState) => true
    case (EMACrossover(_, _, up, _), TryingToBuy) => SameSideAt(a, b, 0, up)
    case (EMACrossover(_, _, _, down), TryingToSell) => SameSideAt(a, b, 0, down)
    case (RSIStrategy(_, buy, _), TryingToBuy) => SameSideAt(a, b, 0, buy)
    case (RSIStrategy(_, _, sell), TryingToSell) => SameSideAt(a, b, 0, sell)
    case (S1(_, _, up, _, _, rsiEntrance), TryingToBuy) => SameSideAt(a, b, 0, up) && SameSideAt(a, b, 3, rsiEntrance)
    case (S1(_, _, _, down, rsiExit, _), TryingToSell) => SameSideAt(a, b, 0, down) && SameSideAt(a, b, 3, rsiExit)
  }

  /** Two histories whose latest sets, and for S1 the ones before, are on the same sides. */
  predicate SameCalls(s: Strategy, state: TradeState, h: seq<IndicatorSet>, i: nat, g: seq<IndicatorSet>, j: nat)
    requires i < |h| && j < |g|
  {
    && Shaped(s, h[i]) && Complete(h[i]) && Shaped(s, g[j]) && Complete(g[j]) && SameSides(s, state, h[i], g[j])
    && (s.S1? && state == TryingToBuy ==>
          && i >= 1 && j >= 1 && |h[i - 1].values| == |g[j - 1].values| == 4
          && SameSideAt(h[i - 1], g[j - 1], 0, s.up) && SameSideAt(h[i - 1], g[j - 1], 3, s.rsiExit))
  }

  lemma CallsDecide(s: Strategy, h: seq<IndicatorSet>, i: nat, g: seq<IndicatorSet>, j: nat, m: Model, e: Environment)
    requires |h| == i + 1 && j < |g| && SameCalls(s, m.state, h, i, g, j) && EachComplete(g, |Indicators(s)|)
    ensures ProcessTick(s, h, i, m, e) == ProcessTick(s, g, j, m, e)
  {
    assert Valid(i, h) && Valid(j, g);
    hide ProcessBuy, ProcessSell, Valid;
  }

  lemma ValuesAre(s: Strategy, xs: seq<real>)
    ensures var v := ValuesAt(Indicators(s), xs);
            match s
            case EMACrossover(short, long, _, _) => v[0] == SpecValue(DemaSpec(short, long), xs)
            case RSIStrategy(period, _, _) => v[0] == SpecValue(RsiSpec(period), xs)
            case S1(short, long, _, _, _, _) =>
              v[0] == SpecValue(DemaSpec(short, long), xs) && v[3] == SpecValue(RsiSpec(RSI_PERIOD), xs)
  {
    hide SpecValue;
  }

  /** S1's two values, over one history. */
  lemma {:induction false} S1Sides(s: Strategy, xs: seq<real>, n: nat, lo: real, hi: real, a: IndicatorSet,
                                   b: IndicatorSet, level: real, index: real)
    requires s.S1? && GoodStrategy(s) && s.short <= n && s.long <= n && RSI_PERIOD + 1 <= n <= |xs|
    requires lo > 0.0 && AllWithin(xs, lo, hi)
    requires DemaClear(s.short, s.long, xs, n, lo, hi, level) && RsiClear(RSI_PERIOD, xs, n, index)
    requires ReadsValues(s, a, Last(xs, n)) && ReadsValues(s, b, xs)
    ensures SameSideAt(a, b, 0, level) && SameSideAt(a, b, 3, index)
  {
    hide SpecValue, DemaClear, RsiClear, Last, AllWithin, ValuesAt;
    ValuesAre(s, xs);
    ValuesAre(s, Last(xs, n));
    DemaSides(s.short, s.long, xs, n, lo, hi, level);
    RsiSides(RSI_PERIOD, xs, n, index);
  }

  /** Values clear of their thresholds are on the same side computed from the last n prices. */
  lemma {:induction false} ClearSides(s: Strategy, state: TradeState, xs: seq<real>, n: nat, lo: real, hi: real,
                                      a: IndicatorSet, b: IndicatorSet)
    requires GoodStrategy(s) && Enough(s, n) && n <= |xs| && lo > 0.0 && AllWithin(xs, lo, hi)
    requires Clear(s, state, xs, n, lo, hi)
    requires ReadsValues(s, a, Last(xs, n)) && ReadsValues(s, b, xs)
    ensures SameSides(s, state, a, b)
  {
    hide SpecValue, DemaClear, RsiClear, Last, AllWithin, ValuesAt;
    ValuesAre(s, xs);
    ValuesAre(s, Last(xs, n));
    match s
    case EMACrossover(short, long, up, down) =>
      if state == TryingToBuy { DemaSides(short, long, xs, n, lo, hi, up); }
      if state == TryingToSell { DemaSides(short, long, xs, n, lo, hi, down); }
    case RSIStrategy(period, buy, sell) =>
      if state == TryingToBuy { RsiSides(period, xs, n, buy); }
      if state == TryingToSell { RsiSides(period, xs, n, sell); }
    case S1(_, _, up, down, rsiExit, rsiEntrance) =>
      hide SameSideAt, ReadsValues;
      if state == TryingToBuy { S1Sides(s, xs, n, lo, hi, a, b, up, rsiEntrance); }
      if state == TryingToSell { S1Sides(s, xs, n, lo, hi, a, b, down, rsiExit); }
  }

  /** S1's look at the set before. */
  lemma {:induction false} ClearBefore(s: Strategy, xs: seq<real>, n: nat, lo: real, hi: real, a: IndicatorSet,
                                       b: IndicatorSet)
    requires s.S1? && GoodStrategy(s) && Enough(s, n) && n <= |xs| && lo > 0.0 && AllWithin(xs, lo, hi)
    requires Clear(s, TryingToBuy, xs, n, lo, hi)
    requires ReadsValues(s, a, Last(xs[..|xs| - 1], n - 1)) && ReadsValues(s, b, xs[..|xs| - 1])
    ensures SameSideAt(a, b, 0, s.up) && SameSideAt(a, b, 3, s.rsiExit)
  {
    hide DemaClear, RsiClear, Last, ReadsValues, SameSideAt;
    S1Sides(s, xs[..|xs| - 1], n - 1, lo, hi, a, b, s.up, s.rsiExit);
  }

  // ---------- the trader that is seeded from a window ----------

  /** What candles w to j of a history are. */
  function Window(cs: seq<Candle>, w: nat, j: nat): (us: seq<Candle>)
    requires w <= j < |cs|
    ensures |us| == j - w + 1
  {
    cs[w..j + 1]
  }

  /** How many traded candles there are from w to j. */
  function SeenIn(cs: seq<Candle>, w: nat, j: nat): nat
    requires w <= j < |cs|
  {
    |NonEmpty(Window(cs, w, j))|
  }

  lemma {:induction false} NonEmptyConcat(cs: seq<Candle>, ds: seq<Candle>)
    ensures NonEmpty(cs + ds) == NonEmpty(cs) + NonEmpty(ds)
  {
    if ds == [] {
      assert cs + ds == cs;
    } else {
      assert (cs + ds)[..|cs + ds| - 1] == cs + ds[..|ds| - 1];
      NonEmptyConcat(cs, ds[..|ds| - 1]);
    }
  }

  lemma WindowPrices(cs: seq<Candle>, w: nat, j: nat)
    requires w <= j < |cs|
    ensures var us, n := Window(cs, w, j), SeenIn(cs, w, j);
            && n <= |SeenAt(cs, j)| && SeenAt(us, j - w) == Last(SeenAt(cs, j), n)
            && NonEmpty(cs[..j + 1]) == NonEmpty(cs[..w]) + NonEmpty(us)
  {
    var us := Window(cs, w, j);
    assert cs[..j + 1] == cs[..w] + us && us[..j - w + 1] == us;
    NonEmptyConcat(cs[..w], us);
  }

  lemma EnoughNeeded(s: Strategy, n: nat)
    requires Enough(s, n)
    ensures n >= MostNeeded(Indicators(s)) + if s.S1? then 1 else 0
  {
    var specs := Indicators(s);
    match s
    case RSIStrategy(period, _, _) => MostOf([], RsiSpec(period));
    case EMACrossover(short, long, _, _) =>
      MostOf([], EmaSpec(long));
      MostOf([EmaSpec(long)], EmaSpec(short));
      MostOf([EmaSpec(short), EmaSpec(long)], DemaSpec(short, long));
      assert specs == [DemaSpec(short, long)] + ([EmaSpec(short)] + ([EmaSpec(long)] + []));
      assert [EmaSpec(short)] + [EmaSpec(long)] == [EmaSpec(short), EmaSpec(long)];
    case S1(short, long, _, _, _, _) =>
      var rsi := RsiSpec(RSI_PERIOD);
      MostOf([], rsi);
      MostOf([rsi], EmaSpec(long));
      MostOf([EmaSpec(long), rsi], EmaSpec(short));
      MostOf([EmaSpec(short), EmaSpec(long), rsi], DemaSpec(short, long));
      assert [rsi] + [] == [rsi] && [EmaSpec(long)] + [rsi] == [EmaSpec(long), rsi];
      assert [EmaSpec(short)] + [EmaSpec(long), rsi] == [EmaSpec(short), EmaSpec(long), rsi];
      assert specs == [DemaSpec(short, long)] + [EmaSpec(short), EmaSpec(long), rsi];
  }

  lemma MostOf(rest: seq<IndicatorSpec>, spec: IndicatorSpec)
    ensures MostNeeded([spec] + rest) == if Needed(spec) > MostNeeded(rest) then Needed(spec) else MostNeeded(rest)
  {
    assert ([spec] + rest)[1..] == rest;
  }

  /** A live set of enough candles has the values of its prices where the strategy reads them. */
  lemma LiveReads(s: Strategy, us: seq<Candle>, k: nat)
    requires GoodStrategy(s) && PositivePrices(NonEmpty(us)) && k < |us|
    requires |SeenAt(us, k)| >= MostNeeded(Indicators(s))
    ensures ReadsValues(s, Seeded(Indicators(s), us).sets[k], SeenAt(us, k))
  {
    hide Seeded, NonEmpty, MostNeeded, ValuesAt, GoodStrategy, PositivePrices, MeanPrices;
    LiveSetAt(s, us, k);
    SeenIsPrefix(us, k);
    PositivePrefix(NonEmpty(us), NonEmpty(us[..k + 1]));
    PricesPositive(NonEmpty(us[..k + 1]));
    StrategyPeriods(s);
    CompleteIff(Indicators(s), SeenAt(us, k));
  }

  /** And so has the set of a backtest. */
  lemma ComputedReads(s: Strategy, ts: seq<Candle>, n: nat)
    requires GoodStrategy(s) && PositivePrices(ts) && 1 <= n <= |ts| && n >= MostNeeded(Indicators(s))
    ensures var r, i := CompleteSets(Indicators(s), ts).sets, n - 1 - Dropped(s, ts);
            0 <= i < |r| && ReadsValues(s, r[i], MeanPrices(ts[..n]))
  {
    hide CompleteSets, Dropped, MeanPrices, GoodStrategy, PositivePrices, MostNeeded, ValuesAt, NonEmpty;
    ComputedAt(s, ts, n - 1);
    PositivePrefix(ts, ts[..n]);
    PricesPositive(ts[..n]);
    StrategyPeriods(s);
    CompleteIff(Indicators(s), MeanPrices(ts[..n]));
  }

  lemma SuffixPositive(cs: seq<Candle>, us: seq<Candle>)
    requires PositivePrices(cs + us)
    ensures PositivePrices(us)
  {
    hide Positive;
    assert forall i :: 0 <= i < |us| ==> us[i] == (cs + us)[|cs| + i];
  }

  lemma {:induction false} WindowPositive(cs: seq<Candle>, w: nat, j: nat)
    requires w <= j < |cs| && PositivePrices(NonEmpty(cs))
    ensures PositivePrices(NonEmpty(Window(cs, w, j)))
  {
    hide PositivePrices, NonEmpty;
    WindowPrices(cs, w, j);
    SeenIsPrefix(cs, j);
    PositivePrefix(NonEmpty(cs), NonEmpty(cs[..j + 1]));
    SuffixPositive(NonEmpty(cs[..w]), NonEmpty(Window(cs, w, j)));
  }

  /** The prices seen at a candle are those of the traded candles up to there. */
  lemma PricesAt(cs: seq<Candle>, j: nat)
    requires j < |cs| && cs[j].bar.volume != 0.0
    ensures var ts, xs := NonEmpty(cs), SeenAt(cs, j);
            && 1 <= |xs| <= |ts| && xs == MeanPrices(ts[..|xs|])
            && xs[..|xs| - 1] == MeanPrices(ts[..|xs| - 1])
            && (j > 0 ==> SeenAt(cs, j - 1) == xs[..|xs| - 1])
  {
    SeenIsPrefix(cs, j);
    var ts, us := NonEmpty(cs), NonEmpty(cs[..j + 1]);
    assert cs[..j + 1][..j] == cs[..j];
    assert us == NonEmpty(cs[..j]) + [cs[j]];
    MeanPricesSnoc(us);
    assert us[..|us| - 1] == NonEmpty(cs[..j]) == ts[..|us| - 1];
    hide MeanPrices;
  }

  lemma {:induction false} ReadsAre(s: Strategy, point: IndicatorSet, xs: seq<real>)
    requires ReadsValues(s, point, xs)
    ensures Shaped(s, point) && Complete(point)
  {
  }

  /** S1's set before the last one, in the window and in the backtest. */
  lemma {:induction false} BeforeWindow(s: Strategy, cs: seq<Candle>, w: nat, j: nat, lo: real, hi: real)
    requires s.S1? && GoodStrategy(s) && PositivePrices(NonEmpty(cs)) && w <= j < |cs| && cs[j].bar.volume != 0.0
    requires lo > 0.0 && AllWithin(SeenAt(cs, j), lo, hi)
    requires Enough(s, SeenIn(cs, w, j)) && SeenIn(cs, w, j) <= |SeenAt(cs, j)|
    requires Clear(s, TryingToBuy, SeenAt(cs, j), SeenIn(cs, w, j), lo, hi)
    ensures var live, r := Seeded(Indicators(s), Window(cs, w, j)).sets, CompleteSets(Indicators(s), NonEmpty(cs)).sets;
            var i := |SeenAt(cs, j)| - 1 - Dropped(s, NonEmpty(cs));
            && 1 <= i <= |r| && j > w && |live[j - w - 1].values| == |r[i - 1].values| == 4
            && SameSideAt(live[j - w - 1], r[i - 1], 0, s.up) && SameSideAt(live[j - w - 1], r[i - 1], 3, s.rsiExit)
  {
    hide Seeded, CompleteSets, NonEmpty, PositivePrices, Dropped, MeanPrices, MostNeeded, AllWithin;
    hide SeenAt, ReadsValues, Clear, GoodStrategy, SameSideAt;
    var us, n, ts, xs := Window(cs, w, j), SeenIn(cs, w, j), NonEmpty(cs), SeenAt(cs, j);
    WindowPrices(cs, w, j);
    WindowPositive(cs, w, j);
    EnoughNeeded(s, n);
    PricesAt(cs, j);
    PricesAt(us, j - w);
    SeenGrows(us, j - w);
    hide Window, SeenIn;
    var before := xs[..|xs| - 1];
    assert Last(xs, n)[..n - 1] == Last(before, n - 1);
    hide Last;
    LiveReads(s, us, j - w - 1);
    ComputedReads(s, ts, |xs| - 1);
    var i := |xs| - 1 - Dropped(s, ts);
    var a, b := Seeded(Indicators(s), us).sets[j - w - 1], CompleteSets(Indicators(s), ts).sets[i - 1];
    ReadsAre(s, a, Last(before, n - 1));
    ReadsAre(s, b, before);
    ClearBefore(s, xs, n, lo, hi, a, b);
  }

  lemma WindowCalls(s: Strategy, cs: seq<Candle>, w: nat, j: nat, state: TradeState, lo: real, hi: real)
    requires GoodStrategy(s) && PositivePrices(NonEmpty(cs)) && w <= j < |cs| && cs[j].bar.volume != 0.0
    requires lo > 0.0 && AllWithin(SeenAt(cs, j), lo, hi)
    requires Enough(s, SeenIn(cs, w, j)) && SeenIn(cs, w, j) <= |SeenAt(cs, j)|
    requires Clear(s, state, SeenAt(cs, j), SeenIn(cs, w, j), lo, hi)
    ensures var live, r := Seeded(Indicators(s), Window(cs, w, j)).sets, CompleteSets(Indicators(s), NonEmpty(cs)).sets;
            var i := |SeenAt(cs, j)| - 1 - Dropped(s, NonEmpty(cs));
            0 <= i < |r| && SameCalls(s, state, live, j - w, r, i)
  {
    hide Seeded, CompleteSets, NonEmpty, PositivePrices, Dropped, MeanPrices, MostNeeded, Window, AllWithin;
    hide SeenAt, ReadsValues, Clear, GoodStrategy, Enough, SameSides, SameSideAt;
    var us, n, ts, xs := Window(cs, w, j), SeenIn(cs, w, j), NonEmpty(cs), SeenAt(cs, j);
    WindowPrices(cs, w, j);
    WindowPositive(cs, w, j);
    EnoughNeeded(s, n);
    PricesAt(cs, j);
    LiveReads(s, us, j - w);
    ComputedReads(s, ts, |xs|);
    var r := CompleteSets(Indicators(s), ts).sets;
    var i := |xs| - 1 - Dropped(s, ts);
    ClearSides(s, state, xs, n, lo, hi, Seeded(Indicators(s), us).sets[j - w], r[i]);
    ReadsAre(s, Seeded(Indicators(s), us).sets[j - w], Last(xs, n));
    ReadsAre(s, r[i], xs);
    if s.S1? && state == TryingToBuy {
      BeforeWindow(s, cs, w, j, lo, hi);
    }
  }

  /** For every strategy, history and window of it with enough traded candles: where every value that
      the decision compares is farther from its threshold than the window can move it, the trader
      seeded from the window does exactly what the backtest of the whole history does there. */
  lemma {:induction false} WindowDecides(s: Strategy, cs: seq<Candle>, w: nat, j: nat, m: Model, e: Environment,
                                         lo: real, hi: real)
    requires GoodStrategy(s) && PositivePrices(NonEmpty(cs)) && w <= j < |cs| && cs[j].bar.volume != 0.0
    requires lo > 0.0 && AllWithin(SeenAt(cs, j), lo, hi)
    requires Enough(s, SeenIn(cs, w, j)) && SeenIn(cs, w, j) <= |SeenAt(cs, j)|
    requires Clear(s, m.state, SeenAt(cs, j), SeenIn(cs, w, j), lo, hi)
    ensures var live, r := Seeded(Indicators(s), Window(cs, w, j)).sets, CompleteSets(Indicators(s), NonEmpty(cs)).sets;
            var i := |SeenAt(cs, j)| - 1 - Dropped(s, NonEmpty(cs));
            0 <= i < |r| && ProcessTick(s, live, j - w, m, e) == ProcessTick(s, r, i, m, e)
  {
    hide Seeded, CompleteSets, NonEmpty, PositivePrices, Dropped, MeanPrices, AllWithin, SeenAt, Clear, GoodStrategy;
    hide Enough, SameCalls, EachComplete, ProcessTick;
    WindowCalls(s, cs, w, j, m.state, lo, hi);
    AllComplete(Indicators(s), NonEmpty(cs));
    var live, r := Seeded(Indicators(s), Window(cs, w, j)).sets, CompleteSets(Indicators(s), NonEmpty(cs)).sets;
    CallsDecide(s, live, j - w, r, |SeenAt(cs, j)| - 1 - Dropped(s, NonEmpty(cs)), m, e);
  }
}
