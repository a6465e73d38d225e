/** When the RSI's running averages are Wilder's smoothing, and when they forget where they started:
    the code divides by 14 whatever the period. */
module WilderSmoothing {
  import opened Options
  import opened Reals
  import opened Ema
  import opened Rsi

  // ---------- gains and losses of a history ----------

  function Gains(xs: seq<real>): (gs: seq<real>)
    requires xs != []
    ensures |gs| == |xs| - 1
  {
    seq(|xs| - 1, i requires 0 <= i < |xs| - 1 => GainOf(xs[i + 1] - xs[i]))
  }

  function Losses(xs: seq<real>): (ls: seq<real>)
    requires xs != []
    ensures |ls| == |xs| - 1
  {
    seq(|xs| - 1, i requires 0 <= i < |xs| - 1 => LossOf(xs[i + 1] - xs[i]))
  }

  lemma GainsGrow(xs: seq<real>)
    requires |xs| >= 2
    ensures var diff := xs[|xs| - 1] - xs[|xs| - 2];
            && Gains(xs) == Gains(xs[..|xs| - 1]) + [GainOf(diff)]
            && Losses(xs) == Losses(xs[..|xs| - 1]) + [LossOf(diff)]
  {
    hide GainOf, LossOf;
  }

  // ---------- the two ways to smooth ----------

  function WilderStep(p: nat, average: real, amount: real): real
    requires p >= 1
  {
    (average * (p as real - 1.0) + amount) / p as real
  }

  /** Wilder's smoothing: the mean of the first p amounts, then every new one weighs 1/p. */
  function Wilder(p: nat, amounts: seq<real>): real
    requires 1 <= p <= |amounts|
    decreases |amounts|
  {
    if |amounts| == p then Mean(amounts)
    else WilderStep(p, Wilder(p, amounts[..|amounts| - 1]), amounts[|amounts| - 1])
  }

  /** The code's smoothing, which starts alike. */
  function Carried(p: nat, amounts: seq<real>): real
    requires 1 <= p <= |amounts|
    decreases |amounts|
  {
    if |amounts| == p then Mean(amounts)
    else Smooth(p, Carried(p, amounts[..|amounts| - 1]), amounts[|amounts| - 1])
  }

  lemma {:induction false} SumsAreTotals(p: nat, xs: seq<real>)
    requires xs != [] && p >= 1
    ensures var s := RsiFold(p, xs); s.sumGains == Sum(Gains(xs)) && s.sumLosses == Sum(Losses(xs))
  {
    var front := xs[..|xs| - 1];
    if front == [] {
      assert RsiFold(p, front) == NewRsi(p);
    } else {
      SumsAreTotals(p, front);
      RsiShape(p, front);
      GainsGrow(xs);
      hide Gains, Losses, Smooth, RsiOf, GainOf, LossOf;
    }
  }

  /** For every period and history, the running averages carry the gains and the losses on. */
  lemma {:induction false} AveragesAreCarried(p: nat, xs: seq<real>)
    requires 1 <= p < |xs|
    ensures var s := RsiFold(p, xs); s.averageGain == Carried(p, Gains(xs)) && s.averageLoss == Carried(p, Losses(xs))
  {
    hide RsiOf, GainOf, LossOf, Gains, Losses, NonNegative, Smooth;
    var front := xs[..|xs| - 1];
    RsiShape(p, front);
    if |xs| == p + 1 {
      SumsAreTotals(p, xs);
    } else {
      AveragesAreCarried(p, front);
      GainsGrow(xs);
    }
  }

  // ---------- when they agree ----------

  predicate AllZero(amounts: seq<real>) {
    forall i :: 0 <= i < |amounts| ==> amounts[i] == 0.0
  }

  predicate AllNonNegative(amounts: seq<real>) {
    forall i :: 0 <= i < |amounts| ==> amounts[i] >= 0.0
  }

  lemma {:induction false} SumSign(amounts: seq<real>)
    requires AllNonNegative(amounts)
    ensures Sum(amounts) >= 0.0 && (Sum(amounts) == 0.0 <==> AllZero(amounts))
  {
    if amounts != [] {
      SumSign(amounts[..|amounts| - 1]);
    }
  }

  lemma MeanSign(amounts: seq<real>)
    requires amounts != [] && AllNonNegative(amounts)
    ensures if AllZero(amounts) then Mean(amounts) == 0.0 else Mean(amounts) > 0.0
  {
    SumSign(amounts);
    var q, n := Mean(amounts), |amounts| as real;
    assert q * n == Sum(amounts);
    if q <= 0.0 { ProductSign(-q, n); }
  }

  /** The larger divisor gives less, strictly unless there is nothing to divide. */
  lemma LargerDivisor(x: real, y: real, m: real, n: real)
    requires 0.0 < m < n && 0.0 <= x <= y && y > 0.0
    ensures 0.0 <= x / n < y / m
    ensures x > 0.0 ==> x / n > 0.0
  {
    var q, r := x / n, y / m;
    assert q * n == x && r * m == y;
    if q < 0.0 { ProductPositive(-q, n); }
    if r <= q {
      ProductSign(q - r, m);
      assert (q - r) * m == q * m - r * m;
      assert q * n == q * m + q * (n - m);
      if q > 0.0 {
        ProductPositive(q, n - m);
      } else {
        ProductSign(-r, m);
      }
    }
  }

  lemma NumeratorsApart(n: real, carried: real, wilder: real, x: real)
    requires n > 0.0 && carried >= 0.0 && wilder >= 0.0 && x >= 0.0
    requires (carried > 0.0 && wilder > 0.0) || x > 0.0
    ensures carried * n + x > 0.0 && wilder * n + x > 0.0
    ensures carried <= wilder ==> carried * n + x <= wilder * n + x
    ensures carried >= wilder ==> carried * n + x >= wilder * n + x
  {
    ProductSign(carried, n);
    ProductSign(wilder, n);
    if x == 0.0 {
      ProductPositive(carried, n);
      ProductPositive(wilder, n);
    }
    if carried <= wilder {
      ProductSign(wilder - carried, n);
      assert (wilder - carried) * n == wilder * n - carried * n;
    } else {
      ProductSign(carried - wilder, n);
      assert (carried - wilder) * n == carried * n - wilder * n;
    }
  }

  lemma StepApart(p: nat, carried: real, wilder: real, x: real)
    requires p >= 2 && carried >= 0.0 && wilder >= 0.0 && x >= 0.0
    requires (carried > 0.0 && wilder > 0.0) || x > 0.0
    ensures Smooth(p, carried, x) > 0.0 && WilderStep(p, wilder, x) > 0.0
    ensures p < 14 && carried <= wilder ==> Smooth(p, carried, x) < WilderStep(p, wilder, x)
    ensures p > 14 && carried >= wilder ==> Smooth(p, carried, x) > WilderStep(p, wilder, x)
  {
    hide Smooth, WilderStep;
    var n := p as real - 1.0;
    var c, w := carried * n + x, wilder * n + x;
    NumeratorsApart(n, carried, wilder, x);
    QuotientsApart(p, c, w);
    StepsAre(p, carried, wilder, x, c, w);
  }

  lemma StepsAre(p: nat, carried: real, wilder: real, x: real, c: real, w: real)
    requires p >= 1 && c == carried * (p as real - 1.0) + x && w == wilder * (p as real - 1.0) + x
    ensures Smooth(p, carried, x) == c / 14.0 && WilderStep(p, wilder, x) == w / p as real
  {
  }

  lemma QuotientsApart(p: nat, c: real, w: real)
    requires p >= 2 && c > 0.0 && w > 0.0
    ensures c / 14.0 > 0.0 && w / p as real > 0.0
    ensures p < 14 && c <= w ==> c / 14.0 < w / p as real
    ensures p > 14 && c >= w ==> c / 14.0 > w / p as real
  {
    PositiveQuotient(c, 14.0);
    PositiveQuotient(w, p as real);
    if p < 14 && c <= w { LargerDivisor(c, w, p as real, 14.0); }
    if p > 14 && c >= w { LargerDivisor(w, c, 14.0, p as real); }
  }

  lemma PositiveQuotient(x: real, n: real)
    requires x > 0.0 && n > 0.0
    ensures x / n > 0.0
  {
    var q := x / n;
    assert q * n == x;
    if q <= 0.0 { ProductSign(-q, n); }
  }

  /** From period 2 on: on the first p amounts the two are equal; after them the code's is below
      Wilder's for periods below 14 and above it for periods above, as soon as anything moved. */
  lemma {:induction false} CarriedVersusWilder(p: nat, amounts: seq<real>)
    requires 2 <= p <= |amounts| && AllNonNegative(amounts)
    ensures var c, w := Carried(p, amounts), Wilder(p, amounts);
            if AllZero(amounts) then c == 0.0 && w == 0.0
            else c > 0.0 && w > 0.0 && (if |amounts| == p || p == 14 then c == w else if p < 14 then c < w else c > w)
    decreases |amounts|
  {
    if |amounts| == p {
      MeanSign(amounts);
    } else {
      var front, x := amounts[..|amounts| - 1], amounts[|amounts| - 1];
      CarriedVersusWilder(p, front);
      assert amounts == front + [x];
      AllZeroGrows(front, x);
      CarriedStep(p, amounts);
      var c, w := Carried(p, front), Wilder(p, front);
      hide Carried, Wilder, AllZero, AllNonNegative, Mean, Smooth, WilderStep;
      if AllZero(amounts) {
        StepsFromNothing(p);
      } else {
        StepApart(p, c, w, x);
        if p == 14 { SameStep(c, x); }
      }
    }
  }

  lemma CarriedStep(p: nat, amounts: seq<real>)
    requires 1 <= p < |amounts|
    ensures var front, x := amounts[..|amounts| - 1], amounts[|amounts| - 1];
            && Carried(p, amounts) == Smooth(p, Carried(p, front), x)
            && Wilder(p, amounts) == WilderStep(p, Wilder(p, front), x)
  {
    hide Smooth, WilderStep;
  }

  lemma SameStep(average: real, x: real)
    ensures Smooth(14, average, x) == WilderStep(14, average, x)
  {
  }

  lemma StepsFromNothing(p: nat)
    requires p >= 1
    ensures Smooth(p, 0.0, 0.0) == 0.0 && WilderStep(p, 0.0, 0.0) == 0.0
  {
  }

  /** With period 1 Wilder's smoothing is the last amount; the code's is a fourteenth of it. */
  lemma PeriodOne(amounts: seq<real>)
    requires amounts != []
    ensures var x := amounts[|amounts| - 1];
            Wilder(1, amounts) == x && Carried(1, amounts) == if |amounts| == 1 then x else x / 14.0
  {
    if |amounts| == 1 {
      assert amounts[..0] == [];
      assert Sum(amounts) == amounts[0];
    }
  }

  /** What has to be still for the code's smoothing of another period than 14 to be Wilder's. */
  predicate Still(p: nat, xs: seq<real>)
    requires 1 <= p < |xs|
  {
    if p == 1 then xs[|xs| - 1] == xs[|xs| - 2] else forall i :: 0 <= i < |xs| ==> xs[i] == xs[0]
  }

  lemma {:induction false} StillIffNothingMoved(xs: seq<real>)
    requires xs != []
    ensures (forall i :: 0 <= i < |xs| ==> xs[i] == xs[0]) <==> AllZero(Gains(xs)) && AllZero(Losses(xs))
  {
    if |xs| >= 2 {
      var front := xs[..|xs| - 1];
      StillIffNothingMoved(front);
      GainsGrow(xs);
      var diff := xs[|xs| - 1] - xs[|xs| - 2];
      hide Gains, Losses;
      AllZeroGrows(Gains(front), GainOf(diff));
      AllZeroGrows(Losses(front), LossOf(diff));
    }
  }

  lemma AllZeroGrows(amounts: seq<real>, x: real)
    ensures AllZero(amounts + [x]) <==> AllZero(amounts) && x == 0.0
  {
    var longer := amounts + [x];
    assert longer[|amounts|] == x && forall i :: 0 <= i < |amounts| ==> longer[i] == amounts[i];
  }

  lemma AmountsNonNegative(xs: seq<real>)
    requires xs != []
    ensures AllNonNegative(Gains(xs)) && AllNonNegative(Losses(xs))
  {
  }

  /** For every period and every history with enough prices: the running averages are Wilder's
      smoothing of the gains and of the losses exactly when the period is 14, or only the first
      averages are in, or nothing moved (with period 1: at the last price). */
  lemma RsiIsWilderIff(p: nat, xs: seq<real>)
    requires 1 <= p < |xs|
    ensures RsiFold(p, xs).averageGain == Wilder(p, Gains(xs)) && RsiFold(p, xs).averageLoss == Wilder(p, Losses(xs))
       <==> p == 14 || |xs| == p + 1 || Still(p, xs)
  {
    AveragesAreCarried(p, xs);
    AmountsNonNegative(xs);
    hide RsiFold, Carried, Wilder;
    if p == 1 {
      PeriodOne(Gains(xs));
      PeriodOne(Losses(xs));
    } else {
      CarriedVersusWilder(p, Gains(xs));
      CarriedVersusWilder(p, Losses(xs));
      StillIffNothingMoved(xs);
    }
  }

  /** For period 14, the value too. */
  lemma RsiIsWilder(xs: seq<real>)
    requires |xs| >= 15
    ensures RsiValueOf(RsiFold(14, xs)) == Some(RsiOf(Wilder(14, Gains(xs)), Wilder(14, Losses(xs))))
  {
    RsiIsWilderIff(14, xs);
    RsiShape(14, xs);
  }

  /** Four rising prices and period 2: the average gain is a seventh, and not 1. */
  lemma RisingIsNotWilder()
    ensures var xs := [1.0, 2.0, 3.0, 4.0];
            !(RsiFold(2, xs).averageGain == Wilder(2, Gains(xs)) && RsiFold(2, xs).averageLoss == Wilder(2, Losses(xs)))
  {
    var xs := [1.0, 2.0, 3.0, 4.0];
    assert xs[1] != xs[0];
    RsiIsWilderIff(2, xs);
  }

  // ---------- closed form ----------

  /** Wilder's smoothing of period p is an exponential average of period 2p - 1, in closed form. */
  lemma WilderClosedForm(p: nat, amounts: seq<real>)
    requires 1 <= p <= |amounts|
    ensures Wilder(p, amounts) == EmaFrom(2 * p - 1, Mean(amounts[..p]), amounts[p..])
    ensures Wilder(p, amounts)
         == Damped(2 * p - 1, |amounts| - p, Mean(amounts[..p])) + Weighted(2 * p - 1, amounts[p..])
  {
    hide EmaFrom, Wilder, Damped, Weighted, Mean;
    WilderIsAverage(p, amounts);
    EmaClosedForm(2 * p - 1, Mean(amounts[..p]), amounts[p..]);
  }

  lemma {:induction false} WilderIsAverage(p: nat, amounts: seq<real>)
    requires 1 <= p <= |amounts|
    ensures Wilder(p, amounts) == EmaFrom(2 * p - 1, Mean(amounts[..p]), amounts[p..])
    decreases |amounts|
  {
    if |amounts| == p {
      assert amounts[..p] == amounts && amounts[p..] == [];
    } else {
      var front, x := amounts[..|amounts| - 1], amounts[|amounts| - 1];
      WilderIsAverage(p, front);
      assert front[..p] == amounts[..p] && amounts[p..] == front[p..] + [x];
      EmaFromConcat(2 * p - 1, Mean(amounts[..p]), front[p..], [x]);
      assert [x][1..] == [];
      hide EmaStep;
      assert EmaFrom(2 * p - 1, Wilder(p, front), [x]) == EmaStep(2 * p - 1, Wilder(p, front), x);
      WilderIsStep(p, Wilder(p, front), x);
    }
  }

  lemma WilderIsStep(p: nat, v: real, x: real)
    requires p >= 1
    ensures EmaStep(2 * p - 1, v, x) == WilderStep(p, v, x)
  {
    var n, c := p as real, Weight(2 * p - 1);
    assert c * (2.0 * n) == 2.0;
    var u := EmaStep(2 * p - 1, v, x);
    assert u * n == c * n * (x - v) + v * n;
    assert c * n == 1.0;
  }

  // ---------- forgetting ----------

  /** How much of an older average one more price keeps. */
  function Keeps(p: nat): real {
    (p as real - 1.0) / 14.0
  }

  lemma SmoothApart(p: nat, v: real, w: real, x: real)
    ensures Smooth(p, v, x) - Smooth(p, w, x) == Keeps(p) * (v - w)
  {
    var n := p as real - 1.0;
    assert v * n - w * n == n * (v - w);
  }

  lemma AddsApart(s: RsiState, t: RsiState, x: real)
    requires s.periods == t.periods && s.iterations > s.periods && t.iterations > t.periods
    requires s.iterations > 0 && t.iterations > 0 && s.lastValue == t.lastValue
    ensures var u, v := RsiAdd(s, x), RsiAdd(t, x);
            && u.averageGain - v.averageGain == Keeps(s.periods) * (s.averageGain - t.averageGain)
            && u.averageLoss - v.averageLoss == Keeps(s.periods) * (s.averageLoss - t.averageLoss)
  {
    SmoothApart(s.periods, s.averageGain, t.averageGain, GainOf(x - s.lastValue));
    SmoothApart(s.periods, s.averageLoss, t.averageLoss, LossOf(x - s.lastValue));
    hide Smooth, RsiOf, Keeps, GainOf, LossOf;
  }

  /** Two indicators of one period that are past it and at the same price, fed the same n prices,
      end up exactly ((p - 1) / 14)^n times their difference apart. */
  lemma {:induction false} FoldsApart(p: nat, xs: seq<real>, ys: seq<real>, zs: seq<real>)
    requires 1 <= p < |xs| && p < |ys| && xs[|xs| - 1] == ys[|ys| - 1]
    ensures var s, t, u, v := RsiFold(p, xs), RsiFold(p, ys), RsiFold(p, xs + zs), RsiFold(p, ys + zs);
            && u.averageGain - v.averageGain == Pow(Keeps(p), |zs|) * (s.averageGain - t.averageGain)
            && u.averageLoss - v.averageLoss == Pow(Keeps(p), |zs|) * (s.averageLoss - t.averageLoss)
  {
    hide RsiAdd, RsiOf, NonNegative, Keeps;
    if zs == [] {
      assert xs + zs == xs && ys + zs == ys;
    } else {
      var front, x := zs[..|zs| - 1], zs[|zs| - 1];
      FoldsApart(p, xs, ys, front);
      assert (xs + zs)[..|xs + zs| - 1] == xs + front && (ys + zs)[..|ys + zs| - 1] == ys + front;
      RsiShape(p, xs + front);
      RsiShape(p, ys + front);
      var a, b, s, t := RsiFold(p, xs), RsiFold(p, ys), RsiFold(p, xs + front), RsiFold(p, ys + front);
      assert RsiFold(p, xs + zs) == RsiAdd(s, x) && RsiFold(p, ys + zs) == RsiAdd(t, x);
      hide RsiFold, Pow;
      AddsApart(s, t, x);
      PowGrows(Keeps(p), |front|, a.averageGain - b.averageGain, s.averageGain - t.averageGain);
      PowGrows(Keeps(p), |front|, a.averageLoss - b.averageLoss, s.averageLoss - t.averageLoss);
    }
  }

  lemma PowGrows(r: real, n: nat, d: real, gap: real)
    requires gap == Pow(r, n) * d
    ensures r * gap == Pow(r, n + 1) * d
  {
    var q := Pow(r, n);
    assert r * (q * d) == r * q * d;
  }

  function Abs(x: real): real {
    if x < 0.0 then -x else x
  }

  lemma {:induction false} PowVersusOne(r: real, n: nat)
    requires r >= 0.0 && n >= 1
    ensures if r < 1.0 then 0.0 <= Pow(r, n) < 1.0 else Pow(r, n) >= 1.0
  {
    var q := Pow(r, n - 1);
    assert Pow(r, n) == r * q;
    if n > 1 {
      PowVersusOne(r, n - 1);
    }
    hide Pow;
    StaysOnSide(r, q);
  }

  lemma StaysOnSide(r: real, q: real)
    requires r >= 0.0 && if r < 1.0 then 0.0 <= q <= 1.0 else q >= 1.0
    ensures if r < 1.0 then 0.0 <= r * q < 1.0 else r * q >= 1.0
  {
    if r < 1.0 {
      ProductSign(r, q);
      ProductSign(r, 1.0 - q);
      assert r * (1.0 - q) == r - r * q;
    } else {
      ProductSign(r - 1.0, q);
      assert (r - 1.0) * q == r * q - q;
    }
  }

  lemma ShrinksIff(q: real, d: real, gap: real)
    requires q >= 0.0 && d != 0.0 && gap == q * d
    ensures Abs(gap) < Abs(d) <==> q < 1.0
  {
    var m := Abs(d);
    ProductSign(q, m);
    if d < 0.0 {
      assert q * -d == -(q * d);
      assert q * m == -gap;
    } else {
      assert q * m == gap;
    }
    assert Abs(gap) == q * m;
    if q < 1.0 {
      ProductPositive(1.0 - q, m);
      assert (1.0 - q) * m == m - q * m;
    } else {
      ProductSign(q - 1.0, m);
      assert (q - 1.0) * m == q * m - m;
    }
  }

  /** For every period and history: seeding from the last h prices instead of all of them leaves
      the running averages exactly ((p - 1) / 14)^(h - p - 1) times as far apart as they were at
      the end of the window's own seed. They come closer exactly for periods below 15. */
  lemma WindowForgetsIff(p: nat, xs: seq<real>, h: nat)
    requires 1 <= p && p + 1 <= h <= |xs|
    ensures var k := |xs| - h + p + 1;
            var all, seed := RsiFold(p, xs[..k]), RsiFold(p, xs[|xs| - h..k]);
            var s, t := RsiFold(p, xs), RsiFold(p, xs[|xs| - h..]);
            && s.averageGain - t.averageGain == Pow(Keeps(p), h - p - 1) * (all.averageGain - seed.averageGain)
            && s.averageLoss - t.averageLoss == Pow(Keeps(p), h - p - 1) * (all.averageLoss - seed.averageLoss)
            && (h > p + 1 && all.averageGain != seed.averageGain ==>
                  (Abs(s.averageGain - t.averageGain) < Abs(all.averageGain - seed.averageGain) <==> p < 15))
            && (h > p + 1 && all.averageLoss != seed.averageLoss ==>
                  (Abs(s.averageLoss - t.averageLoss) < Abs(all.averageLoss - seed.averageLoss) <==> p < 15))
  {
    hide RsiFold, Pow, Abs;
    var k := |xs| - h + p + 1;
    var first, window, rest := xs[..k], xs[|xs| - h..k], xs[k..];
    assert xs == first + rest && xs[|xs| - h..] == window + rest && |rest| == h - p - 1;
    FoldsApart(p, first, window, rest);
    var all, seed, q := RsiFold(p, first), RsiFold(p, window), Pow(Keeps(p), h - p - 1);
    var s, t := RsiFold(p, xs), RsiFold(p, xs[|xs| - h..]);
    assert Keeps(p) >= 0.0 && (Keeps(p) < 1.0 <==> p < 15);
    if h > p + 1 {
      PowVersusOne(Keeps(p), h - p - 1);
      hide Keeps;
      if all.averageGain != seed.averageGain {
        ShrinksIff(q, all.averageGain - seed.averageGain, s.averageGain - t.averageGain);
      }
      if all.averageLoss != seed.averageLoss {
        ShrinksIff(q, all.averageLoss - seed.averageLoss, s.averageLoss - t.averageLoss);
      }
    }
  }

  lemma GainSign(p: nat, xs: seq<real>)
    requires 2 <= p < |xs|
    ensures if AllZero(Gains(xs)) then RsiFold(p, xs).averageGain == 0.0 else RsiFold(p, xs).averageGain > 0.0
  {
    hide Carried, Wilder, RsiFold, Gains, Losses;
    AveragesAreCarried(p, xs);
    AmountsNonNegative(xs);
    CarriedVersusWilder(p, Gains(xs));
  }

  lemma OneRise(p: nat, n: nat)
    requires 2 <= p < n
    ensures RsiFold(p, [1.0] + seq(n, _ => 2.0)).averageGain > 0.0 && RsiFold(p, seq(n, _ => 2.0)).averageGain == 0.0
  {
    hide RsiFold;
    var flat: seq<real> := seq(n, _ => 2.0);
    var risen := [1.0] + flat;
    assert AllZero(Gains(flat));
    assert Gains(risen)[0] == GainOf(risen[1] - risen[0]) == 1.0;
    GainSign(p, flat);
    GainSign(p, risen);
  }

  /** For every period from 15 on, a history whose first price a window misses, and which the
      average gain has not forgotten by its end. */
  lemma NeverForgets(p: nat)
    requires p >= 15
    ensures var xs := [1.0] + seq(p + 2, _ => 2.0);
            var all, seed := RsiFold(p, xs[..p + 2]), RsiFold(p, xs[1..p + 2]);
            && all.averageGain != seed.averageGain
            && Abs(RsiFold(p, xs).averageGain - RsiFold(p, xs[1..]).averageGain)
               >= Abs(all.averageGain - seed.averageGain)
  {
    hide RsiFold, Pow, Keeps;
    var xs := [1.0] + seq(p + 2, _ => 2.0);
    assert xs[..p + 2] == [1.0] + seq(p + 1, _ => 2.0) && xs[1..p + 2] == seq(p + 1, _ => 2.0);
    OneRise(p, p + 1);
    WindowForgetsIff(p, xs, p + 2);
  }
}
