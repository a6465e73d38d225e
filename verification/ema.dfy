/** The incremental exponential moving average, and what it computes over a whole price history. */
module Ema {
  import opened Options
  import opened Candlesticks
  import opened Reals

  // ---------- means ----------

  function Sum(xs: seq<real>): real {
    if xs == [] then 0.0 else Sum(xs[..|xs| - 1]) + xs[|xs| - 1]
  }

  function Mean(xs: seq<real>): real
    requires xs != []
  {
    Sum(xs) / |xs| as real
  }

  function Max(a: int, b: int): int {
    if a > b then a else b
  }

  /** The mean of the last `period` values up to `index`, or of as many as there are; of none, when
      the code divides zero by zero. */
  method SMA(period: nat, values: seq<real>, index: nat) returns (mean: Option<real>)
    requires index < |values|
    ensures mean == if period == 0 then None else Some(Mean(values[Max(0, index - period + 1)..index + 1]))
  {
    var sum := 0.0;
    var num := 0;
    var i: int := index - period + 1;
    ghost var lo := Max(0, i);
    ghost var end := Max(i, index + 1);
    while i <= index
      invariant i <= end
      invariant num == Max(i, lo) - lo
      invariant sum == Sum(values[lo..Max(i, lo)])
    {
      if i >= 0 {
        assert values[lo..i + 1][..i - lo] == values[lo..i];
        sum := sum + values[i];
        num := num + 1;
      }
      i := i + 1;
    }
    mean := if num == 0 then None else Some(sum / num as real);
  }

  // ---------- the indicator ----------

  /** `lastEMA` of zero means that there have not been enough candles yet. */
  datatype EmaState = EmaState(period: nat, values: seq<real>, lastEMA: real)

  function NewEma(period: nat): EmaState {
    EmaState(period, [], 0.0)
  }

  /** The weight of the newest price. */
  function Weight(period: nat): real {
    2.0 / (period as real + 1.0)
  }

  function EmaStep(period: nat, last: real, price: real): real {
    Weight(period) * (price - last) + last
  }

  /** A period of zero wraps around in the code's `period - 1`, so such an average never starts. */
  function EmaAdd(s: EmaState, price: real): EmaState {
    if s.lastEMA == 0.0 && (s.period == 0 || |s.values| < s.period - 1) then
      s.(values := s.values + [price])
    else if s.lastEMA == 0.0 && |s.values| == s.period - 1 then
      s.(values := [], lastEMA := Mean(s.values + [price]))
    else
      s.(lastEMA := EmaStep(s.period, s.lastEMA, price))
  }

  function EmaValueOf(s: EmaState): Option<real> {
    if s.lastEMA == 0.0 then None else Some(s.lastEMA)
  }

  class EMAIndicator {
    const period: nat
    var lastTime: int
    var lastEMA: real
    var values: seq<real>

    ghost function Contents(): EmaState
      reads this
    {
      EmaState(period, values, lastEMA)
    }

    constructor (p: nat)
      ensures period == p && Contents() == NewEma(p)
    {
      period, lastTime, lastEMA, values := p, 0, 0.0, [];
    }

    method AddCandlestick(c: Candle)
      modifies this
      ensures Contents() == if c.bar.volume == 0.0 then old(Contents()) else EmaAdd(old(Contents()), c.MeanPrice())
      ensures lastTime == if c.bar.volume == 0.0 then old(lastTime) else c.start
    {
      if c.bar.volume == 0.0 {
        return;
      }
      var price := c.MeanPrice();
      lastTime := c.start;
      if lastEMA == 0.0 {
        if period == 0 || |values| < period - 1 {
          values := values + [price];
          return;
        }
        if |values| == period - 1 {
          values := values + [price];
          assert values[Max(0, period - 1 - period + 1)..period] == values;
          var mean := SMA(period, values, period - 1);
          lastEMA := mean.value;
          values := [];
          return;
        }
      }
      var constant := 2.0 / (period as real + 1.0);
      lastEMA := constant * (price - lastEMA) + lastEMA;
    }

    method Value() returns (v: Option<real>)
      ensures v == EmaValueOf(Contents())
    {
      v := if lastEMA == 0.0 then None else Some(lastEMA);
    }
  }

  /** The indicator after a whole price history. */
  function EmaFold(period: nat, xs: seq<real>): EmaState {
    if xs == [] then NewEma(period) else EmaAdd(EmaFold(period, xs[..|xs| - 1]), xs[|xs| - 1])
  }

  // ---------- what it computes ----------

  predicate AllAbove(xs: seq<real>, lo: real) {
    forall i :: 0 <= i < |xs| ==> xs[i] > lo
  }

  predicate AllWithin(xs: seq<real>, lo: real, hi: real) {
    forall i :: 0 <= i < |xs| ==> lo <= xs[i] <= hi
  }

  /** Averaging on from a given value, oldest price first. */
  function EmaFrom(period: nat, v: real, xs: seq<real>): real
    decreases |xs|
  {
    if xs == [] then v else EmaFrom(period, EmaStep(period, v, xs[0]), xs[1..])
  }

  /** The average of a history of at least `period` prices: the mean of the first ones, carried on. */
  function Average(period: nat, xs: seq<real>): real
    requires 1 <= period <= |xs|
  {
    EmaFrom(period, Mean(xs[..period]), xs[period..])
  }

  lemma {:induction false} EmaFromConcat(period: nat, v: real, xs: seq<real>, ys: seq<real>)
    ensures EmaFrom(period, v, xs + ys) == EmaFrom(period, EmaFrom(period, v, xs), ys)
    decreases |xs|
  {
    if xs == [] {
      assert xs + ys == ys;
    } else {
      assert (xs + ys)[1..] == xs[1..] + ys;
      EmaFromConcat(period, EmaStep(period, v, xs[0]), xs[1..], ys);
    }
  }

  lemma AverageConcat(period: nat, xs: seq<real>, ys: seq<real>)
    requires 1 <= period <= |xs|
    ensures Average(period, xs + ys) == EmaFrom(period, Average(period, xs), ys)
  {
    assert (xs + ys)[..period] == xs[..period];
    assert (xs + ys)[period..] == xs[period..] + ys;
    EmaFromConcat(period, Mean(xs[..period]), xs[period..], ys);
  }

  lemma AverageStep(period: nat, xs: seq<real>, x: real)
    requires 1 <= period <= |xs|
    ensures Average(period, xs + [x]) == EmaStep(period, Average(period, xs), x)
  {
    AverageConcat(period, xs, [x]);
  }

  lemma AverageSeed(period: nat, xs: seq<real>)
    requires 1 <= period == |xs|
    ensures Average(period, xs) == Mean(xs)
  {
    assert xs[..period] == xs && xs[period..] == [];
  }

  // ---------- bounds ----------

  lemma {:induction false} SumBounds(xs: seq<real>, lo: real, hi: real)
    requires AllWithin(xs, lo, hi)
    ensures lo * |xs| as real <= Sum(xs) <= hi * |xs| as real
  {
    if xs != [] {
      SumBounds(xs[..|xs| - 1], lo, hi);
      var m := (|xs| - 1) as real;
      assert lo * (m + 1.0) == lo * m + lo && hi * (m + 1.0) == hi * m + hi;
    }
  }

  lemma MeanBounds(xs: seq<real>, lo: real, hi: real)
    requires xs != [] && AllWithin(xs, lo, hi)
    ensures lo <= Mean(xs) <= hi
  {
    SumBounds(xs, lo, hi);
    var n := |xs| as real;
    assert Mean(xs) * n == Sum(xs);
  }

  lemma WeightBounds(period: nat)
    requires period >= 1
    ensures 0.0 < Weight(period) <= 1.0
  {
  }

  lemma StepBounds(period: nat, v: real, x: real, lo: real, hi: real)
    requires period >= 1 && lo <= v <= hi && lo <= x <= hi
    ensures lo <= EmaStep(period, v, x) <= hi
  {
    WeightBounds(period);
    MixBounds(Weight(period), v, x, lo, hi);
  }

  lemma {:induction false} FromBounds(period: nat, v: real, xs: seq<real>, lo: real, hi: real)
    requires period >= 1 && lo <= v <= hi && AllWithin(xs, lo, hi)
    ensures lo <= EmaFrom(period, v, xs) <= hi
    decreases |xs|
  {
    if xs != [] {
      StepBounds(period, v, xs[0], lo, hi);
      FromBounds(period, EmaStep(period, v, xs[0]), xs[1..], lo, hi);
    }
  }

  /** An average stays between the least and the greatest price it has seen. */
  lemma AverageBounds(period: nat, xs: seq<real>, lo: real, hi: real)
    requires 1 <= period <= |xs| && AllWithin(xs, lo, hi)
    ensures lo <= Average(period, xs) <= hi
  {
    MeanBounds(xs[..period], lo, hi);
    FromBounds(period, Mean(xs[..period]), xs[period..], lo, hi);
  }

  lemma {:induction false} LeastPositive(xs: seq<real>) returns (lo: real, hi: real)
    requires xs != [] && AllAbove(xs, 0.0)
    ensures lo > 0.0 && AllWithin(xs, lo, hi)
  {
    var last := xs[|xs| - 1];
    if |xs| == 1 {
      lo, hi := last, last;
    } else {
      lo, hi := LeastPositive(xs[..|xs| - 1]);
      forall i | 0 <= i < |xs| ensures (if last < lo then last else lo) <= xs[i] <= (if last > hi then last else hi) {
        if i < |xs| - 1 { assert xs[i] == xs[..|xs| - 1][i]; }
      }
      lo, hi := if last < lo then last else lo, if last > hi then last else hi;
    }
  }

  lemma AveragePositive(period: nat, xs: seq<real>)
    requires 1 <= period <= |xs| && AllAbove(xs, 0.0)
    ensures Average(period, xs) > 0.0
  {
    var lo, hi := LeastPositive(xs);
    AverageBounds(period, xs, lo, hi);
  }

  /** For every positive price history: the running fields hold the prices themselves until there
      are `period` of them, and the average from then on. */
  lemma {:induction false} EmaComputesAverage(period: nat, xs: seq<real>)
    requires period >= 1 && AllAbove(xs, 0.0)
    ensures EmaFold(period, xs) == if |xs| < period then EmaState(period, xs, 0.0)
                                   else EmaState(period, [], Average(period, xs))
    ensures EmaValueOf(EmaFold(period, xs)) == if |xs| < period then None else Some(Average(period, xs))
  {
    if |xs| >= period {
      AveragePositive(period, xs);
    }
    if xs != [] {
      var front, x := xs[..|xs| - 1], xs[|xs| - 1];
      assert xs == front + [x];
      EmaComputesAverage(period, front);
      if |xs| == period {
        AverageSeed(period, xs);
      } else if |xs| > period {
        AveragePositive(period, front);
        AverageStep(period, front, x);
      }
    }
  }

  // ---------- geometric forgetting ----------

  function Pow(r: real, n: nat): real {
    if n == 0 then 1.0 else r * Pow(r, n - 1)
  }

  /** How much of an older value one more price keeps. */
  function Decay(period: nat): real {
    (period as real - 1.0) / (period as real + 1.0)
  }

  lemma DecayIsRest(period: nat)
    requires period >= 1
    ensures Decay(period) == 1.0 - Weight(period)
    ensures 0.0 <= Decay(period) < 1.0
  {
    var p := period as real;
    assert (p - 1.0) / (p + 1.0) + 2.0 / (p + 1.0) == 1.0;
  }

  /** What n more prices leave of an older value. */
  function Damped(period: nat, n: nat, v: real): real {
    Pow(Decay(period), n) * v
  }

  /** The weighted sum of prices, the newest weighing most. */
  function Weighted(period: nat, xs: seq<real>): real {
    if xs == [] then 0.0
    else Weight(period) * Pow(Decay(period), |xs| - 1) * xs[0] + Weighted(period, xs[1..])
  }

  lemma ExpandStep(q: real, p: real, c: real, v: real, x: real, u: real)
    requires p == (1.0 - c) * q && u == c * (x - v) + v
    ensures q * u == p * v + c * q * x
  {
    assert u == (1.0 - c) * v + c * x;
    assert q * u == q * ((1.0 - c) * v) + q * (c * x);
    assert q * ((1.0 - c) * v) == p * v;
    assert q * (c * x) == c * q * x;
  }

  lemma DampedStep(period: nat, n: nat, v: real, x: real)
    requires period >= 1
    ensures Damped(period, n, EmaStep(period, v, x))
         == Damped(period, n + 1, v) + Weight(period) * Pow(Decay(period), n) * x
  {
    var r, c := Decay(period), Weight(period);
    DecayIsRest(period);
    hide Decay, Weight;
    ExpandStep(Pow(r, n), Pow(r, n + 1), c, v, x, EmaStep(period, v, x));
  }

  /** An average in closed form: geometric weights on the prices and on the value it started from. */
  lemma {:induction false} EmaClosedForm(period: nat, v: real, xs: seq<real>)
    requires period >= 1
    ensures EmaFrom(period, v, xs) == Damped(period, |xs|, v) + Weighted(period, xs)
    decreases |xs|
  {
    if xs == [] {
      assert Damped(period, 0, v) == v;
    } else {
      EmaClosedForm(period, EmaStep(period, v, xs[0]), xs[1..]);
      DampedStep(period, |xs| - 1, v, xs[0]);
      hide EmaStep, Weight, Decay, Pow;
    }
  }

  /** Two averages of one period fed the same n prices end up exactly ((p-1)/(p+1))^n times
      their starting difference apart. */
  lemma StartForgotten(period: nat, v: real, w: real, xs: seq<real>)
    requires period >= 1
    ensures EmaFrom(period, v, xs) - EmaFrom(period, w, xs) == Pow(Decay(period), |xs|) * (v - w)
  {
    EmaClosedForm(period, v, xs);
    EmaClosedForm(period, w, xs);
    var q := Pow(Decay(period), |xs|);
    assert q * v - q * w == q * (v - w);
  }

  lemma {:induction false} PowNonNegative(r: real, n: nat)
    requires r >= 0.0
    ensures Pow(r, n) >= 0.0
  {
    if n > 0 {
      PowNonNegative(r, n - 1);
    }
  }

  /** Seeding from the last h candles instead of all of them changes the average by at most
      ((p-1)/(p+1))^(h-p) times the price range. */
  lemma HistoryWindowSuffices(period: nat, xs: seq<real>, h: nat, lo: real, hi: real)
    requires 1 <= period <= h <= |xs| && AllWithin(xs, lo, hi)
    ensures var diff := Average(period, xs) - Average(period, xs[|xs| - h..]);
            var bound := Pow(Decay(period), h - period) * (hi - lo);
            -bound <= diff <= bound
  {
    hide Average, Pow, Decay, EmaFrom;
    var k := |xs| - h + period;
    var seed, rest := xs[|xs| - h..k], xs[k..];
    assert xs == xs[..k] + rest;
    assert xs[|xs| - h..] == seed + rest;
    AverageConcat(period, xs[..k], rest);
    AverageConcat(period, seed, rest);
    var v, w := Average(period, xs[..k]), Average(period, seed);
    AverageBounds(period, xs[..k], lo, hi);
    AverageBounds(period, seed, lo, hi);
    StartForgotten(period, v, w, rest);
    var q := Pow(Decay(period), h - period);
    var diff := Average(period, xs) - Average(period, xs[|xs| - h..]);
    assert |rest| == h - period;
    DecayIsRest(period);
    PowNonNegative(Decay(period), h - period);
    ScaledGap(q, v - w, hi - lo, diff, q * (hi - lo));
  }
}
