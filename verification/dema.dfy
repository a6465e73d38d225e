/** The relative difference of a short and a long average: it follows the trend, and it does not
    depend on the unit prices are quoted in. */
module Dema {
  import opened Options
  import opened Candlesticks
  import opened Reals
  import opened Ema

  datatype DemaState = DemaState(short: EmaState, long: EmaState)

  function NewDema(short: nat, long: nat): DemaState {
    DemaState(NewEma(short), NewEma(long))
  }

  function DemaAdd(d: DemaState, price: real): DemaState {
    DemaState(EmaAdd(d.short, price), EmaAdd(d.long, price))
  }

  /** Averages of positive prices never add up to zero; the zero case only makes this total. */
  function RelativeDifference(short: real, long: real): real {
    if short + long == 0.0 then 0.0 else (short - long) / (short + long) / 2.0
  }

  function DemaValueOf(d: DemaState): Option<real> {
    if d.short.lastEMA == 0.0 || d.long.lastEMA == 0.0 then None
    else Some(RelativeDifference(d.short.lastEMA, d.long.lastEMA))
  }

  class DEMAIndicator {
    const shortEMA: EMAIndicator
    const longEMA: EMAIndicator
    var lastTime: int

    ghost function Contents(): DemaState
      reads shortEMA, longEMA
    {
      DemaState(shortEMA.Contents(), longEMA.Contents())
    }

    constructor (shortPeriod: nat, longPeriod: nat)
      ensures Contents() == NewDema(shortPeriod, longPeriod)
      ensures fresh(shortEMA) && fresh(longEMA) && shortEMA != longEMA
    {
      shortEMA := new EMAIndicator(shortPeriod);
      longEMA := new EMAIndicator(longPeriod);
      lastTime := 0;
    }

    method AddCandlestick(c: Candle)
      requires shortEMA != longEMA
      modifies this, shortEMA, longEMA
      ensures Contents() == if c.bar.volume == 0.0 then old(Contents()) else DemaAdd(old(Contents()), c.MeanPrice())
    {
      if c.bar.volume == 0.0 {
        return;
      }
      shortEMA.AddCandlestick(c);
      longEMA.AddCandlestick(c);
      lastTime := c.start;
    }

    /** Averages that cancel make the code divide by zero: the value is infinite. */
    method Value() returns (v: Option<real>, infinite: bool)
      ensures infinite <==> shortEMA.lastEMA != 0.0 && shortEMA.lastEMA + longEMA.lastEMA == 0.0
      ensures v == if infinite then None else DemaValueOf(Contents())
    {
      var short := shortEMA.Value();
      if short.None? { return None, false; }
      var long := longEMA.Value();
      if long.None? { return None, false; }
      if short.value + long.value == 0.0 { return None, true; }
      v := Some((short.value - long.value) / (short.value + long.value) / 2.0);
      infinite := false;
    }
  }

  function DemaFold(short: nat, long: nat, xs: seq<real>): DemaState {
    if xs == [] then NewDema(short, long) else DemaAdd(DemaFold(short, long, xs[..|xs| - 1]), xs[|xs| - 1])
  }

  lemma {:induction false} DemaFoldSplits(short: nat, long: nat, xs: seq<real>)
    ensures DemaFold(short, long, xs) == DemaState(EmaFold(short, xs), EmaFold(long, xs))
  {
    if xs != [] {
      DemaFoldSplits(short, long, xs[..|xs| - 1]);
    }
  }

  // ---------- following the trend ----------

  predicate Rising(xs: seq<real>) {
    forall i, j :: 0 <= i < j < |xs| ==> xs[i] <= xs[j]
  }

  predicate Falling(xs: seq<real>) {
    forall i, j :: 0 <= i < j < |xs| ==> xs[i] >= xs[j]
  }

  /** Leaning more on the newest and highest price, from a start no lower, gives no less. */
  lemma LeanMore(c: real, d: real, s: real, a: real, x: real)
    requires 0.0 <= d <= c <= 1.0 && a <= s <= x
    ensures d * (x - a) + a <= c * (x - s) + s <= x
  {
    ProductSign(1.0 - c, s - a);
    ProductSign(c - d, x - a);
    ProductSign(1.0 - c, x - s);
    assert c * (x - s) + s - (d * (x - a) + a) == (1.0 - c) * (s - a) + (c - d) * (x - a);
    assert x - (c * (x - s) + s) == (1.0 - c) * (x - s);
  }

  lemma MeanStep(xs: seq<real>, x: real)
    requires xs != []
    ensures Mean(xs + [x]) == 1.0 / (|xs| as real + 1.0) * (x - Mean(xs)) + Mean(xs)
  {
    assert (xs + [x])[..|xs|] == xs;
    var n, m := |xs| as real, Mean(xs);
    assert m * n == Sum(xs);
    MeanAlgebra(n, m, x);
  }

  lemma MeanAlgebra(n: real, m: real, x: real)
    requires n > 0.0
    ensures (m * n + x) / (n + 1.0) == 1.0 / (n + 1.0) * (x - m) + m
  {
    var k := 1.0 / (n + 1.0);
    assert k * (n + 1.0) == 1.0;
    assert (m * n + x) / (n + 1.0) == k * (m * n + x);
    assert k * (m * n + x) == k * (m * (n + 1.0)) + k * (x - m);
    assert k * (m * (n + 1.0)) == m * (k * (n + 1.0));
  }

  lemma ReciprocalOrder(a: real, b: real)
    requires 0.0 < a <= b
    ensures 1.0 / b <= 1.0 / a
  {
    ProductSign(1.0 / a, b - a);
    assert 1.0 / a * b >= 1.0;
  }

  lemma WeightVersusMean(period: nat, n: nat)
    requires 1 <= period <= n
    ensures 0.0 <= 1.0 / (n as real + 1.0) <= Weight(period) <= 1.0
  {
    ReciprocalOrder(period as real + 1.0, n as real + 1.0);
    assert Weight(period) == 2.0 * (1.0 / (period as real + 1.0));
  }

  lemma WeightOrder(short: nat, long: nat)
    requires 1 <= short <= long
    ensures 0.0 <= Weight(long) <= Weight(short) <= 1.0
  {
    ReciprocalOrder(short as real + 1.0, long as real + 1.0);
    assert Weight(short) == 2.0 * (1.0 / (short as real + 1.0));
    assert Weight(long) == 2.0 * (1.0 / (long as real + 1.0));
  }

  /** On rising prices an average is no less than the plain mean and no more than the last price. */
  lemma {:induction false} LeadsMean(period: nat, xs: seq<real>)
    requires 1 <= period <= |xs| && Rising(xs)
    ensures Mean(xs) <= Average(period, xs) <= xs[|xs| - 1]
  {
    hide Mean, Average, Weight;
    var last := xs[|xs| - 1];
    if |xs| == period {
      AverageSeed(period, xs);
      MeanBounds(xs, xs[0], last);
    } else {
      var front := xs[..|xs| - 1];
      LeadsMean(period, front);
      assert xs == front + [last];
      MeanStep(front, last);
      AverageStep(period, front, last);
      WeightVersusMean(period, |front|);
      LeanMore(Weight(period), 1.0 / (|front| as real + 1.0), Average(period, front), Mean(front), last);
    }
  }

  /** On rising prices the short average is never below the long one. */
  lemma {:induction false} ShortLeads(short: nat, long: nat, xs: seq<real>)
    requires 1 <= short <= long <= |xs| && Rising(xs)
    ensures Average(long, xs) <= Average(short, xs) <= xs[|xs| - 1]
  {
    hide Mean, Average, Weight;
    LeadsMean(short, xs);
    if |xs| == long {
      AverageSeed(long, xs);
    } else {
      var front, last := xs[..|xs| - 1], xs[|xs| - 1];
      ShortLeads(short, long, front);
      assert xs == front + [last];
      AverageStep(short, front, last);
      AverageStep(long, front, last);
      WeightOrder(short, long);
      LeanMore(Weight(short), Weight(long), Average(short, front), Average(long, front), last);
    }
  }

  // ---------- scaling ----------

  function Times(k: real, x: real): real {
    k * x
  }

  function Scale(xs: seq<real>, k: real): (ys: seq<real>)
    ensures |ys| == |xs|
    ensures forall i :: 0 <= i < |xs| ==> ys[i] == Times(k, xs[i])
  {
    seq(|xs|, i requires 0 <= i < |xs| => Times(k, xs[i]))
  }

  lemma ScaleSlice(xs: seq<real>, k: real, a: nat, b: nat)
    requires a <= b <= |xs|
    ensures Scale(xs, k)[a..b] == Scale(xs[a..b], k)
  {
    hide Times;
  }

  lemma {:induction false} SumScales(xs: seq<real>, k: real)
    ensures Sum(Scale(xs, k)) == k * Sum(xs)
  {
    if xs != [] {
      SumScales(xs[..|xs| - 1], k);
      ScaleSlice(xs, k, 0, |xs| - 1);
      assert k * (Sum(xs[..|xs| - 1]) + xs[|xs| - 1]) == k * Sum(xs[..|xs| - 1]) + k * xs[|xs| - 1];
    }
  }

  lemma MeanScales(xs: seq<real>, k: real)
    requires xs != []
    ensures Mean(Scale(xs, k)) == Times(k, Mean(xs))
  {
    SumScales(xs, k);
    var n, s := |xs| as real, Sum(xs);
    assert k * s / n == k * (s / n);
  }

  lemma StepScales(period: nat, v: real, x: real, k: real)
    ensures EmaStep(period, Times(k, v), Times(k, x)) == Times(k, EmaStep(period, v, x))
  {
    var c := Weight(period);
    assert c * (k * x - k * v) == k * (c * (x - v));
  }

  lemma {:induction false} FromScales(period: nat, v: real, xs: seq<real>, k: real)
    ensures EmaFrom(period, Times(k, v), Scale(xs, k)) == Times(k, EmaFrom(period, v, xs))
    decreases |xs|
  {
    hide Times, EmaStep;
    if xs != [] {
      ScaleSlice(xs, k, 1, |xs|);
      assert xs[1..|xs|] == xs[1..] && Scale(xs, k)[1..|xs|] == Scale(xs, k)[1..];
      StepScales(period, v, xs[0], k);
      FromScales(period, EmaStep(period, v, xs[0]), xs[1..], k);
    }
  }

  /** An average is in the unit of its prices. */
  lemma AverageScales(period: nat, xs: seq<real>, k: real)
    requires 1 <= period <= |xs|
    ensures Average(period, Scale(xs, k)) == Times(k, Average(period, xs))
  {
    hide Times, Mean;
    ScaleSlice(xs, k, 0, period);
    ScaleSlice(xs, k, period, |xs|);
    assert xs[period..|xs|] == xs[period..] && Scale(xs, k)[period..|xs|] == Scale(xs, k)[period..];
    assert xs[0..period] == xs[..period] && Scale(xs, k)[0..period] == Scale(xs, k)[..period];
    MeanScales(xs[..period], k);
    FromScales(period, Mean(xs[..period]), xs[period..], k);
  }

  // ---------- the indicator over whole histories ----------

  lemma DemaComputes(short: nat, long: nat, xs: seq<real>)
    requires 1 <= short && 1 <= long && AllAbove(xs, 0.0)
    ensures DemaValueOf(DemaFold(short, long, xs))
         == if |xs| < short || |xs| < long then None
            else Some(RelativeDifference(Average(short, xs), Average(long, xs)))
  {
    DemaFoldSplits(short, long, xs);
    EmaComputesAverage(short, xs);
    EmaComputesAverage(long, xs);
  }

  lemma DifferenceBounds(s: real, l: real)
    requires s > 0.0 && l > 0.0
    ensures -0.5 < RelativeDifference(s, l) < 0.5
    ensures s >= l ==> RelativeDifference(s, l) >= 0.0
    ensures s <= l ==> RelativeDifference(s, l) <= 0.0
  {
    var q := (s - l) / (s + l);
    assert q * (s + l) == s - l;
    if q >= 1.0 {
      ProductSign(q - 1.0, s + l);
    }
    if q <= -1.0 {
      ProductSign(-1.0 - q, s + l);
    }
    if s >= l && q < 0.0 {
      ProductPositive(-q, s + l);
    }
    if s <= l && q > 0.0 {
      ProductPositive(q, s + l);
    }
  }

  lemma RatioOf(s: real, l: real)
    requires s + l != 0.0
    ensures var v := RelativeDifference(s, l); s * (1.0 - 2.0 * v) == l * (1.0 + 2.0 * v)
  {
    var w := (s - l) / (s + l);
    assert w * (s + l) == s - l;
    assert s * (1.0 - w) - l * (1.0 + w) == s - l - w * (s + l);
  }

  /** The value gives the ratio of the two averages back. */
  lemma RatioFromDema(short: nat, long: nat, xs: seq<real>)
    requires 1 <= short && 1 <= long && AllAbove(xs, 0.0)
    ensures var v := DemaValueOf(DemaFold(short, long, xs));
            && (v.Some? <==> |xs| >= short && |xs| >= long)
            && (v.Some? ==> Average(short, xs) * (1.0 - 2.0 * v.value) == Average(long, xs) * (1.0 + 2.0 * v.value))
  {
    hide Average, RelativeDifference, DemaValueOf;
    DemaComputes(short, long, xs);
    if |xs| >= short && |xs| >= long {
      AveragePositive(short, xs);
      AveragePositive(long, xs);
      RatioOf(Average(short, xs), Average(long, xs));
    }
  }

  /** If mean prices never fall, every value of the indicator is in [0, 1/2). */
  lemma RisingDema(short: nat, long: nat, xs: seq<real>)
    requires 1 <= short <= long && AllAbove(xs, 0.0) && Rising(xs)
    ensures var v := DemaValueOf(DemaFold(short, long, xs)); v.Some? ==> 0.0 <= v.value < 0.5
  {
    DemaComputes(short, long, xs);
    if long <= |xs| {
      ShortLeads(short, long, xs);
      AveragePositive(short, xs);
      AveragePositive(long, xs);
      DifferenceBounds(Average(short, xs), Average(long, xs));
    }
  }

  /** If they never rise, every value is in (-1/2, 0]. */
  lemma FallingDema(short: nat, long: nat, xs: seq<real>)
    requires 1 <= short <= long && AllAbove(xs, 0.0) && Falling(xs)
    ensures var v := DemaValueOf(DemaFold(short, long, xs)); v.Some? ==> -0.5 < v.value <= 0.0
  {
    DemaComputes(short, long, xs);
    if long <= |xs| {
      ShortLeads(short, long, Scale(xs, -1.0));
      AverageScales(short, xs, -1.0);
      AverageScales(long, xs, -1.0);
      AveragePositive(short, xs);
      AveragePositive(long, xs);
      DifferenceBounds(Average(short, xs), Average(long, xs));
    }
  }

  lemma DifferenceUnitFree(s: real, l: real, k: real)
    requires s > 0.0 && l > 0.0 && k > 0.0
    ensures RelativeDifference(Times(k, s), Times(k, l)) == RelativeDifference(s, l)
  {
    ProductPositive(k, s);
    ProductPositive(k, l);
    assert k * s - k * l == k * (s - l) && k * s + k * l == k * (s + l);
    ProductPositive(k, s + l);
    CancelFactor(s - l, s + l, k);
    assert k * s + k * l != 0.0;
  }

  lemma CancelFactor(a: real, b: real, k: real)
    requires b > 0.0 && k > 0.0 && k * b > 0.0
    ensures (k * a) / (k * b) == a / b
  {
    var q := a / b;
    assert q * b == a;
    assert q * (k * b) == k * a;
  }

  lemma ScaledAbove(xs: seq<real>, k: real)
    requires AllAbove(xs, 0.0) && k > 0.0
    ensures AllAbove(Scale(xs, k), 0.0)
  {
    forall i | 0 <= i < |xs| ensures Scale(xs, k)[i] > 0.0 {
      ProductPositive(k, xs[i]);
    }
  }

  /** Quoting prices in another unit changes no value of the indicator. */
  lemma DemaUnitFree(short: nat, long: nat, xs: seq<real>, k: real)
    requires 1 <= short && 1 <= long && AllAbove(xs, 0.0) && k > 0.0
    ensures DemaValueOf(DemaFold(short, long, Scale(xs, k))) == DemaValueOf(DemaFold(short, long, xs))
  {
    hide Average, DemaFold, RelativeDifference, Times;
    ScaledAbove(xs, k);
    DemaComputes(short, long, xs);
    DemaComputes(short, long, Scale(xs, k));
    if short <= |xs| && long <= |xs| {
      AverageScales(short, xs, k);
      AverageScales(long, xs, k);
      AveragePositive(short, xs);
      AveragePositive(long, xs);
      DifferenceUnitFree(Average(short, xs), Average(long, xs), k);
    }
  }
}
