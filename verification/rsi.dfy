/** The incremental relative strength index. */
module Rsi {
  import opened Options
  import opened Candlesticks
  import opened Reals
  import opened Dema

  datatype RsiState = RsiState(
    periods: nat, iterations: nat, lastValue: real,
    sumGains: real, sumLosses: real, averageGain: real, averageLoss: real, current: real)

  function NewRsi(periods: nat): RsiState {
    RsiState(periods, 0, 0.0, 0.0, 0.0, 0.0, 0.0, 0.0)
  }

  /** With a period of at least 1 the averages are never negative, so 1 + rs is never zero. */
  function RsiFromRs(rs: real): real {
    if 1.0 + rs == 0.0 then 0.0 else 100.0 - 100.0 / (1.0 + rs)
  }

  function RsiOf(gain: real, loss: real): real {
    if gain == 0.0 && loss == 0.0 then 50.0
    else if gain == 0.0 then 0.0
    else if loss == 0.0 then 100.0
    else RsiFromRs(gain / loss)
  }

  function GainOf(diff: real): real {
    if diff >= 0.0 then diff else 0.0
  }

  function LossOf(diff: real): real {
    if diff < 0.0 then -diff else 0.0
  }

  /** The code divides by the literal 14 whatever the period. */
  function Smooth(periods: nat, average: real, amount: real): real {
    (average * (periods as real - 1.0) + amount) / 14.0
  }

  function RsiAdd(s: RsiState, price: real): RsiState {
    var t := s.(iterations := s.iterations + 1, lastValue := price);
    if s.iterations == 0 then t
    else
      var diff := price - s.lastValue;
      var u := t.(sumGains := s.sumGains + GainOf(diff), sumLosses := s.sumLosses + LossOf(diff));
      if s.iterations < s.periods then u
      else if s.iterations == s.periods then
        var gain, loss := u.sumGains / s.periods as real, u.sumLosses / s.periods as real;
        u.(averageGain := gain, averageLoss := loss, current := RsiOf(gain, loss))
      else
        var gain := Smooth(s.periods, s.averageGain, GainOf(diff));
        var loss := Smooth(s.periods, s.averageLoss, LossOf(diff));
        u.(averageGain := gain, averageLoss := loss, current := RsiOf(gain, loss))
  }

  function RsiValueOf(s: RsiState): Option<real> {
    if s.iterations <= s.periods then None else Some(s.current)
  }

  class RSIIndicator {
    const periods: nat
    var iterations: nat
    var lastValue: real
    var sumGains: real
    var sumLosses: real
    var lastAverageGain: real
    var lastAverageLoss: real
    var currentRSI: real
    var lastTime: int

    ghost function Contents(): RsiState
      reads this
    {
      RsiState(periods, iterations, lastValue, sumGains, sumLosses, lastAverageGain, lastAverageLoss, currentRSI)
    }

    constructor (p: nat)
      ensures periods == p && Contents() == NewRsi(p)
    {
      periods, iterations, lastTime := p, 0, 0;
      lastValue, sumGains, sumLosses, lastAverageGain, lastAverageLoss, currentRSI := 0.0, 0.0, 0.0, 0.0, 0.0, 0.0;
    }

    method AddCandlestick(c: Candle)
      modifies this
      ensures Contents() == if c.bar.volume == 0.0 then old(Contents()) else RsiAdd(old(Contents()), c.MeanPrice())
    {
      if c.bar.volume == 0.0 {
        return;
      }
      var price := c.MeanPrice();
      Update(price);
      iterations := iterations + 1;
      lastValue := price;
      lastTime := c.start;
    }

    /** Everything but the three fields that the deferred function sets. */
    method Update(price: real)
      modifies this
      ensures iterations == old(iterations) && lastTime == old(lastTime)
      ensures Contents().(iterations := iterations + 1, lastValue := price) == RsiAdd(old(Contents()), price)
    {
      hide RsiFromRs;
      if iterations == 0 {
        return;
      }
      var diff := price - lastValue;
      if diff >= 0.0 {
        sumGains := sumGains + diff;
      } else {
        sumLosses := sumLosses - diff;
      }
      if iterations < periods {
        return;
      }
      if iterations == periods {
        lastAverageGain := sumGains / periods as real;
        lastAverageLoss := sumLosses / periods as real;
      } else {
        var averageGain: real;
        if diff >= 0.0 {
          averageGain := (lastAverageGain * (periods as real - 1.0) + diff) / 14.0;
        } else {
          averageGain := lastAverageGain * (periods as real - 1.0) / 14.0;
        }
        var averageLoss: real;
        if diff < 0.0 {
          averageLoss := (lastAverageLoss * (periods as real - 1.0) - diff) / 14.0;
        } else {
          averageLoss := lastAverageLoss * (periods as real - 1.0) / 14.0;
        }
        assert averageGain == Smooth(periods, lastAverageGain, GainOf(diff));
        assert averageLoss == Smooth(periods, lastAverageLoss, LossOf(diff));
        lastAverageGain := averageGain;
        lastAverageLoss := averageLoss;
      }
      if lastAverageGain == 0.0 && lastAverageLoss == 0.0 {
        currentRSI := 50.0;
      } else if lastAverageGain == 0.0 {
        currentRSI := 0.0;
      } else if lastAverageLoss == 0.0 {
        currentRSI := 100.0;
      } else {
        currentRSI := RsiFromRs(lastAverageGain / lastAverageLoss);
      }
    }

    method Value() returns (v: Option<real>)
      ensures v == RsiValueOf(Contents())
    {
      v := if iterations <= periods then None else Some(currentRSI);
    }
  }

  function RsiFold(periods: nat, xs: seq<real>): RsiState {
    if xs == [] then NewRsi(periods) else RsiAdd(RsiFold(periods, xs[..|xs| - 1]), xs[|xs| - 1])
  }

  // ---------- the index as a share ----------

  predicate NonNegative(s: RsiState) {
    s.sumGains >= 0.0 && s.sumLosses >= 0.0 && s.averageGain >= 0.0 && s.averageLoss >= 0.0
  }

  lemma QuotientSign(a: real, b: real)
    requires a >= 0.0 && b > 0.0
    ensures a / b >= 0.0
    ensures a > 0.0 ==> a / b > 0.0
  {
    var q := a / b;
    assert q * b == a;
    if q < 0.0 { ProductPositive(-q, b); }
  }

  /** Unless there was no movement at all, the index is the gains' share of gains and losses. */
  lemma RsiIsShare(gain: real, loss: real)
    requires gain >= 0.0 && loss >= 0.0
    ensures RsiOf(gain, loss) == if gain + loss == 0.0 then 50.0 else 100.0 * (gain / (gain + loss))
  {
    if gain > 0.0 && loss > 0.0 {
      QuotientSign(gain, loss);
      var rs, total := gain / loss, gain + loss;
      assert rs * loss == gain;
      var q := gain / total;
      assert q * total == gain;
      var k := 1.0 / (1.0 + rs);
      assert k * (1.0 + rs) == 1.0;
      assert (1.0 + rs) * loss == total;
      assert k * total == loss by {
        assert k * ((1.0 + rs) * loss) == (k * (1.0 + rs)) * loss;
      }
      ShareUnique(1.0 - k, q, total);
      assert 100.0 / (1.0 + rs) == 100.0 * k;
    } else if gain > 0.0 {
      assert gain / gain == 1.0;
    }
  }

  lemma ShareUnique(p: real, q: real, total: real)
    requires total > 0.0 && p * total == q * total
    ensures p == q
  {
    if p < q { ProductPositive(q - p, total); }
    if p > q { ProductPositive(p - q, total); }
  }

  lemma RsiBounds(gain: real, loss: real)
    requires gain >= 0.0 && loss >= 0.0
    ensures 0.0 <= RsiOf(gain, loss) <= 100.0
  {
    RsiIsShare(gain, loss);
    if gain + loss > 0.0 {
      var q := gain / (gain + loss);
      QuotientSign(gain, gain + loss);
      assert q * (gain + loss) == gain;
      if q > 1.0 { ProductPositive(q - 1.0, gain + loss); }
    }
  }

  lemma RsiSwaps(gain: real, loss: real)
    requires gain >= 0.0 && loss >= 0.0
    ensures RsiOf(loss, gain) == 100.0 - RsiOf(gain, loss)
  {
    RsiIsShare(gain, loss);
    RsiIsShare(loss, gain);
    var total := gain + loss;
    if total > 0.0 {
      assert gain / total + loss / total == 1.0;
    }
  }

  lemma RsiScales(gain: real, loss: real, k: real)
    requires gain >= 0.0 && loss >= 0.0 && k > 0.0
    ensures Times(k, gain) >= 0.0 && Times(k, loss) >= 0.0
    ensures RsiOf(Times(k, gain), Times(k, loss)) == RsiOf(gain, loss)
  {
    ProductSign(k, gain);
    ProductSign(k, loss);
    RsiIsShare(gain, loss);
    RsiIsShare(k * gain, k * loss);
    if gain + loss > 0.0 {
      ProductPositive(k, gain + loss);
      assert k * gain + k * loss == k * (gain + loss);
      CancelFactor(gain, gain + loss, k);
    }
  }

  lemma SmoothSign(periods: nat, average: real, amount: real)
    requires periods >= 1 && average >= 0.0 && amount >= 0.0
    ensures Smooth(periods, average, amount) >= 0.0
  {
    ProductSign(average, periods as real - 1.0);
  }

  lemma AddKeepsSign(s: RsiState, price: real)
    requires NonNegative(s) && s.periods >= 1
    ensures NonNegative(RsiAdd(s, price))
  {
    var diff := price - s.lastValue;
    SmoothSign(s.periods, s.averageGain, GainOf(diff));
    SmoothSign(s.periods, s.averageLoss, LossOf(diff));
    QuotientSign(s.sumGains + GainOf(diff), s.periods as real);
    QuotientSign(s.sumLosses + LossOf(diff), s.periods as real);
  }

  lemma {:induction false} RsiShape(periods: nat, xs: seq<real>)
    requires periods >= 1
    ensures var s := RsiFold(periods, xs);
            && s.periods == periods && s.iterations == |xs| && NonNegative(s)
            && (xs != [] ==> s.lastValue == xs[|xs| - 1])
            && (|xs| > periods ==> s.current == RsiOf(s.averageGain, s.averageLoss))
  {
    if xs != [] {
      RsiShape(periods, xs[..|xs| - 1]);
      AddKeepsSign(RsiFold(periods, xs[..|xs| - 1]), xs[|xs| - 1]);
    }
  }

  /** For every price history and every period of at least 1, there is a value exactly from
      periods + 1 prices on, and it is in [0, 100]. */
  lemma RsiInRange(periods: nat, xs: seq<real>)
    requires periods >= 1
    ensures var v := RsiValueOf(RsiFold(periods, xs));
            && (v.Some? <==> |xs| > periods)
            && (v.Some? ==> 0.0 <= v.value <= 100.0)
  {
    RsiShape(periods, xs);
    var s := RsiFold(periods, xs);
    RsiBounds(s.averageGain, s.averageLoss);
  }

  /** With period 0, which keeps the averages with a weight of -1, a rise and a fall give a value
      below 0. */
  lemma PeriodZeroLeavesRange()
    ensures var v := RsiValueOf(RsiFold(0, [1.0, 2.0, 1.0])); v.Some? && v.value < 0.0
  {
    var two := RsiAdd(RsiAdd(NewRsi(0), 1.0), 2.0);
    FoldSnoc(0, [], 1.0);
    FoldSnoc(0, [1.0], 2.0);
    FoldSnoc(0, [1.0, 2.0], 1.0);
    assert [] + [1.0] == [1.0] && [1.0] + [2.0] == [1.0, 2.0] && [1.0, 2.0] + [1.0] == [1.0, 2.0, 1.0];
    assert RsiFold(0, []) == NewRsi(0);
    hide RsiFold;
    assert two == RsiState(0, 2, 2.0, 1.0, 0.0, 1.0 / 14.0, 0.0, 100.0);
    assert RsiAdd(two, 1.0).averageGain == -1.0 / 196.0 && RsiAdd(two, 1.0).averageLoss == 1.0 / 14.0;
  }

  lemma FoldSnoc(periods: nat, xs: seq<real>, x: real)
    ensures RsiFold(periods, xs + [x]) == RsiAdd(RsiFold(periods, xs), x)
  {
    assert (xs + [x])[..|xs|] == xs;
  }

  predicate InRange(v: Option<real>) {
    v.Some? ==> 0.0 <= v.value <= 100.0
  }

  /** The range holds for every history exactly for periods of at least 1. */
  lemma RangeIff(periods: nat)
    ensures (forall xs: seq<real> :: InRange(RsiValueOf(RsiFold(periods, xs)))) <==> periods >= 1
  {
    if periods >= 1 {
      forall xs: seq<real> ensures InRange(RsiValueOf(RsiFold(periods, xs))) {
        RsiInRange(periods, xs);
      }
    } else {
      PeriodZeroLeavesRange();
    }
  }

  // ---------- mirror symmetry ----------

  function Mirror(xs: seq<real>, c: real): (ys: seq<real>)
    ensures |ys| == |xs|
  {
    seq(|xs|, i requires 0 <= i < |xs| => c - xs[i])
  }

  /** Gains and losses have changed places. */
  ghost predicate Swapped(s: RsiState, t: RsiState, c: real) {
    && t.periods == s.periods && t.iterations == s.iterations
    && (s.iterations > 0 ==> t.lastValue == c - s.lastValue)
    && t.sumGains == s.sumLosses && t.sumLosses == s.sumGains
    && t.averageGain == s.averageLoss && t.averageLoss == s.averageGain
  }

  lemma AddKeepsSwapped(s: RsiState, t: RsiState, c: real, price: real)
    requires Swapped(s, t, c)
    ensures Swapped(RsiAdd(s, price), RsiAdd(t, c - price), c)
  {
  }

  lemma {:induction false} FoldSwapped(periods: nat, xs: seq<real>, c: real)
    ensures Swapped(RsiFold(periods, xs), RsiFold(periods, Mirror(xs, c)), c)
  {
    if xs != [] {
      FoldSwapped(periods, xs[..|xs| - 1], c);
      assert Mirror(xs, c)[..|xs| - 1] == Mirror(xs[..|xs| - 1], c);
      AddKeepsSwapped(RsiFold(periods, xs[..|xs| - 1]), RsiFold(periods, Mirror(xs[..|xs| - 1], c)), c, xs[|xs| - 1]);
    }
  }

  /** Mirroring the prices mirrors the index, the degenerate branches included. */
  lemma RsiMirrors(periods: nat, xs: seq<real>, c: real)
    requires periods >= 1
    ensures var v, w := RsiValueOf(RsiFold(periods, xs)), RsiValueOf(RsiFold(periods, Mirror(xs, c)));
            && (w.Some? <==> v.Some?)
            && (v.Some? ==> w.value == 100.0 - v.value)
  {
    FoldSwapped(periods, xs, c);
    RsiShape(periods, xs);
    RsiShape(periods, Mirror(xs, c));
    var s := RsiFold(periods, xs);
    RsiSwaps(s.averageGain, s.averageLoss);
  }

  // ---------- unit invariance ----------

  ghost predicate Scaled(s: RsiState, t: RsiState, k: real) {
    && t.periods == s.periods && t.iterations == s.iterations && t.lastValue == Times(k, s.lastValue)
    && t.sumGains == Times(k, s.sumGains) && t.sumLosses == Times(k, s.sumLosses)
    && t.averageGain == Times(k, s.averageGain) && t.averageLoss == Times(k, s.averageLoss)
  }

  lemma AmountsScale(diff: real, k: real)
    requires k > 0.0
    ensures GainOf(Times(k, diff)) == Times(k, GainOf(diff)) && LossOf(Times(k, diff)) == Times(k, LossOf(diff))
  {
    if diff >= 0.0 { ProductSign(k, diff); } else { ProductPositive(k, -diff); }
  }

  lemma TimesSum(k: real, a: real, b: real)
    ensures Times(k, a) + Times(k, b) == Times(k, a + b)
    ensures Times(k, a) - Times(k, b) == Times(k, a - b)
  {
  }

  lemma SmoothScales(periods: nat, average: real, amount: real, k: real)
    ensures Smooth(periods, Times(k, average), Times(k, amount)) == Times(k, Smooth(periods, average, amount))
  {
    var p := periods as real - 1.0;
    assert k * average * p == k * (average * p);
  }

  lemma QuotientScales(a: real, n: nat, k: real)
    requires n >= 1
    ensures Times(k, a) / n as real == Times(k, a / n as real)
  {
    var q := a / n as real;
    assert q * n as real == a;
    assert k * a == k * q * n as real;
  }

  lemma AddKeepsScaled(s: RsiState, t: RsiState, k: real, price: real)
    requires Scaled(s, t, k) && k > 0.0 && s.periods >= 1
    ensures Scaled(RsiAdd(s, price), RsiAdd(t, Times(k, price)), k)
  {
    hide Times, Smooth, GainOf, LossOf;
    var diff := price - s.lastValue;
    TimesSum(k, price, s.lastValue);
    AmountsScale(diff, k);
    TimesSum(k, s.sumGains, GainOf(diff));
    TimesSum(k, s.sumLosses, LossOf(diff));
    QuotientScales(s.sumGains + GainOf(diff), s.periods, k);
    QuotientScales(s.sumLosses + LossOf(diff), s.periods, k);
    SmoothScales(s.periods, s.averageGain, GainOf(diff), k);
    SmoothScales(s.periods, s.averageLoss, LossOf(diff), k);
  }

  lemma {:induction false} FoldScaled(periods: nat, xs: seq<real>, k: real)
    requires periods >= 1 && k > 0.0
    ensures Scaled(RsiFold(periods, xs), RsiFold(periods, Scale(xs, k)), k)
  {
    if xs != [] {
      var front := xs[..|xs| - 1];
      FoldScaled(periods, front, k);
      ScaleSlice(xs, k, 0, |xs| - 1);
      assert Scale(xs, k)[0..|xs| - 1] == Scale(xs, k)[..|xs| - 1] && xs[0..|xs| - 1] == front;
      RsiShape(periods, front);
      hide Times;
      AddKeepsScaled(RsiFold(periods, front), RsiFold(periods, Scale(front, k)), k, xs[|xs| - 1]);
    }
  }

  /** Quoting prices in another unit changes no value of the index. */
  lemma RsiUnitFree(periods: nat, xs: seq<real>, k: real)
    requires periods >= 1 && k > 0.0
    ensures RsiValueOf(RsiFold(periods, Scale(xs, k))) == RsiValueOf(RsiFold(periods, xs))
  {
    FoldScaled(periods, xs, k);
    RsiShape(periods, xs);
    RsiShape(periods, Scale(xs, k));
    var s := RsiFold(periods, xs);
    RsiScales(s.averageGain, s.averageLoss, k);
  }
}
