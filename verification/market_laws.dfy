/** Laws of whole histories: neither the unit of prices nor which of a candle's four prices is which
    matters to decisions, and the RSI strategy treats rises and falls alike. */
module MarketLaws {
  import opened Candlesticks
  import opened Coarsening
  import opened Ema
  import opened Dema
  import opened Rsi
  import opened Strategies
  import opened IndicatorSets
  import opened Trading
  import opened Backtesting
  import opened Live

  // ---------- the unit of prices ----------

  function ScaleBar(b: Bar, k: real): Bar {
    Bar(Times(k, b.low), Times(k, b.high), Times(k, b.open), Times(k, b.close), b.volume)
  }

  function ScaleCandle(c: Candle, k: real): Candle {
    c.(bar := ScaleBar(c.bar, k))
  }

  function ScaleCandles(cs: seq<Candle>, k: real): (ds: seq<Candle>)
    ensures |ds| == |cs|
    ensures forall i :: 0 <= i < |cs| ==> ds[i] == ScaleCandle(cs[i], k)
  {
    seq(|cs|, i requires 0 <= i < |cs| => ScaleCandle(cs[i], k))
  }

  lemma MeanPriceScales(c: Candle, k: real)
    ensures ScaleCandle(c, k).MeanPrice() == Times(k, c.MeanPrice())
  {
    var sum := c.bar.open + c.bar.high + c.bar.low + c.bar.close;
    assert k * c.bar.open + k * c.bar.high + k * c.bar.low + k * c.bar.close == k * sum;
    assert k * sum / 4.0 == k * (sum / 4.0);
  }

  lemma MeanPricesScale(ts: seq<Candle>, k: real)
    ensures MeanPrices(ScaleCandles(ts, k)) == Scale(MeanPrices(ts), k)
  {
    hide Times;
    forall i | 0 <= i < |ts| ensures MeanPrices(ScaleCandles(ts, k))[i] == Scale(MeanPrices(ts), k)[i] {
      MeanPriceScales(ts[i], k);
    }
  }

  lemma {:induction false} NonEmptyScales(cs: seq<Candle>, k: real)
    ensures NonEmpty(ScaleCandles(cs, k)) == ScaleCandles(NonEmpty(cs), k)
  {
    hide Times;
    if cs != [] {
      NonEmptyScales(cs[..|cs| - 1], k);
      assert ScaleCandles(cs, k)[..|cs| - 1] == ScaleCandles(cs[..|cs| - 1], k);
    }
  }

  /** The values a strategy reads do not change, and none appears or disappears. */
  lemma SpecUnitFree(spec: IndicatorSpec, xs: seq<real>, k: real)
    requires GoodPeriods([spec]) && AllAbove(xs, 0.0) && k > 0.0
    ensures !spec.EmaSpec? ==> SpecValue(spec, Scale(xs, k)) == SpecValue(spec, xs)
    ensures SpecValue(spec, Scale(xs, k)).Some? <==> SpecValue(spec, xs).Some?
  {
    assert [spec][0] == spec;
    ScaledAbove(xs, k);
    match spec {
      case EmaSpec(period) =>
        EmaComputesAverage(period, xs);
        EmaComputesAverage(period, Scale(xs, k));
      case DemaSpec(short, long) => DemaUnitFree(short, long, xs, k);
      case RsiSpec(periods) => RsiUnitFree(periods, xs, k);
    }
  }

  lemma ValuesUnitFree(s: Strategy, xs: seq<real>, k: real)
    requires GoodStrategy(s) && AllAbove(xs, 0.0) && k > 0.0
    ensures var v, w := ValuesAt(Indicators(s), xs), ValuesAt(Indicators(s), Scale(xs, k));
            && v[0] == w[0] && (s.S1? ==> v[3] == w[3])
            && (AllSome(v) <==> AllSome(w))
  {
    var specs := Indicators(s);
    StrategyPeriods(s);
    forall i | 0 <= i < |specs|
      ensures !specs[i].EmaSpec? ==> SpecValue(specs[i], Scale(xs, k)) == SpecValue(specs[i], xs)
      ensures SpecValue(specs[i], Scale(xs, k)).Some? <==> SpecValue(specs[i], xs).Some?
    {
      SpecUnitFree(specs[i], xs, k);
    }
    hide SpecValue;
    var v, w := ValuesAt(specs, xs), ValuesAt(specs, Scale(xs, k));
    assert forall i :: 0 <= i < |specs| ==>
             v[i] == SpecValue(specs[i], xs) && w[i] == SpecValue(specs[i], Scale(xs, k));
  }

  ghost predicate AlikeSets(s: Strategy, g: Sets, h: Sets) {
    && |g.sets| == |g.candles| == |h.sets| == |h.candles|
    && (forall i :: 0 <= i < |g.sets| ==> Alike(s, g.sets[i], h.sets[i]))
    && (forall i :: 0 <= i < |g.candles| ==> g.candles[i].end == h.candles[i].end)
  }

  lemma LastSetUnitFree(s: Strategy, ts: seq<Candle>, k: real)
    requires GoodStrategy(s) && PositivePrices(ts) && ts != [] && k > 0.0
    ensures var p, q := SetAfter(Indicators(s), ts), SetAfter(Indicators(s), ScaleCandles(ts, k));
            && (AllSome(p.values) <==> AllSome(q.values))
            && (AllSome(p.values) ==> Alike(s, p, q))
  {
    PricesPositive(ts);
    MeanPricesScale(ts, k);
    ValuesUnitFree(s, MeanPrices(ts), k);
    StrategyPeriods(s);
    hide Times, ValuesAt, ScaleCandle, MeanPrices, Scale;
    var p, q := SetAfter(Indicators(s), ts), SetAfter(Indicators(s), ScaleCandles(ts, k));
    assert |p.values| == |q.values| == |Indicators(s)| > 0;
  }

  lemma {:induction false} SetsUnitFree(s: Strategy, ts: seq<Candle>, k: real)
    requires GoodStrategy(s) && PositivePrices(ts) && k > 0.0
    ensures AlikeSets(s, CompleteSets(Indicators(s), ts), CompleteSets(Indicators(s), ScaleCandles(ts, k)))
  {
    hide Times, Alike, AllSome, SetAfter;
    if ts != [] {
      var front, us := ts[..|ts| - 1], ScaleCandles(ts, k);
      SetsUnitFree(s, front, k);
      assert us[..|us| - 1] == ScaleCandles(front, k);
      LastSetUnitFree(s, ts, k);
      assert us[|us| - 1].end == ts[|ts| - 1].end by { ScaledEnd(ts[|ts| - 1], k); }
    }
  }

  lemma ScaledEnd(c: Candle, k: real)
    ensures ScaleCandle(c, k).end == c.end
  {
  }

  /** Two backtests at the same point of the same decisions: the amounts may differ. */
  ghost predicate InStep(a: Sim, b: Sim) {
    a.failed == b.failed && a.model.state == b.model.state && SameSides(a.rows, b.rows)
  }

  predicate SameSide(a: Row, b: Row) {
    (a.order.Some? <==> b.order.Some?) && (a.order.Some? ==> a.order.value.side == b.order.value.side)
  }

  ghost predicate SameSides(a: seq<Row>, b: seq<Row>) {
    |a| == |b| && forall i :: 0 <= i < |a| ==> SameSide(a[i], b[i])
  }

  lemma SameSidesGrow(a: seq<Row>, b: seq<Row>, x: Row, y: Row)
    requires SameSides(a, b) && SameSide(x, y)
    ensures SameSides(a + [x], b + [y])
  {
  }

  lemma TicksInStep(cfg: Config, g: Sets, h: Sets, i: nat, m: Model, n: Model, orders: nat,
                    others: nat)
    requires AlikeSets(cfg.strategy, g, h) && i < |g.sets| && m.state == n.state
    requires EachComplete(g.sets, |Indicators(cfg.strategy)|) && EachComplete(h.sets, |Indicators(cfg.strategy)|)
    ensures var q := Trade(cfg, g.sets, g.candles[i], i, m, orders);
            var r := Trade(cfg, h.sets, h.candles[i], i, n, others);
            && q.error == r.error && q.model.state == r.model.state && (q.order.Some? <==> r.order.Some?)
            && (q.order.Some? ==> q.order.value.side == r.order.value.side)
  {
    DecisionsAlike(cfg.strategy, g.sets, i, h.sets, i);
    assert Valid(i, g.sets) && Valid(i, h.sets);
    hide Buy, Sell, Alike;
  }

  lemma StepInStep(cfg: Config, g: Sets, h: Sets, i: nat, a: Sim, b: Sim)
    requires AlikeSets(cfg.strategy, g, h) && i < |g.sets| && InStep(a, b)
    requires EachComplete(g.sets, |Indicators(cfg.strategy)|) && EachComplete(h.sets, |Indicators(cfg.strategy)|)
    ensures InStep(SimStep(cfg, g.sets, g.candles[i], i, a), SimStep(cfg, h.sets, h.candles[i], i, b))
  {
    TicksInStep(cfg, g, h, i, a.model, b.model, a.orders, b.orders);
    var t, u := SimStep(cfg, g.sets, g.candles[i], i, a), SimStep(cfg, h.sets, h.candles[i], i, b);
    assert g.candles[i].end == h.candles[i].end;
    hide Trade, EachComplete, Alike, AlikeSets, SameSides;
    if |t.rows| > |a.rows| {
      SameSidesGrow(a.rows, b.rows, t.rows[|a.rows|], u.rows[|b.rows|]);
    }
  }

  lemma {:induction false} SimulationsInStep(cfg: Config, start: Model, other: Model, g: Sets, h: Sets, n: nat)
    requires n <= |g.sets| == |g.candles| == |h.sets| == |h.candles|
    requires AlikeSets(cfg.strategy, g, h) && start.state == other.state
    requires EachComplete(g.sets, |Indicators(cfg.strategy)|) && EachComplete(h.sets, |Indicators(cfg.strategy)|)
    ensures InStep(Simulate(cfg, start, g, n), Simulate(cfg, other, h, n))
  {
    hide AlikeSets, EachComplete, InStep, SimStep;
    if n > 0 {
      SimulationsInStep(cfg, start, other, g, h, n - 1);
      StepInStep(cfg, g, h, n - 1, Simulate(cfg, start, g, n - 1), Simulate(cfg, other, h, n - 1));
    } else {
      StartInStep(start, other);
    }
  }

  lemma StartInStep(start: Model, other: Model)
    requires start.state == other.state
    ensures InStep(Sim(start, 0, [], false), Sim(other, 0, [], false))
  {
  }

  /** For every strategy: multiplying all prices by one positive factor, a backtest trades on the
      same rows with the same sides, whatever amounts the two start with. */
  lemma BacktestUnitFree(cfg: Config, start: Model, other: Model, cs: seq<Candle>, k: real)
    requires GoodStrategy(cfg.strategy) && PositivePrices(NonEmpty(cs)) && k > 0.0 && start.state == other.state
    ensures InStep(Backtest(cfg, start, cs), Backtest(cfg, other, ScaleCandles(cs, k)))
  {
    var specs, ts := Indicators(cfg.strategy), NonEmpty(cs);
    NonEmptyScales(cs, k);
    SetsUnitFree(cfg.strategy, ts, k);
    StrategyPeriods(cfg.strategy);
    AllComplete(specs, ts);
    AllComplete(specs, ScaleCandles(ts, k));
    var g, h := CompleteSets(specs, ts), CompleteSets(specs, ScaleCandles(ts, k));
    SimulationsInStep(cfg, start, other, g, h, |g.sets|);
  }

  // ---------- which price is which ----------

  function FourPrices(c: Candle): seq<real> {
    [c.bar.open, c.bar.high, c.bar.low, c.bar.close]
  }

  /** Two candles of one span and volume whose four prices are the same, in whatever roles. */
  predicate SamePrices(c: Candle, d: Candle) {
    && c.start == d.start && c.end == d.end && c.bar.volume == d.bar.volume
    && multiset(FourPrices(c)) == multiset(FourPrices(d))
  }

  ghost predicate SamePriced(cs: seq<Candle>, ds: seq<Candle>) {
    |cs| == |ds| && forall i :: 0 <= i < |cs| ==> SamePrices(cs[i], ds[i])
  }

  lemma {:induction false} SumWithout(xs: seq<real>, k: nat)
    requires k < |xs|
    ensures Sum(xs) == Sum(xs[..k] + xs[k + 1..]) + xs[k]
  {
    var rest := xs[..k] + xs[k + 1..];
    if k == |xs| - 1 {
      assert rest == xs[..k];
    } else {
      var front := xs[..|xs| - 1];
      SumWithout(front, k);
      assert rest[..|rest| - 1] == front[..k] + front[k + 1..] && rest[|rest| - 1] == xs[|xs| - 1];
    }
  }

  lemma Removed(front: seq<real>, x: real, ys: seq<real>) returns (k: nat)
    requires multiset(front + [x]) == multiset(ys)
    ensures k < |ys| && ys[k] == x && multiset(ys[..k] + ys[k + 1..]) == multiset(front)
  {
    assert x in multiset(front + [x]);
    k :| 0 <= k < |ys| && ys[k] == x;
    assert ys == ys[..k] + [x] + ys[k + 1..];
    assert multiset(ys[..k] + ys[k + 1..]) == multiset(ys) - multiset{x} == multiset(front);
  }

  lemma SumSnoc(xs: seq<real>, x: real)
    ensures Sum(xs + [x]) == Sum(xs) + x
  {
    assert (xs + [x])[..|xs|] == xs;
  }

  /** A sum does not depend on the order. */
  lemma {:induction false} SumPermuted(xs: seq<real>, ys: seq<real>)
    requires multiset(xs) == multiset(ys)
    ensures Sum(xs) == Sum(ys)
  {
    if xs == [] {
      assert |multiset(ys)| == 0;
    } else {
      var front, x := xs[..|xs| - 1], xs[|xs| - 1];
      assert xs == front + [x];
      var k := Removed(front, x, ys);
      SumPermuted(front, ys[..k] + ys[k + 1..]);
      SumWithout(ys, k);
    }
  }

  lemma SumOfFour(c: Candle)
    ensures Sum(FourPrices(c)) == 4.0 * c.MeanPrice()
  {
    var b := c.bar;
    SumSnoc([], b.open);
    SumSnoc([b.open], b.high);
    SumSnoc([b.open, b.high], b.low);
    SumSnoc([b.open, b.high, b.low], b.close);
    assert [] + [b.open] == [b.open] && [b.open] + [b.high] == [b.open, b.high];
    assert [b.open, b.high] + [b.low] == [b.open, b.high, b.low];
    assert [b.open, b.high, b.low] + [b.close] == FourPrices(c);
  }

  lemma SameMean(c: Candle, d: Candle)
    requires SamePrices(c, d)
    ensures c.MeanPrice() == d.MeanPrice()
  {
    SumPermuted(FourPrices(c), FourPrices(d));
    SumOfFour(c);
    SumOfFour(d);
  }

  lemma SameMeanPrices(ts: seq<Candle>, us: seq<Candle>)
    requires SamePriced(ts, us)
    ensures MeanPrices(ts) == MeanPrices(us)
  {
    forall i | 0 <= i < |ts| ensures MeanPrices(ts)[i] == MeanPrices(us)[i] {
      SameMean(ts[i], us[i]);
    }
  }

  lemma {:induction false} NonEmptySamePriced(cs: seq<Candle>, ds: seq<Candle>)
    requires SamePriced(cs, ds)
    ensures SamePriced(NonEmpty(cs), NonEmpty(ds))
  {
    hide SamePrices;
    if cs != [] {
      NonEmptySamePriced(cs[..|cs| - 1], ds[..|ds| - 1]);
      assert cs[|cs| - 1].bar.volume == ds[|ds| - 1].bar.volume by { SameShape(cs[|cs| - 1], ds[|ds| - 1]); }
    }
  }

  lemma SameShape(c: Candle, d: Candle)
    requires SamePrices(c, d)
    ensures c.start == d.start && c.end == d.end && c.bar.volume == d.bar.volume
  {
  }

  /** The indicator sets are the same, and so are the moments of their candles. */
  lemma {:induction false} SetsSamePriced(specs: seq<IndicatorSpec>, ts: seq<Candle>, us: seq<Candle>)
    requires SamePriced(ts, us)
    ensures var g, h := CompleteSets(specs, ts), CompleteSets(specs, us);
            && g.sets == h.sets && |g.candles| == |h.candles|
            && forall i :: 0 <= i < |g.candles| ==> g.candles[i].end == h.candles[i].end
  {
    hide SamePrices, ValuesAt, MeanPrices;
    if ts != [] {
      SetsSamePriced(specs, ts[..|ts| - 1], us[..|us| - 1]);
      SameMeanPrices(ts, us);
      SameShape(ts[|ts| - 1], us[|us| - 1]);
      hide SamePriced;
    }
  }

  lemma SelfAlike(s: Strategy, g: Sets, h: Sets)
    requires g.sets == h.sets && |g.sets| == |g.candles| == |h.candles|
    requires EachComplete(g.sets, |Indicators(s)|)
    requires forall i :: 0 <= i < |g.candles| ==> g.candles[i].end == h.candles[i].end
    ensures AlikeSets(s, g, h)
  {
    forall i | 0 <= i < |g.sets| ensures Alike(s, g.sets[i], h.sets[i]) {
      ReflexivelyAlike(s, g.sets, i);
    }
  }

  /** For every strategy: exchanging the four prices of any candles among each other changes no
      indicator value, and a backtest trades on the same rows with the same sides. */
  lemma PriceRolesDoNotMatter(cfg: Config, start: Model, other: Model, cs: seq<Candle>, ds: seq<Candle>)
    requires SamePriced(cs, ds) && start.state == other.state
    ensures CompleteSets(Indicators(cfg.strategy), NonEmpty(cs)).sets
         == CompleteSets(Indicators(cfg.strategy), NonEmpty(ds)).sets
    ensures InStep(Backtest(cfg, start, cs), Backtest(cfg, other, ds))
  {
    hide SamePriced, EachComplete, InStep, NonEmpty, AlikeSets;
    var specs := Indicators(cfg.strategy);
    NonEmptySamePriced(cs, ds);
    SetsSamePriced(specs, NonEmpty(cs), NonEmpty(ds));
    AllComplete(specs, NonEmpty(cs));
    var g, h := CompleteSets(specs, NonEmpty(cs)), CompleteSets(specs, NonEmpty(ds));
    SelfAlike(cfg.strategy, g, h);
    SimulationsInStep(cfg, start, other, g, h, |g.sets|);
  }

  // ---------- mirrored prices ----------

  function MirrorCandle(c: Candle, level: real): Candle {
    var b := c.bar;
    c.(bar := Bar(level - b.high, level - b.low, level - b.open, level - b.close, b.volume))
  }

  function MirrorCandles(cs: seq<Candle>, level: real): (ds: seq<Candle>)
    ensures |ds| == |cs|
    ensures forall i :: 0 <= i < |cs| ==> ds[i] == MirrorCandle(cs[i], level)
  {
    seq(|cs|, i requires 0 <= i < |cs| => MirrorCandle(cs[i], level))
  }

  lemma MeanPricesMirror(ts: seq<Candle>, level: real)
    ensures MeanPrices(MirrorCandles(ts, level)) == Mirror(MeanPrices(ts), level)
  {
    var xs, ys := MeanPrices(MirrorCandles(ts, level)), Mirror(MeanPrices(ts), level);
    assert forall i :: 0 <= i < |ts| ==> xs[i] == ys[i];
  }

  lemma {:induction false} NonEmptyMirrors(cs: seq<Candle>, level: real)
    ensures NonEmpty(MirrorCandles(cs, level)) == MirrorCandles(NonEmpty(cs), level)
  {
    if cs != [] {
      NonEmptyMirrors(cs[..|cs| - 1], level);
      assert MirrorCandles(cs, level)[..|cs| - 1] == MirrorCandles(cs[..|cs| - 1], level);
    }
  }

  /** Two runs of sets of one index each, the second mirrored. */
  ghost predicate MirroredSets(g: seq<IndicatorSet>, h: seq<IndicatorSet>) {
    |g| == |h| && forall i :: 0 <= i < |g| ==> MirroredSet(g[i], h[i])
  }

  predicate MirroredSet(a: IndicatorSet, b: IndicatorSet) {
    && |a.values| == |b.values| == 1 && a.values[0].Some? && b.values[0].Some?
    && b.values[0].value == 100.0 - a.values[0].value
  }

  ghost predicate MirroredHistories(g: Sets, h: Sets) {
    && |g.sets| == |g.candles| == |h.sets| == |h.candles| && MirroredSets(g.sets, h.sets)
    && forall i :: 0 <= i < |g.candles| ==> g.candles[i].end == h.candles[i].end
  }

  lemma {:induction false} SetsMirror(period: nat, ts: seq<Candle>, level: real)
    requires period >= 1
    ensures var specs := [RsiSpec(period)];
            MirroredHistories(CompleteSets(specs, ts), CompleteSets(specs, MirrorCandles(ts, level)))
  {
    hide RsiFold, RsiValueOf, MirrorCandle;
    if ts != [] {
      var specs, us := [RsiSpec(period)], MirrorCandles(ts, level);
      SetsMirror(period, ts[..|ts| - 1], level);
      assert us[..|us| - 1] == MirrorCandles(ts[..|ts| - 1], level);
      MeanPricesMirror(ts, level);
      RsiMirrors(period, MeanPrices(ts), level);
      MirroredEnd(ts[|ts| - 1], level);
      hide MeanPrices, Mirror;
      var p, q := SetAfter(specs, ts), SetAfter(specs, us);
      assert p.values == [SpecValue(specs[0], MeanPrices(ts))] && q.values == [SpecValue(specs[0], MeanPrices(us))];
      assert AllSome(p.values) == p.values[0].Some? && AllSome(q.values) == q.values[0].Some?;
    }
  }

  lemma MirroredEnd(c: Candle, level: real)
    ensures MirrorCandle(c, level).end == c.end
  {
  }

  /** Exchanging the thresholds and mirroring them around 50. */
  function MirrorStrategy(s: Strategy): Strategy
    requires s.RSIStrategy?
  {
    RSIStrategy(s.period, 100.0 - s.sell, 100.0 - s.buy)
  }

  lemma DecisionsMirror(s: Strategy, g: seq<IndicatorSet>, h: seq<IndicatorSet>, i: nat)
    requires s.RSIStrategy? && MirroredSets(g, h) && i < |g|
    ensures Buy(s, g, i) == Sell(MirrorStrategy(s), h, i) && Sell(s, g, i) == Buy(MirrorStrategy(s), h, i)
    ensures Buy(s, g, i).Decided? && Sell(s, g, i).Decided? && Valid(i, g) && Valid(i, h)
  {
    assert MirroredSet(g[i], h[i]) && MirroredSet(g[|g| - 1], h[|g| - 1]);
  }

  function OppositeState(t: TradeState): TradeState {
    match t
    case TryingToBuy => TryingToSell
    case TryingToSell => TryingToBuy
    case UnknownState => UnknownState
  }

  predicate OppositeSides(a: Row, b: Row) {
    (a.order.Some? <==> b.order.Some?) && (a.order.Some? ==> a.order.value.side != b.order.value.side)
  }

  /** Two backtests on opposite sides of the market, trading at the same rows. */
  ghost predicate Opposed(a: Sim, b: Sim) {
    && a.failed == b.failed && b.model.state == OppositeState(a.model.state) && |a.rows| == |b.rows|
    && forall i :: 0 <= i < |a.rows| ==> OppositeSides(a.rows[i], b.rows[i])
  }

  ghost predicate MirroredRuns(cfg: Config, other: Config, g: Sets, h: Sets) {
    && cfg.strategy.RSIStrategy? && other.strategy == MirrorStrategy(cfg.strategy)
    && other.startBucket == cfg.startBucket
    && MirroredHistories(g, h)
  }

  lemma TicksOpposed(cfg: Config, other: Config, g: Sets, h: Sets, i: nat, m: Model, n: Model,
                     orders: nat, others: nat)
    requires MirroredRuns(cfg, other, g, h) && i < |g.sets| && n.state == OppositeState(m.state)
    ensures var q := Trade(cfg, g.sets, g.candles[i], i, m, orders);
            var r := Trade(other, h.sets, h.candles[i], i, n, others);
            && q.error == r.error && r.model.state == OppositeState(q.model.state)
            && (q.order.Some? <==> r.order.Some?) && (q.order.Some? ==> q.order.value.side != r.order.value.side)
  {
    DecisionsMirror(cfg.strategy, g.sets, h.sets, i);
    hide Buy, Sell, Valid, MirroredSets, MirrorStrategy;
  }

  lemma StepOpposed(cfg: Config, other: Config, g: Sets, h: Sets, i: nat, a: Sim, b: Sim)
    requires MirroredRuns(cfg, other, g, h) && i < |g.sets| && Opposed(a, b)
    ensures Opposed(SimStep(cfg, g.sets, g.candles[i], i, a), SimStep(other, h.sets, h.candles[i], i, b))
  {
    TicksOpposed(cfg, other, g, h, i, a.model, b.model, a.orders, b.orders);
    hide Trade, MirroredSets, MirrorStrategy, OppositeState;
  }

  lemma {:induction false} SimulationsOpposed(cfg: Config, other: Config, start: Model, opposite: Model,
                                              g: Sets, h: Sets, n: nat)
    requires n <= |g.sets| == |g.candles| == |h.sets| == |h.candles|
    requires MirroredRuns(cfg, other, g, h) && opposite.state == OppositeState(start.state)
    ensures Opposed(Simulate(cfg, start, g, n), Simulate(other, opposite, h, n))
  {
    hide MirroredRuns, SimStep;
    if n > 0 {
      hide Opposed;
      SimulationsOpposed(cfg, other, start, opposite, g, h, n - 1);
      StepOpposed(cfg, other, g, h, n - 1, Simulate(cfg, start, g, n - 1), Simulate(other, opposite, h, n - 1));
    }
  }

  /** For every candle history: mirror the prices around any level, and exchange and mirror the
      thresholds of the RSI strategy. Started on the opposite side, its backtest trades at the same
      rows, on the opposite side each time, whatever the amounts, fees and slippages. */
  lemma RsiTradesMirror(cfg: Config, other: Config, start: Model, opposite: Model,
                        cs: seq<Candle>, level: real)
    requires cfg.strategy.RSIStrategy? && cfg.strategy.period >= 1
    requires other.strategy == MirrorStrategy(cfg.strategy) && other.startBucket == cfg.startBucket
    requires opposite.state == OppositeState(start.state)
    ensures Opposed(Backtest(cfg, start, cs), Backtest(other, opposite, MirrorCandles(cs, level)))
  {
    var ts, period := NonEmpty(cs), cfg.strategy.period;
    NonEmptyMirrors(cs, level);
    SetsMirror(period, ts, level);
    var g, h := CompleteSets([RsiSpec(period)], ts), CompleteSets([RsiSpec(period)], MirrorCandles(ts, level));
    assert Indicators(cfg.strategy) == Indicators(other.strategy) == [RsiSpec(period)];
    hide CompleteSets, NonEmpty, Opposed, MirroredHistories;
    SimulationsOpposed(cfg, other, start, opposite, g, h, |g.sets|);
  }
}
