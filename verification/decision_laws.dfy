/** When a backtest trades: what each strategy compares, row by row, and what follows over whole
    histories. */
module DecisionLaws {
  import opened Options
  import opened Candlesticks
  import opened Coarsening
  import opened Ema
  import opened Dema
  import opened Rsi
  import opened Strategies
  import opened IndicatorSets
  import opened Trading
  import opened Results
  import opened Backtesting
  import opened Live

  // ---------- the values at a row ----------

  /** How many traded candles a backtest has seen at its i-th row. */
  function SeenAtRow(s: Strategy, ts: seq<Candle>, i: nat): int {
    |ts| - |CompleteSets(Indicators(s), ts).sets| + i + 1
  }

  lemma RowSeen(s: Strategy, ts: seq<Candle>, i: nat)
    requires GoodStrategy(s) && PositivePrices(ts) && i < |CompleteSets(Indicators(s), ts).sets|
    ensures var n, point := SeenAtRow(s, ts, i), CompleteSets(Indicators(s), ts).sets[i];
            && 1 <= n <= |ts| && point == SetAfter(Indicators(s), ts[..n])
            && AllAbove(MeanPrices(ts[..n]), 0.0) && AllSome(point.values)
  {
    hide SetAfter, MostNeeded, CompleteSets, GoodStrategy;
    StrategyPeriods(s);
    DroppedSetsAreInitial(Indicators(s), ts);
    AllComplete(Indicators(s), ts);
    PricesPositive(ts[..SeenAtRow(s, ts, i)]);
  }

  /** The prices seen at the i-th row. */
  function RowPrices(s: Strategy, ts: seq<Candle>, i: nat): seq<real>
    requires GoodStrategy(s) && PositivePrices(ts) && i < |CompleteSets(Indicators(s), ts).sets|
  {
    RowSeen(s, ts, i);
    MeanPrices(ts[..SeenAtRow(s, ts, i)])
  }

  /** A value of the prices seen at the i-th row, if the strategy has that indicator. */
  function ValueAtRow(s: Strategy, spec: IndicatorSpec, ts: seq<Candle>, i: nat): real
    requires GoodStrategy(s) && PositivePrices(ts) && i < |CompleteSets(Indicators(s), ts).sets|
  {
    var v := SpecValue(spec, RowPrices(s, ts, i));
    if v.Some? then v.value else 0.0
  }

  /** The set of a row holds the values of the prices seen there. */
  lemma RowValues(s: Strategy, ts: seq<Candle>, i: nat)
    requires GoodStrategy(s) && PositivePrices(ts) && i < |CompleteSets(Indicators(s), ts).sets|
    ensures var v := CompleteSets(Indicators(s), ts).sets[i].values;
            && |v| == |Indicators(s)|
            && forall k :: 0 <= k < |v| ==>
                 v[k] == SpecValue(Indicators(s)[k], RowPrices(s, ts, i))
                      == Some(ValueAtRow(s, Indicators(s)[k], ts, i))
  {
    RowSeen(s, ts, i);
    hide CompleteSets, SpecValue, GoodStrategy, PositivePrices, MeanPrices;
  }

  // ---------- what each strategy compares ----------

  /** S1 does not go back into a trade whose last row had both a difference and an index high enough. */
  predicate ReentersAt(s: Strategy, ts: seq<Candle>, i: nat)
    requires s.S1? && GoodStrategy(s) && PositivePrices(ts) && i < |CompleteSets(Indicators(s), ts).sets|
  {
    && i >= 1
    && ValueAtRow(s, DemaSpec(s.short, s.long), ts, i - 1) >= s.up
    && ValueAtRow(s, RsiSpec(14), ts, i - 1) >= s.rsiExit
  }

  predicate EntersAt(s: Strategy, ts: seq<Candle>, i: nat)
    requires GoodStrategy(s) && PositivePrices(ts) && i < |CompleteSets(Indicators(s), ts).sets|
  {
    match s
    case EMACrossover(short, long, up, _) => ValueAtRow(s, DemaSpec(short, long), ts, i) > up
    case RSIStrategy(period, buy, _) => ValueAtRow(s, RsiSpec(period), ts, i) <= buy
    case S1(short, long, up, _, _, rsiEntrance) =>
      && !ReentersAt(s, ts, i)
      && (ValueAtRow(s, RsiSpec(14), ts, i) <= rsiEntrance || ValueAtRow(s, DemaSpec(short, long), ts, i) > up)
  }

  predicate LeavesAt(s: Strategy, ts: seq<Candle>, i: nat)
    requires GoodStrategy(s) && PositivePrices(ts) && i < |CompleteSets(Indicators(s), ts).sets|
  {
    match s
    case EMACrossover(short, long, _, down) => ValueAtRow(s, DemaSpec(short, long), ts, i) < down
    case RSIStrategy(period, _, sell) => ValueAtRow(s, RsiSpec(period), ts, i) >= sell
    case S1(short, long, _, down, rsiExit, _) =>
      ValueAtRow(s, RsiSpec(14), ts, i) >= rsiExit || ValueAtRow(s, DemaSpec(short, long), ts, i) < down
  }

  lemma SpecsAre(s: Strategy)
    ensures match s
            case EMACrossover(short, long, _, _) => |Indicators(s)| == 3 && Indicators(s)[0] == DemaSpec(short, long)
            case RSIStrategy(period, _, _) => |Indicators(s)| == 1 && Indicators(s)[0] == RsiSpec(period)
            case S1(short, long, _, _, _, _) =>
              |Indicators(s)| == 4 && Indicators(s)[0] == DemaSpec(short, long) && Indicators(s)[3] == RsiSpec(14)
  {
  }

  lemma BuyIs(s: Strategy, ts: seq<Candle>, i: nat)
    requires GoodStrategy(s) && PositivePrices(ts) && i < |CompleteSets(Indicators(s), ts).sets|
    ensures Buy(s, CompleteSets(Indicators(s), ts).sets, i) == Decided(EntersAt(s, ts, i))
  {
    hide CompleteSets, GoodStrategy, PositivePrices, ValueAtRow, Indicators, RowPrices, SpecValue;
    SpecsAre(s);
    RowValues(s, ts, i);
    if i >= 1 { RowValues(s, ts, i - 1); }
  }

  lemma SellIs(s: Strategy, ts: seq<Candle>, i: nat)
    requires GoodStrategy(s) && PositivePrices(ts) && i < |CompleteSets(Indicators(s), ts).sets|
    ensures Sell(s, CompleteSets(Indicators(s), ts).sets, i) == Decided(LeavesAt(s, ts, i))
  {
    hide CompleteSets, GoodStrategy, PositivePrices, ValueAtRow, Indicators, RowPrices, SpecValue;
    SpecsAre(s);
    RowValues(s, ts, i);
  }

  lemma DecisionsAre(s: Strategy, ts: seq<Candle>, i: nat)
    requires GoodStrategy(s) && PositivePrices(ts) && i < |CompleteSets(Indicators(s), ts).sets|
    ensures var sets := CompleteSets(Indicators(s), ts).sets;
            && Buy(s, sets, i) == Decided(EntersAt(s, ts, i))
            && Sell(s, sets, i) == Decided(LeavesAt(s, ts, i))
            && Valid(i, sets)
  {
    hide CompleteSets, GoodStrategy, PositivePrices, EntersAt, LeavesAt, Buy, Sell;
    BuyIs(s, ts, i);
    SellIs(s, ts, i);
    AllComplete(Indicators(s), ts);
  }

  // ---------- when a row trades ----------

  lemma TickTrades(cfg: Config, sets: seq<IndicatorSet>, c: Candle, i: nat, m: Model, orders: nat)
    requires Valid(i, sets) && Buy(cfg.strategy, sets, i).Decided? && Sell(cfg.strategy, sets, i).Decided?
    ensures var o := Trade(cfg, sets, c, i, m, orders).order;
            && (o.Some? && o.value.side == BuySide <==>
                  m.state == TryingToBuy && Buy(cfg.strategy, sets, i) == Decided(true))
            && (o.Some? && o.value.side == SellSide <==>
                  m.state == TryingToSell && Sell(cfg.strategy, sets, i) == Decided(true))
  {
    hide Buy, Sell, Valid, Filled, PriceWithSlippage, BelowMinimum, AfterBuy, AfterSell;
  }

  lemma KnownAt(cfg: Config, start: Model, g: Sets, i: nat)
    requires i <= |g.sets| == |g.candles| && EachComplete(g.sets, |Indicators(cfg.strategy)|) && KnownState(start)
    ensures var sim := Simulate(cfg, start, g, i); KnownState(sim.model) && !sim.failed && |sim.rows| == i
  {
    NoTickSkipped(cfg, start, g, i);
  }

  /** A row is that of its step. */
  lemma {:induction false} RowOfStep(cfg: Config, start: Model, g: Sets, i: nat, n: nat)
    requires i < n <= |g.sets| == |g.candles| && EachComplete(g.sets, |Indicators(cfg.strategy)|) && KnownState(start)
    ensures var a, b := Simulate(cfg, start, g, i + 1), Simulate(cfg, start, g, n);
            |a.rows| == i + 1 && |b.rows| == n && b.rows[i] == a.rows[i]
  {
    hide SimStep, Trade, EachComplete, KnownState;
    KnownAt(cfg, start, g, i + 1);
    KnownAt(cfg, start, g, n);
    if i + 1 < n {
      RowOfStep(cfg, start, g, i, n - 1);
      StepCases(cfg, g.sets, g.candles[n - 1], n - 1, Simulate(cfg, start, g, n - 1));
    }
  }

  /** The model a backtest has before its i-th row. */
  function ModelBeforeRow(cfg: Config, start: Model, cs: seq<Candle>, i: nat): Model
    requires i < |CompleteSets(Indicators(cfg.strategy), NonEmpty(cs)).sets|
  {
    Simulate(cfg, start, CompleteSets(Indicators(cfg.strategy), NonEmpty(cs)), i).model
  }

  /** For every strategy and every history: the i-th row of a backtest buys exactly when it is after
      the start, the model is trying to buy and the values of the prices seen there say so, and sells
      exactly when it is trying to sell and they say that. */
  lemma RowTradesIff(cfg: Config, start: Model, cs: seq<Candle>, i: nat)
    requires GoodStrategy(cfg.strategy) && PositivePrices(NonEmpty(cs)) && KnownState(start)
    requires i < |CompleteSets(Indicators(cfg.strategy), NonEmpty(cs)).sets|
    ensures var rows, m := Backtest(cfg, start, cs).rows, ModelBeforeRow(cfg, start, cs, i);
            && i < |rows|
            && (IsBuy(rows[i]) <==> rows[i].candle.end > cfg.startBucket && m.state == TryingToBuy
                                    && EntersAt(cfg.strategy, NonEmpty(cs), i))
            && (IsSell(rows[i]) <==> rows[i].candle.end > cfg.startBucket && m.state == TryingToSell
                                     && LeavesAt(cfg.strategy, NonEmpty(cs), i))
  {
    hide EntersAt, LeavesAt, GoodStrategy, PositivePrices, NonEmpty, CompleteSets, EachComplete, Trade, RowPerCandle;
    var g := CompleteSets(Indicators(cfg.strategy), NonEmpty(cs));
    AllComplete(Indicators(cfg.strategy), NonEmpty(cs));
    DecisionsAre(cfg.strategy, NonEmpty(cs), i);
    var sim := Simulate(cfg, start, g, i);
    TickTrades(cfg, g.sets, g.candles[i], i, sim.model, sim.orders);
    TickDecides(cfg, g.sets, g.candles[i], i, sim.model, sim.orders) by { KnownAt(cfg, start, g, i); }
    hide Buy, Sell, Valid;
    RowOfStep(cfg, start, g, i, |g.sets|);
    KnownAt(cfg, start, g, i);
  }

  // ---------- trends and extreme thresholds ----------

  predicate Ordered(s: Strategy) {
    match s
    case EMACrossover(short, long, _, _) => 1 <= short <= long
    case RSIStrategy(period, _, _) => period >= 1
    case S1(short, long, _, _, _, _) => 1 <= short <= long
  }

  /** The index of a row is in its range, and the difference of averages follows the trend. */
  lemma RowBounds(s: Strategy, ts: seq<Candle>, i: nat, short: nat, long: nat, period: nat)
    requires GoodStrategy(s) && PositivePrices(ts) && i < |CompleteSets(Indicators(s), ts).sets|
    requires 1 <= short <= long && period >= 1
    ensures 0.0 <= ValueAtRow(s, RsiSpec(period), ts, i) <= 100.0
    ensures Rising(MeanPrices(ts)) ==> 0.0 <= ValueAtRow(s, DemaSpec(short, long), ts, i)
    ensures Falling(MeanPrices(ts)) ==> ValueAtRow(s, DemaSpec(short, long), ts, i) <= 0.0
  {
    hide CompleteSets, GoodStrategy, PositivePrices, RsiFold, DemaFold, RsiValueOf, DemaValueOf, MeanPrices;
    RowSeen(s, ts, i);
    var xs := RowPrices(s, ts, i);
    PricesOfPrefix(ts, SeenAtRow(s, ts, i));
    RsiInRange(period, xs);
    if Rising(MeanPrices(ts)) { RisingDema(short, long, xs); }
    if Falling(MeanPrices(ts)) { FallingDema(short, long, xs); }
  }

  lemma OrderedIsGood(s: Strategy)
    requires Ordered(s)
    ensures GoodStrategy(s)
  {
  }

  predicate NoOrders(rows: seq<Row>, side: Side) {
    forall i :: 0 <= i < |rows| && rows[i].order.Some? ==> rows[i].order.value.side != side
  }

  /** Thresholds that a history's values never pass on the way in, and on the way out. */
  predicate OutOfReachIn(s: Strategy, xs: seq<real>) {
    match s
    case EMACrossover(_, _, up, _) => Falling(xs) && up >= 0.0
    case RSIStrategy(_, buy, _) => buy < 0.0
    case S1(_, _, up, _, _, rsiEntrance) => Falling(xs) && up >= 0.0 && rsiEntrance < 0.0
  }

  predicate OutOfReachOut(s: Strategy, xs: seq<real>) {
    match s
    case EMACrossover(_, _, _, down) => Rising(xs) && down <= 0.0
    case RSIStrategy(_, _, sell) => sell > 100.0
    case S1(_, _, _, down, rsiExit, _) => Rising(xs) && down <= 0.0 && rsiExit > 100.0
  }

  /** Thresholds that every value passes. */
  predicate AlwaysIn(s: Strategy, xs: seq<real>) {
    match s
    case EMACrossover(_, _, up, _) => Rising(xs) && up < 0.0
    case RSIStrategy(_, buy, _) => buy >= 100.0
    case S1(_, _, up, _, _, rsiEntrance) => rsiEntrance >= 100.0 || (Rising(xs) && up < 0.0)
  }

  predicate AlwaysOut(s: Strategy, xs: seq<real>) {
    match s
    case EMACrossover(_, _, _, down) => Falling(xs) && down > 0.0
    case RSIStrategy(_, _, sell) => sell <= 0.0
    case S1(_, _, _, down, rsiExit, _) => rsiExit <= 0.0 || (Falling(xs) && down > 0.0)
  }

  lemma Extremes(s: Strategy, ts: seq<Candle>, i: nat)
    requires GoodStrategy(s) && Ordered(s) && PositivePrices(ts) && i < |CompleteSets(Indicators(s), ts).sets|
    ensures OutOfReachIn(s, MeanPrices(ts)) ==> !EntersAt(s, ts, i)
    ensures OutOfReachOut(s, MeanPrices(ts)) ==> !LeavesAt(s, ts, i)
    ensures AlwaysIn(s, MeanPrices(ts)) ==> (EntersAt(s, ts, i) <==> !(s.S1? && ReentersAt(s, ts, i)))
    ensures AlwaysOut(s, MeanPrices(ts)) ==> LeavesAt(s, ts, i)
  {
    hide CompleteSets, GoodStrategy, PositivePrices, ValueAtRow, Rising, Falling, ReentersAt;
    match s
    case EMACrossover(short, long, _, _) => RowBounds(s, ts, i, short, long, 1);
    case RSIStrategy(period, _, _) => RowBounds(s, ts, i, 1, 1, period);
    case S1(short, long, _, _, _, _) => RowBounds(s, ts, i, short, long, 14);
  }

  lemma {:induction false} UnknownSimulates(cfg: Config, start: Model, g: Sets, n: nat)
    requires n <= |g.sets| == |g.candles| && !KnownState(start)
    ensures var sim := Simulate(cfg, start, g, n);
            !KnownState(sim.model) && forall i :: 0 <= i < |sim.rows| ==> sim.rows[i].order == None
  {
    if n > 0 {
      UnknownSimulates(cfg, start, g, n - 1);
    }
  }

  /** A model in a state that the strategy does not know trades nothing. */
  lemma UnknownNeverTrades(cfg: Config, start: Model, g: Sets, cs: seq<Candle>)
    requires !KnownState(start) && g == CompleteSets(Indicators(cfg.strategy), NonEmpty(cs))
    ensures forall i :: 0 <= i < |Backtest(cfg, start, cs).rows| ==> Backtest(cfg, start, cs).rows[i].order == None
  {
    UnknownSimulates(cfg, start, g, |g.sets|);
  }

  /** On falling mean prices the crossover strategy with an up threshold of at least 0 never buys; nor
      does the RSI strategy with a threshold below the index's range; nor S1 with both. */
  lemma FallingNeverBuys(cfg: Config, start: Model, cs: seq<Candle>)
    requires Ordered(cfg.strategy) && PositivePrices(NonEmpty(cs))
    requires OutOfReachIn(cfg.strategy, MeanPrices(NonEmpty(cs)))
    ensures NoOrders(Backtest(cfg, start, cs).rows, BuySide)
  {
    hide Backtest, OutOfReachIn, GoodStrategy, Ordered, PositivePrices, KnownState, EntersAt, LeavesAt, CompleteSets;
    if !KnownState(start) {
      UnknownNeverTrades(cfg, start, CompleteSets(Indicators(cfg.strategy), NonEmpty(cs)), cs);
      return;
    }
    OrderedIsGood(cfg.strategy);
    RowCount(cfg, start, cs);
    forall i | 0 <= i < |Backtest(cfg, start, cs).rows| ensures !IsBuy(Backtest(cfg, start, cs).rows[i]) {
      RowTradesIff(cfg, start, cs, i);
      Extremes(cfg.strategy, NonEmpty(cs), i);
    }
  }

  /** And on rising mean prices none of them sells, with the thresholds for selling out of reach. */
  lemma RisingNeverSells(cfg: Config, start: Model, cs: seq<Candle>)
    requires Ordered(cfg.strategy) && PositivePrices(NonEmpty(cs))
    requires OutOfReachOut(cfg.strategy, MeanPrices(NonEmpty(cs)))
    ensures NoOrders(Backtest(cfg, start, cs).rows, SellSide)
  {
    hide Backtest, OutOfReachOut, GoodStrategy, Ordered, PositivePrices, KnownState, EntersAt, LeavesAt, CompleteSets;
    if !KnownState(start) {
      UnknownNeverTrades(cfg, start, CompleteSets(Indicators(cfg.strategy), NonEmpty(cs)), cs);
      return;
    }
    OrderedIsGood(cfg.strategy);
    RowCount(cfg, start, cs);
    forall i | 0 <= i < |Backtest(cfg, start, cs).rows| ensures !IsSell(Backtest(cfg, start, cs).rows[i]) {
      RowTradesIff(cfg, start, cs, i);
      Extremes(cfg.strategy, NonEmpty(cs), i);
    }
  }

  lemma RowCount(cfg: Config, start: Model, cs: seq<Candle>)
    requires KnownState(start)
    ensures |Backtest(cfg, start, cs).rows| == |CompleteSets(Indicators(cfg.strategy), NonEmpty(cs)).sets|
  {
    BacktestIndexSafe(cfg, start, cs);
  }

  /** With thresholds that every value passes, a backtest buys at every row after the start at which it
      is trying to buy, but for S1 where it does not go back in. */
  lemma AlwaysBuys(cfg: Config, start: Model, cs: seq<Candle>, i: nat)
    requires GoodStrategy(cfg.strategy) && Ordered(cfg.strategy) && PositivePrices(NonEmpty(cs)) && KnownState(start)
    requires AlwaysIn(cfg.strategy, MeanPrices(NonEmpty(cs)))
    requires i < |CompleteSets(Indicators(cfg.strategy), NonEmpty(cs)).sets|
    ensures var rows := Backtest(cfg, start, cs).rows;
            i < |rows|
            && (IsBuy(rows[i]) <==>
                  && rows[i].candle.end > cfg.startBucket && ModelBeforeRow(cfg, start, cs, i).state == TryingToBuy
                  && !(cfg.strategy.S1? && ReentersAt(cfg.strategy, NonEmpty(cs), i)))
  {
    hide Backtest, AlwaysIn, GoodStrategy, Ordered, PositivePrices, KnownState, EntersAt, LeavesAt, ReentersAt;
    RowTradesIff(cfg, start, cs, i);
    Extremes(cfg.strategy, NonEmpty(cs), i);
  }

  /** And it sells at every row after the start at which it is trying to sell. */
  lemma AlwaysSells(cfg: Config, start: Model, cs: seq<Candle>, i: nat)
    requires GoodStrategy(cfg.strategy) && Ordered(cfg.strategy) && PositivePrices(NonEmpty(cs)) && KnownState(start)
    requires AlwaysOut(cfg.strategy, MeanPrices(NonEmpty(cs)))
    requires i < |CompleteSets(Indicators(cfg.strategy), NonEmpty(cs)).sets|
    ensures var rows := Backtest(cfg, start, cs).rows;
            i < |rows|
            && (IsSell(rows[i]) <==>
                  rows[i].candle.end > cfg.startBucket && ModelBeforeRow(cfg, start, cs, i).state == TryingToSell)
  {
    hide Backtest, AlwaysOut, GoodStrategy, Ordered, PositivePrices, KnownState, EntersAt, LeavesAt, ReentersAt;
    RowTradesIff(cfg, start, cs, i);
    Extremes(cfg.strategy, NonEmpty(cs), i);
  }

  // ---------- more reason to trade ----------

  /** A set whose values give a strategy no less reason to buy, and no more to sell. */
  predicate NoDearer(s: Strategy, a: IndicatorSet, b: IndicatorSet)
    requires Shaped(s, a) && Complete(a) && Shaped(s, b) && Complete(b)
  {
    match s
    case EMACrossover(_, _, _, _) => a.values[0].value <= b.values[0].value
    case RSIStrategy(_, _, _) => a.values[0].value >= b.values[0].value
    case S1(_, _, _, _, _, _) =>
      a.values[0].value <= b.values[0].value && a.values[3].value >= b.values[3].value
  }

  /** A higher difference of averages or a lower index never turns a buy into none, and never turns no
      sell into one. */
  lemma DecisionsMonotone(s: Strategy, h: seq<IndicatorSet>, i: nat, g: seq<IndicatorSet>, j: nat)
    requires i < |h| && j < |g| && Shaped(s, h[i]) && Complete(h[i]) && Shaped(s, g[j]) && Complete(g[j])
    requires NoDearer(s, h[i], g[j])
    requires s.S1? ==> (i == 0 && j == 0) || (i >= 1 && j >= 1 && Alike(s, h[i - 1], g[j - 1]))
    ensures Buy(s, h, i) == Decided(true) ==> Buy(s, g, j) == Decided(true)
    ensures Sell(s, g, j) == Decided(true) ==> Sell(s, h, i) == Decided(true)
  {
    assert h[i].values[0].Some? && g[j].values[0].Some?;
    if s.S1? {
      assert h[i].values[3].Some? && g[j].values[3].Some?;
    }
  }
}
