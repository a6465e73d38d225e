/** The backtester: a loop over indicator sets computed for the whole history in advance. */
module Backtesting {
  import opened Options
  import opened Candlesticks
  import opened Coarsening
  import opened Strategies
  import opened Trading
  import opened IndicatorSets
  import opened Traders
  import opened Writes

  const EXCHANGE_FEE := 0.0025

  // ---------- the simulated exchange ----------

  /** `draw` is the random number in [0, 1) the slippage takes. */
  function PriceWithSlippage(draw: real, price: real, orderSlippage: real): real {
    price * (1.0 - draw * orderSlippage)
  }

  /** Prices are positive; a price of zero would buy an infinite amount. */
  function Filled(side: Side, cost: real, price: real): real {
    if side == SellSide then cost * price * (1.0 - EXCHANGE_FEE)
    else if price == 0.0 then 0.0
    else cost * (1.0 - EXCHANGE_FEE) / price
  }

  function Fees(side: Side, cost: real, price: real): real {
    if side == SellSide then cost * price * EXCHANGE_FEE else cost * EXCHANGE_FEE
  }

  /** Between draws of 0 and 1 the price goes evenly from the close down to the whole slippage below. */
  lemma SlippageIsEven(draw: real, price: real, slippage: real)
    ensures PriceWithSlippage(0.0, price, slippage) == price
    ensures price - PriceWithSlippage(1.0, price, slippage) == slippage * price
    ensures price - PriceWithSlippage(draw, price, slippage)
         == draw * (price - PriceWithSlippage(1.0, price, slippage))
  {
    assert price * (1.0 - draw * slippage) == price - draw * (slippage * price);
  }

  /** What an order costs is what it brings in plus the fees, a quarter percent, at the price it was
      filled at. */
  lemma OrderConserves(side: Side, cost: real, price: real)
    requires price > 0.0
    ensures side == BuySide ==> Filled(side, cost, price) * price + Fees(side, cost, price) == cost
    ensures side == SellSide ==> Filled(side, cost, price) + Fees(side, cost, price) == cost * price
    ensures 400.0 * Fees(side, cost, price) == if side == BuySide then cost else cost * price
  {
    if side == BuySide {
      var net := cost * (1.0 - EXCHANGE_FEE);
      assert net / price * price == net;
    }
  }

  /** `startBucket` is where trading starts; earlier candles only feed the indicators. */
  datatype Config = Config(strategy: Strategy, startBucket: int, slippage: real, draws: nat -> real, clock: nat -> int)

  /** The exchange and the backend of a backtest: every order is filled at the candle's close,
      and every write succeeds. `orders` is the number of orders placed before. */
  function EnvironmentAt(cfg: Config, candle: Candle, orders: nat): Environment {
    var price := PriceWithSlippage(cfg.draws(orders), candle.bar.close, cfg.slippage);
    Environment((side, cost) => Some(Filled(side, cost, price)), Succeeded, Succeeded, Succeeded, cfg.clock(orders))
  }

  // ---------- specification of a backtest ----------

  datatype Row = Row(candle: Candle, point: IndicatorSet, order: Option<Order>, budget: real, invested: real)

  datatype Sim = Sim(model: Model, orders: nat, rows: seq<Row>, failed: bool)

  function Trade(cfg: Config, sets: seq<IndicatorSet>, c: Candle, i: nat, m: Model, orders: nat): TickResult {
    ProcessTick(cfg.strategy, sets, i, m, EnvironmentAt(cfg, c, orders))
  }

  /** A tick that lacks data leaves no row; any other error ends the backtest. */
  function SimStep(cfg: Config, sets: seq<IndicatorSet>, c: Candle, i: nat, sim: Sim): Sim
    requires i < |sets|
  {
    if sim.failed then sim
    else if c.end <= cfg.startBucket then
      sim.(rows := sim.rows + [Row(c, sets[i], None, sim.model.budget, sim.model.invested)])
    else
      var r := Trade(cfg, sets, c, i, sim.model, sim.orders);
      if r.error == NoError then
        Sim(r.model, if r.order.Some? then sim.orders + 1 else sim.orders,
            sim.rows + [Row(c, sets[i], r.order, r.model.budget, r.model.invested)], false)
      else if r.error == NotEnough then sim
      else sim.(model := r.model, failed := true)
  }

  function Simulate(cfg: Config, start: Model, g: Sets, n: nat): Sim
    requires n <= |g.sets| == |g.candles|
  {
    if n == 0 then Sim(start, 0, [], false)
    else SimStep(cfg, g.sets, g.candles[n - 1], n - 1, Simulate(cfg, start, g, n - 1))
  }

  /** A whole backtest over a candle history. */
  function Backtest(cfg: Config, start: Model, cs: seq<Candle>): Sim {
    var g := CompleteSets(Indicators(cfg.strategy), NonEmpty(cs));
    Simulate(cfg, start, g, |g.sets|)
  }

  // ---------- the code ----------

  class BacktesterExchange {
    const candles: seq<Candle>
    var current: int
    var orders: nat

    constructor (cs: seq<Candle>)
      ensures candles == cs && current == -1 && orders == 0
    {
      candles, current, orders := cs, -1, 0;
    }

    method NextTick()
      modifies this`current
      ensures current == old(current) + 1
    {
      current := current + 1;
    }
  }

  /** Collects the row of the current candle; the backend records into it. */
  class ResultCalculator {
    var candle: Option<Candle>
    var point: IndicatorSet
    var order: Option<Order>
    var budget: real
    var invested: real
    var results: seq<Row>

    constructor ()
      ensures results == [] && order == None
    {
      candle, point, order, budget, invested, results := None, IndicatorSet(0, []), None, 0.0, 0.0, [];
    }

    method Begin(c: Candle, p: IndicatorSet, b: real, i: real)
      modifies this
      ensures candle == Some(c) && point == p && budget == b && invested == i
      ensures order == old(order) && results == old(results)
    {
      candle, point, budget, invested := Some(c), p, b, i;
    }

    method Record(o: Order, b: real, i: real)
      modifies this`order, this`budget, this`invested
      ensures order == Some(o) && budget == b && invested == i
    {
      order, budget, invested := Some(o), b, i;
    }

    method Next()
      requires candle.Some?
      modifies this
      ensures results == old(results) + [Row(old(candle).value, old(point), old(order), old(budget), old(invested))]
      ensures order == None
    {
      results := results + [Row(candle.value, point, order, budget, invested)];
      candle, order := None, None;
    }
  }

  /** One iteration of the backtest loop: the trader and the exchange move on together, and the
      exchange fills at the candle the loop is at. */
  method RunTick(cfg: Config, m: TradingStrategyModel, trader: TradingStrategy, exchange: BacktesterExchange,
                 calculator: ResultCalculator, i: nat) returns (ok: bool)
    requires trader.strategy == cfg.strategy && trader.currentTick == exchange.current == i - 1
    requires i < |trader.indicatorSets| == |exchange.candles| && calculator.order == None
    modifies m, trader`currentTick, exchange, calculator
    ensures trader.currentTick == exchange.current == i
    ensures var sim := SimStep(cfg, trader.indicatorSets, exchange.candles[i], i,
                               Sim(old(m.Contents()), old(exchange.orders), old(calculator.results), false));
            && ok == !sim.failed && m.Contents() == sim.model && calculator.results == sim.rows
            && (ok ==> exchange.orders == sim.orders && calculator.order == None)
  {
    var validCandle := exchange.candles[i];
    calculator.Begin(validCandle, trader.indicatorSets[i], m.budget, m.invested);
    trader.NextTick();
    exchange.NextTick();
    if validCandle.end > cfg.startBucket {
      var filledAt := exchange.candles[exchange.current];
      var order, _, error := trader.ProcessTick(m, EnvironmentAt(cfg, filledAt, exchange.orders));
      if error == NotEnough {
        return true;
      }
      if error != NoError {
        return false;
      }
      if order.Some? {
        calculator.Record(order.value, m.budget, m.invested);
        exchange.orders := exchange.orders + 1;
      }
    }
    calculator.Next();
    return true;
  }

  /** The backtest. */
  method RunBacktest(cfg: Config, m: TradingStrategyModel, cs: seq<Candle>)
    returns (results: seq<Row>, ok: bool)
    modifies m
    ensures var sim := Backtest(cfg, old(m.Contents()), cs);
            results == sim.rows && ok == !sim.failed && m.Contents() == sim.model
  {
    hide SimStep;
    var indicatorSets, validCandles := GenerateIndicatorSets(Indicators(cfg.strategy), cs);
    ghost var g := Sets(indicatorSets, validCandles);
    ghost var start := m.Contents();
    var exchange := new BacktesterExchange(validCandles);
    var trader := new TradingStrategy(cfg.strategy);
    trader.SetIndicatorSets(indicatorSets);
    var calculator := new ResultCalculator();
    for i := 0 to |indicatorSets|
      invariant trader.currentTick == exchange.current == i - 1
      invariant trader.indicatorSets == indicatorSets && calculator.order == None
      invariant Sim(m.Contents(), exchange.orders, calculator.results, false) == Simulate(cfg, start, g, i)
    {
      ok := RunTick(cfg, m, trader, exchange, calculator, i);
      if !ok {
        FailureStays(cfg, start, g, i + 1, |indicatorSets|);
        return calculator.results, false;
      }
    }
    return calculator.results, true;
  }

  lemma {:induction false} FailureStays(cfg: Config, start: Model, g: Sets, i: nat, n: nat)
    requires i <= n <= |g.sets| == |g.candles|
    requires Simulate(cfg, start, g, i).failed
    ensures Simulate(cfg, start, g, n) == Simulate(cfg, start, g, i)
  {
    if i < n {
      FailureStays(cfg, start, g, i, n - 1);
    }
  }

  /** The ways a step can go: nothing, a row without an order, a row with one, or failure. */
  lemma StepCases(cfg: Config, sets: seq<IndicatorSet>, c: Candle, i: nat, sim: Sim)
    requires i < |sets|
    ensures var t, r := SimStep(cfg, sets, c, i, sim), Trade(cfg, sets, c, i, sim.model, sim.orders);
            || t == sim
            || (t.failed && t.rows == sim.rows && t.model == r.model)
            || t == sim.(rows := sim.rows + [Row(c, sets[i], None, sim.model.budget, sim.model.invested)])
            || (r.order.Some? && c.end > cfg.startBucket && !t.failed
                && t == Sim(r.model, sim.orders + 1,
                            sim.rows + [Row(c, sets[i], r.order, r.model.budget, r.model.invested)], false))
  {
  }

  // ---------- index safety ----------

  predicate KnownState(m: Model) {
    m.state != UnknownState
  }

  lemma ReflexivelyAlike(s: Strategy, sets: seq<IndicatorSet>, i: nat)
    requires EachComplete(sets, |Indicators(s)|) && i < |sets|
    ensures Alike(s, sets[i], sets[i])
  {
  }

  /** On complete sets a tick always decides: nothing is missing, S1's previous set included. */
  lemma TickDecides(cfg: Config, sets: seq<IndicatorSet>, c: Candle, i: nat, m: Model, orders: nat)
    requires EachComplete(sets, |Indicators(cfg.strategy)|) && i < |sets| && KnownState(m)
    ensures var r := Trade(cfg, sets, c, i, m, orders); r.error == NoError && KnownState(r.model)
  {
    var s := cfg.strategy;
    ReflexivelyAlike(s, sets, i);
    if i >= 1 { ReflexivelyAlike(s, sets, i - 1); }
    DecisionsAlike(s, sets, i, sets, i);
  }

  /** What the rows of an undisturbed backtest are rows of. */
  ghost predicate RowPerCandle(sim: Sim, g: Sets, n: nat)
    requires n <= |g.sets| == |g.candles|
  {
    && !sim.failed && KnownState(sim.model) && |sim.rows| == n
    && forall i :: 0 <= i < n ==> sim.rows[i].candle == g.candles[i] && sim.rows[i].point == g.sets[i]
  }

  lemma RowAdded(cfg: Config, g: Sets, sim: Sim, n: nat)
    requires n < |g.sets| == |g.candles| && EachComplete(g.sets, |Indicators(cfg.strategy)|)
    requires RowPerCandle(sim, g, n)
    ensures RowPerCandle(SimStep(cfg, g.sets, g.candles[n], n, sim), g, n + 1)
  {
    TickDecides(cfg, g.sets, g.candles[n], n, sim.model, sim.orders);
    hide Trade, KnownState, EachComplete;
  }

  /** For every history and every strategy: no tick of a backtest finds data missing, so no row is
      skipped, and the i-th row is the i-th complete set's. */
  lemma {:induction false} NoTickSkipped(cfg: Config, start: Model, g: Sets, n: nat)
    requires n <= |g.sets| == |g.candles| && EachComplete(g.sets, |Indicators(cfg.strategy)|) && KnownState(start)
    ensures RowPerCandle(Simulate(cfg, start, g, n), g, n)
  {
    if n > 0 {
      NoTickSkipped(cfg, start, g, n - 1);
      RowAdded(cfg, g, Simulate(cfg, start, g, n - 1), n - 1);
      hide SimStep, RowPerCandle;
    }
  }

  lemma BacktestIndexSafe(cfg: Config, start: Model, cs: seq<Candle>)
    requires KnownState(start)
    ensures var g := CompleteSets(Indicators(cfg.strategy), NonEmpty(cs));
            && RowPerCandle(Backtest(cfg, start, cs), g, |g.sets|)
            && Timed(g)
  {
    var g := CompleteSets(Indicators(cfg.strategy), NonEmpty(cs));
    AllComplete(Indicators(cfg.strategy), NonEmpty(cs));
    SetTimes(Indicators(cfg.strategy), NonEmpty(cs));
    NoTickSkipped(cfg, start, g, |g.sets|);
  }

  // ---------- causality ----------

  /** A decision at tick i reads no set after the i-th. */
  lemma TickIgnoresFuture(cfg: Config, sets: seq<IndicatorSet>, k: nat, c: Candle, i: nat,
                          m: Model, orders: nat)
    requires EachComplete(sets, |Indicators(cfg.strategy)|) && i < k <= |sets|
    ensures Trade(cfg, sets[..k], c, i, m, orders) == Trade(cfg, sets, c, i, m, orders)
  {
    var s := cfg.strategy;
    ReflexivelyAlike(s, sets, i);
    if i >= 1 { ReflexivelyAlike(s, sets, i - 1); }
    DecisionsAlike(s, sets[..k], i, sets, i);
    assert Valid(i, sets[..k]) && Valid(i, sets);
  }

  lemma {:induction false} SimulationIgnoresFuture(cfg: Config, start: Model, g: Sets, k: nat, n: nat)
    requires n <= k <= |g.sets| == |g.candles| && EachComplete(g.sets, |Indicators(cfg.strategy)|)
    ensures Simulate(cfg, start, Sets(g.sets[..k], g.candles[..k]), n) == Simulate(cfg, start, g, n)
  {
    if n > 0 {
      SimulationIgnoresFuture(cfg, start, g, k, n - 1);
      var sim := Simulate(cfg, start, g, n - 1);
      TickIgnoresFuture(cfg, g.sets, k, g.candles[n - 1], n - 1, sim.model, sim.orders);
      hide Trade, EachComplete;
    }
  }

  lemma {:induction false} RowsGrow(cfg: Config, start: Model, g: Sets, n: nat, k: nat)
    requires n <= k <= |g.sets| == |g.candles|
    ensures Simulate(cfg, start, g, n).rows <= Simulate(cfg, start, g, k).rows
  {
    if n < k {
      RowsGrow(cfg, start, g, n, k - 1);
    }
  }

  lemma {:induction false} NonEmptyPrefix(cs: seq<Candle>, k: nat)
    requires k <= |cs|
    ensures NonEmpty(cs[..k]) <= NonEmpty(cs)
  {
    if k < |cs| {
      NonEmptyPrefix(cs[..|cs| - 1], k);
      assert cs[..|cs| - 1][..k] == cs[..k];
    } else {
      assert cs[..k] == cs;
    }
  }

  lemma {:induction false} SetsPrefix(specs: seq<IndicatorSpec>, ts: seq<Candle>, k: nat)
    requires k <= |ts|
    ensures var f, g := CompleteSets(specs, ts[..k]), CompleteSets(specs, ts);
            |f.sets| <= |g.sets| && f == Sets(g.sets[..|f.sets|], g.candles[..|f.sets|])
  {
    if k < |ts| {
      SetsPrefix(specs, ts[..|ts| - 1], k);
      assert ts[..|ts| - 1][..k] == ts[..k];
    } else {
      assert ts[..k] == ts;
    }
  }

  /** For every strategy and every candle history: although the trader is handed the indicator
      sets of the whole future, backtesting a prefix of the candles gives a prefix of the rows. */
  lemma {:induction false} BacktestIsCausal(cfg: Config, start: Model, cs: seq<Candle>, k: nat)
    requires k <= |cs|
    ensures Backtest(cfg, start, cs[..k]).rows <= Backtest(cfg, start, cs).rows
  {
    var specs, ts := Indicators(cfg.strategy), NonEmpty(cs);
    NonEmptyPrefix(cs, k);
    var n := |NonEmpty(cs[..k])|;
    assert NonEmpty(cs[..k]) == ts[..n];
    SetsPrefix(specs, ts, n);
    AllComplete(specs, ts);
    var f, g := CompleteSets(specs, ts[..n]), CompleteSets(specs, ts);
    SimulationIgnoresFuture(cfg, start, g, |f.sets|, |f.sets|);
    RowsGrow(cfg, start, g, |f.sets|, |g.sets|);
  }
}
