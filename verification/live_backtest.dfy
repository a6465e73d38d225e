/** A trader that is seeded from the history, or from windows of it, and ticks at each traded candle
    makes the trades that the backtest of the same history predicts. */
module LiveBacktest {
  import opened Options
  import opened Writes
  import opened Candlesticks
  import opened Coarsening
  import opened Strategies
  import opened IndicatorSets
  import opened Trading
  import opened Traders
  import opened Backtesting
  import opened Ledger
  import opened Compounding
  import opened Live
  import opened Ema
  import opened Windows

  /** Where the history begins that the trader is seeded from at the j-th candle. */
  function Begin(from: nat -> nat, j: nat): (w: nat)
    ensures w <= j
  {
    if from(j) <= j then from(j) else j
  }

  /** What a live strategy meets at the j-th candle: its trader seeded with the candles up to there,
      the fills of the simulated exchange, and writes that succeed. */
  function InputAt(cfg: Config, cs: seq<Candle>, from: nat -> nat, j: nat, orders: nat): TickInput
    requires j < |cs|
  {
    TickInput(Seeded(Indicators(cfg.strategy), Window(cs, Begin(from, j), j)).sets, j - Begin(from, j),
              EnvironmentAt(cfg, cs[j], orders), Succeeded, cs[j].end)
  }

  /** A live strategy ticks at the traded candles after the start. */
  predicate TicksAt(cfg: Config, c: Candle) {
    c.bar.volume != 0.0 && c.end > cfg.startBucket
  }

  /** The ticks at the first n candles. */
  function LiveTicks(cfg: Config, start: Model, cs: seq<Candle>, from: nat -> nat, n: nat): seq<TickInput>
    requires n <= |cs|
  {
    if n == 0 then []
    else
      var before := LiveTicks(cfg, start, cs, from, n - 1);
      if TicksAt(cfg, cs[n - 1])
      then before + [InputAt(cfg, cs, from, n - 1, |LiveRun(cfg.strategy, start, before).orders|)] else before
  }

  /** The history before the start is long enough: for the first complete set, and for S1 one more. */
  predicate SeededEnough(cfg: Config, cs: seq<Candle>) {
    forall j :: 0 <= j < |cs| && TicksAt(cfg, cs[j]) ==>
      |SeenAt(cs, j)| > Dropped(cfg.strategy, NonEmpty(cs)) + if cfg.strategy.S1? then 1 else 0
  }

  /** How many complete sets the first n candles make. */
  function SetsBy(s: Strategy, cs: seq<Candle>, n: nat): int
    requires n <= |cs|
  {
    var seen, dropped := |NonEmpty(cs[..n])|, Dropped(s, NonEmpty(cs));
    if seen > dropped then seen - dropped else 0
  }

  /** Ticking at the j-th candle, with the simulation's model, is what the simulation does there. */
  predicate Predicted(cfg: Config, start: Model, cs: seq<Candle>, from: nat -> nat, j: nat)
    requires j < |cs|
  {
    var s, g, i := cfg.strategy, CompleteSets(Indicators(cfg.strategy), NonEmpty(cs)), SetsBy(cfg.strategy, cs, j);
    && |SeenAt(cs, j)| > Dropped(s, NonEmpty(cs)) && 0 <= i < |g.sets|
    && var sim := Simulate(cfg, start, g, i);
       ResultOf(s, sim.model, InputAt(cfg, cs, from, j, sim.orders))
         == Trade(cfg, g.sets, cs[j], i, sim.model, sim.orders)
  }

  predicate AllPredicted(cfg: Config, start: Model, cs: seq<Candle>, from: nat -> nat) {
    forall j :: 0 <= j < |cs| && TicksAt(cfg, cs[j]) ==> Predicted(cfg, start, cs, from, j)
  }

  /** The database of the live strategy says what the simulation says. */
  ghost predicate SameTrades(db: Db, sim: Sim) {
    !sim.failed && db == Db(sim.model, OrdersOf(sim.rows)) && sim.orders == |OrdersOf(sim.rows)|
  }

  lemma SucceededIsStored(m: Model, r: TickResult, cfg: Config, c: Candle, orders: nat,
                          sets: seq<IndicatorSet>, i: nat)
    requires r == Trade(cfg, sets, c, i, m, orders) && r.error == NoError
    ensures r.persisted == r.model
  {
    hide Buy, Sell, Valid, Filled, PriceWithSlippage;
  }

  /** A tick that decides as the simulation's does changes the database as the simulation changes. */
  lemma {:induction false} TickFollows(cfg: Config, g: Sets, cs: seq<Candle>, from: nat -> nat, j: nat, i: nat,
                                       db: Db, sim: Sim)
    requires j < |cs| && i < |g.sets| && SameTrades(db, sim) && TicksAt(cfg, cs[j])
    requires db.model.deactivatedAt.None?
    requires var r := Trade(cfg, g.sets, cs[j], i, db.model, sim.orders);
             && r.error == NoError
             && ResultOf(cfg.strategy, db.model, InputAt(cfg, cs, from, j, sim.orders)) == r
    ensures SameTrades(Tick(cfg.strategy, db, InputAt(cfg, cs, from, j, sim.orders)),
                       SimStep(cfg, g.sets, cs[j], i, sim))
  {
    var r := Trade(cfg, g.sets, cs[j], i, db.model, sim.orders);
    SucceededIsStored(db.model, r, cfg, cs[j], sim.orders, g.sets, i);
    OrdersGrow(sim.rows, Row(cs[j], g.sets[i], r.order, r.model.budget, r.model.invested));
    hide Trade, InputAt, ResultOf, OrdersOf;
  }

  /** Before the start the simulation only adds rows. */
  lemma WaitingFollows(cfg: Config, g: Sets, c: Candle, i: nat, db: Db, sim: Sim)
    requires i < |g.sets| && SameTrades(db, sim) && c.end <= cfg.startBucket
    ensures SameTrades(db, SimStep(cfg, g.sets, c, i, sim))
  {
    OrdersGrow(sim.rows, Row(c, g.sets[i], None, sim.model.budget, sim.model.invested));
    hide OrdersOf;
  }

  lemma StepKeepsDeactivated(cfg: Config, sets: seq<IndicatorSet>, c: Candle, i: nat, sim: Sim)
    requires i < |sets| && sim.model.deactivatedAt.Some?
    ensures SimStep(cfg, sets, c, i, sim).model.deactivatedAt.Some?
  {
    hide Buy, Sell, Valid, Filled, PriceWithSlippage;
  }

  lemma {:induction false} ActiveBefore(cfg: Config, start: Model, g: Sets, k: nat, n: nat)
    requires k <= n <= |g.sets| == |g.candles|
    requires Simulate(cfg, start, g, n).model.deactivatedAt.None?
    ensures Simulate(cfg, start, g, k).model.deactivatedAt.None?
  {
    hide SimStep;
    if k < n {
      if Simulate(cfg, start, g, n - 1).model.deactivatedAt.Some? {
        StepKeepsDeactivated(cfg, g.sets, g.candles[n - 1], n - 1, Simulate(cfg, start, g, n - 1));
      }
      ActiveBefore(cfg, start, g, k, n - 1);
    }
  }

  lemma CandleOfSet(s: Strategy, ts: seq<Candle>, n: nat)
    requires GoodStrategy(s) && PositivePrices(ts) && Dropped(s, ts) < n <= |ts| && 0 <= Dropped(s, ts)
    ensures var g, i := CompleteSets(Indicators(s), ts), n - 1 - Dropped(s, ts);
            i < |g.candles| && g.candles[i] == ts[n - 1]
  {
    StrategyPeriods(s);
    DroppedSetsAreInitial(Indicators(s), ts);
    hide SetAfter, MostNeeded, PositivePrices, GoodStrategy, GoodPeriods, CompleteSets;
  }

  /** The candle of a complete set is the traded candle it was computed at. */
  lemma {:induction false} SetOfCandle(s: Strategy, cs: seq<Candle>, j: nat)
    requires GoodStrategy(s) && PositivePrices(NonEmpty(cs)) && j < |cs| && cs[j].bar.volume != 0.0
    requires |SeenAt(cs, j)| > Dropped(s, NonEmpty(cs))
    ensures var g, i := CompleteSets(Indicators(s), NonEmpty(cs)), SetsBy(s, cs, j);
            && 0 <= i < |g.candles| && SetsBy(s, cs, j + 1) == i + 1 && g.candles[i] == cs[j]
            && i == |SeenAt(cs, j)| - 1 - Dropped(s, NonEmpty(cs))
  {
    hide Alike, Seeded, CompleteSets, PositivePrices, GoodStrategy, Dropped;
    var ts, n := NonEmpty(cs), |SeenAt(cs, j)|;
    SeenIsPrefix(cs, j);
    AlikeAt(s, cs, j);
    CandleOfSet(s, ts, n);
    assert cs[..j + 1][..j] == cs[..j];
    assert NonEmpty(cs[..j + 1])[n - 1] == cs[j] && ts[..n][n - 1] == ts[n - 1];
  }

  lemma {:induction false} StepFollows(cfg: Config, start: Model, cs: seq<Candle>, from: nat -> nat, j: nat, db: Db)
    requires GoodStrategy(cfg.strategy) && PositivePrices(NonEmpty(cs)) && KnownState(start)
    requires j < |cs| && TicksAt(cfg, cs[j]) && Predicted(cfg, start, cs, from, j)
    requires var g, i := CompleteSets(Indicators(cfg.strategy), NonEmpty(cs)), SetsBy(cfg.strategy, cs, j);
             && 0 <= i <= |g.sets| && SameTrades(db, Simulate(cfg, start, g, i)) && db.model.deactivatedAt.None?
    ensures var g, i := CompleteSets(Indicators(cfg.strategy), NonEmpty(cs)), SetsBy(cfg.strategy, cs, j);
            && i + 1 == SetsBy(cfg.strategy, cs, j + 1) <= |g.sets|
            && SameTrades(Tick(cfg.strategy, db, InputAt(cfg, cs, from, j, |db.orders|)),
                          Simulate(cfg, start, g, i + 1))
  {
    hide SeenAt, Dropped, SetsBy, CompleteSets, NonEmpty, PositivePrices, GoodStrategy, ProcessTick, SimStep, Tick;
    hide EachComplete, OrdersOf, Seeded;
    var s := cfg.strategy;
    var g, i := CompleteSets(Indicators(s), NonEmpty(cs)), SetsBy(s, cs, j);
    SetOfCandle(s, cs, j);
    StrategyPeriods(s);
    AllComplete(Indicators(s), NonEmpty(cs));
    var sim := Simulate(cfg, start, g, i);
    NoTickSkipped(cfg, start, g, i);
    TickDecides(cfg, g.sets, cs[j], i, sim.model, sim.orders);
    TickFollows(cfg, g, cs, from, j, i, db, sim);
  }

  lemma {:induction false} CandleFollows(cfg: Config, start: Model, cs: seq<Candle>, from: nat -> nat, j: nat, db: Db)
    requires GoodStrategy(cfg.strategy) && PositivePrices(NonEmpty(cs)) && KnownState(start)
    requires j < |cs| && AllPredicted(cfg, start, cs, from)
    requires var g, i := CompleteSets(Indicators(cfg.strategy), NonEmpty(cs)), SetsBy(cfg.strategy, cs, j);
             && 0 <= i <= |g.sets| && SameTrades(db, Simulate(cfg, start, g, i)) && db.model.deactivatedAt.None?
    ensures var g, k := CompleteSets(Indicators(cfg.strategy), NonEmpty(cs)), SetsBy(cfg.strategy, cs, j + 1);
            var input := InputAt(cfg, cs, from, j, |db.orders|);
            var after := if TicksAt(cfg, cs[j]) then Tick(cfg.strategy, db, input) else db;
            0 <= k <= |g.sets| && SameTrades(after, Simulate(cfg, start, g, k))
  {
    hide SetsBy, CompleteSets, NonEmpty, PositivePrices, GoodStrategy, SimStep, Tick, InputAt, SameTrades;
    var s, c := cfg.strategy, cs[j];
    var g, i := CompleteSets(Indicators(s), NonEmpty(cs)), SetsBy(s, cs, j);
    if TicksAt(cfg, c) {
      StepFollows(cfg, start, cs, from, j, db);
    } else {
      SetsGrow(s, cs, j);
      if SetsBy(s, cs, j + 1) == i + 1 {
        WaitingFollows(cfg, g, c, i, db, Simulate(cfg, start, g, i));
      }
    }
  }

  lemma {:induction false} RunFollows(cfg: Config, start: Model, cs: seq<Candle>, from: nat -> nat, n: nat)
    requires GoodStrategy(cfg.strategy) && PositivePrices(NonEmpty(cs)) && KnownState(start)
    requires n <= |cs| && AllPredicted(cfg, start, cs, from) && Backtest(cfg, start, cs).model.deactivatedAt.None?
    ensures var g, k := CompleteSets(Indicators(cfg.strategy), NonEmpty(cs)), SetsBy(cfg.strategy, cs, n);
            && 0 <= k <= |g.sets|
            && SameTrades(LiveRun(cfg.strategy, start, LiveTicks(cfg, start, cs, from, n)), Simulate(cfg, start, g, k))
  {
    hide SetsBy, CompleteSets, NonEmpty, PositivePrices, GoodStrategy, SimStep, Tick, InputAt, TicksAt, AllPredicted;
    var s, g := cfg.strategy, CompleteSets(Indicators(cfg.strategy), NonEmpty(cs));
    if n == 0 {
      NothingSeen(s, cs);
    } else {
      var j := n - 1;
      RunFollows(cfg, start, cs, from, j);
      var before := LiveTicks(cfg, start, cs, from, j);
      var db, i := LiveRun(s, start, before), SetsBy(s, cs, j);
      ActiveBefore(cfg, start, g, i, |g.sets|);
      ActiveModel(db, Simulate(cfg, start, g, i));
      CandleFollows(cfg, start, cs, from, j, db);
      var input := InputAt(cfg, cs, from, j, |db.orders|);
      assert (before + [input])[..|before|] == before;
      assert LiveTicks(cfg, start, cs, from, n) == if TicksAt(cfg, cs[j]) then before + [input] else before;
      hide SameTrades, Simulate;
    }
  }

  lemma ActiveModel(db: Db, sim: Sim)
    requires SameTrades(db, sim)
    ensures db.model == sim.model
  {
  }

  lemma NothingSeen(s: Strategy, cs: seq<Candle>)
    requires GoodStrategy(s) && PositivePrices(NonEmpty(cs))
    ensures SetsBy(s, cs, 0) == 0
  {
    assert NonEmpty(cs[..0]) == [];
    StrategyPeriods(s);
    DroppedSetsAreInitial(Indicators(s), NonEmpty(cs));
  }

  /** One more candle makes a set when it is traded and not dropped. */
  lemma {:induction false} SetsGrow(s: Strategy, cs: seq<Candle>, j: nat)
    requires GoodStrategy(s) && PositivePrices(NonEmpty(cs)) && j < |cs|
    ensures var g, i := CompleteSets(Indicators(s), NonEmpty(cs)), SetsBy(s, cs, j);
            || SetsBy(s, cs, j + 1) == i
            || (SetsBy(s, cs, j + 1) == i + 1 && i < |g.candles| && g.candles[i] == cs[j] && cs[j].bar.volume != 0.0)
  {
    assert cs[..j + 1][..j] == cs[..j];
    if cs[j].bar.volume != 0.0 && |SeenAt(cs, j)| > Dropped(s, NonEmpty(cs)) {
      SetOfCandle(s, cs, j);
    }
  }

  /** When each tick is as predicted, so is the whole run. */
  lemma {:induction false} PredictedRun(cfg: Config, start: Model, cs: seq<Candle>, from: nat -> nat)
    requires GoodStrategy(cfg.strategy) && PositivePrices(NonEmpty(cs)) && KnownState(start)
    requires AllPredicted(cfg, start, cs, from) && Backtest(cfg, start, cs).model.deactivatedAt.None?
    ensures var sim := Backtest(cfg, start, cs);
            LiveRun(cfg.strategy, start, LiveTicks(cfg, start, cs, from, |cs|)) == Db(sim.model, OrdersOf(sim.rows))
  {
    hide AllPredicted;
    RunFollows(cfg, start, cs, from, |cs|);
    assert cs[..|cs|] == cs;
    StrategyPeriods(cfg.strategy);
    DroppedSetsAreInitial(Indicators(cfg.strategy), NonEmpty(cs));
    hide LiveRun, LiveTicks, Simulate;
  }

  // ---------- seeded with the whole history ----------

  /** Every tick's trader is seeded from the first candle on. */
  const ALL: nat -> nat := j => 0

  lemma {:induction false} PredictedByAll(cfg: Config, start: Model, cs: seq<Candle>, j: nat)
    requires GoodStrategy(cfg.strategy) && PositivePrices(NonEmpty(cs)) && KnownState(start)
    requires j < |cs| && SeededEnough(cfg, cs) && TicksAt(cfg, cs[j])
    ensures Predicted(cfg, start, cs, ALL, j)
  {
    hide SeenAt, Dropped, SetsBy, CompleteSets, NonEmpty, PositivePrices, GoodStrategy, ProcessTick, SimStep, Seeded;
    hide EachComplete;
    var s := cfg.strategy;
    var g, i := CompleteSets(Indicators(s), NonEmpty(cs)), SetsBy(s, cs, j);
    SetOfCandle(s, cs, j);
    StrategyPeriods(s);
    AllComplete(Indicators(s), NonEmpty(cs));
    var sim := Simulate(cfg, start, g, i);
    NoTickSkipped(cfg, start, g, i);
    assert Window(cs, 0, j) == cs[..j + 1];
    hide Simulate, Window, Valid, EnvironmentAt, PreviousReadable;
    LiveAgrees(s, cs, j, sim.model, EnvironmentAt(cfg, cs[j], sim.orders));
  }

  /** For every strategy and every history, untraded candles included, with enough of it before the
      start: as long as no sell falls below the minimum budget, a live strategy that meets the
      simulated exchange's fills records exactly the orders of the backtest and ends with its model. */
  lemma {:induction false} LiveIsBacktest(cfg: Config, start: Model, cs: seq<Candle>)
    requires GoodStrategy(cfg.strategy) && PositivePrices(NonEmpty(cs)) && KnownState(start)
    requires SeededEnough(cfg, cs) && Backtest(cfg, start, cs).model.deactivatedAt.None?
    ensures var sim := Backtest(cfg, start, cs);
            LiveRun(cfg.strategy, start, LiveTicks(cfg, start, cs, ALL, |cs|)) == Db(sim.model, OrdersOf(sim.rows))
  {
    hide Predicted, GoodStrategy, PositivePrices, NonEmpty, Backtest, SeededEnough, TicksAt;
    forall j | 0 <= j < |cs| && TicksAt(cfg, cs[j]) ensures Predicted(cfg, start, cs, ALL, j) {
      PredictedByAll(cfg, start, cs, j);
    }
    PredictedRun(cfg, start, cs, ALL);
  }

  // ---------- seeded from windows ----------

  /** The window of the tick has enough traded candles, and every value that the backtest's decision
      there compares is farther from its threshold than the window can move it. */
  predicate ClearAt(cfg: Config, start: Model, cs: seq<Candle>, from: nat -> nat, j: nat, lo: real, hi: real)
    requires GoodStrategy(cfg.strategy) && j < |cs| && lo > 0.0
  {
    var s, g, i := cfg.strategy, CompleteSets(Indicators(cfg.strategy), NonEmpty(cs)), SetsBy(cfg.strategy, cs, j);
    var xs, n := SeenAt(cs, j), SeenIn(cs, Begin(from, j), j);
    && Enough(s, n) && n <= |xs| && 0 <= i <= |g.sets|
    && Clear(s, Simulate(cfg, start, g, i).model.state, xs, n, lo, hi)
  }

  predicate AllClear(cfg: Config, start: Model, cs: seq<Candle>, from: nat -> nat, lo: real, hi: real)
    requires GoodStrategy(cfg.strategy) && lo > 0.0
  {
    forall j :: 0 <= j < |cs| && TicksAt(cfg, cs[j]) ==> ClearAt(cfg, start, cs, from, j, lo, hi)
  }

  lemma {:induction false} PredictedByWindow(cfg: Config, start: Model, cs: seq<Candle>, from: nat -> nat, j: nat,
                                             lo: real, hi: real)
    requires GoodStrategy(cfg.strategy) && PositivePrices(NonEmpty(cs)) && lo > 0.0
    requires AllWithin(MeanPrices(NonEmpty(cs)), lo, hi)
    requires j < |cs| && TicksAt(cfg, cs[j]) && ClearAt(cfg, start, cs, from, j, lo, hi)
    ensures Predicted(cfg, start, cs, from, j)
  {
    hide Dropped, SetsBy, CompleteSets, NonEmpty, PositivePrices, GoodStrategy, ProcessTick, SimStep, Seeded, Clear;
    hide Enough, MeanPrices;
    var s, w := cfg.strategy, Begin(from, j);
    var g, i := CompleteSets(Indicators(s), NonEmpty(cs)), SetsBy(s, cs, j);
    PricesAt(cs, j);
    SeenWithin(cs, j, lo, hi);
    hide SeenAt, SeenIn, Window, AllWithin;
    var sim := Simulate(cfg, start, g, i);
    WindowDecides(s, cs, w, j, sim.model, EnvironmentAt(cfg, cs[j], sim.orders), lo, hi);
    DroppedFew(s, NonEmpty(cs), |SeenAt(cs, j)|, |SeenAt(cs, j)| - 1 - Dropped(s, NonEmpty(cs)));
    SetOfCandle(s, cs, j);
  }

  lemma DroppedFew(s: Strategy, ts: seq<Candle>, n: nat, i: int)
    requires i == n - 1 - Dropped(s, ts) && 0 <= i
    ensures n > Dropped(s, ts)
  {
  }

  lemma {:induction false} SeenWithin(cs: seq<Candle>, j: nat, lo: real, hi: real)
    requires j < |cs| && AllWithin(MeanPrices(NonEmpty(cs)), lo, hi)
    ensures AllWithin(SeenAt(cs, j), lo, hi)
  {
    hide NonEmpty;
    SeenIsPrefix(cs, j);
    PricesOfPrefix(NonEmpty(cs), |SeenAt(cs, j)|);
    hide MeanPrices;
  }

  /** For every strategy, every history and every choice of windows with enough traded candles: where
      each tick of the backtest decides by more than the window can move its values, a live strategy
      whose trader is seeded anew from the window at every tick, as the bot's is, records exactly the
      orders of the backtest and ends with its model. */
  lemma {:induction false} WindowedIsBacktest(cfg: Config, start: Model, cs: seq<Candle>, from: nat -> nat, lo: real,
                                              hi: real)
    requires GoodStrategy(cfg.strategy) && PositivePrices(NonEmpty(cs)) && KnownState(start)
    requires lo > 0.0 && AllWithin(MeanPrices(NonEmpty(cs)), lo, hi) && AllClear(cfg, start, cs, from, lo, hi)
    requires Backtest(cfg, start, cs).model.deactivatedAt.None?
    ensures var sim := Backtest(cfg, start, cs);
            LiveRun(cfg.strategy, start, LiveTicks(cfg, start, cs, from, |cs|)) == Db(sim.model, OrdersOf(sim.rows))
  {
    hide Predicted, GoodStrategy, PositivePrices, NonEmpty, Backtest, TicksAt, ClearAt, AllWithin;
    forall j | 0 <= j < |cs| && TicksAt(cfg, cs[j]) ensures Predicted(cfg, start, cs, from, j) {
      PredictedByWindow(cfg, start, cs, from, j, lo, hi);
    }
    PredictedRun(cfg, start, cs, from);
  }
}
