/** How a backtest's budget compounds over round trips, fees and cut-off amounts included. */
module Compounding {
  import opened Options
  import opened Candlesticks
  import opened Coarsening
  import opened Reals
  import opened Ema
  import opened Dema
  import opened Truncation
  import opened Strategies
  import opened Trading
  import opened IndicatorSets
  import opened Backtesting
  import opened Ledger
  import opened Results

  const KEPT := 1.0 - EXCHANGE_FEE

  /** What an order multiplies a holding by, before anything is cut off. */
  function Factor(side: Side, price: real): real {
    if side == SellSide then price * KEPT
    else if price == 0.0 then 0.0
    else KEPT / price
  }

  lemma FilledIsFactor(side: Side, cost: real, price: real)
    requires price > 0.0
    ensures Filled(side, cost, price) == cost * Factor(side, price)
    ensures Factor(side, price) > 0.0
  {
    if side == SellSide {
      ProductPositive(price, KEPT);
      assert cost * price * KEPT == cost * (price * KEPT);
    } else {
      var q := KEPT / price;
      assert q * price == KEPT;
      if q <= 0.0 { ProductSign(-q, price); }
      var d := cost * KEPT / price;
      assert d * price == cost * KEPT;
      assert (cost * q) * price == cost * (q * price);
      SameQuotient(d, cost * q, price);
    }
  }

  lemma SameQuotient(a: real, b: real, c: real)
    requires c > 0.0 && a * c == b * c
    ensures a == b
  {
    if a < b { ProductPositive(b - a, c); }
    if b < a { ProductPositive(a - b, c); }
  }

  function RowFactor(row: Row): real {
    if row.order.None? then 1.0 else Factor(row.order.value.side, row.candle.bar.close)
  }

  /** The product of the factors of all orders so far. */
  function Growth(rows: seq<Row>): real {
    if rows == [] then 1.0 else Times(Growth(rows[..|rows| - 1]), RowFactor(rows[|rows| - 1]))
  }

  /** The most that can have been cut off: each order adds one unit, which later orders carry on. */
  function Shortfall(rows: seq<Row>): real {
    if rows == [] then 0.0
    else
      var row := rows[|rows| - 1];
      Times(Shortfall(rows[..|rows| - 1]), RowFactor(row)) + if row.order.Some? then UNIT else 0.0
  }

  lemma GrowOnce(h0: real, g: real, e: real, h: real, f: real, after: real)
    requires f > 0.0 && Times(h0, g) - e <= h <= Times(h0, g) && after <= Times(h, f) < after + UNIT
    ensures Times(h0, Times(g, f)) - (Times(e, f) + UNIT) <= after <= Times(h0, Times(g, f))
  {
    ProductSign(f, h0 * g - h);
    ProductSign(f, h - (h0 * g - e));
    assert h0 * (g * f) == f * (h0 * g);
  }

  lemma TimesOne(x: real)
    ensures Times(x, 1.0) == x
  {
  }

  lemma SumsGrow(rows: seq<Row>, row: Row)
    ensures Growth(rows + [row]) == Times(Growth(rows), RowFactor(row))
    ensures Shortfall(rows + [row]) == Times(Shortfall(rows), RowFactor(row)) + if row.order.Some? then UNIT else 0.0
  {
    assert (rows + [row])[..|rows|] == rows;
  }

  /** What one order does to the holding. */
  lemma {:induction false} OrderGrows(cfg: Config, sets: seq<IndicatorSet>, c: Candle, i: nat, m: Model, orders: nat)
    requires SoundModel(m) && c.bar.close > 0.0 && cfg.slippage == 0.0 && GoodDraws(cfg)
    requires Trade(cfg, sets, c, i, m, orders).order.Some?
    ensures var r := Trade(cfg, sets, c, i, m, orders);
            var f := Factor(r.order.value.side, c.bar.close);
            && f > 0.0 && SoundModel(r.model) && Holding(m) >= 0.0
            && Holding(r.model) <= Times(Holding(m), f) < Holding(r.model) + UNIT
            && r.order.value.side == SideOf(m.state) && SideOf(r.model.state) == OtherSide(SideOf(m.state))
  {
    TradeConsistent(cfg, sets, c, i, m, orders);
    var o := Trade(cfg, sets, c, i, m, orders).order.value;
    assert PriceWithSlippage(cfg.draws(orders), c.bar.close, cfg.slippage) == c.bar.close;
    FilledIsFactor(o.side, o.cost, c.bar.close);
    CutBounds(o.filled);
    hide Cut, Filled, Factor, Trade;
  }

  /** A holding is at most the starting one times the growth of the orders, and below it by no
      more than the amounts cut off, carried through. */
  ghost predicate Compounded(h0: real, rows: seq<Row>, h: real) {
    Times(h0, Growth(rows)) - Shortfall(rows) <= h <= Times(h0, Growth(rows))
  }

  lemma RowCompounds(h0: real, rows: seq<Row>, h: real, row: Row, after: real)
    requires Compounded(h0, rows, h)
    requires if row.order.None? then after == h
             else RowFactor(row) > 0.0 && after <= Times(h, RowFactor(row)) < after + UNIT
    ensures Compounded(h0, rows + [row], after)
  {
    hide Growth, Shortfall, Times;
    SumsGrow(rows, row);
    TimesOne(Growth(rows));
    TimesOne(Shortfall(rows));
    if row.order.Some? {
      GrowOnce(h0, Growth(rows), Shortfall(rows), h, RowFactor(row), after);
    }
  }

  lemma {:induction false} HoldingCompounds(cfg: Config, start: Model, g: Sets, n: nat)
    requires n <= |g.sets| == |g.candles| && SoundModel(start) && GoodMarket(cfg, g.candles) && GoodDraws(cfg)
    requires cfg.slippage == 0.0
    ensures var sim := Simulate(cfg, start, g, n);
            !sim.failed ==> Compounded(Holding(start), sim.rows, Holding(sim.model))
  {
    if n > 0 {
      HoldingCompounds(cfg, start, g, n - 1);
      SimulationSound(cfg, start, g, n - 1);
      var sim, t := Simulate(cfg, start, g, n - 1), Simulate(cfg, start, g, n);
      var c := g.candles[n - 1];
      StepCases(cfg, g.sets, c, n - 1, sim);
      Closes(cfg, g.candles, n - 1);
      hide RowsConsistent, GoodMarket, SimStep, Trade, Compounded, Holding, Factor, Growth, Shortfall, Times;
      if !t.failed && |t.rows| > |sim.rows| {
        var row := t.rows[|sim.rows|];
        assert t.rows == sim.rows + [row];
        if row.order.Some? {
          OrderGrows(cfg, g.sets, c, n - 1, sim.model, sim.orders);
        }
        RowCompounds(Holding(start), sim.rows, Holding(sim.model), row, Holding(t.model));
      }
    } else {
      TimesOne(Holding(start));
    }
  }

  lemma Closes(cfg: Config, cs: seq<Candle>, i: nat)
    requires GoodMarket(cfg, cs) && i < |cs|
    ensures cs[i].bar.close > 0.0
  {
  }

  // ---------- in round trips ----------

  datatype Trip = Trip(bought: real, sold: real)

  /** The completed round trips of a run that starts by buying, and the close of an open purchase. */
  datatype Trips = Trips(done: seq<Trip>, open: Option<real>)

  function TripsOf(rows: seq<Row>): Trips {
    if rows == [] then Trips([], None)
    else
      var before, row := TripsOf(rows[..|rows| - 1]), rows[|rows| - 1];
      if IsBuy(row) then before.(open := Some(row.candle.bar.close))
      else if IsSell(row) && before.open.Some?
      then Trips(before.done + [Trip(before.open.value, row.candle.bar.close)], None)
      else before
  }

  /** What a round trip multiplies the budget by: (1 - fee)^2 times sold over bought. */
  function TripFactor(t: Trip): real {
    if t.bought == 0.0 then 0.0 else KEPT * KEPT * t.sold / t.bought
  }

  function TripGrowth(ts: seq<Trip>): real {
    if ts == [] then 1.0 else Times(TripGrowth(ts[..|ts| - 1]), TripFactor(ts[|ts| - 1]))
  }

  lemma FactorsMultiply(bought: real, sold: real)
    requires bought > 0.0
    ensures Times(Factor(BuySide, bought), Factor(SellSide, sold)) == TripFactor(Trip(bought, sold))
  {
    var q, r := KEPT / bought, KEPT * KEPT * sold / bought;
    assert q * bought == KEPT && r * bought == KEPT * KEPT * sold;
    assert (q * (sold * KEPT)) * bought == (q * bought) * (sold * KEPT);
    SameQuotient(q * (sold * KEPT), r, bought);
  }

  /** Where the run is within its round trips. */
  ghost predicate InTrips(rows: seq<Row>, state: TradeState) {
    var ts := TripsOf(rows);
    match ts.open
    case None => state == TryingToBuy && Growth(rows) == TripGrowth(ts.done)
    case Some(b) => state == TryingToSell && b > 0.0 && Growth(rows) == Times(TripGrowth(ts.done), Factor(BuySide, b))
  }

  lemma TripGrows(ts: seq<Trip>, t: Trip)
    ensures TripGrowth(ts + [t]) == Times(TripGrowth(ts), TripFactor(t))
  {
    assert (ts + [t])[..|ts|] == ts;
  }

  lemma RowMovesTrip(rows: seq<Row>, row: Row, state: TradeState, after: TradeState)
    requires InTrips(rows, state) && row.candle.bar.close > 0.0
    requires if row.order.None? then after == state
             else row.order.value.side == SideOf(state) && SideOf(after) == OtherSide(SideOf(state))
                  && after != UnknownState
    ensures InTrips(rows + [row], after)
  {
    hide Factor, TripFactor, Times;
    TimesOne(Growth(rows));
    SumsGrow(rows, row);
    assert (rows + [row])[..|rows|] == rows;
    var ts := TripsOf(rows);
    if IsSell(row) {
      var t := Trip(ts.open.value, row.candle.bar.close);
      TripGrows(ts.done, t);
      FactorsMultiply(t.bought, t.sold);
      AssociateFactors(TripGrowth(ts.done), Factor(BuySide, t.bought), Factor(SellSide, t.sold));
    }
  }

  lemma AssociateFactors(a: real, b: real, c: real)
    ensures Times(Times(a, b), c) == Times(a, Times(b, c))
  {
  }

  lemma {:induction false} SimulationInTrips(cfg: Config, start: Model, g: Sets, n: nat)
    requires n <= |g.sets| == |g.candles| && SoundModel(start) && GoodMarket(cfg, g.candles) && GoodDraws(cfg)
    requires cfg.slippage == 0.0 && start.state == TryingToBuy
    ensures var sim := Simulate(cfg, start, g, n); !sim.failed ==> InTrips(sim.rows, sim.model.state)
  {
    if n > 0 {
      SimulationInTrips(cfg, start, g, n - 1);
      SimulationSound(cfg, start, g, n - 1);
      var sim, t := Simulate(cfg, start, g, n - 1), Simulate(cfg, start, g, n);
      var c := g.candles[n - 1];
      StepCases(cfg, g.sets, c, n - 1, sim);
      Closes(cfg, g.candles, n - 1);
      hide RowsConsistent, GoodMarket, SimStep, Trade, InTrips, Factor;
      if !t.failed && |t.rows| > |sim.rows| {
        var row := t.rows[|sim.rows|];
        assert t.rows == sim.rows + [row];
        if row.order.Some? {
          OrderGrows(cfg, g.sets, c, n - 1, sim.model, sim.orders);
        }
        RowMovesTrip(sim.rows, row, sim.model.state, t.model.state);
      }
    }
  }

  /** After the completed round trips, bought at b_i and sold at s_i, a budget is at most the
      initial one times the product of (1 - fee)^2 * s_i / b_i, and below it by no more than the
      amounts cut off on the way. */
  ghost predicate BudgetWithin(initial: real, rows: seq<Row>, budget: real) {
    var bound := Times(initial, TripGrowth(TripsOf(rows).done));
    bound - Shortfall(rows) <= budget <= bound
  }

  lemma TripsBoundBudget(start: Model, rows: seq<Row>, m: Model)
    requires start.state == TryingToBuy == m.state
    requires Compounded(Holding(start), rows, Holding(m)) && InTrips(rows, m.state)
    ensures BudgetWithin(start.budget, rows, m.budget)
  {
    hide Times, Growth, TripGrowth, Shortfall;
  }

  /** For every backtest without slippage that starts by buying, whenever it is out of a trade. */
  lemma BudgetCompounds(cfg: Config, start: Model, cs: seq<Candle>)
    requires SoundModel(start) && GoodMarket(cfg, NonEmpty(cs)) && GoodDraws(cfg)
    requires cfg.slippage == 0.0 && start.state == TryingToBuy
    ensures var sim := Backtest(cfg, start, cs);
            !sim.failed && sim.model.state == TryingToBuy ==> BudgetWithin(start.budget, sim.rows, sim.model.budget)
  {
    hide InTrips, Compounded, BudgetWithin, Simulate, Holding;
    var g := CompleteSets(Indicators(cfg.strategy), NonEmpty(cs));
    CandlesKept(Indicators(cfg.strategy), NonEmpty(cs));
    assert forall i :: 0 <= i < |g.candles| ==> g.candles[i] in NonEmpty(cs);
    HoldingCompounds(cfg, start, g, |g.sets|);
    SimulationInTrips(cfg, start, g, |g.sets|);
    var sim := Backtest(cfg, start, cs);
    if !sim.failed && sim.model.state == TryingToBuy {
      TripsBoundBudget(start, sim.rows, sim.model);
    }
  }

  // ---------- at a constant price ----------

  predicate Flat(ts: seq<Candle>, p: real) {
    forall i :: 0 <= i < |ts| ==> ts[i].bar.close == p
  }

  lemma FlatTripFactor(p: real)
    requires p > 0.0
    ensures TripFactor(Trip(p, p)) == KEPT * KEPT
  {
    SameQuotient(KEPT * KEPT * p / p, KEPT * KEPT, p);
  }

  lemma PoorFactor(bought: real, sold: real)
    requires 0.0 < sold <= bought
    ensures Factor(BuySide, bought) > 0.0 && Factor(SellSide, sold) > 0.0
    ensures Times(Factor(BuySide, bought), Factor(SellSide, sold)) < 1.0
  {
    FilledIsFactor(BuySide, 1.0, bought);
    FilledIsFactor(SellSide, 1.0, sold);
    FactorsMultiply(bought, sold);
    var r, k := TripFactor(Trip(bought, sold)), KEPT * KEPT;
    assert r * bought == k * sold;
    if r >= 1.0 {
      ProductSign(r - 1.0, bought);
    }
  }

  lemma LossyProduct(budget: real, b: real, s: real, held: real, after: real)
    requires budget > 0.0 && s > 0.0 && Times(b, s) < 1.0 && held <= Times(budget, b) && after <= Times(held, s)
    ensures after < budget
  {
    ProductSign(s, budget * b - held);
    assert held * s <= (budget * b) * s;
    AssociateFactors(budget, b, s);
    ProductPositive(budget, 1.0 - b * s);
    assert budget * (1.0 - b * s) == budget - budget * (b * s);
  }

  /** Buying and selling back at a price that is no better strictly loses from a positive budget. */
  lemma PoorTripLoses(budget: real, bought: real, sold: real)
    requires budget > 0.0 && 0.0 < sold <= bought
    ensures Cut(Filled(SellSide, Cut(Filled(BuySide, budget, bought)), sold)) < budget
  {
    hide Factor, Cut, Filled;
    var b, s := Factor(BuySide, bought), Factor(SellSide, sold);
    PoorFactor(bought, sold);
    FilledIsFactor(BuySide, budget, bought);
    ProductPositive(budget, b);
    var held := Cut(Filled(BuySide, budget, bought));
    CutBounds(Filled(BuySide, budget, bought));
    FilledIsFactor(SellSide, held, sold);
    ProductSign(held, s);
    CutBounds(Filled(SellSide, held, sold));
    LossyProduct(budget, b, s, held, Cut(Filled(SellSide, held, sold)));
  }

  lemma {:induction false} FlatGrowth(ts: seq<Trip>, p: real)
    requires p > 0.0 && forall i :: 0 <= i < |ts| ==> ts[i] == Trip(p, p)
    ensures TripGrowth(ts) == Pow(KEPT * KEPT, |ts|)
  {
    if ts != [] {
      FlatGrowth(ts[..|ts| - 1], p);
      FlatTripFactor(p);
    }
  }

  lemma {:induction false} FlatTrips(rows: seq<Row>, p: real)
    requires forall i :: 0 <= i < |rows| ==> rows[i].candle.bar.close == p
    ensures var ts := TripsOf(rows);
            (ts.open.Some? ==> ts.open.value == p) && forall i :: 0 <= i < |ts.done| ==> ts.done[i] == Trip(p, p)
  {
    if rows != [] {
      FlatTrips(rows[..|rows| - 1], p);
    }
  }

  lemma FlatDecays(cfg: Config, start: Model, cs: seq<Candle>, p: real)
    requires SoundModel(start) && GoodDraws(cfg) && cfg.slippage == 0.0 && start.state == TryingToBuy
    requires p > 0.0 && Flat(NonEmpty(cs), p)
    requires KnownState(start)
    ensures var sim := Backtest(cfg, start, cs);
            !sim.failed && sim.model.state == TryingToBuy ==>
              sim.model.budget <= start.budget * Pow(KEPT * KEPT, |TripsOf(sim.rows).done|)
  {
    hide TripsOf, TripGrowth, Simulate;
    var sim, g := Backtest(cfg, start, cs), CompleteSets(Indicators(cfg.strategy), NonEmpty(cs));
    BudgetCompounds(cfg, start, cs);
    BacktestIndexSafe(cfg, start, cs);
    CandlesKept(Indicators(cfg.strategy), NonEmpty(cs));
    forall i | 0 <= i < |sim.rows| ensures sim.rows[i].candle.bar.close == p {
      assert g.candles[i] in NonEmpty(cs);
    }
    FlatTrips(sim.rows, p);
    FlatGrowth(TripsOf(sim.rows).done, p);
  }

  /** At a constant price p, for every backtest without slippage that starts by buying: whenever it
      is out of a trade, its budget has shrunk to (1 - 0.0025)^2 = 0.99500625 of what it was for every
      round trip, or to less. */
  lemma FlatMarketDecays(cfg: Config, start: Model, cs: seq<Candle>, p: real)
    requires SoundModel(start) && GoodDraws(cfg) && cfg.slippage == 0.0 && start.state == TryingToBuy
    requires p > 0.0 && Flat(NonEmpty(cs), p)
    requires KnownState(start)
    ensures var sim := Backtest(cfg, start, cs);
            !sim.failed && sim.model.state == TryingToBuy ==>
              sim.model.budget <= start.budget * Pow(0.99500625, |TripsOf(sim.rows).done|)
  {
    hide Pow, TripsOf, Backtest;
    FlatDecays(cfg, start, cs, p);
    assert KEPT * KEPT == 0.99500625;
  }

  // ---------- trip by trip ----------

  /** The rows that traded. */
  function Deals(rows: seq<Row>): (os: seq<Row>)
    ensures forall k :: 0 <= k < |os| ==> os[k] in rows && os[k].order.Some?
  {
    if rows == [] then []
    else
      var rest, row := Deals(rows[..|rows| - 1]), rows[|rows| - 1];
      if row.order.Some? then rest + [row] else rest
  }

  function OrdersOf(rows: seq<Row>): (os: seq<Order>)
    ensures |os| == |Deals(rows)| && forall k :: 0 <= k < |os| ==> os[k] == Deals(rows)[k].order.value
  {
    seq(|Deals(rows)|, k requires 0 <= k < |Deals(rows)| => Deals(rows)[k].order.value)
  }

  lemma OrdersGrow(rows: seq<Row>, row: Row)
    ensures OrdersOf(rows + [row]) == if row.order.Some? then OrdersOf(rows) + [row.order.value] else OrdersOf(rows)
  {
    assert (rows + [row])[..|rows|] == rows;
  }

  /** The ledger of a backtest, as far as it has got. */
  ghost predicate InTurn(start: Model, sim: Sim) {
    && Chain(start, OrdersOf(sim.rows))
    && (!sim.failed ==> Follows(start, OrdersOf(sim.rows), sim.model))
  }

  lemma StepInTurn(cfg: Config, start: Model, sets: seq<IndicatorSet>, c: Candle, i: nat, sim: Sim)
    requires i < |sets| && SoundModel(sim.model) && c.bar.close > 0.0 && 0.0 <= cfg.slippage <= 1.0 && GoodDraws(cfg)
    requires InTurn(start, sim) && !sim.failed
    ensures InTurn(start, SimStep(cfg, sets, c, i, sim))
  {
    var t := SimStep(cfg, sets, c, i, sim);
    StepCases(cfg, sets, c, i, sim);
    TradeConsistent(cfg, sets, c, i, sim.model, sim.orders);
    hide Cut, Trade, SimStep, GoodDraws, Chain, OrdersOf, Filled, PriceWithSlippage;
    if |t.rows| > |sim.rows| {
      var row := t.rows[|sim.rows|];
      OrdersGrow(sim.rows, row);
      if row.order.Some? {
        ChainGrows(start, OrdersOf(sim.rows), sim.model, row.order.value);
      }
    }
  }

  lemma {:induction false} SimulationInTurn(cfg: Config, start: Model, g: Sets, n: nat)
    requires n <= |g.sets| == |g.candles| && SoundModel(start) && GoodMarket(cfg, g.candles) && GoodDraws(cfg)
    ensures InTurn(start, Simulate(cfg, start, g, n))
  {
    hide SimStep;
    if n > 0 {
      SimulationInTurn(cfg, start, g, n - 1);
      SimulationSound(cfg, start, g, n - 1);
      var sim := Simulate(cfg, start, g, n - 1);
      hide InTurn;
      if sim.failed {
        FailureStays(cfg, start, g, n - 1, n);
      } else {
        StepInTurn(cfg, start, g.sets, g.candles[n - 1], n - 1, sim);
      }
    }
  }

  /** For every backtest, with any slippage: its orders form one chain, as a live ledger does when
      all writes succeed, and the model holds what the last one brought in. */
  lemma BacktestIsChain(cfg: Config, start: Model, cs: seq<Candle>)
    requires SoundModel(start) && GoodMarket(cfg, NonEmpty(cs)) && GoodDraws(cfg)
    ensures InTurn(start, Backtest(cfg, start, cs))
  {
    var g := CompleteSets(Indicators(cfg.strategy), NonEmpty(cs));
    CandlesKept(Indicators(cfg.strategy), NonEmpty(cs));
    assert forall i :: 0 <= i < |g.candles| ==> g.candles[i] in NonEmpty(cs);
    SimulationInTurn(cfg, start, g, |g.sets|);
  }

  /** Every order of a run without slippage is filled at the close of its own row. */
  predicate FilledAtClose(rows: seq<Row>) {
    forall i :: 0 <= i < |rows| && rows[i].order.Some? ==>
      var o, close := rows[i].order.value, rows[i].candle.bar.close;
      close > 0.0 && o.filled == Filled(o.side, o.cost, close)
  }

  lemma StepFillsAtClose(cfg: Config, sets: seq<IndicatorSet>, c: Candle, i: nat, sim: Sim)
    requires i < |sets| && SoundModel(sim.model) && c.bar.close > 0.0 && cfg.slippage == 0.0 && GoodDraws(cfg)
    requires FilledAtClose(sim.rows)
    ensures FilledAtClose(SimStep(cfg, sets, c, i, sim).rows)
  {
    StepCases(cfg, sets, c, i, sim);
    TradeConsistent(cfg, sets, c, i, sim.model, sim.orders);
    assert PriceWithSlippage(cfg.draws(sim.orders), c.bar.close, 0.0) == c.bar.close;
    hide Cut, Trade, SimStep, GoodDraws, Filled, PriceWithSlippage;
  }

  lemma {:induction false} SimulationFillsAtClose(cfg: Config, start: Model, g: Sets, n: nat)
    requires n <= |g.sets| == |g.candles| && SoundModel(start) && GoodMarket(cfg, g.candles) && GoodDraws(cfg)
    requires cfg.slippage == 0.0
    ensures FilledAtClose(Simulate(cfg, start, g, n).rows)
  {
    hide SimStep;
    if n > 0 {
      SimulationFillsAtClose(cfg, start, g, n - 1);
      SimulationSound(cfg, start, g, n - 1);
      hide FilledAtClose;
      StepFillsAtClose(cfg, g.sets, g.candles[n - 1], n - 1, Simulate(cfg, start, g, n - 1));
    }
  }

  /** For every backtest without slippage and every round trip in it: bought with a positive budget
      and sold at a close no higher, it strictly loses; what follows has less to spend. */
  lemma {:induction false} EachPoorTripLoses(cfg: Config, start: Model, cs: seq<Candle>, k: nat)
    requires SoundModel(start) && GoodMarket(cfg, NonEmpty(cs)) && GoodDraws(cfg) && cfg.slippage == 0.0
    requires var os := Deals(Backtest(cfg, start, cs).rows);
             && k + 1 < |os| && IsBuy(os[k]) && os[k].order.value.cost > 0.0
             && os[k + 1].candle.bar.close <= os[k].candle.bar.close
    ensures var os := Deals(Backtest(cfg, start, cs).rows);
            && IsSell(os[k + 1]) && Cut(os[k + 1].order.value.filled) < os[k].order.value.cost
            && (k + 2 < |os| ==> os[k + 2].order.value.cost < os[k].order.value.cost)
  {
    var g := CompleteSets(Indicators(cfg.strategy), NonEmpty(cs));
    CandlesKept(Indicators(cfg.strategy), NonEmpty(cs));
    assert forall i :: 0 <= i < |g.candles| ==> g.candles[i] in NonEmpty(cs);
    BacktestIsChain(cfg, start, cs);
    SimulationFillsAtClose(cfg, start, g, |g.sets|);
    hide Cut, Filled, Simulate, GoodMarket, GoodDraws, CompleteSets, SoundModel, NonEmpty;
    var rows := Backtest(cfg, start, cs).rows;
    TripLoses(start, rows, k);
  }

  lemma {:induction false} TripLoses(start: Model, rows: seq<Row>, k: nat)
    requires Chain(start, OrdersOf(rows)) && FilledAtClose(rows)
    requires k + 1 < |Deals(rows)| && IsBuy(Deals(rows)[k]) && Deals(rows)[k].order.value.cost > 0.0
    requires Deals(rows)[k + 1].candle.bar.close <= Deals(rows)[k].candle.bar.close
    ensures var os := Deals(rows);
            && IsSell(os[k + 1]) && Cut(os[k + 1].order.value.filled) < os[k].order.value.cost
            && (k + 2 < |os| ==> os[k + 2].order.value.cost < os[k].order.value.cost)
  {
    hide Cut, Filled;
    var os, orders := Deals(rows), OrdersOf(rows);
    assert orders[k + 1].side == OtherSide(orders[k].side) && orders[k + 1].cost == Cut(orders[k].filled);
    assert os[k] in rows && os[k + 1] in rows;
    PoorTripLoses(orders[k].cost, os[k].candle.bar.close, os[k + 1].candle.bar.close);
    if k + 2 < |os| {
      assert orders[k + 2].cost == Cut(orders[k + 1].filled);
    }
  }

  /** At a constant price, each round trip of every backtest loses strictly. */
  lemma {:induction false} EachFlatTripLoses(cfg: Config, start: Model, cs: seq<Candle>, p: real, k: nat)
    requires SoundModel(start) && KnownState(start) && GoodDraws(cfg) && cfg.slippage == 0.0
    requires p > 0.0 && Flat(NonEmpty(cs), p)
    requires var os := Deals(Backtest(cfg, start, cs).rows);
             k + 1 < |os| && IsBuy(os[k]) && os[k].order.value.cost > 0.0
    ensures var os := Deals(Backtest(cfg, start, cs).rows);
            && IsSell(os[k + 1]) && Cut(os[k + 1].order.value.filled) < os[k].order.value.cost
            && (k + 2 < |os| ==> os[k + 2].order.value.cost < os[k].order.value.cost)
  {
    var g, rows := CompleteSets(Indicators(cfg.strategy), NonEmpty(cs)), Backtest(cfg, start, cs).rows;
    BacktestIndexSafe(cfg, start, cs);
    CandlesKept(Indicators(cfg.strategy), NonEmpty(cs));
    forall row | row in rows ensures row.candle.bar.close == p {
      var i :| 0 <= i < |rows| && rows[i] == row;
      assert g.candles[i] in NonEmpty(cs);
    }
    assert Deals(rows)[k] in rows && Deals(rows)[k + 1] in rows;
    hide Backtest, Simulate, Cut, Deals, CompleteSets;
    EachPoorTripLoses(cfg, start, cs, k);
  }
}
