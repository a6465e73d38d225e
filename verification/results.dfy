/** The results pass over a backtest's rows, and why its sums telescope. */
module Results {
  import opened Options
  import opened Candlesticks
  import opened Coarsening
  import opened Reals
  import opened Ema
  import opened Dema
  import opened Truncation
  import opened Strategies
  import opened Trading
  import opened IndicatorSets
  import opened Backtesting

  datatype BacktestResults = BacktestResults(
    initialBudget: real, finalBudget: real, initialCurrencyPrice: real, finalCurrencyPrice: real,
    grossProfit: real, grossLoss: real, profitTrades: nat, lossTrades: nat, portfolioValuePerDay: seq<real>)
  {
    function NetProfit(): real {
      grossProfit - grossLoss
    }
  }

  predicate IsSell(row: Row) {
    row.order.Some? && row.order.value.side == SellSide
  }

  predicate IsBuy(row: Row) {
    row.order.Some? && row.order.value.side == BuySide
  }

  // ---------- specification ----------

  function SellCount(rows: seq<Row>): nat {
    if rows == [] then 0 else SellCount(rows[..|rows| - 1]) + if IsSell(rows[|rows| - 1]) then 1 else 0
  }

  /** The budget after the last sell, or the initial one. */
  function BudgetAfter(initial: real, rows: seq<Row>): real {
    if rows == [] then initial
    else if IsSell(rows[|rows| - 1]) then Cut(rows[|rows| - 1].order.value.filled)
    else BudgetAfter(initial, rows[..|rows| - 1])
  }

  /** What the last sell of the rows brought in, over the budget it started from. */
  function Gain(initial: real, rows: seq<Row>): real
    requires rows != [] && IsSell(rows[|rows| - 1])
  {
    rows[|rows| - 1].order.value.filled - BudgetAfter(initial, rows[..|rows| - 1])
  }

  function Profits(initial: real, rows: seq<Row>): real {
    if rows == [] then 0.0
    else
      Profits(initial, rows[..|rows| - 1])
      + if IsSell(rows[|rows| - 1]) && Gain(initial, rows) >= 0.0 then Gain(initial, rows) else 0.0
  }

  function Losses(initial: real, rows: seq<Row>): real {
    if rows == [] then 0.0
    else
      Losses(initial, rows[..|rows| - 1])
      + if IsSell(rows[|rows| - 1]) && Gain(initial, rows) < 0.0 then -Gain(initial, rows) else 0.0
  }

  function ProfitCount(initial: real, rows: seq<Row>): nat {
    if rows == [] then 0
    else
      ProfitCount(initial, rows[..|rows| - 1])
      + if IsSell(rows[|rows| - 1]) && Gain(initial, rows) >= 0.0 then 1 else 0
  }

  /** What the results report as the final budget: it is only set by a sell. */
  function FinalBudget(initial: real, rows: seq<Row>): real {
    if SellCount(rows) == 0 then 0.0 else BudgetAfter(initial, rows)
  }

  /** The slippage the results take off a holding. */
  const EXCHANGE_SLIPPAGE := 0.0

  function PortfolioValue(row: Row): real {
    if row.budget != 0.0 then row.budget
    else row.invested * row.candle.bar.close * (1.0 - EXCHANGE_FEE - EXCHANGE_SLIPPAGE)
  }

  /** The portfolio values at the first rows of days. */
  function DayValues(startTime: int, weekday: int -> int, rows: seq<Row>): seq<real> {
    if rows == [] then []
    else
      var n := |rows| - 1;
      var rest := DayValues(startTime, weekday, rows[..n]);
      var before, now := rows[if n == 0 then 0 else n - 1].candle.start, rows[n].candle.start;
      if before > startTime && now > before && weekday(now) != weekday(before) then rest + [PortfolioValue(rows[n])]
      else rest
  }

  predicate FirstBuyAt(rows: seq<Row>, i: int) {
    0 <= i < |rows| && IsBuy(rows[i]) && forall k :: 0 <= k < i ==> !IsBuy(rows[k])
  }

  predicate LastSellAt(rows: seq<Row>, i: int) {
    0 <= i < |rows| && IsSell(rows[i]) && forall k :: i < k < |rows| ==> !IsSell(rows[k])
  }

  // ---------- the code ----------

  /** What one row's order adds to the results; `next` is the budget the next sell is measured against. */
  predicate Adds(r: BacktestResults, currentBudget: real, row: Row, after: BacktestResults, next: real) {
    && after.initialBudget == r.initialBudget && after.portfolioValuePerDay == r.portfolioValuePerDay
    && (if !IsSell(row) then
          after == r.(initialCurrencyPrice := after.initialCurrencyPrice) && next == currentBudget
        else
          var diff := row.order.value.filled - currentBudget;
          && next == Cut(row.order.value.filled) == after.finalBudget
          && after.finalCurrencyPrice == row.candle.bar.close
          && after.grossProfit == r.grossProfit + (if diff >= 0.0 then diff else 0.0)
          && after.grossLoss == r.grossLoss + (if diff < 0.0 then -diff else 0.0)
          && after.profitTrades == r.profitTrades + (if diff >= 0.0 then 1 else 0)
          && after.lossTrades == r.lossTrades + (if diff < 0.0 then 1 else 0))
    && after.initialCurrencyPrice
       == if IsBuy(row) && r.initialCurrencyPrice == 0.0 then row.candle.bar.close else r.initialCurrencyPrice
  }

  method RecordOrder(r: BacktestResults, currentBudget: real, row: Row) returns (after: BacktestResults, next: real)
    ensures Adds(r, currentBudget, row, after, next)
  {
    after, next := r, currentBudget;
    if row.order.Some? && row.order.value.side == SellSide {
      var diff := row.order.value.filled - currentBudget;
      if diff >= 0.0 {
        after := after.(grossProfit := after.grossProfit + diff, profitTrades := after.profitTrades + 1);
      } else {
        after := after.(grossLoss := after.grossLoss + -diff, lossTrades := after.lossTrades + 1);
      }
      next := TruncateFloat(row.order.value.filled, PRECISION);
    }
    if row.order.Some? && row.order.value.side == BuySide && after.initialCurrencyPrice == 0.0 {
      after := after.(initialCurrencyPrice := row.candle.bar.close);
    }
    if row.order.Some? && row.order.value.side == SellSide {
      after := after.(finalBudget := TruncateFloat(row.order.value.filled, PRECISION),
                      finalCurrencyPrice := row.candle.bar.close);
    }
  }

  /** The sums over the rows so far; `currentBudget` is the budget after their last sell. */
  ghost predicate Summed(r: BacktestResults, currentBudget: real, initial: real, rows: seq<Row>) {
    && r.initialBudget == initial && currentBudget == BudgetAfter(initial, rows)
    && r.grossProfit == Profits(initial, rows) && r.grossLoss == Losses(initial, rows)
    && r.profitTrades == ProfitCount(initial, rows) && r.profitTrades + r.lossTrades == SellCount(rows)
    && r.finalBudget == FinalBudget(initial, rows)
  }

  /** The prices of the first buy, unless it is zero, and of the last sell. */
  ghost predicate Priced(r: BacktestResults, rows: seq<Row>) {
    && ((forall k :: 0 <= k < |rows| ==> !IsBuy(rows[k])) ==> r.initialCurrencyPrice == 0.0)
    && (forall k :: FirstBuyAt(rows, k) && rows[k].candle.bar.close != 0.0 ==>
          r.initialCurrencyPrice == rows[k].candle.bar.close)
    && (forall k :: LastSellAt(rows, k) ==> r.finalCurrencyPrice == rows[k].candle.bar.close)
  }

  lemma SummedGrows(r: BacktestResults, budget: real, t: BacktestResults, next: real,
                    initial: real, rows: seq<Row>, row: Row)
    requires Summed(r, budget, initial, rows) && Adds(r, budget, row, t, next)
    ensures Summed(t, next, initial, rows + [row])
  {
    assert (rows + [row])[..|rows|] == rows;
    hide Cut, IsBuy;
  }

  lemma {:induction false} PricesGrow(r: BacktestResults, budget: real, t: BacktestResults, next: real,
                                      rows: seq<Row>, row: Row)
    requires Priced(r, rows) && Adds(r, budget, row, t, next)
    ensures Priced(t, rows + [row])
  {
    var longer := rows + [row];
    assert longer[|rows|] == row && forall k :: 0 <= k < |rows| ==> longer[k] == rows[k];
    forall k | FirstBuyAt(longer, k) ensures k < |rows| ==> FirstBuyAt(rows, k) {
    }
    forall k | LastSellAt(longer, k) ensures k < |rows| ==> LastSellAt(rows, k) {
      if k < |rows| {
        assert forall j :: k < j < |rows| ==> !IsSell(longer[j]);
      }
    }
    assert IsSell(row) ==> LastSellAt(longer, |rows|);
    hide IsBuy, IsSell;
  }

  /** The portfolio value of a row, if it begins a day. */
  method RecordDay(startTime: int, weekday: int -> int, ghost rows: seq<Row>, currentDay: int, row: Row,
                   perDay: seq<real>) returns (after: seq<real>)
    requires perDay == DayValues(startTime, weekday, rows)
    requires currentDay == if |rows| == 0 then row.candle.start else rows[|rows| - 1].candle.start
    ensures after == DayValues(startTime, weekday, rows + [row])
  {
    hide PortfolioValue;
    assert (rows + [row])[..|rows|] == rows;
    after := perDay;
    if currentDay > startTime && row.candle.start > currentDay
       && weekday(row.candle.start) != weekday(currentDay) {
      after := after + [PortfolioValue(row)];
    }
  }

  /** What the pass has computed of the rows so far, but for the values per day in the results. */
  ghost predicate Computed(r: BacktestResults, currentBudget: real, perDay: seq<real>, initial: real,
                           startTime: int, weekday: int -> int, currentDay: int, rows: seq<Row>) {
    && Summed(r, currentBudget, initial, rows) && Priced(r, rows)
    && perDay == DayValues(startTime, weekday, rows)
    && (|rows| > 0 ==> currentDay == rows[|rows| - 1].candle.start)
  }

  /** One more row. */
  method AddRow(r: BacktestResults, currentBudget: real, perDay: seq<real>, ghost initial: real,
                startTime: int, weekday: int -> int, ghost rows: seq<Row>, currentDay: int, row: Row)
    returns (after: BacktestResults, next: real, days: seq<real>)
    requires Computed(r, currentBudget, perDay, initial, startTime, weekday, currentDay, rows)
    requires |rows| == 0 ==> currentDay == row.candle.start
    ensures Computed(after, next, days, initial, startTime, weekday, row.candle.start, rows + [row])
  {
    hide Summed, Priced, Adds, DayValues;
    days := RecordDay(startTime, weekday, rows, currentDay, row, perDay);
    after, next := RecordOrder(r, currentBudget, row);
    SummedGrows(r, currentBudget, after, next, initial, rows, row);
    PricesGrow(r, currentBudget, after, next, rows, row);
  }

  lemma Finished(r: BacktestResults, currentBudget: real, perDay: seq<real>, initial: real,
                 startTime: int, weekday: int -> int, currentDay: int, rows: seq<Row>)
    requires Computed(r, currentBudget, perDay, initial, startTime, weekday, currentDay, rows)
    ensures var t := r.(portfolioValuePerDay := perDay);
            && Summed(t, BudgetAfter(initial, rows), initial, rows)
            && perDay == DayValues(startTime, weekday, rows)
            && (forall i :: FirstBuyAt(rows, i) && rows[i].candle.bar.close != 0.0 ==>
                  t.initialCurrencyPrice == rows[i].candle.bar.close)
            && (forall i :: LastSellAt(rows, i) ==> t.finalCurrencyPrice == rows[i].candle.bar.close)
  {
  }

  lemma Prefixes<T>(xs: seq<T>)
    ensures xs[..0] == [] && xs[..|xs|] == xs
  {
  }

  lemma PrefixGrows<T>(xs: seq<T>, i: nat)
    requires i < |xs|
    ensures xs[..i + 1] == xs[..i] + [xs[i]]
  {
  }

  method ComputeResults(initialBudget: real, startTime: int, weekday: int -> int, rows: seq<Row>)
    returns (r: BacktestResults)
    ensures Summed(r, BudgetAfter(initialBudget, rows), initialBudget, rows)
    ensures r.portfolioValuePerDay == DayValues(startTime, weekday, rows)
    ensures forall i :: FirstBuyAt(rows, i) && rows[i].candle.bar.close != 0.0 ==>
              r.initialCurrencyPrice == rows[i].candle.bar.close
    ensures forall i :: LastSellAt(rows, i) ==> r.finalCurrencyPrice == rows[i].candle.bar.close
  {
    hide Computed, Summed, DayValues, BudgetAfter, FirstBuyAt, LastSellAt;
    r := BacktestResults(initialBudget, 0.0, 0.0, 0.0, 0.0, 0.0, 0, 0, []);
    var currentDay := if |rows| == 0 then startTime else rows[0].candle.start;
    var currentBudget, perDay := initialBudget, [];
    NothingYet(r, initialBudget, startTime, weekday, currentDay);
    Prefixes(rows);
    for i := 0 to |rows|
      invariant Computed(r, currentBudget, perDay, initialBudget, startTime, weekday, currentDay, rows[..i])
      invariant i == 0 < |rows| ==> currentDay == rows[0].candle.start
    {
      PrefixGrows(rows, i);
      r, currentBudget, perDay :=
        AddRow(r, currentBudget, perDay, initialBudget, startTime, weekday, rows[..i], currentDay, rows[i]);
      currentDay := rows[i].candle.start;
    }
    Finished(r, currentBudget, perDay, initialBudget, startTime, weekday, currentDay, rows);
    r := r.(portfolioValuePerDay := perDay);
  }

  /** The sells that brought in no less than the budget before them. */
  function ProfitableRows(initial: real, rows: seq<Row>): set<int> {
    set i | 0 <= i < |rows| && IsSell(rows[i]) && rows[i].order.value.filled >= BudgetAfter(initial, rows[..i])
  }

  lemma ProfitableGrow(initial: real, rows: seq<Row>)
    requires rows != []
    ensures var front, n := rows[..|rows| - 1], |rows| - 1;
            ProfitableRows(initial, rows)
            == ProfitableRows(initial, front)
               + if IsSell(rows[n]) && rows[n].order.value.filled >= BudgetAfter(initial, front) then {n} else {}
  {
    hide BudgetAfter, IsSell;
    var front, n := rows[..|rows| - 1], |rows| - 1;
    forall i | 0 <= i < n ensures front[..i] == rows[..i] && front[i] == rows[i] {
    }
  }

  /** They are the profitable trades that are counted. */
  lemma {:induction false} ProfitsCounted(initial: real, rows: seq<Row>)
    ensures ProfitCount(initial, rows) == |ProfitableRows(initial, rows)|
  {
    if rows == [] {
      assert ProfitableRows(initial, rows) == {};
    } else {
      ProfitsCounted(initial, rows[..|rows| - 1]);
      ProfitableGrow(initial, rows);
      assert |rows| - 1 !in ProfitableRows(initial, rows[..|rows| - 1]);
    }
  }

  /** Whether the k-th row is the first of a day, `weekday` telling the day of a time. */
  predicate NewDay(startTime: int, weekday: int -> int, rows: seq<Row>, k: int) {
    && 1 <= k < |rows| && startTime < rows[k - 1].candle.start < rows[k].candle.start
    && weekday(rows[k].candle.start) != weekday(rows[k - 1].candle.start)
  }

  /** The rows that begin a day, after the start. */
  function DayRows(startTime: int, weekday: int -> int, rows: seq<Row>): set<int> {
    set k | 0 <= k < |rows| && NewDay(startTime, weekday, rows, k)
  }

  lemma DayRowsGrow(startTime: int, weekday: int -> int, rows: seq<Row>)
    requires rows != []
    ensures var front, n := rows[..|rows| - 1], |rows| - 1;
            var day := NewDay(startTime, weekday, rows, n);
            && DayRows(startTime, weekday, rows) == DayRows(startTime, weekday, front) + (if day then {n} else {})
            && n !in DayRows(startTime, weekday, front)
            && DayValues(startTime, weekday, rows)
               == DayValues(startTime, weekday, front) + if day then [PortfolioValue(rows[n])] else []
  {
    hide PortfolioValue;
    var front := rows[..|rows| - 1];
    forall k | 0 <= k < |front|
      ensures NewDay(startTime, weekday, front, k) == NewDay(startTime, weekday, rows, k)
    {
    }
    hide NewDay;
  }

  lemma {:induction false} DayValuesKept(startTime: int, weekday: int -> int, rows: seq<Row>, k: nat)
    requires k <= |rows|
    ensures DayValues(startTime, weekday, rows[..k]) <= DayValues(startTime, weekday, rows)
  {
    hide PortfolioValue;
    if k == |rows| {
      assert rows[..k] == rows;
    } else {
      DayValuesKept(startTime, weekday, rows[..|rows| - 1], k);
      assert rows[..|rows| - 1][..k] == rows[..k];
      DayRowsGrow(startTime, weekday, rows);
      hide DayValues, NewDay;
    }
  }

  lemma {:induction false} DaysCounted(startTime: int, weekday: int -> int, rows: seq<Row>)
    ensures |DayValues(startTime, weekday, rows)| == |DayRows(startTime, weekday, rows)|
  {
    hide PortfolioValue;
    if rows == [] {
      assert DayRows(startTime, weekday, rows) == {};
    } else {
      DaysCounted(startTime, weekday, rows[..|rows| - 1]);
      DayRowsGrow(startTime, weekday, rows);
      hide DayRows, DayValues, NewDay;
    }
  }

  lemma NewDayEarly(startTime: int, weekday: int -> int, rows: seq<Row>, k: nat)
    requires k < |rows|
    ensures NewDay(startTime, weekday, rows[..k + 1], k) == NewDay(startTime, weekday, rows, k)
  {
  }

  /** There is one portfolio value for each row that begins a day; it is that row's, and comes after
      those of the rows before. */
  lemma ValuePerDay(startTime: int, weekday: int -> int, rows: seq<Row>, k: nat)
    requires k < |rows| && NewDay(startTime, weekday, rows, k)
    ensures |DayValues(startTime, weekday, rows)| == |DayRows(startTime, weekday, rows)|
    ensures DayValues(startTime, weekday, rows[..k]) + [PortfolioValue(rows[k])] <= DayValues(startTime, weekday, rows)
  {
    hide PortfolioValue, DayValues, DayRows, NewDay;
    DaysCounted(startTime, weekday, rows);
    NewDayEarly(startTime, weekday, rows, k);
    DayRowsGrow(startTime, weekday, rows[..k + 1]);
    assert rows[..k + 1][..k] == rows[..k];
    DayValuesKept(startTime, weekday, rows, k + 1);
  }

  lemma NothingYet(r: BacktestResults, initial: real, startTime: int, weekday: int -> int, currentDay: int)
    requires r == BacktestResults(initial, 0.0, 0.0, 0.0, 0.0, 0.0, 0, 0, [])
    ensures Computed(r, initial, [], initial, startTime, weekday, currentDay, [])
  {
  }

  lemma {:induction false} NothingSold(initial: real, rows: seq<Row>)
    requires SellCount(rows) == 0
    ensures BudgetAfter(initial, rows) == initial
  {
    if rows != [] {
      NothingSold(initial, rows[..|rows| - 1]);
    }
  }

  /** The reported final budget is the budget after the last sell, or the initial one, exactly when
      there was a sell or there was nothing to start with. */
  lemma FinalBudgetIff(initial: real, rows: seq<Row>)
    ensures FinalBudget(initial, rows) == BudgetAfter(initial, rows) <==> SellCount(rows) > 0 || initial == 0.0
  {
    if SellCount(rows) == 0 {
      NothingSold(initial, rows);
    }
  }

  /** A strategy whose averages never differ, and one candle for it. */
  const STILL := EMACrossover(1, 1, 0.0, 0.0)

  const ONE := Candle(0, 60_000_000_000, Bar(1.0, 1.0, 1.0, 1.0, 1.0), Up, "BTC-USD")

  lemma StillSet()
    ensures var g := CompleteSets(Indicators(STILL), [ONE]);
            |g.sets| == 1 && g.candles == [ONE] && |g.sets[0].values| == 3 && g.sets[0].values[0] == Some(0.0)
  {
    var specs, xs := Indicators(STILL), MeanPrices([ONE]);
    assert xs == [1.0] && [ONE][..0] == [];
    DemaComputes(1, 1, xs);
    EmaComputesAverage(1, xs);
    hide EmaFold, DemaFold, Average, EmaValueOf, DemaValueOf;
    var vs := ValuesAt(specs, xs);
    assert vs[0] == SpecValue(DemaSpec(1, 1), xs) && vs[1] == SpecValue(EmaSpec(1), xs) && vs[2] == vs[1];
    assert AllSome(vs);
    assert CompleteSets(specs, []) == Sets([], []);
  }

  /** Averages that do not differ are no reason to buy. */
  lemma StillStep(cfg: Config, sets: seq<IndicatorSet>, sim: Sim)
    requires cfg.strategy == STILL && |sets| == 1 && |sets[0].values| == 3 && sets[0].values[0] == Some(0.0)
    requires EachComplete(sets, 3) && !sim.failed && sim.model.state == TryingToBuy
    ensures SimStep(cfg, sets, ONE, 0, sim)
         == sim.(rows := sim.rows + [Row(ONE, sets[0], None, sim.model.budget, sim.model.invested)])
  {
    hide EnvironmentAt;
    assert Valid(0, sets) && Buy(STILL, sets, 0) == Decided(false);
  }

  lemma OneRow(row: Row, initial: real)
    requires row.order == None
    ensures FinalBudget(initial, [row]) == 0.0
  {
    var rows := [row];
    assert rows[..|rows| - 1] == [] && !IsSell(rows[|rows| - 1]);
    assert SellCount(rows) == SellCount([]);
  }

  const FULL := Model(TryingToBuy, 100.0, 100.0, 0.0, None)

  lemma StillRun(cfg: Config, g: Sets)
    requires cfg.strategy == STILL && |g.sets| == 1 && g.candles == [ONE] && EachComplete(g.sets, 3)
    requires |g.sets[0].values| == 3 && g.sets[0].values[0] == Some(0.0)
    ensures Simulate(cfg, FULL, g, 1) == Sim(FULL, 0, [Row(ONE, g.sets[0], None, 100.0, 0.0)], false)
  {
    hide SimStep, EachComplete;
    var zero := Simulate(cfg, FULL, g, 0);
    assert Simulate(cfg, FULL, g, 1) == SimStep(cfg, g.sets, ONE, 0, zero);
    StillStep(cfg, g.sets, zero);
    assert zero.rows == [];
  }

  /** A backtest of one traded candle that has a row and makes no order: the budget is still there,
      and the reported final budget is 0. */
  lemma UnsoldBudget(cfg: Config)
    requires cfg.strategy == STILL
    ensures var sim := Backtest(cfg, FULL, [ONE]);
            |sim.rows| == 1 && sim.model.budget == 100.0 && FinalBudget(FULL.initialBudget, sim.rows) == 0.0
  {
    hide CompleteSets, EachComplete, Simulate, FinalBudget;
    assert NonEmpty([ONE]) == [ONE] by {
      assert [ONE][..0] == [] && NonEmpty([]) == [];
    }
    hide NonEmpty;
    StillSet();
    var g := CompleteSets(Indicators(STILL), [ONE]);
    AllComplete(Indicators(STILL), [ONE]);
    StillRun(cfg, g);
    OneRow(Row(ONE, g.sets[0], None, 100.0, 0.0), 100.0);
  }

  // ---------- what a portfolio is worth ----------

  predicate OneKind(budget: real, invested: real) {
    budget == 0.0 || invested == 0.0
  }

  /** Every row of a simulation holds one currency, as the model does. */
  lemma {:induction false} SimulationHoldsOne(cfg: Config, start: Model, g: Sets, n: nat)
    requires n <= |g.sets| == |g.candles| && OneKind(start.budget, start.invested)
    ensures var sim := Simulate(cfg, start, g, n);
            OneKind(sim.model.budget, sim.model.invested)
            && forall i :: 0 <= i < |sim.rows| ==> OneKind(sim.rows[i].budget, sim.rows[i].invested)
  {
    if n > 0 {
      SimulationHoldsOne(cfg, start, g, n - 1);
      var sim := Simulate(cfg, start, g, n - 1);
      StepCases(cfg, g.sets, g.candles[n - 1], n - 1, sim);
      TradeHoldsOne(cfg, g.sets, g.candles[n - 1], n - 1, sim.model, sim.orders);
      hide SimStep, Trade, OneKind;
    }
  }

  lemma TradeHoldsOne(cfg: Config, sets: seq<IndicatorSet>, c: Candle, i: nat, m: Model, orders: nat)
    requires OneKind(m.budget, m.invested)
    ensures var r := Trade(cfg, sets, c, i, m, orders); OneKind(r.model.budget, r.model.invested)
  {
    hide Filled, Cut, PriceWithSlippage, Buy, Sell, Valid;
  }

  /** For every backtest: the portfolio value of a row is its budget plus what selling its holding
      at the row's close would bring in, fees taken off. */
  lemma {:induction false} PortfolioIsLiquidation(cfg: Config, start: Model, cs: seq<Candle>, i: nat)
    requires OneKind(start.budget, start.invested) && i < |Backtest(cfg, start, cs).rows|
    ensures var row := Backtest(cfg, start, cs).rows[i];
            PortfolioValue(row) == row.budget + Filled(SellSide, row.invested, row.candle.bar.close)
  {
    var g := CompleteSets(Indicators(cfg.strategy), NonEmpty(cs));
    SimulationHoldsOne(cfg, start, g, |g.sets|);
    hide Simulate;
    var row := Backtest(cfg, start, cs).rows[i];
    assert OneKind(row.budget, row.invested);
  }

  // ---------- telescoping ----------

  predicate FillsNonNegative(rows: seq<Row>) {
    forall i :: 0 <= i < |rows| && rows[i].order.Some? ==> rows[i].order.value.filled >= 0.0
  }

  /** What was cut off, over all sells so far. */
  lemma {:induction false} SumsTelescope(initial: real, rows: seq<Row>)
    requires FillsNonNegative(rows)
    ensures Profits(initial, rows) >= 0.0 && Losses(initial, rows) >= 0.0
    ensures var excess := Profits(initial, rows) - Losses(initial, rows) - (BudgetAfter(initial, rows) - initial);
            && 0.0 <= excess
            && (if SellCount(rows) == 0 then excess == 0.0 else excess < SellCount(rows) as real * UNIT)
  {
    if rows != [] {
      var front, last := rows[..|rows| - 1], rows[|rows| - 1];
      SumsTelescope(initial, front);
      if IsSell(last) {
        CutBounds(last.order.value.filled);
      }
      hide Cut;
      assert SellCount(rows) as real * UNIT == SellCount(front) as real * UNIT + if IsSell(last) then UNIT else 0.0;
    }
  }

  // ---------- for every backtest ----------

  /** What a backtest asks of its traded candles: a close to trade at. */
  predicate GoodMarket(cfg: Config, cs: seq<Candle>) {
    && 0.0 <= cfg.slippage <= 1.0
    && (forall i :: 0 <= i < |cs| ==> cs[i].bar.close > 0.0)
  }

  ghost predicate GoodDraws(cfg: Config) {
    forall n: nat :: 0.0 <= cfg.draws(n) < 1.0
  }

  predicate SoundModel(m: Model) {
    m.state != UnknownState && m.budget >= 0.0 && m.invested >= 0.0
  }

  lemma PricePositive(draw: real, price: real, slippage: real)
    requires 0.0 <= draw < 1.0 && price > 0.0 && 0.0 <= slippage <= 1.0
    ensures 0.0 < PriceWithSlippage(draw, price, slippage) <= price
  {
    ProductSign(draw, slippage);
    ProductSign(draw, 1.0 - slippage);
    assert draw * (1.0 - slippage) == draw - draw * slippage;
    var share := draw * slippage;
    var f := 1.0 - share;
    assert PriceWithSlippage(draw, price, slippage) == price * f;
    ProductPositive(price, f);
    ProductSign(price, share);
    assert price * f == price - price * share;
  }

  lemma FillNonNegative(side: Side, cost: real, price: real)
    requires cost >= 0.0 && price > 0.0
    ensures Filled(side, cost, price) >= 0.0
  {
    ProductSign(cost, price);
    var net := cost * (1.0 - EXCHANGE_FEE);
    if side == BuySide {
      var q := net / price;
      assert q * price == net;
      if q < 0.0 { ProductPositive(-q, price); }
    }
  }

  /** A row records what its order did to the model. */
  predicate RowConsistent(row: Row) {
    row.order.Some? ==>
      && row.order.value.filled >= 0.0
      && (if row.order.value.side == SellSide then row.budget == Cut(row.order.value.filled) && row.invested == 0.0
          else row.invested == Cut(row.order.value.filled) && row.budget == 0.0)
  }

  predicate RowsConsistent(rows: seq<Row>) {
    forall i :: 0 <= i < |rows| ==> RowConsistent(rows[i])
  }

  lemma TradeConsistent(cfg: Config, sets: seq<IndicatorSet>, c: Candle, i: nat, m: Model,
                        orders: nat)
    requires SoundModel(m) && c.bar.close > 0.0 && 0.0 <= cfg.slippage <= 1.0 && GoodDraws(cfg)
    ensures var r := Trade(cfg, sets, c, i, m, orders);
            && SoundModel(r.model)
            && (r.order == None ==> r.model == m)
            && (r.order.Some? ==>
                  var o, price := r.order.value, PriceWithSlippage(cfg.draws(orders), c.bar.close, cfg.slippage);
                  && o.filled == Filled(o.side, o.cost, price) >= 0.0
                  && (if o.side == SellSide
                      then m.state == TryingToSell && o.cost == m.invested && r.model.state == TryingToBuy
                           && r.model.budget == Cut(o.filled) && r.model.invested == 0.0
                      else m.state == TryingToBuy && o.cost == m.budget && r.model.state == TryingToSell
                           && r.model.invested == Cut(o.filled) && r.model.budget == 0.0))
  {
    var price := PriceWithSlippage(cfg.draws(orders), c.bar.close, cfg.slippage);
    PricePositive(cfg.draws(orders), c.bar.close, cfg.slippage);
    FillNonNegative(BuySide, m.budget, price);
    FillNonNegative(SellSide, m.invested, price);
    CutBounds(Filled(BuySide, m.budget, price));
    CutBounds(Filled(SellSide, m.invested, price));
    hide Filled, Cut, PriceWithSlippage, Buy, Sell;
  }

  lemma {:induction false} SimulationSound(cfg: Config, start: Model, g: Sets, n: nat)
    requires n <= |g.sets| == |g.candles| && SoundModel(start) && GoodMarket(cfg, g.candles) && GoodDraws(cfg)
    ensures var sim := Simulate(cfg, start, g, n); SoundModel(sim.model) && RowsConsistent(sim.rows)
  {
    if n > 0 {
      SimulationSound(cfg, start, g, n - 1);
      var sim := Simulate(cfg, start, g, n - 1);
      StepCases(cfg, g.sets, g.candles[n - 1], n - 1, sim);
      TradeConsistent(cfg, g.sets, g.candles[n - 1], n - 1, sim.model, sim.orders);
      hide Cut, Trade, SimStep;
    }
  }

  lemma OneMoreRow(initial: real, rows: seq<Row>, row: Row)
    ensures SellCount(rows + [row]) == SellCount(rows) + if IsSell(row) then 1 else 0
    ensures BudgetAfter(initial, rows + [row])
         == if IsSell(row) then Cut(row.order.value.filled) else BudgetAfter(initial, rows)
  {
    assert (rows + [row])[..|rows|] == rows;
  }

  /** While trying to buy, the budget after the rows' sells is the model's. */
  predicate Tracks(initial: real, sim: Sim) {
    !sim.failed && sim.model.state == TryingToBuy && SellCount(sim.rows) > 0 ==>
      BudgetAfter(initial, sim.rows) == sim.model.budget
  }

  lemma StepTracks(cfg: Config, sets: seq<IndicatorSet>, c: Candle, i: nat, sim: Sim, initial: real)
    requires i < |sets| && SoundModel(sim.model) && c.bar.close > 0.0 && 0.0 <= cfg.slippage <= 1.0 && GoodDraws(cfg)
    requires Tracks(initial, sim)
    ensures Tracks(initial, SimStep(cfg, sets, c, i, sim))
  {
    var t := SimStep(cfg, sets, c, i, sim);
    StepCases(cfg, sets, c, i, sim);
    TradeConsistent(cfg, sets, c, i, sim.model, sim.orders);
    hide Cut, Trade, SimStep, GoodDraws, SellCount, BudgetAfter;
    if |t.rows| > |sim.rows| {
      OneMoreRow(initial, sim.rows, t.rows[|sim.rows|]);
    }
  }

  lemma {:induction false} SimulationTracks(cfg: Config, start: Model, g: Sets, n: nat, initial: real)
    requires n <= |g.sets| == |g.candles| && SoundModel(start) && GoodMarket(cfg, g.candles) && GoodDraws(cfg)
    ensures Tracks(initial, Simulate(cfg, start, g, n))
  {
    hide SimStep;
    if n > 0 {
      SimulationTracks(cfg, start, g, n - 1, initial);
      SimulationSound(cfg, start, g, n - 1);
      StepTracks(cfg, g.sets, g.candles[n - 1], n - 1, Simulate(cfg, start, g, n - 1), initial);
    }
  }

  lemma {:induction false} CandlesKept(specs: seq<IndicatorSpec>, ts: seq<Candle>)
    ensures forall c :: c in CompleteSets(specs, ts).candles ==> c in ts
  {
    if ts != [] {
      CandlesKept(specs, ts[..|ts| - 1]);
    }
  }

  /** For every backtest and what the pass reports of it: the net profit exceeds the change in budget
      by what was cut off in the n sells, which is at least 0 and below n units; and when it sold
      and is out of a trade, the final budget is the model's. */
  lemma {:induction false} ResultsTelescope(cfg: Config, start: Model, cs: seq<Candle>, r: BacktestResults,
                                            budget: real)
    requires SoundModel(start) && GoodMarket(cfg, NonEmpty(cs)) && GoodDraws(cfg)
    requires Summed(r, budget, start.initialBudget, Backtest(cfg, start, cs).rows)
    ensures var sim := Backtest(cfg, start, cs);
            var n := SellCount(sim.rows);
            var excess := r.NetProfit() - (budget - start.initialBudget);
            && r.grossProfit >= 0.0 && r.grossLoss >= 0.0
            && 0.0 <= excess && (n > 0 ==> excess < n as real * 0.00000001)
            && (!sim.failed && n > 0 && sim.model.state == TryingToBuy ==>
                  r.finalBudget == budget == sim.model.budget)
  {
    var g := CompleteSets(Indicators(cfg.strategy), NonEmpty(cs));
    CandlesKept(Indicators(cfg.strategy), NonEmpty(cs));
    assert forall i :: 0 <= i < |g.candles| ==> g.candles[i] in NonEmpty(cs);
    SimulationSound(cfg, start, g, |g.sets|);
    SimulationTracks(cfg, start, g, |g.sets|, start.initialBudget);
    SumsTelescope(start.initialBudget, Backtest(cfg, start, cs).rows);
  }
}
