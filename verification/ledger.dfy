/** The order ledger of a live strategy, over every run of ticks, failures included. */
module Ledger {
  import opened Options
  import opened Strategies
  import opened Truncation
  import opened Trading
  import opened Writes

  /** What one tick of a live strategy meets: its sets, what the outside answers, and how the bot's
      own save at the end goes. */
  datatype TickInput = TickInput(
    history: seq<IndicatorSet>, current: int, environment: Environment, closing: WriteOutcome, time: int)

  /** The database between ticks: the model each tick starts from, and the recorded orders. */
  datatype Db = Db(model: Model, orders: seq<Order>)

  /** A tick that lacks data deactivates the strategy, if that reaches the database. */
  function Saved(r: TickResult, input: TickInput): Model {
    if r.error == NotEnough then Written(input.closing, r.persisted, r.persisted.(deactivatedAt := Some(input.time)))
    else r.persisted
  }

  function ResultOf(s: Strategy, m: Model, input: TickInput): TickResult {
    ProcessTick(s, input.history, input.current, m, input.environment)
  }

  /** A tick loads the model from the database; a deactivated strategy is no longer loaded. */
  function Tick(s: Strategy, db: Db, input: TickInput): Db {
    if db.model.deactivatedAt.Some? then db
    else
      var r := ResultOf(s, db.model, input);
      Db(Saved(r, input), if r.order.Some? then db.orders + [r.order.value] else db.orders)
  }

  function LiveRun(s: Strategy, start: Model, inputs: seq<TickInput>): Db {
    if inputs == [] then Db(start, [])
    else Tick(s, LiveRun(s, start, inputs[..|inputs| - 1]), inputs[|inputs| - 1])
  }

  // ---------- what a tick will do, from what it starts with ----------

  /** Whether the strategy decides to trade, which it does only while active and on valid sets. */
  predicate Decides(s: Strategy, m: Model, input: TickInput) {
    && m.deactivatedAt.None? && Valid(input.current, input.history)
    && match m.state
       case TryingToBuy => Buy(s, input.history, input.current) == Decided(true)
       case TryingToSell => Sell(s, input.history, input.current) == Decided(true)
       case UnknownState => false
  }

  /** What the exchange fills of the order the model makes. */
  function Fill(m: Model, e: Environment): Option<real> {
    e.fill(SideOf(m.state), Holding(m))
  }

  /** The exchange fills an order. */
  predicate FillsOrder(s: Strategy, m: Model, input: TickInput) {
    Decides(s, m, input) && Fill(m, input.environment).Some?
  }

  /** An order is filled, and its ledger entry reaches the database. */
  predicate RecordsOrder(s: Strategy, m: Model, input: TickInput) {
    FillsOrder(s, m, input) && Reached(input.environment.ledger)
  }

  /** An order is recorded, but its ledger entry or the model's save fails in such a way that the
      database keeps the model from before the order. */
  predicate LeavesModel(s: Strategy, m: Model, input: TickInput) {
    && RecordsOrder(s, m, input)
    && (input.environment.ledger == FailedWritten || input.environment.update == FailedUnwritten)
  }

  /** A sell below the minimum budget reaches the database, but its deactivation does not: because
      the save reported an error, or because saving the deactivation failed. */
  predicate LeavesActive(s: Strategy, m: Model, input: TickInput) {
    var e := input.environment;
    && m.state == TryingToSell && Decides(s, m, input) && Fill(m, e).Some? && e.ledger == Succeeded
    && !KeepsShare(m.initialBudget, Cut(Fill(m, e).value))
    && (e.update == FailedWritten || (e.update == Succeeded && e.deactivate == FailedUnwritten))
  }

  function SideOf(t: TradeState): Side {
    if t == TryingToSell then SellSide else BuySide
  }

  function OtherSide(side: Side): Side {
    if side == BuySide then SellSide else BuySide
  }

  /** The amount a strategy holds: its budget while trying to buy, what it bought otherwise. */
  function Holding(m: Model): real {
    if m.state == TryingToSell then m.invested else m.budget
  }

  /** Orders that form one chain: they alternate from the starting side, the first spends the
      starting holding, and each later one spends what the one before it brought in, cut. */
  ghost predicate Chain(start: Model, orders: seq<Order>) {
    && (orders != [] ==> orders[0].side == SideOf(start.state) && orders[0].cost == Holding(start))
    && (forall i, j :: 0 <= i && j == i + 1 && j < |orders| ==>
          orders[j].side == OtherSide(orders[i].side) && orders[j].cost == Cut(orders[i].filled))
  }

  /** A model holds one currency at a time. */
  predicate OneHolding(m: Model) {
    && m.state != UnknownState
    && (m.state == TryingToBuy ==> m.invested == 0.0)
    && (m.state == TryingToSell ==> m.budget == 0.0)
  }

  /** What the model must be after a chain of orders. */
  predicate Follows(start: Model, orders: seq<Order>, m: Model) {
    if orders == [] then SideOf(m.state) == SideOf(start.state) && Holding(m) == Holding(start)
    else
      var last := orders[|orders| - 1];
      SideOf(m.state) == OtherSide(last.side) && Holding(m) == Cut(last.filled)
  }

  /** The model the last order was made from: what a failed save leaves behind. */
  predicate Stale(orders: seq<Order>, m: Model) {
    orders != [] && SideOf(m.state) == orders[|orders| - 1].side
  }

  /** The ways the database can change at a tick: no order, one that leaves the model, or one
      that turns the model to the other side. */
  ghost predicate Moves(s: Strategy, db: Db, t: Db, input: TickInput) {
    && OneHolding(t.model)
    && (if !RecordsOrder(s, db.model, input) then
          t.orders == db.orders && t.model.state == db.model.state && Holding(t.model) == Holding(db.model)
        else
          var o := Order(SideOf(db.model.state), Holding(db.model), Fill(db.model, input.environment).value);
          && t.orders == db.orders + [o]
          && (if LeavesModel(s, db.model, input) then t.model == db.model
              else SideOf(t.model.state) == OtherSide(o.side) && Holding(t.model) == Cut(o.filled)))
  }

  lemma TickMoves(s: Strategy, db: Db, input: TickInput)
    requires OneHolding(db.model)
    ensures Moves(s, db, Tick(s, db, input), input)
  {
    hide Buy, Sell, Cut, Valid;
  }

  lemma ChainGrows(start: Model, orders: seq<Order>, m: Model, o: Order)
    requires Chain(start, orders) && Follows(start, orders, m)
    requires o.side == SideOf(m.state) && o.cost == Holding(m)
    ensures Chain(start, orders + [o])
  {
  }

  lemma ChainBreaks(start: Model, orders: seq<Order>, m: Model, o: Order)
    requires Stale(orders, m) && o.side == SideOf(m.state)
    ensures !Chain(start, orders + [o])
  {
    var i := |orders| - 1;
    assert (orders + [o])[i + 1].side == (orders + [o])[i].side;
  }

  lemma ChainPrefix(start: Model, orders: seq<Order>, o: Order)
    requires Chain(start, orders + [o])
    ensures Chain(start, orders)
  {
    forall i, j | 0 <= i && j == i + 1 && j < |orders|
      ensures orders[j].side == OtherSide(orders[i].side) && orders[j].cost == Cut(orders[i].filled)
    {
      assert (orders + [o])[i] == orders[i] && (orders + [o])[j] == orders[j];
    }
    if orders != [] { assert (orders + [o])[0] == orders[0]; }
  }

  /** The model the n-th tick of a run starts from. */
  function ModelBefore(s: Strategy, start: Model, inputs: seq<TickInput>, n: nat): Model
    requires n < |inputs|
  {
    LiveRun(s, start, inputs[..n]).model
  }

  predicate LeftAt(s: Strategy, start: Model, inputs: seq<TickInput>, n: nat)
    requires n < |inputs|
  {
    LeavesModel(s, ModelBefore(s, start, inputs, n), inputs[n])
  }

  predicate RecordedAt(s: Strategy, start: Model, inputs: seq<TickInput>, n: nat)
    requires n < |inputs|
  {
    RecordsOrder(s, ModelBefore(s, start, inputs, n), inputs[n])
  }

  predicate AnyLeft(s: Strategy, start: Model, inputs: seq<TickInput>) {
    exists i :: 0 <= i < |inputs| && LeftAt(s, start, inputs, i)
  }

  /** An order recorded at some tick after one that left the model as it was. */
  predicate TradesAgain(s: Strategy, start: Model, inputs: seq<TickInput>) {
    exists i, j :: 0 <= i < j < |inputs| && LeftAt(s, start, inputs, i) && RecordedAt(s, start, inputs, j)
  }

  lemma FrontStarts(s: Strategy, start: Model, inputs: seq<TickInput>, n: nat)
    requires n < |inputs| - 1
    ensures ModelBefore(s, start, inputs[..|inputs| - 1], n) == ModelBefore(s, start, inputs, n)
  {
    assert inputs[..|inputs| - 1][..n] == inputs[..n];
  }

  lemma SameAtFront(s: Strategy, start: Model, inputs: seq<TickInput>)
    requires inputs != []
    ensures var front := inputs[..|inputs| - 1];
            forall i :: 0 <= i < |front| ==>
              && LeftAt(s, start, front, i) == LeftAt(s, start, inputs, i)
              && RecordedAt(s, start, front, i) == RecordedAt(s, start, inputs, i)
  {
    var front := inputs[..|inputs| - 1];
    forall i | 0 <= i < |front|
      ensures LeftAt(s, start, front, i) == LeftAt(s, start, inputs, i)
      ensures RecordedAt(s, start, front, i) == RecordedAt(s, start, inputs, i)
    {
      FrontStarts(s, start, inputs, i);
      hide LeavesModel, RecordsOrder, ModelBefore;
    }
  }

  lemma FrontTrades(s: Strategy, start: Model, inputs: seq<TickInput>)
    requires inputs != []
    ensures var front, n := inputs[..|inputs| - 1], |inputs| - 1;
            && (AnyLeft(s, start, inputs) <==> AnyLeft(s, start, front) || LeftAt(s, start, inputs, n))
            && (TradesAgain(s, start, inputs) <==>
                  TradesAgain(s, start, front) || (AnyLeft(s, start, front) && RecordedAt(s, start, inputs, n)))
  {
    hide LeftAt, RecordedAt;
    SameAtFront(s, start, inputs);
  }

  /** The recorded orders and the model, given whether an order has left the model behind and
      whether another has been recorded since. */
  ghost predicate LedgerHolds(start: Model, db: Db, left: bool, tradedSince: bool) {
    && OneHolding(db.model)
    && (if tradedSince then !Chain(start, db.orders)
        else
          && Chain(start, db.orders)
          && if left then Stale(db.orders, db.model) else Follows(start, db.orders, db.model))
  }

  lemma MoveKeepsLedger(s: Strategy, start: Model, db: Db, t: Db, input: TickInput,
                        left: bool, tradedSince: bool)
    requires LedgerHolds(start, db, left, tradedSince) && Moves(s, db, t, input)
    ensures var records := RecordsOrder(s, db.model, input);
            LedgerHolds(start, t, left || LeavesModel(s, db.model, input), tradedSince || (left && records))
  {
    hide Decides, Fill;
    if RecordsOrder(s, db.model, input) {
      var o := t.orders[|db.orders|];
      hide Chain;
      if tradedSince {
        if Chain(start, t.orders) { ChainPrefix(start, db.orders, o); }
      } else if left {
        ChainBreaks(start, db.orders, db.model, o);
      } else {
        ChainGrows(start, db.orders, db.model, o);
      }
    }
  }

  lemma {:induction false} LedgerState(s: Strategy, start: Model, inputs: seq<TickInput>)
    requires OneHolding(start)
    ensures LedgerHolds(start, LiveRun(s, start, inputs), AnyLeft(s, start, inputs), TradesAgain(s, start, inputs))
  {
    if inputs != [] {
      var n := |inputs| - 1;
      var front := inputs[..n];
      LedgerState(s, start, front);
      FrontTrades(s, start, inputs);
      var db := LiveRun(s, start, front);
      assert OneHolding(db.model);
      TickMoves(s, db, inputs[n]);
      hide Tick, LedgerHolds, Moves, AnyLeft, TradesAgain, LeavesModel, RecordsOrder;
      MoveKeepsLedger(s, start, db, Tick(s, db, inputs[n]), inputs[n],
                      AnyLeft(s, start, front), TradesAgain(s, start, front));
    }
  }

  /** Over every run, exchanges that fail and writes that fail before or after they reach the
      database included: the recorded orders form one chain exactly when no order is recorded after
      one that left the database with the model it was made from. The model always holds one
      currency at a time. */
  lemma LedgerIsChainIff(s: Strategy, start: Model, inputs: seq<TickInput>)
    requires OneHolding(start)
    ensures Chain(start, LiveRun(s, start, inputs).orders) <==> !TradesAgain(s, start, inputs)
    ensures OneHolding(LiveRun(s, start, inputs).model)
  {
    LedgerState(s, start, inputs);
  }

  /** In particular, when no failed ledger entry reaches the database and every save does. */
  lemma LedgerIsChain(s: Strategy, start: Model, inputs: seq<TickInput>)
    requires OneHolding(start)
    requires forall i :: 0 <= i < |inputs| ==>
               inputs[i].environment.ledger != FailedWritten && Reached(inputs[i].environment.update)
    ensures var db := LiveRun(s, start, inputs); Chain(start, db.orders) && Follows(start, db.orders, db.model)
  {
    LedgerState(s, start, inputs);
    assert !AnyLeft(s, start, inputs);
  }

  // ---------- the minimum budget ----------

  /** An active strategy that is out of a trade holds at least seven tenths of its initial budget. */
  predicate AboveMinimum(m: Model) {
    m.deactivatedAt.None? && m.state == TryingToBuy ==> KeepsShare(m.initialBudget, m.budget)
  }

  lemma TickAboveMinimum(s: Strategy, db: Db, input: TickInput)
    requires AboveMinimum(db.model)
    ensures AboveMinimum(Tick(s, db, input).model) <==> !LeavesActive(s, db.model, input)
  {
    hide Cut, Buy, Sell, Valid;
    var fill := Fill(db.model, input.environment);
    if fill.Some? {
      BelowMinimumIff(AfterSell(db.model, fill.value));
    }
    hide BelowMinimum, KeepsShare;
  }

  predicate LeftActiveAt(s: Strategy, start: Model, inputs: seq<TickInput>, n: nat)
    requires n < |inputs|
  {
    LeavesActive(s, ModelBefore(s, start, inputs, n), inputs[n])
  }

  lemma {:induction false} MinimumUntil(s: Strategy, start: Model, inputs: seq<TickInput>, n: nat)
    requires n <= |inputs| && AboveMinimum(start)
    requires forall i :: 0 <= i < n ==> !LeftActiveAt(s, start, inputs, i)
    ensures AboveMinimum(LiveRun(s, start, inputs[..n]).model)
  {
    if n > 0 {
      MinimumUntil(s, start, inputs, n - 1);
      assert inputs[..n][..n - 1] == inputs[..n - 1];
      assert !LeftActiveAt(s, start, inputs, n - 1);
      var db := LiveRun(s, start, inputs[..n - 1]);
      assert LiveRun(s, start, inputs[..n]) == Tick(s, db, inputs[n - 1]);
      TickAboveMinimum(s, db, inputs[n - 1]);
    }
  }

  /** Over every run: an active strategy that is out of a trade never holds less than seven tenths
      of its initial budget, exactly when no tick leaves one active that sold below it. */
  lemma MinimumHoldsIff(s: Strategy, start: Model, inputs: seq<TickInput>)
    requires AboveMinimum(start)
    ensures (forall n :: 0 <= n <= |inputs| ==> AboveMinimum(LiveRun(s, start, inputs[..n]).model))
       <==> (forall n :: 0 <= n < |inputs| ==> !LeftActiveAt(s, start, inputs, n))
  {
    if forall n :: 0 <= n < |inputs| ==> !LeftActiveAt(s, start, inputs, n) {
      forall n | 0 <= n <= |inputs| ensures AboveMinimum(LiveRun(s, start, inputs[..n]).model) {
        MinimumUntil(s, start, inputs, n);
      }
    } else {
      var n :| 0 <= n < |inputs| && LeftActiveAt(s, start, inputs, n);
      var db := LiveRun(s, start, inputs[..n]);
      assert inputs[..n + 1][..n] == inputs[..n];
      if AboveMinimum(db.model) {
        TickAboveMinimum(s, db, inputs[n]);
        assert !AboveMinimum(LiveRun(s, start, inputs[..n + 1]).model);
      }
    }
  }

  // ---------- why and when a strategy was deactivated ----------

  /** The tick sells below seven tenths of the initial budget at this moment of its clock, or lacks
      data at this moment of the check. */
  predicate Deactivates(s: Strategy, m: Model, input: TickInput, at: int) {
    || (at == input.environment.now && m.state == TryingToSell && Decides(s, m, input)
        && Fill(m, input.environment).Some?
        && !KeepsShare(m.initialBudget, Cut(Fill(m, input.environment).value)))
    || (at == input.time && ResultOf(s, m, input).error == NotEnough)
  }

  lemma TickDeactivates(s: Strategy, db: Db, input: TickInput)
    requires db.model.deactivatedAt.None?
    ensures var at := Tick(s, db, input).model.deactivatedAt; at.Some? ==> Deactivates(s, db.model, input, at.value)
  {
    hide Cut, Buy, Sell, Valid;
    var fill := Fill(db.model, input.environment);
    if fill.Some? {
      BelowMinimumIff(AfterSell(db.model, fill.value));
    }
    hide BelowMinimum, KeepsShare;
  }

  /** Over every run: a strategy that is deactivated was so by one tick, at the moment stored: it sold
      below seven tenths of its initial budget, or it lacked data. */
  lemma {:induction false} DeactivatedWhy(s: Strategy, start: Model, inputs: seq<TickInput>)
    requires start.deactivatedAt.None? && LiveRun(s, start, inputs).model.deactivatedAt.Some?
    ensures exists n :: 0 <= n < |inputs|
              && Deactivates(s, ModelBefore(s, start, inputs, n), inputs[n],
                             LiveRun(s, start, inputs).model.deactivatedAt.value)
  {
    var n := |inputs| - 1;
    var front := inputs[..n];
    var db := LiveRun(s, start, front);
    if db.model.deactivatedAt.Some? {
      DeactivatedWhy(s, start, front);
      var k :| 0 <= k < |front|
        && Deactivates(s, ModelBefore(s, start, front, k), front[k], db.model.deactivatedAt.value);
      FrontStarts(s, start, inputs, k);
      assert front[k] == inputs[k];
    } else {
      TickDeactivates(s, db, inputs[n]);
    }
  }

  // ---------- runs that break the two rules ----------

  /** A strategy that buys and sells at an index of 50, and a tick that finds the index there. */
  const EAGER := RSIStrategy(14, 50.0, 50.0)

  function EagerTick(filled: real, update: WriteOutcome, deactivate: WriteOutcome): TickInput {
    TickInput([IndicatorSet(0, [Some(50.0)])], 0,
              Environment((side, cost) => Some(filled), Succeeded, update, deactivate, 0), Succeeded, 0)
  }

  lemma EagerDecides(m: Model, filled: real, update: WriteOutcome, deactivate: WriteOutcome)
    requires m.deactivatedAt.None? && m.state != UnknownState
    ensures Decides(EAGER, m, EagerTick(filled, update, deactivate))
  {
    var point := IndicatorSet(0, [Some(50.0)]);
    assert [point][0] == point && point.values[0] == Some(50.0);
  }

  /** An order whose save fails is made again from the same budget: two buys in a row. */
  lemma BuysTwice()
    ensures var start, input := Model(TryingToBuy, 100.0, 100.0, 0.0, None), EagerTick(1.0, FailedUnwritten, Succeeded);
            OneHolding(start) && !Chain(start, LiveRun(EAGER, start, [input, input]).orders)
  {
    var start, input := Model(TryingToBuy, 100.0, 100.0, 0.0, None), EagerTick(1.0, FailedUnwritten, Succeeded);
    var inputs := [input, input];
    EagerDecides(start, 1.0, FailedUnwritten, Succeeded);
    assert inputs[..0] == [] && inputs[..1] == [input];
    assert [input][..0] == [] && [input][0] == input;
    assert LiveRun(EAGER, start, inputs[..1]) == Tick(EAGER, Db(start, []), input);
    TickMoves(EAGER, Db(start, []), input);
    assert LeftAt(EAGER, start, inputs, 0) && RecordedAt(EAGER, start, inputs, 1);
    LedgerIsChainIff(EAGER, start, inputs);
  }

  /** A strategy that sells at half its initial budget stays active when its deactivation does not
      reach the database, and also when its save reached it but reported an error. */
  lemma StaysActive(update: WriteOutcome, deactivate: WriteOutcome)
    requires update == FailedWritten || (update == Succeeded && deactivate == FailedUnwritten)
    ensures var start, input := Model(TryingToSell, 100.0, 0.0, 1.0, None), EagerTick(50.0, update, deactivate);
            AboveMinimum(start) && !AboveMinimum(LiveRun(EAGER, start, [input]).model)
  {
    var start, input := Model(TryingToSell, 100.0, 0.0, 1.0, None), EagerTick(50.0, update, deactivate);
    EagerDecides(start, 50.0, update, deactivate);
    CutBounds(50.0);
    assert LeavesActive(EAGER, start, input);
    TickAboveMinimum(EAGER, Db(start, []), input);
    assert [input][..0] == [];
    assert LiveRun(EAGER, start, [input]) == Tick(EAGER, Db(start, []), input);
  }
}
