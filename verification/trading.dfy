/** The trading state machine: trying to buy, trying to sell, and what an order changes. */
module Trading {
  import opened Options
  import opened Reals
  import opened Strategies
  import opened Truncation
  import opened Writes

  datatype Side = BuySide | SellSide

  datatype TradeState = TryingToBuy | TryingToSell | UnknownState

  /** The lowest share of the initial budget a strategy may fall to. */
  const MINIMUM_BUDGET_PROPORTION := 0.7

  datatype Model = Model(
    state: TradeState, initialBudget: real, budget: real, invested: real, deactivatedAt: Option<int>)

  /** An order as the ledger records it. */
  datatype Order = Order(side: Side, cost: real, filled: real)

  datatype TickError =
    | NoError | NotEnough | Panicked | BadState | OrderFailed | LedgerFailed | UpdateFailed | DeactivateFailed

  /** What the outside answers during one tick: the exchange's fill for an order, if it succeeds,
      and how each write goes: of the ledger entry, of the model after the order, and of the
      model after a deactivation. */
  datatype Environment = Environment(
    fill: (Side, real) -> Option<real>, ledger: WriteOutcome, update: WriteOutcome, deactivate: WriteOutcome, now: int)

  /** `model` is the model in memory afterwards, `persisted` the one in the database, `order` what
      the ledger has recorded. */
  datatype TickResult = TickResult(model: Model, persisted: Model, order: Option<Order>, error: TickError)

  function Unchanged(m: Model, e: TickError): TickResult {
    TickResult(m, m, None, e)
  }

  function BelowMinimum(m: Model): bool {
    m.initialBudget != 0.0 && m.budget / m.initialBudget < MINIMUM_BUDGET_PROPORTION
  }

  function AfterBuy(m: Model, filled: real): Model {
    m.(invested := Cut(filled), budget := 0.0, state := TryingToSell)
  }

  function AfterSell(m: Model, filled: real): Model {
    m.(invested := 0.0, budget := Cut(filled), state := TryingToBuy)
  }

  /** What a write of `after` leaves of `before` in the database. */
  function Written(o: WriteOutcome, before: Model, after: Model): Model {
    if Reached(o) then after else before
  }

  function ProcessBuy(m: Model, e: Environment): TickResult {
    match e.fill(BuySide, m.budget)
    case None => Unchanged(m, OrderFailed)
    case Some(filled) =>
      var order := if Reached(e.ledger) then Some(Order(BuySide, m.budget, filled)) else None;
      if e.ledger != Succeeded then TickResult(m, m, order, LedgerFailed)
      else
        var after := AfterBuy(m, filled);
        TickResult(after, Written(e.update, m, after), order, if e.update == Succeeded then NoError else UpdateFailed)
  }

  /** A sell whose model could not be saved returns before the minimum budget is looked at. */
  function ProcessSell(m: Model, e: Environment): TickResult {
    match e.fill(SellSide, m.invested)
    case None => Unchanged(m, OrderFailed)
    case Some(filled) =>
      var order := if Reached(e.ledger) then Some(Order(SellSide, m.invested, filled)) else None;
      if e.ledger != Succeeded then TickResult(m, m, order, LedgerFailed)
      else
        var after := AfterSell(m, filled);
        if e.update != Succeeded then TickResult(after, Written(e.update, m, after), order, UpdateFailed)
        else if !BelowMinimum(after) then TickResult(after, after, order, NoError)
        else
          var dead := after.(deactivatedAt := Some(e.now));
          TickResult(dead, Written(e.deactivate, after, dead), order,
                     if e.deactivate == Succeeded then NoError else DeactivateFailed)
  }

  function OnDecision(m: Model, d: Decision, traded: TickResult): TickResult {
    match d
    case NotEnoughData => Unchanged(m, NotEnough)
    case Panic => Unchanged(m, Panicked)
    case Decided(false) => Unchanged(m, NoError)
    case Decided(true) => traded
  }

  function BuyTick(s: Strategy, history: seq<IndicatorSet>, current: int, m: Model, e: Environment): TickResult {
    if !Valid(current, history) then Unchanged(m, NotEnough)
    else OnDecision(m, Buy(s, history, current), ProcessBuy(m, e))
  }

  function SellTick(s: Strategy, history: seq<IndicatorSet>, current: int, m: Model, e: Environment): TickResult {
    if !Valid(current, history) then Unchanged(m, NotEnough)
    else OnDecision(m, Sell(s, history, current), ProcessSell(m, e))
  }

  /** One tick of a strategy on the history it has. */
  function ProcessTick(s: Strategy, history: seq<IndicatorSet>, current: int, m: Model, e: Environment): TickResult {
    match m.state
    case UnknownState => Unchanged(m, BadState)
    case TryingToBuy => BuyTick(s, history, current, m, e)
    case TryingToSell => SellTick(s, history, current, m, e)
  }

  // ---------- what a sell deactivates ----------

  /** A budget of at least seven tenths of the initial one, when there is an initial one. */
  predicate KeepsShare(initial: real, budget: real) {
    (initial > 0.0 ==> 10.0 * budget >= 7.0 * initial) && (initial < 0.0 ==> 10.0 * budget <= 7.0 * initial)
  }

  lemma BelowMinimumIff(m: Model)
    ensures BelowMinimum(m) <==> !KeepsShare(m.initialBudget, m.budget)
  {
    if m.initialBudget != 0.0 {
      var q := m.budget / m.initialBudget;
      assert q * m.initialBudget == m.budget;
      var gap := q - 0.7;
      assert 10.0 * m.budget - 7.0 * m.initialBudget == 10.0 * (gap * m.initialBudget);
      SameSign(gap, m.initialBudget);
    }
  }

  lemma SameSign(a: real, b: real)
    requires b != 0.0
    ensures b > 0.0 ==> (a < 0.0 <==> a * b < 0.0)
    ensures b < 0.0 ==> (a < 0.0 <==> a * b > 0.0)
  {
    if b > 0.0 {
      if a >= 0.0 { ProductSign(a, b); } else { ProductPositive(-a, b); }
    } else {
      if a >= 0.0 { ProductSign(a, -b); } else { ProductPositive(-a, -b); }
    }
  }

  /** A sell that is filled and whose writes succeed deactivates the strategy, at the clock's moment,
      exactly when it leaves less than seven tenths of a positive initial budget. */
  lemma SellDeactivatesIff(s: Strategy, history: seq<IndicatorSet>, current: int, m: Model, e: Environment)
    requires m.state == TryingToSell && m.initialBudget > 0.0
    requires Valid(current, history) && Sell(s, history, current) == Decided(true)
    requires e.fill(SellSide, m.invested).Some?
    requires e.ledger == Succeeded && e.update == Succeeded && e.deactivate == Succeeded
    ensures var r, f := ProcessTick(s, history, current, m, e), e.fill(SellSide, m.invested).value;
            && r.error == NoError && r.persisted == r.model
            && r.model == Model(TryingToBuy, m.initialBudget, Cut(f), 0.0,
                                if 10.0 * Cut(f) < 7.0 * m.initialBudget then Some(e.now) else m.deactivatedAt)
  {
    hide Sell, Valid, Cut;
    BelowMinimumIff(AfterSell(m, e.fill(SellSide, m.invested).value));
    hide BelowMinimum;
  }

  // ---------- the code ----------

  class TradingStrategyModel {
    var state: TradeState
    const initialBudget: real
    var budget: real
    var invested: real
    var deactivatedAt: Option<int>

    function Contents(): Model
      reads this
    {
      Model(state, initialBudget, budget, invested, deactivatedAt)
    }

    constructor (m: Model)
      ensures Contents() == m
    {
      state, initialBudget, budget, invested, deactivatedAt :=
        m.state, m.initialBudget, m.budget, m.invested, m.deactivatedAt;
    }
  }

  /** The order is placed first and written to the ledger second; nothing undoes an order whose
      ledger entry fails, and a failed entry may still have been recorded. */
  method PerformOrder(side: Side, cost: real, e: Environment) returns (response: Option<real>, entry: Option<Order>)
    ensures response == if e.ledger == Succeeded then e.fill(side, cost) else None
    ensures entry.Some? <==> e.fill(side, cost).Some? && e.ledger != FailedUnwritten
    ensures entry.Some? ==> entry.value == Order(side, cost, e.fill(side, cost).value)
  {
    response := e.fill(side, cost);
    if response.None? {
      return None, None;
    }
    entry := if Reached(e.ledger) then Some(Order(side, cost, response.value)) else None;
    if e.ledger != Succeeded {
      response := None;
    }
  }

  /** Writes the model over the row before it. */
  method UpdateTradingStrategy(m: TradingStrategyModel, row: Model, o: WriteOutcome) returns (after: Model, ok: bool)
    ensures after == Written(o, row, m.Contents()) && ok == (o == Succeeded)
  {
    after := if Reached(o) then m.Contents() else row;
    ok := o == Succeeded;
  }
}
