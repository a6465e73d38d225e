/** The trader: it is seeded with candles, or handed indicator sets, and ticks a strategy's model. */
module Traders {
  import opened Options
  import opened Candlesticks
  import opened Strategies
  import opened Truncation
  import opened IndicatorSets
  import opened Trading

  type IndicatorMap = map<IndicatorSpec, IndicatorState>

  // ---------- specification of seeding ----------

  /** Gives a candle to the indicator of each name in turn: a name listed twice is one indicator
      that receives the candle twice. */
  function SeedNames(names: seq<IndicatorSpec>, m: IndicatorMap, c: Candle): (r: (IndicatorMap, seq<Option<real>>))
    requires forall i :: 0 <= i < |names| ==> names[i] in m
    ensures r.0.Keys == m.Keys && |r.1| == |names|
    decreases |names|
  {
    if names == [] then (m, [])
    else
      var s := AddCandle(m[names[0]], c);
      var rest := SeedNames(names[1..], m[names[0] := s], c);
      (rest.0, [StateValue(s)] + rest.1)
  }

  datatype Trader = Trader(indicators: IndicatorMap, sets: seq<IndicatorSet>)

  function NewIndicators(names: seq<IndicatorSpec>): (m: IndicatorMap)
    ensures m.Keys == set n | n in names
  {
    map n | n in names :: StartState(n)
  }

  /** The live trader after a candle history. */
  function Seeded(names: seq<IndicatorSpec>, cs: seq<Candle>): (t: Trader)
    ensures t.indicators.Keys == (set n | n in names) && |t.sets| == |cs|
  {
    if cs == [] then Trader(NewIndicators(names), [])
    else
      var before, c := Seeded(names, cs[..|cs| - 1]), cs[|cs| - 1];
      var r := SeedNames(names, before.indicators, c);
      Trader(r.0, before.sets + [IndicatorSet(c.start, r.1)])
  }

  /** There is a set for each candle, and it bears the candle's start. */
  lemma {:induction false} SeededTimes(names: seq<IndicatorSpec>, cs: seq<Candle>)
    ensures var t := Seeded(names, cs);
            |t.sets| == |cs| && forall j :: 0 <= j < |cs| ==> t.sets[j].time == cs[j].start
  {
    hide SeedNames;
    if cs != [] {
      SeededTimes(names, cs[..|cs| - 1]);
    }
  }

  lemma SeedCons(name: IndicatorSpec, rest: seq<IndicatorSpec>, m: IndicatorMap, c: Candle)
    requires name in m && forall i :: 0 <= i < |rest| ==> rest[i] in m
    ensures var s := AddCandle(m[name], c);
            var r := SeedNames(rest, m[name := s], c);
            SeedNames([name] + rest, m, c) == (r.0, [StateValue(s)] + r.1)
  {
    assert ([name] + rest)[1..] == rest;
  }

  lemma SeedAt(names: seq<IndicatorSpec>, i: nat, m: IndicatorMap, c: Candle,
               values: seq<Option<real>>)
    requires i < |names| && forall k :: 0 <= k < |names| ==> names[k] in m
    ensures var s := AddCandle(m[names[i]], c);
            var r, rest := SeedNames(names[i..], m, c), SeedNames(names[i + 1..], m[names[i] := s], c);
            r.0 == rest.0 && values + r.1 == values + [StateValue(s)] + rest.1
  {
    hide AddCandle, StateValue, SeedNames;
    assert names[i..] == [names[i]] + names[i + 1..];
    SeedCons(names[i], names[i + 1..], m, c);
  }

  lemma SeedNothing(m: IndicatorMap, c: Candle)
    ensures SeedNames([], m, c) == (m, [])
  {
  }

  // ---------- the code ----------

  class TradingStrategy {
    const strategy: Strategy
    const indicatorNames: seq<IndicatorSpec>
    var indicators: IndicatorMap
    var indicatorSets: seq<IndicatorSet>
    var currentTick: int
    var lastCandlestickTime: Option<int>

    ghost predicate HasIndicators()
      reads this
    {
      indicators.Keys == set n | n in indicatorNames
    }

    constructor (s: Strategy)
      ensures strategy == s && indicatorNames == Indicators(s) && HasIndicators()
      ensures Trader(indicators, indicatorSets) == Seeded(indicatorNames, []) && currentTick == -1
    {
      strategy, indicatorNames := s, Indicators(s);
      indicators := NewIndicators(Indicators(s));
      indicatorSets, currentTick, lastCandlestickTime := [], -1, None;
    }

    method SeedIndicators(c: Candle)
      requires HasIndicators()
      modifies this
      ensures HasIndicators() && currentTick == old(currentTick) + 1
      ensures var r := SeedNames(indicatorNames, old(indicators), c);
              indicators == r.0 && indicatorSets == old(indicatorSets) + [IndicatorSet(c.start, r.1)]
      ensures lastCandlestickTime == if indicatorNames == [] then old(lastCandlestickTime) else Some(c.end)
    {
      hide SeedNames, AddCandle, StateValue;
      var values: seq<Option<real>> := [];
      ghost var goal := SeedNames(indicatorNames, indicators, c);
      assert indicatorNames[0..] == indicatorNames && values + goal.1 == goal.1;
      for i := 0 to |indicatorNames|
        invariant HasIndicators() && currentTick == old(currentTick) && indicatorSets == old(indicatorSets)
        invariant lastCandlestickTime == if i == 0 then old(lastCandlestickTime) else Some(c.end)
        invariant SeedNames(indicatorNames[i..], indicators, c).0 == goal.0
        invariant values + SeedNames(indicatorNames[i..], indicators, c).1 == goal.1
      {
        var name := indicatorNames[i];
        SeedAt(indicatorNames, i, indicators, c, values);
        lastCandlestickTime := Some(c.end);
        var state := AddCandle(indicators[name], c);
        indicators := indicators[name := state];
        values := values + [StateValue(state)];
      }
      assert indicatorNames[|indicatorNames|..] == [];
      SeedNothing(indicators, c);
      assert values + [] == values;
      indicatorSets := indicatorSets + [IndicatorSet(c.start, values)];
      currentTick := currentTick + 1;
    }

    method SetIndicatorSets(sets: seq<IndicatorSet>)
      modifies this`indicatorSets
      ensures indicatorSets == sets
    {
      indicatorSets := sets;
    }

    method NextTick()
      modifies this`currentTick
      ensures currentTick == old(currentTick) + 1
    {
      currentTick := currentTick + 1;
    }

    /** `persisted` is what the database holds afterwards; it held the model before. */
    method TryBuy(m: TradingStrategyModel, e: Environment)
      returns (order: Option<Order>, persisted: Model, error: TickError)
      modifies m
      ensures TickResult(m.Contents(), persisted, order, error)
           == BuyTick(strategy, indicatorSets, currentTick, old(m.Contents()), e)
    {
      order, persisted := None, m.Contents();
      var valid := ValidateIndicatorSets(currentTick, indicatorSets);
      if !valid {
        return None, persisted, NotEnough;
      }
      match Buy(strategy, indicatorSets, currentTick) {
        case NotEnoughData => return None, persisted, NotEnough;
        case Panic => return None, persisted, Panicked;
        case Decided(buy) =>
          if buy {
            var response, entry := PerformOrder(BuySide, m.budget, e);
            if response.None? {
              return entry, persisted, if e.fill(BuySide, m.budget).None? then OrderFailed else LedgerFailed;
            }
            m.invested := TruncateFloat(response.value, PRECISION);
            m.budget := 0.0;
            m.state := TryingToSell;
            var row, ok := UpdateTradingStrategy(m, persisted, e.update);
            return entry, row, if ok then NoError else UpdateFailed;
          }
      }
      error := NoError;
    }

    method TrySell(m: TradingStrategyModel, e: Environment)
      returns (order: Option<Order>, persisted: Model, error: TickError)
      modifies m
      ensures TickResult(m.Contents(), persisted, order, error)
           == SellTick(strategy, indicatorSets, currentTick, old(m.Contents()), e)
    {
      order, persisted := None, m.Contents();
      var valid := ValidateIndicatorSets(currentTick, indicatorSets);
      if !valid {
        return None, persisted, NotEnough;
      }
      match Sell(strategy, indicatorSets, currentTick) {
        case NotEnoughData => return None, persisted, NotEnough;
        case Panic => return None, persisted, Panicked;
        case Decided(sell) =>
          if sell {
            var response, entry := PerformOrder(SellSide, m.invested, e);
            if response.None? {
              return entry, persisted, if e.fill(SellSide, m.invested).None? then OrderFailed else LedgerFailed;
            }
            m.invested := 0.0;
            m.budget := TruncateFloat(response.value, PRECISION);
            m.state := TryingToBuy;
            var row, ok := UpdateTradingStrategy(m, persisted, e.update);
            if !ok {
              return entry, row, UpdateFailed;
            }
            if m.initialBudget != 0.0 && m.budget / m.initialBudget < MINIMUM_BUDGET_PROPORTION {
              m.deactivatedAt := Some(e.now);
              row, ok := UpdateTradingStrategy(m, row, e.deactivate);
              if !ok {
                return entry, row, DeactivateFailed;
              }
            }
            return entry, row, NoError;
          }
      }
      error := NoError;
    }

    method ProcessTick(m: TradingStrategyModel, e: Environment)
      returns (order: Option<Order>, persisted: Model, error: TickError)
      modifies m
      ensures TickResult(m.Contents(), persisted, order, error)
           == Trading.ProcessTick(strategy, indicatorSets, currentTick, old(m.Contents()), e)
    {
      match m.state {
        case TryingToBuy => order, persisted, error := TryBuy(m, e);
        case TryingToSell => order, persisted, error := TrySell(m, e);
        case UnknownState => return None, m.Contents(), BadState;
      }
    }
  }
}
