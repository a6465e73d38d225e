/** Indicator sets and the three strategies' decisions on them. */
module Strategies {
  import opened Options

  /** An indicator, by kind and parameters; its name is formed from exactly these. */
  datatype IndicatorSpec = EmaSpec(period: nat) | DemaSpec(short: nat, long: nat) | RsiSpec(periods: nat)

  datatype IndicatorSet = IndicatorSet(time: int, values: seq<Option<real>>)

  datatype Strategy =
    | EMACrossover(short: nat, long: nat, up: real, down: real)
    | RSIStrategy(period: nat, buy: real, sell: real)
    | S1(short: nat, long: nat, up: real, down: real, rsiExit: real, rsiEntrance: real)

  /** The period of the RSI of S1. */
  const RSI_PERIOD := 14

  function Indicators(s: Strategy): seq<IndicatorSpec> {
    match s
    case EMACrossover(short, long, _, _) => [DemaSpec(short, long), EmaSpec(short), EmaSpec(long)]
    case RSIStrategy(period, _, _) => [RsiSpec(period)]
    case S1(short, long, _, _, _, _) => [DemaSpec(short, long), EmaSpec(short), EmaSpec(long), RsiSpec(RSI_PERIOD)]
  }

  /** Panic stands for a missing value or entry that the code would dereference. */
  datatype Decision = Decided(yes: bool) | NotEnoughData | Panic

  function CrossoverDecides(values: seq<Option<real>>, yes: real -> bool): Decision {
    if |values| == 0 then Panic
    else if values[0].None? then NotEnoughData
    else if |values| < 3 || values[1].None? || values[2].None? then Panic
    else Decided(yes(values[0].value))
  }

  function RsiDecides(values: seq<Option<real>>, yes: real -> bool): Decision {
    if |values| == 0 then Panic
    else if values[0].None? then NotEnoughData
    else Decided(yes(values[0].value))
  }

  /** Whether S1 refuses to re-enter a trade it has just left through its RSI exit; None when it
      would dereference a missing value. */
  function Reentering(values: seq<Option<real>>, up: real, rsiExit: real): Option<bool> {
    if |values| < 4 || values[0].None? then None
    else if !(values[0].value >= up) then Some(false)
    else if values[3].None? then None
    else Some(values[3].value >= rsiExit)
  }

  function S1Buys(s: Strategy, values: seq<Option<real>>): Decision
    requires s.S1?
  {
    if |values| < 4 || values[3].None? || values[0].None? then Panic
    else Decided(values[3].value <= s.rsiEntrance || values[0].value > s.up)
  }

  function S1Sells(s: Strategy, values: seq<Option<real>>): Decision
    requires s.S1?
  {
    if |values| < 4 || values[3].None? || values[0].None? then Panic
    else Decided(values[3].value >= s.rsiExit || values[0].value < s.down)
  }

  function Buy(s: Strategy, history: seq<IndicatorSet>, current: int): Decision {
    if |history| - 1 < current then NotEnoughData
    else if current < 0 then Panic
    else
      match s
      case EMACrossover(_, _, up, _) => CrossoverDecides(history[current].values, v => v > up)
      case RSIStrategy(_, buy, _) => RsiDecides(history[current].values, v => v <= buy)
      case S1(_, _, up, _, rsiExit, _) =>
        if current >= 1 then
          match Reentering(history[current - 1].values, up, rsiExit)
          case None => Panic
          case Some(true) => Decided(false)
          case Some(false) => S1Buys(s, history[current].values)
        else S1Buys(s, history[current].values)
  }

  function Sell(s: Strategy, history: seq<IndicatorSet>, current: int): Decision {
    if |history| - 1 < current then NotEnoughData
    else if current < 0 then Panic
    else
      match s
      case EMACrossover(_, _, _, down) => CrossoverDecides(history[current].values, v => v < down)
      case RSIStrategy(_, _, sell) => RsiDecides(history[current].values, v => v >= sell)
      case S1(_, _, _, _, _, _) => S1Sells(s, history[current].values)
  }

  predicate Complete(point: IndicatorSet) {
    point.values != [] && forall i :: 0 <= i < |point.values| ==> point.values[i].Some?
  }

  /** The check before every decision, on the latest set there is. */
  method ValidateIndicatorSets(currentTick: int, sets: seq<IndicatorSet>) returns (ok: bool)
    ensures ok == Valid(currentTick, sets)
    ensures ok <==>
              && |sets| > 0 && currentTick <= |sets|
              && var last := sets[|sets| - 1].values; |last| > 0 && forall k :: 0 <= k < |last| ==> last[k].Some?
  {
    if |sets| == 0 || currentTick > |sets| {
      return false;
    }
    var last := sets[|sets| - 1];
    if |last.values| == 0 {
      return false;
    }
    for i := 0 to |last.values|
      invariant forall k :: 0 <= k < i ==> last.values[k].Some?
    {
      if last.values[i].None? {
        return false;
      }
    }
    return true;
  }

  predicate Valid(currentTick: int, sets: seq<IndicatorSet>) {
    sets != [] && currentTick <= |sets| && Complete(sets[|sets| - 1])
  }

  // ---------- what a decision depends on ----------

  /** The sets of a strategy have one value per indicator. */
  predicate Shaped(s: Strategy, point: IndicatorSet) {
    |point.values| == |Indicators(s)|
  }

  /** Two sets a strategy cannot tell apart: both complete, with the same difference of averages
      and the same RSI where it looks at them. */
  predicate Alike(s: Strategy, a: IndicatorSet, b: IndicatorSet) {
    && Shaped(s, a) && Shaped(s, b) && Complete(a) && Complete(b)
    && a.values[0] == b.values[0]
    && (s.S1? ==> a.values[3] == b.values[3])
  }

  /** Decisions on complete sets are always made, and depend on no more than the current set and,
      for S1, the one before it. */
  lemma DecisionsAlike(s: Strategy, h: seq<IndicatorSet>, i: nat, g: seq<IndicatorSet>, j: nat)
    requires i < |h| && j < |g| && Alike(s, h[i], g[j])
    ensures Sell(s, h, i).Decided? && Sell(s, h, i) == Sell(s, g, j)
    ensures !s.S1? || (i == 0 && j == 0) || (i >= 1 && j >= 1 && Alike(s, h[i - 1], g[j - 1])) ==>
              Buy(s, h, i).Decided? && Buy(s, h, i) == Buy(s, g, j)
  {
  }
}
