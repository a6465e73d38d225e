/** The indicator sets of a candle history, computed ahead of a backtest. */
module IndicatorSets {
  import opened Options
  import opened Candlesticks
  import opened Coarsening
  import opened Ema
  import opened Dema
  import opened Rsi
  import opened Strategies

  // ---------- specification ----------

  function MeanPrices(cs: seq<Candle>): (xs: seq<real>)
    ensures |xs| == |cs|
  {
    seq(|cs|, i requires 0 <= i < |cs| => cs[i].MeanPrice())
  }

  lemma PricesOfPrefix(ts: seq<Candle>, n: nat)
    requires n <= |ts|
    ensures MeanPrices(ts[..n]) == MeanPrices(ts)[..n]
  {
  }

  /** The value of an indicator after a price history. */
  function SpecValue(spec: IndicatorSpec, xs: seq<real>): Option<real> {
    match spec
    case EmaSpec(period) => EmaValueOf(EmaFold(period, xs))
    case DemaSpec(short, long) => DemaValueOf(DemaFold(short, long, xs))
    case RsiSpec(periods) => RsiValueOf(RsiFold(periods, xs))
  }

  function ValuesAt(specs: seq<IndicatorSpec>, xs: seq<real>): (vs: seq<Option<real>>)
    ensures |vs| == |specs|
  {
    seq(|specs|, i requires 0 <= i < |specs| => SpecValue(specs[i], xs))
  }

  /** The set after a nonempty history of traded candles. */
  function SetAfter(specs: seq<IndicatorSpec>, ts: seq<Candle>): IndicatorSet
    requires ts != []
  {
    IndicatorSet(ts[|ts| - 1].start, ValuesAt(specs, MeanPrices(ts)))
  }

  predicate AllSome(vs: seq<Option<real>>) {
    forall i :: 0 <= i < |vs| ==> vs[i].Some?
  }

  datatype Sets = Sets(sets: seq<IndicatorSet>, candles: seq<Candle>)

  /** The complete sets and their candles, over traded candles only. */
  function CompleteSets(specs: seq<IndicatorSpec>, ts: seq<Candle>): (r: Sets)
    ensures |r.sets| == |r.candles|
  {
    if ts == [] then Sets([], [])
    else
      var rest := CompleteSets(specs, ts[..|ts| - 1]);
      var point := SetAfter(specs, ts);
      if AllSome(point.values) then Sets(rest.sets + [point], rest.candles + [ts[|ts| - 1]]) else rest
  }

  // ---------- the code ----------

  datatype IndicatorState = EmaInd(ema: EmaState) | DemaInd(dema: DemaState) | RsiInd(rsi: RsiState)

  function StartState(spec: IndicatorSpec): IndicatorState {
    match spec
    case EmaSpec(period) => EmaInd(NewEma(period))
    case DemaSpec(short, long) => DemaInd(NewDema(short, long))
    case RsiSpec(periods) => RsiInd(NewRsi(periods))
  }

  /** An indicator ignores candles without volume. */
  function AddCandle(s: IndicatorState, c: Candle): IndicatorState {
    if c.bar.volume == 0.0 then s
    else
      match s
      case EmaInd(e) => EmaInd(EmaAdd(e, c.MeanPrice()))
      case DemaInd(d) => DemaInd(DemaAdd(d, c.MeanPrice()))
      case RsiInd(r) => RsiInd(RsiAdd(r, c.MeanPrice()))
  }

  function StateValue(s: IndicatorState): Option<real> {
    match s
    case EmaInd(e) => EmaValueOf(e)
    case DemaInd(d) => DemaValueOf(d)
    case RsiInd(r) => RsiValueOf(r)
  }

  function SpecState(spec: IndicatorSpec, xs: seq<real>): IndicatorState {
    match spec
    case EmaSpec(period) => EmaInd(EmaFold(period, xs))
    case DemaSpec(short, long) => DemaInd(DemaFold(short, long, xs))
    case RsiSpec(periods) => RsiInd(RsiFold(periods, xs))
  }

  lemma StateAfterCandle(spec: IndicatorSpec, ts: seq<Candle>, c: Candle)
    requires c.bar.volume != 0.0
    ensures AddCandle(SpecState(spec, MeanPrices(ts)), c) == SpecState(spec, MeanPrices(ts + [c]))
    ensures StateValue(SpecState(spec, MeanPrices(ts + [c]))) == SpecValue(spec, MeanPrices(ts + [c]))
  {
    var xs := MeanPrices(ts + [c]);
    assert xs[..|xs| - 1] == MeanPrices(ts) && xs[|xs| - 1] == c.MeanPrice();
  }

  predicate StatesHold(states: seq<IndicatorState>, specs: seq<IndicatorSpec>, ts: seq<Candle>) {
    |states| == |specs| && forall i :: 0 <= i < |specs| ==> states[i] == SpecState(specs[i], MeanPrices(ts))
  }

  /** Gives one traded candle to every indicator and collects their values. */
  method UpdateIndicators(specs: seq<IndicatorSpec>, states: seq<IndicatorState>, ghost ts: seq<Candle>, c: Candle)
    returns (after: seq<IndicatorState>, point: IndicatorSet, skipSet: bool)
    requires StatesHold(states, specs, ts) && c.bar.volume != 0.0
    ensures StatesHold(after, specs, ts + [c])
    ensures point == SetAfter(specs, ts + [c]) && skipSet == !AllSome(point.values)
  {
    var values: seq<Option<real>> := [];
    after, skipSet := [], false;
    for i := 0 to |specs|
      invariant |after| == |values| == i
      invariant forall k :: 0 <= k < i ==> after[k] == SpecState(specs[k], MeanPrices(ts + [c]))
      invariant forall k :: 0 <= k < i ==> values[k] == SpecValue(specs[k], MeanPrices(ts + [c]))
      invariant skipSet <==> exists k :: 0 <= k < i && values[k].None?
    {
      StateAfterCandle(specs[i], ts, c);
      var state := AddCandle(states[i], c);
      var value := StateValue(state);
      if value.None? {
        skipSet := true;
      }
      after := after + [state];
      values := values + [value];
    }
    point := IndicatorSet(c.start, values);
    assert values == ValuesAt(specs, MeanPrices(ts + [c]));
  }

  method GenerateIndicatorSets(specs: seq<IndicatorSpec>, cs: seq<Candle>)
    returns (indicatorSets: seq<IndicatorSet>, validCandles: seq<Candle>)
    ensures Sets(indicatorSets, validCandles) == CompleteSets(specs, NonEmpty(cs))
  {
    indicatorSets, validCandles := [], [];
    var states := seq(|specs|, i requires 0 <= i < |specs| => StartState(specs[i]));
    for j := 0 to |cs|
      invariant StatesHold(states, specs, NonEmpty(cs[..j]))
      invariant Sets(indicatorSets, validCandles) == CompleteSets(specs, NonEmpty(cs[..j]))
    {
      var c := cs[j];
      assert cs[..j + 1][..j] == cs[..j];
      if c.bar.volume == 0.0 {
        continue;
      }
      ghost var ts := NonEmpty(cs[..j]);
      assert (ts + [c])[..|ts|] == ts;
      var after, point, skipSet := UpdateIndicators(specs, states, ts, c);
      states := after;
      if !skipSet {
        indicatorSets := indicatorSets + [point];
        validCandles := validCandles + [c];
      }
    }
    assert cs[..|cs|] == cs;
  }

  // ---------- incomplete sets form an initial segment ----------

  /** The parameters of a strategy's indicators. */
  predicate GoodPeriods(specs: seq<IndicatorSpec>) {
    forall i :: 0 <= i < |specs| ==>
      match specs[i]
      case EmaSpec(period) => period >= 1
      case DemaSpec(short, long) => short >= 1 && long >= 1
      case RsiSpec(periods) => periods >= 1
  }

  /** How many traded candles an indicator needs. */
  function Needed(spec: IndicatorSpec): nat {
    match spec
    case EmaSpec(period) => period
    case DemaSpec(short, long) => if short > long then short else long
    case RsiSpec(periods) => periods + 1
  }

  lemma ReadyIff(spec: IndicatorSpec, xs: seq<real>)
    requires GoodPeriods([spec]) && AllAbove(xs, 0.0)
    ensures SpecValue(spec, xs).Some? <==> |xs| >= Needed(spec)
  {
    assert [spec][0] == spec;
    match spec
    case EmaSpec(period) => EmaComputesAverage(period, xs);
    case DemaSpec(short, long) => DemaComputes(short, long, xs);
    case RsiSpec(periods) => RsiInRange(periods, xs);
  }

  function MostNeeded(specs: seq<IndicatorSpec>): nat {
    if specs == [] then 0
    else
      var rest := MostNeeded(specs[1..]);
      if Needed(specs[0]) > rest then Needed(specs[0]) else rest
  }

  lemma AllSomeCons(v: Option<real>, vs: seq<Option<real>>)
    ensures AllSome([v] + vs) <==> v.Some? && AllSome(vs)
  {
    assert ([v] + vs)[0] == v;
    assert forall i :: 0 <= i < |vs| ==> ([v] + vs)[i + 1] == vs[i];
  }

  /** A set is complete exactly from the candle count that its neediest indicator needs on. */
  lemma {:induction false} CompleteIff(specs: seq<IndicatorSpec>, xs: seq<real>)
    requires GoodPeriods(specs) && AllAbove(xs, 0.0)
    ensures AllSome(ValuesAt(specs, xs)) <==> |xs| >= MostNeeded(specs)
  {
    if specs != [] {
      CompleteIff(specs[1..], xs);
      ReadyIff(specs[0], xs);
      hide SpecValue, Needed;
      assert ValuesAt(specs, xs) == [SpecValue(specs[0], xs)] + ValuesAt(specs[1..], xs);
      AllSomeCons(SpecValue(specs[0], xs), ValuesAt(specs[1..], xs));
    }
  }

  predicate PositivePrices(ts: seq<Candle>) {
    forall i :: 0 <= i < |ts| ==> ts[i].bar.volume != 0.0 && Positive(ts[i].bar)
  }

  lemma PricesPositive(ts: seq<Candle>)
    requires PositivePrices(ts)
    ensures AllAbove(MeanPrices(ts), 0.0)
  {
  }

  /** The sets and candles of the last |r.sets| traded candles. */
  ghost predicate TailSets(r: Sets, specs: seq<IndicatorSpec>, ts: seq<Candle>) {
    && |r.sets| == |r.candles| <= |ts|
    && (forall i :: 0 <= i < |r.sets| ==> r.candles[i] == ts[|ts| - |r.sets| + i])
    && (forall i :: 0 <= i < |r.sets| ==> r.sets[i] == SetAfter(specs, ts[..|ts| - |r.sets| + i + 1]))
  }

  lemma TailGrows(r: Sets, specs: seq<IndicatorSpec>, ts: seq<Candle>, c: Candle)
    requires TailSets(r, specs, ts)
    ensures TailSets(Sets(r.sets + [SetAfter(specs, ts + [c])], r.candles + [c]), specs, ts + [c])
  {
    hide SetAfter;
    var us, d := ts + [c], |ts| - |r.sets|;
    var t := Sets(r.sets + [SetAfter(specs, us)], r.candles + [c]);
    forall i | 0 <= i < |t.sets| ensures t.sets[i] == SetAfter(specs, us[..d + i + 1]) {
      if i < |r.sets| {
        assert us[..d + i + 1] == ts[..d + i + 1];
      } else {
        assert us[..d + i + 1] == us;
      }
    }
  }

  /** The complete sets are those of the candles from the first sufficient one on: what is dropped
      is exactly an initial segment. */
  lemma {:induction false} DroppedSetsAreInitial(specs: seq<IndicatorSpec>, ts: seq<Candle>)
    requires specs != [] && GoodPeriods(specs) && PositivePrices(ts)
    ensures var r, k := CompleteSets(specs, ts), MostNeeded(specs);
            TailSets(r, specs, ts) && |r.sets| == if |ts| < k then 0 else if k == 0 then |ts| else |ts| - k + 1
  {
    if ts != [] {
      var front, c := ts[..|ts| - 1], ts[|ts| - 1];
      DroppedSetsAreInitial(specs, front);
      PricesPositive(ts);
      CompleteIff(specs, MeanPrices(ts));
      assert ts == front + [c];
      hide ValuesAt, TailSets, AllSome, MostNeeded;
      if AllSome(SetAfter(specs, ts).values) {
        TailGrows(CompleteSets(specs, front), specs, front, c);
      } else {
        NoTail(CompleteSets(specs, front), CompleteSets(specs, ts), specs, front, ts);
      }
    }
  }

  lemma NoTail(r: Sets, t: Sets, specs: seq<IndicatorSpec>, front: seq<Candle>, ts: seq<Candle>)
    requires r == t && r.sets == [] && r.candles == []
    ensures TailSets(t, specs, ts)
  {
  }

  predicate Timed(r: Sets) {
    |r.sets| == |r.candles| && forall i :: 0 <= i < |r.sets| ==> r.sets[i].time == r.candles[i].start
  }

  lemma TimedGrows(r: Sets, point: IndicatorSet, c: Candle)
    requires Timed(r) && point.time == c.start
    ensures Timed(Sets(r.sets + [point], r.candles + [c]))
  {
  }

  /** A set bears the start of its candle. */
  lemma {:induction false} SetTimes(specs: seq<IndicatorSpec>, ts: seq<Candle>)
    ensures Timed(CompleteSets(specs, ts))
  {
    if ts != [] {
      hide Timed, AllSome;
      SetTimes(specs, ts[..|ts| - 1]);
      TimedGrows(CompleteSets(specs, ts[..|ts| - 1]), SetAfter(specs, ts), ts[|ts| - 1]);
    }
  }

  predicate EachComplete(sets: seq<IndicatorSet>, n: nat) {
    forall i :: 0 <= i < |sets| ==> Complete(sets[i]) && |sets[i].values| == n
  }

  /** Every set the backtest gets is complete. */
  lemma {:induction false} AllComplete(specs: seq<IndicatorSpec>, ts: seq<Candle>)
    requires specs != []
    ensures EachComplete(CompleteSets(specs, ts).sets, |specs|)
  {
    if ts != [] {
      AllComplete(specs, ts[..|ts| - 1]);
      hide SpecValue, ValuesAt;
      var point := SetAfter(specs, ts);
      assert |point.values| == |specs|;
      assert AllSome(point.values) ==> Complete(point);
    }
  }
}
