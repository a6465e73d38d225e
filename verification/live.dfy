/** What a trader seeded candle by candle holds, and when it decides what the backtest decides. */
module Live {
  import opened Options
  import opened Candlesticks
  import opened Coarsening
  import opened Ema
  import opened Dema
  import opened Strategies
  import opened IndicatorSets
  import opened Trading
  import opened Traders
  import opened Backtesting

  // ---------- what the live indicators hold ----------

  /** An average of positive prices that has received n of them is ready exactly from `period` on. */
  predicate Counted(s: IndicatorState, period: nat, n: nat) {
    && s.EmaInd? && s.ema.period == period
    && (if n < period then |s.ema.values| == n && s.ema.lastEMA == 0.0 && AllAbove(s.ema.values, 0.0)
        else s.ema.lastEMA > 0.0)
  }

  lemma MeanPositive(xs: seq<real>)
    requires xs != [] && AllAbove(xs, 0.0)
    ensures Mean(xs) > 0.0
  {
    var lo, hi := LeastPositive(xs);
    MeanBounds(xs, lo, hi);
  }

  lemma CountUp(s: IndicatorState, period: nat, n: nat, c: Candle)
    requires period >= 1 && Counted(s, period, n) && c.bar.volume != 0.0 && c.MeanPrice() > 0.0
    ensures Counted(AddCandle(s, c), period, n + 1)
    ensures StateValue(AddCandle(s, c)).Some? <==> n + 1 >= period
  {
    hide Mean, EmaStep;
    var price := c.MeanPrice();
    if n + 1 == period {
      MeanPositive(s.ema.values + [price]);
    } else if n >= period {
      var last := s.ema.lastEMA;
      StepBounds(period, last, price, if price < last then price else last, if price < last then last else price);
    }
  }

  /** How often a candle is fed to each average: twice when both have the same name. */
  function Feeds(short: nat, long: nat): nat {
    if short == long then 2 else 1
  }

  /** The live indicators of the two strategies with averages, after a price history. */
  ghost predicate Holds(m: IndicatorMap, short: nat, long: nat, xs: seq<real>) {
    && DemaSpec(short, long) in m && EmaSpec(short) in m && EmaSpec(long) in m
    && m[DemaSpec(short, long)] == SpecState(DemaSpec(short, long), xs)
    && Counted(m[EmaSpec(short)], short, Feeds(short, long) * |xs|)
    && Counted(m[EmaSpec(long)], long, Feeds(short, long) * |xs|)
  }

  lemma SpecStep(spec: IndicatorSpec, xs: seq<real>, c: Candle)
    requires c.bar.volume != 0.0
    ensures AddCandle(SpecState(spec, xs), c) == SpecState(spec, xs + [c.MeanPrice()])
    ensures StateValue(SpecState(spec, xs + [c.MeanPrice()])) == SpecValue(spec, xs + [c.MeanPrice()])
  {
    var ys := xs + [c.MeanPrice()];
    assert ys[..|ys| - 1] == xs && ys[|ys| - 1] == c.MeanPrice();
  }

  /** Giving one more candle to the indicators of the averages. */
  lemma SeedAverages(m: IndicatorMap, short: nat, long: nat, xs: seq<real>, c: Candle)
    requires Holds(m, short, long, xs) && short >= 1 && long >= 1 && c.bar.volume != 0.0 && c.MeanPrice() > 0.0
    ensures var m1 := m[DemaSpec(short, long) := AddCandle(m[DemaSpec(short, long)], c)];
            var e1 := AddCandle(m1[EmaSpec(short)], c);
            var m2 := m1[EmaSpec(short) := e1];
            var e2 := AddCandle(m2[EmaSpec(long)], c);
            var m3 := m2[EmaSpec(long) := e2];
            var ys := xs + [c.MeanPrice()];
            && Holds(m3, short, long, ys)
            && StateValue(m1[DemaSpec(short, long)]) == SpecValue(DemaSpec(short, long), ys)
            && (StateValue(m1[DemaSpec(short, long)]).Some? && |ys| >= short && |ys| >= long ==>
                  StateValue(e1).Some? && StateValue(e2).Some?)
  {
    hide AddCandle, StateValue, SpecState, SpecValue, Counted;
    SpecStep(DemaSpec(short, long), xs, c);
    var n := Feeds(short, long) * |xs|;
    CountUp(m[EmaSpec(short)], short, n, c);
    var e1 := AddCandle(m[EmaSpec(short)], c);
    if short == long {
      CountUp(e1, long, n + 1, c);
    } else {
      CountUp(m[EmaSpec(long)], long, n, c);
    }
  }

  // ---------- live sets against computed ones ----------

  predicate GoodStrategy(s: Strategy) {
    match s
    case EMACrossover(short, long, _, _) => short >= 1 && long >= 1
    case RSIStrategy(period, _, _) => period >= 1
    case S1(short, long, _, _, _, _) => short >= 1 && long >= 1
  }

  ghost predicate IndicatorsHold(s: Strategy, m: IndicatorMap, xs: seq<real>) {
    match s
    case EMACrossover(short, long, _, _) => Holds(m, short, long, xs)
    case RSIStrategy(period, _, _) => RsiSpec(period) in m && m[RsiSpec(period)] == SpecState(RsiSpec(period), xs)
    case S1(short, long, _, _, _, _) =>
      Holds(m, short, long, xs)
      && RsiSpec(RSI_PERIOD) in m && m[RsiSpec(RSI_PERIOD)] == SpecState(RsiSpec(RSI_PERIOD), xs)
  }

  /** The values a strategy looks at are the computed ones, and the live values are all there
      exactly when the computed ones are. */
  ghost predicate SameWhereRead(s: Strategy, live: seq<Option<real>>, xs: seq<real>) {
    var computed := ValuesAt(Indicators(s), xs);
    && |live| == |computed|
    && live[0] == computed[0]
    && (s.S1? ==> live[3] == computed[3])
    && (AllSome(live) <==> AllSome(computed))
  }

  lemma SeedRsi(s: Strategy, m: IndicatorMap, xs: seq<real>, c: Candle)
    requires s.RSIStrategy? && IndicatorsHold(s, m, xs) && c.bar.volume != 0.0
    ensures var r, ys := SeedNames(Indicators(s), m, c), xs + [c.MeanPrice()];
            IndicatorsHold(s, r.0, ys) && SameWhereRead(s, r.1, ys)
  {
    var spec := RsiSpec(s.period);
    SeedCons(spec, [], m, c);
    SpecStep(spec, xs, c);
    assert Indicators(s) == [spec] + [];
  }

  lemma AveragesAllSome(short: nat, long: nat, ys: seq<real>, v: seq<Option<real>>)
    requires short >= 1 && long >= 1 && AllAbove(ys, 0.0) && |v| == 3
    requires v[0] == SpecValue(DemaSpec(short, long), ys)
    requires v[0].Some? && |ys| >= short && |ys| >= long ==> v[1].Some? && v[2].Some?
    ensures AllSome(v) <==> v[0].Some?
    ensures AllSome(ValuesAt([DemaSpec(short, long), EmaSpec(short), EmaSpec(long)], ys)) <==> v[0].Some?
  {
    ReadyIff(DemaSpec(short, long), ys);
    ReadyIff(EmaSpec(short), ys);
    ReadyIff(EmaSpec(long), ys);
    hide SpecValue;
    var w := ValuesAt([DemaSpec(short, long), EmaSpec(short), EmaSpec(long)], ys);
    assert w[0] == SpecValue(DemaSpec(short, long), ys) && w[1] == SpecValue(EmaSpec(short), ys)
        && w[2] == SpecValue(EmaSpec(long), ys);
  }

  lemma SeedCrossover(s: Strategy, m: IndicatorMap, xs: seq<real>, c: Candle)
    requires s.EMACrossover? && GoodStrategy(s) && IndicatorsHold(s, m, xs)
    requires AllAbove(xs, 0.0) && c.bar.volume != 0.0 && c.MeanPrice() > 0.0
    ensures var r, ys := SeedNames(Indicators(s), m, c), xs + [c.MeanPrice()];
            IndicatorsHold(s, r.0, ys) && SameWhereRead(s, r.1, ys)
  {
    hide AddCandle, StateValue, SpecState, SpecValue, Counted;
    var d, e, f := DemaSpec(s.short, s.long), EmaSpec(s.short), EmaSpec(s.long);
    SeedAverages(m, s.short, s.long, xs, c);
    var m1 := m[d := AddCandle(m[d], c)];
    var m2 := m1[e := AddCandle(m1[e], c)];
    var m3 := m2[f := AddCandle(m2[f], c)];
    SeedCons(d, [e] + ([f] + []), m, c);
    SeedCons(e, [f] + [], m1, c);
    SeedCons(f, [], m2, c);
    assert Indicators(s) == [d] + ([e] + ([f] + []));
    hide Holds;
    var v := SeedNames(Indicators(s), m, c).1;
    assert v == [StateValue(m1[d]), StateValue(m2[e]), StateValue(m3[f])];
    AveragesAllSome(s.short, s.long, xs + [c.MeanPrice()], v);
  }

  lemma SeedS1(s: Strategy, m: IndicatorMap, xs: seq<real>, c: Candle)
    requires s.S1? && GoodStrategy(s) && IndicatorsHold(s, m, xs)
    requires AllAbove(xs, 0.0) && c.bar.volume != 0.0 && c.MeanPrice() > 0.0
    ensures var r, ys := SeedNames(Indicators(s), m, c), xs + [c.MeanPrice()];
            IndicatorsHold(s, r.0, ys) && SameWhereRead(s, r.1, ys)
  {
    hide AddCandle, StateValue, SpecState, SpecValue, Counted;
    var d, e, f, g := DemaSpec(s.short, s.long), EmaSpec(s.short), EmaSpec(s.long), RsiSpec(RSI_PERIOD);
    var ys := xs + [c.MeanPrice()];
    SeedAverages(m, s.short, s.long, xs, c);
    SpecStep(g, xs, c);
    var m1 := m[d := AddCandle(m[d], c)];
    var m2 := m1[e := AddCandle(m1[e], c)];
    var m3 := m2[f := AddCandle(m2[f], c)];
    var m4 := m3[g := AddCandle(m3[g], c)];
    SeedCons(d, [e] + ([f] + ([g] + [])), m, c);
    SeedCons(e, [f] + ([g] + []), m1, c);
    SeedCons(f, [g] + [], m2, c);
    SeedCons(g, [], m3, c);
    assert Indicators(s) == [d] + ([e] + ([f] + ([g] + [])));
    var v := SeedNames(Indicators(s), m, c).1;
    assert v == [StateValue(m1[d]), StateValue(m2[e]), StateValue(m3[f]), StateValue(m4[g])];
    assert Holds(m4, s.short, s.long, ys);
    hide Holds;
    AveragesAllSome(s.short, s.long, ys, v[..3]);
    assert v == v[..3] + [v[3]];
    assert ValuesAt(Indicators(s), ys) == ValuesAt([d, e, f], ys) + [SpecValue(g, ys)];
    AllSomeSnoc(v[..3], v[3]);
    AllSomeSnoc(ValuesAt([d, e, f], ys), SpecValue(g, ys));
  }

  lemma AllSomeSnoc(vs: seq<Option<real>>, v: Option<real>)
    ensures AllSome(vs + [v]) <==> AllSome(vs) && v.Some?
  {
    assert (vs + [v])[|vs|] == v;
    assert forall i :: 0 <= i < |vs| ==> (vs + [v])[i] == vs[i];
  }

  lemma MeanPricesSnoc(ts: seq<Candle>)
    requires ts != []
    ensures MeanPrices(ts) == MeanPrices(ts[..|ts| - 1]) + [ts[|ts| - 1].MeanPrice()]
  {
  }

  // ---------- untraded candles ----------

  function CurrentValues(names: seq<IndicatorSpec>, m: IndicatorMap): (vs: seq<Option<real>>)
    requires forall i :: 0 <= i < |names| ==> names[i] in m
    ensures |vs| == |names| && forall i :: 0 <= i < |names| ==> vs[i] == StateValue(m[names[i]])
  {
    seq(|names|, i requires 0 <= i < |names| => StateValue(m[names[i]]))
  }

  /** An untraded candle changes no indicator, and repeats the current values. */
  lemma {:induction false} SeedUntraded(names: seq<IndicatorSpec>, m: IndicatorMap, c: Candle)
    requires c.bar.volume == 0.0 && forall i :: 0 <= i < |names| ==> names[i] in m
    ensures SeedNames(names, m, c) == (m, CurrentValues(names, m))
    decreases |names|
  {
    hide StateValue;
    if names != [] {
      assert m[names[0] := AddCandle(m[names[0]], c)] == m;
      SeedUntraded(names[1..], m, c);
      assert CurrentValues(names, m) == [StateValue(m[names[0]])] + CurrentValues(names[1..], m);
    }
  }

  lemma RepeatedAverages(m: IndicatorMap, short: nat, long: nat, xs: seq<real>)
    requires short >= 1 && long >= 1 && AllAbove(xs, 0.0) && Holds(m, short, long, xs)
    ensures var v := CurrentValues([DemaSpec(short, long), EmaSpec(short), EmaSpec(long)], m);
            && v[0] == SpecValue(DemaSpec(short, long), xs)
            && (AllSome(v) <==> AllSome(ValuesAt([DemaSpec(short, long), EmaSpec(short), EmaSpec(long)], xs)))
  {
    var v := CurrentValues([DemaSpec(short, long), EmaSpec(short), EmaSpec(long)], m);
    assert v[0] == StateValue(m[DemaSpec(short, long)]) && v[1] == StateValue(m[EmaSpec(short)])
        && v[2] == StateValue(m[EmaSpec(long)]);
    SpecOfState(DemaSpec(short, long), xs);
    AveragesAllSome(short, long, xs, v);
  }

  lemma SpecOfState(spec: IndicatorSpec, xs: seq<real>)
    ensures StateValue(SpecState(spec, xs)) == SpecValue(spec, xs)
  {
  }

  lemma RepeatedSet(s: Strategy, m: IndicatorMap, xs: seq<real>)
    requires GoodStrategy(s) && IndicatorsHold(s, m, xs) && AllAbove(xs, 0.0)
    requires forall i :: 0 <= i < |Indicators(s)| ==> Indicators(s)[i] in m
    ensures SameWhereRead(s, CurrentValues(Indicators(s), m), xs)
  {
    hide StateValue, SpecState, SpecValue, Holds;
    var v := CurrentValues(Indicators(s), m);
    var computed := ValuesAt(Indicators(s), xs);
    match s
    case RSIStrategy(period, _, _) =>
      SpecOfState(RsiSpec(period), xs);
      assert v == [StateValue(m[Indicators(s)[0]])] == computed;
    case EMACrossover(short, long, _, _) =>
      RepeatedAverages(m, short, long, xs);
      assert v[0] == computed[0];
    case S1(short, long, _, _, _, _) =>
      RepeatedAverages(m, short, long, xs);
      RepeatedS1(s, m, xs);
      assert v[0] == computed[0] && v[3] == computed[3];
  }

  lemma RepeatedS1(s: Strategy, m: IndicatorMap, xs: seq<real>)
    requires s.S1? && IndicatorsHold(s, m, xs)
    requires forall i :: 0 <= i < |Indicators(s)| ==> Indicators(s)[i] in m
    ensures var averages := [DemaSpec(s.short, s.long), EmaSpec(s.short), EmaSpec(s.long)];
            var v, last := CurrentValues(Indicators(s), m), SpecValue(RsiSpec(RSI_PERIOD), xs);
            && (forall i :: 0 <= i < |averages| ==> averages[i] in m)
            && v == CurrentValues(averages, m) + [last]
            && ValuesAt(Indicators(s), xs) == ValuesAt(averages, xs) + [last]
            && (AllSome(v) <==> AllSome(CurrentValues(averages, m)) && last.Some?)
            && (AllSome(ValuesAt(Indicators(s), xs)) <==> AllSome(ValuesAt(averages, xs)) && last.Some?)
  {
    hide StateValue, SpecState, SpecValue, Holds;
    var averages := [DemaSpec(s.short, s.long), EmaSpec(s.short), EmaSpec(s.long)];
    var last := SpecValue(RsiSpec(RSI_PERIOD), xs);
    assert Indicators(s) == averages + [RsiSpec(RSI_PERIOD)];
    forall i | 0 <= i < |averages| ensures averages[i] in m {
      assert Indicators(s)[i] == averages[i];
    }
    SpecOfState(RsiSpec(RSI_PERIOD), xs);
    assert CurrentValues(Indicators(s), m) == CurrentValues(averages, m) + [last];
    assert ValuesAt(Indicators(s), xs) == ValuesAt(averages, xs) + [last];
    AllSomeSnoc(CurrentValues(averages, m), last);
    AllSomeSnoc(ValuesAt(averages, xs), last);
  }

  // ---------- every history ----------

  lemma PositivePrefix(ts: seq<Candle>, us: seq<Candle>)
    requires PositivePrices(ts) && us <= ts
    ensures PositivePrices(us)
  {
  }

  lemma SeedTraded(s: Strategy, m: IndicatorMap, xs: seq<real>, c: Candle)
    requires GoodStrategy(s) && IndicatorsHold(s, m, xs) && AllAbove(xs, 0.0)
    requires c.bar.volume != 0.0 && c.MeanPrice() > 0.0
    requires forall i :: 0 <= i < |Indicators(s)| ==> Indicators(s)[i] in m
    ensures var r, ys := SeedNames(Indicators(s), m, c), xs + [c.MeanPrice()];
            IndicatorsHold(s, r.0, ys) && SameWhereRead(s, r.1, ys)
  {
    hide SeedNames, IndicatorsHold, SameWhereRead;
    match s {
      case EMACrossover(_, _, _, _) => SeedCrossover(s, m, xs, c);
      case RSIStrategy(_, _, _) => SeedRsi(s, m, xs, c);
      case S1(_, _, _, _, _, _) => SeedS1(s, m, xs, c);
    }
  }

  lemma SeedAny(s: Strategy, m: IndicatorMap, xs: seq<real>, c: Candle)
    requires GoodStrategy(s) && IndicatorsHold(s, m, xs) && AllAbove(xs, 0.0)
    requires c.bar.volume == 0.0 || c.MeanPrice() > 0.0
    requires forall i :: 0 <= i < |Indicators(s)| ==> Indicators(s)[i] in m
    ensures var r, ys := SeedNames(Indicators(s), m, c), if c.bar.volume == 0.0 then xs else xs + [c.MeanPrice()];
            IndicatorsHold(s, r.0, ys) && SameWhereRead(s, r.1, ys)
  {
    hide SeedNames, IndicatorsHold, SameWhereRead;
    if c.bar.volume == 0.0 {
      SeedUntraded(Indicators(s), m, c);
      RepeatedSet(s, m, xs);
    } else {
      SeedTraded(s, m, xs, c);
    }
  }

  lemma PricesGrow(cs: seq<Candle>)
    requires cs != [] && PositivePrices(NonEmpty(cs))
    ensures var front, c := cs[..|cs| - 1], cs[|cs| - 1];
            && PositivePrices(NonEmpty(front)) && AllAbove(MeanPrices(NonEmpty(front)), 0.0)
            && (c.bar.volume == 0.0 || c.MeanPrice() > 0.0)
            && MeanPrices(NonEmpty(cs)) == if c.bar.volume == 0.0 then MeanPrices(NonEmpty(front))
                                           else MeanPrices(NonEmpty(front)) + [c.MeanPrice()]
  {
    var front, c := cs[..|cs| - 1], cs[|cs| - 1];
    if c.bar.volume != 0.0 {
      assert NonEmpty(cs)[|NonEmpty(cs)| - 1] == c;
      assert NonEmpty(cs)[..|NonEmpty(cs)| - 1] == NonEmpty(front);
      MeanPricesSnoc(NonEmpty(cs));
    }
    PositivePrefix(NonEmpty(cs), NonEmpty(front));
    PricesPositive(NonEmpty(front));
  }

  /** After every history, untraded candles and equal average periods included. */
  lemma {:induction false} LiveSetsAgree(s: Strategy, cs: seq<Candle>)
    requires GoodStrategy(s) && PositivePrices(NonEmpty(cs))
    ensures var t, xs := Seeded(Indicators(s), cs), MeanPrices(NonEmpty(cs));
            && IndicatorsHold(s, t.indicators, xs)
            && (cs != [] ==> SameWhereRead(s, t.sets[|cs| - 1].values, xs))
  {
    hide SeedNames, IndicatorsHold, SameWhereRead, AllAbove, MeanPrices, PositivePrices, GoodStrategy;
    if cs == [] {
      StartHolds(s);
    } else {
      hide NonEmpty;
      var front := cs[..|cs| - 1];
      PricesGrow(cs);
      LiveSetsAgree(s, front);
      SeedAny(s, Seeded(Indicators(s), front).indicators, MeanPrices(NonEmpty(front)), cs[|cs| - 1]);
    }
  }

  lemma StartHolds(s: Strategy)
    requires GoodStrategy(s)
    ensures IndicatorsHold(s, Seeded(Indicators(s), []).indicators, MeanPrices([]))
  {
    var m := NewIndicators(Indicators(s));
    assert MeanPrices([]) == [];
    match s {
      case RSIStrategy(period, _, _) => assert Indicators(s)[0] == RsiSpec(period);
      case EMACrossover(short, long, _, _) =>
        assert Indicators(s)[..3] == [DemaSpec(short, long), EmaSpec(short), EmaSpec(long)];
      case S1(short, long, _, _, _, _) =>
        assert Indicators(s)[..3] == [DemaSpec(short, long), EmaSpec(short), EmaSpec(long)];
        assert Indicators(s)[3] == RsiSpec(RSI_PERIOD);
    }
  }

  lemma {:induction false} SeededPrefix(names: seq<IndicatorSpec>, cs: seq<Candle>, n: nat)
    requires n <= |cs|
    ensures Seeded(names, cs[..n]).sets == Seeded(names, cs).sets[..n]
  {
    hide SeedNames;
    if n < |cs| {
      SeededPrefix(names, cs[..|cs| - 1], n);
      assert cs[..|cs| - 1][..n] == cs[..n];
    } else {
      assert cs[..n] == cs;
    }
  }

  /** The prices a trader has seen once it is seeded with the j-th candle. */
  function SeenAt(cs: seq<Candle>, j: nat): seq<real>
    requires j < |cs|
  {
    MeanPrices(NonEmpty(cs[..j + 1]))
  }

  lemma SeenIsPrefix(cs: seq<Candle>, j: nat)
    requires j < |cs|
    ensures var n, ts := |SeenAt(cs, j)|, NonEmpty(cs);
            n <= |ts| && NonEmpty(cs[..j + 1]) == ts[..n]
    ensures cs[j].bar.volume != 0.0 ==> |SeenAt(cs, j)| == |NonEmpty(cs[..j])| + 1
  {
    NonEmptyPrefix(cs, j + 1);
    assert cs[..j + 1][..j] == cs[..j];
  }

  lemma SeenGrows(cs: seq<Candle>, j: nat)
    requires j < |cs| && cs[j].bar.volume != 0.0
    ensures |SeenAt(cs, j)| == if j == 0 then 1 else |SeenAt(cs, j - 1)| + 1
  {
    SeenIsPrefix(cs, j);
  }

  /** The live set after the j-th candle. */
  lemma {:induction false} LiveSetAt(s: Strategy, cs: seq<Candle>, j: nat)
    requires GoodStrategy(s) && PositivePrices(NonEmpty(cs)) && j < |cs|
    ensures SameWhereRead(s, Seeded(Indicators(s), cs).sets[j].values, SeenAt(cs, j))
  {
    SeededPrefix(Indicators(s), cs, j + 1);
    SeenIsPrefix(cs, j);
    PositivePrefix(NonEmpty(cs), NonEmpty(cs[..j + 1]));
    hide SameWhereRead, Seeded, PositivePrices, NonEmpty;
    LiveSetsAgree(s, cs[..j + 1]);
  }

  // ---------- agreement ----------

  lemma StrategyPeriods(s: Strategy)
    requires GoodStrategy(s)
    ensures Indicators(s) != [] && GoodPeriods(Indicators(s))
  {
  }

  lemma {:induction false} ReadAlike(s: Strategy, live: IndicatorSet, computed: IndicatorSet, xs: seq<real>)
    requires SameWhereRead(s, live.values, xs) && computed.values == ValuesAt(Indicators(s), xs)
    requires AllSome(computed.values)
    ensures Alike(s, live, computed)
  {
    hide ValuesAt;
    assert |computed.values| == |Indicators(s)| > 0;
  }

  /** Whether S1, at the first complete set, has a previous set it can read as far as it needs. */
  predicate PreviousReadable(s: Strategy, live: seq<IndicatorSet>, j: nat)
    requires s.S1? && 1 <= j <= |live|
  {
    var v := live[j - 1].values;
    |v| == 4 && v[0].Some? && v[0].value < s.up
  }

  /** How many of the traded candles' sets a backtest drops. */
  function Dropped(s: Strategy, ts: seq<Candle>): int {
    |ts| - |CompleteSets(Indicators(s), ts).sets|
  }

  lemma ComputedAt(s: Strategy, ts: seq<Candle>, j: nat)
    requires GoodStrategy(s) && PositivePrices(ts) && j < |ts|
    ensures AllSome(ValuesAt(Indicators(s), MeanPrices(ts[..j + 1]))) <==> j >= Dropped(s, ts)
    ensures j >= Dropped(s, ts) ==>
              && 0 <= j - Dropped(s, ts) < |CompleteSets(Indicators(s), ts).sets|
              && CompleteSets(Indicators(s), ts).sets[j - Dropped(s, ts)] == SetAfter(Indicators(s), ts[..j + 1])
    ensures Dropped(s, ts) >= 0
  {
    StrategyPeriods(s);
    DroppedSetsAreInitial(Indicators(s), ts);
    PricesPositive(ts[..j + 1]);
    CompleteIff(Indicators(s), MeanPrices(ts[..j + 1]));
    hide ValuesAt, AllSome, MostNeeded, SetAfter, GoodStrategy;
    var r := CompleteSets(Indicators(s), ts);
    if j >= Dropped(s, ts) {
      var i := j - Dropped(s, ts);
      assert r.sets[i] == SetAfter(Indicators(s), ts[..|ts| - |r.sets| + i + 1]);
    }
  }

  /** From the first complete set on, the live set is the computed one where it is read. */
  lemma AlikeAt(s: Strategy, cs: seq<Candle>, j: nat)
    requires GoodStrategy(s) && PositivePrices(NonEmpty(cs)) && j < |cs|
    requires |SeenAt(cs, j)| > Dropped(s, NonEmpty(cs)) && |SeenAt(cs, j)| >= 1
    ensures var i := |SeenAt(cs, j)| - 1 - Dropped(s, NonEmpty(cs));
            && 0 <= Dropped(s, NonEmpty(cs)) && 0 <= i < |CompleteSets(Indicators(s), NonEmpty(cs)).sets|
            && Alike(s, Seeded(Indicators(s), cs).sets[j], CompleteSets(Indicators(s), NonEmpty(cs)).sets[i])
  {
    hide SameWhereRead, Alike, ValuesAt, AllSome, Seeded, CompleteSets, Dropped, NonEmpty, PositivePrices, GoodStrategy;
    var ts, n := NonEmpty(cs), |SeenAt(cs, j)|;
    SeenIsPrefix(cs, j);
    ComputedAt(s, ts, n - 1);
    LiveSetAt(s, cs, j);
    assert SeenAt(cs, j) == MeanPrices(ts[..n]);
    hide MeanPrices, SeenAt;
    ReadAlike(s, Seeded(Indicators(s), cs).sets[j], SetAfter(Indicators(s), ts[..n]), SeenAt(cs, j));
  }

  lemma NeedsSome(s: Strategy)
    requires GoodStrategy(s)
    ensures MostNeeded(Indicators(s)) >= 1
  {
    assert Needed(Indicators(s)[0]) >= 1;
  }

  /** Before the first complete set the latest live set fails validation. */
  lemma {:induction false} IncompleteAt(s: Strategy, cs: seq<Candle>, j: nat)
    requires GoodStrategy(s) && PositivePrices(NonEmpty(cs)) && j < |cs|
    requires |SeenAt(cs, j)| <= Dropped(s, NonEmpty(cs)) || |SeenAt(cs, j)| == 0
    ensures !AllSome(Seeded(Indicators(s), cs).sets[j].values)
  {
    hide Seeded, CompleteSets, Dropped, NonEmpty, PositivePrices, GoodStrategy, ValuesAt, AllSome, MostNeeded;
    var ts, n := NonEmpty(cs), |SeenAt(cs, j)|;
    SeenIsPrefix(cs, j);
    LiveSetAt(s, cs, j);
    if n == 0 {
      assert SeenAt(cs, j) == [];
      NeedsSome(s);
      StrategyPeriods(s);
      CompleteIff(Indicators(s), []);
    } else {
      ComputedAt(s, ts, n - 1);
    }
  }

  /** S1's RSI alone needs 15 candles, so its first complete set always has one before it. */
  lemma S1DropsSome(s: Strategy, ts: seq<Candle>)
    requires s.S1? && GoodStrategy(s) && PositivePrices(ts) && ts != []
    ensures Dropped(s, ts) >= 1
  {
    ComputedAt(s, ts, 0);
    PricesPositive(ts[..1]);
    ReadyIff(RsiSpec(RSI_PERIOD), MeanPrices(ts[..1]));
    assert Indicators(s)[3] == RsiSpec(RSI_PERIOD);
    assert ValuesAt(Indicators(s), MeanPrices(ts[..1]))[3] == SpecValue(RsiSpec(RSI_PERIOD), MeanPrices(ts[..1]));
  }

  /** S1's values are all there once its averages and its RSI are. */
  lemma S1LacksRsi(s: Strategy, ys: seq<real>)
    requires s.S1? && GoodStrategy(s) && AllAbove(ys, 0.0)
    ensures var w := ValuesAt(Indicators(s), ys);
            |w| == 4 && (w[0].Some? && !AllSome(w) ==> w[3].None?)
  {
    ReadyIff(DemaSpec(s.short, s.long), ys);
    ReadyIff(EmaSpec(s.short), ys);
    ReadyIff(EmaSpec(s.long), ys);
    hide SpecValue;
    var w := ValuesAt(Indicators(s), ys);
    assert w[0] == SpecValue(DemaSpec(s.short, s.long), ys) && w[1] == SpecValue(EmaSpec(s.short), ys)
        && w[2] == SpecValue(EmaSpec(s.long), ys);
  }

  /** If the set before the first complete one has its averages, it lacks its RSI. */
  lemma {:induction false} PreviousLacks(s: Strategy, cs: seq<Candle>, j: nat)
    requires s.S1? && GoodStrategy(s) && PositivePrices(NonEmpty(cs)) && j < |cs|
    requires 1 <= |SeenAt(cs, j)| == Dropped(s, NonEmpty(cs))
    ensures var v := Seeded(Indicators(s), cs).sets[j].values;
            |v| == 4 && (v[0].Some? ==> v[3].None?)
  {
    var ts, n := NonEmpty(cs), |SeenAt(cs, j)|;
    SeenIsPrefix(cs, j);
    ComputedAt(s, ts, n - 1);
    LiveSetAt(s, cs, j);
    PricesPositive(ts[..n]);
    S1LacksRsi(s, SeenAt(cs, j));
    hide Seeded, CompleteSets, Dropped, ValuesAt, AllSome, MeanPrices, NonEmpty;
  }

  /** The one tick at which the live trader reads a set the backtest does not have. */
  predicate FirstS1Buy(s: Strategy, m: Model, cs: seq<Candle>, j: nat)
    requires j < |cs|
  {
    s.S1? && m.state == TryingToBuy && |SeenAt(cs, j)| == Dropped(s, NonEmpty(cs)) + 1
  }

  /** Seeded candle by candle with any candles, the live trader lacks data until it has seen as
      many traded ones as the first complete set needs. */
  lemma {:induction false} LiveLacksData(s: Strategy, cs: seq<Candle>, j: nat, m: Model, e: Environment)
    requires GoodStrategy(s) && PositivePrices(NonEmpty(cs)) && j < |cs| && m.state != UnknownState
    requires |SeenAt(cs, j)| <= Dropped(s, NonEmpty(cs)) || |SeenAt(cs, j)| == 0
    ensures var live := Seeded(Indicators(s), cs[..j + 1]).sets;
            |live| == j + 1 && ProcessTick(s, live, j, m, e) == Trading.Unchanged(m, NotEnough)
  {
    var live := Seeded(Indicators(s), cs[..j + 1]).sets;
    SeededPrefix(Indicators(s), cs, j + 1);
    IncompleteAt(s, cs, j);
    LackingTick(s, live, j, m, e);
  }

  /** For every strategy and every history, with untraded candles and equal average periods too:
      from the first complete set on, the live trader does at each traded candle what the backtest
      does there with the same model and answers, except that S1 at its first complete set, trying
      to buy, dereferences a missing value instead, exactly unless the set before has its averages
      and their difference is below the up threshold. */
  lemma {:induction false} LiveAgrees(s: Strategy, cs: seq<Candle>, j: nat, m: Model, e: Environment)
    requires GoodStrategy(s) && PositivePrices(NonEmpty(cs)) && m.state != UnknownState
    requires j < |cs| && cs[j].bar.volume != 0.0 && |SeenAt(cs, j)| > Dropped(s, NonEmpty(cs))
    ensures var live, r := Seeded(Indicators(s), cs[..j + 1]).sets, CompleteSets(Indicators(s), NonEmpty(cs)).sets;
            var tick, i := ProcessTick(s, live, j, m, e), |SeenAt(cs, j)| - 1 - Dropped(s, NonEmpty(cs));
            && |live| == j + 1 && 0 <= i < |r|
            && (if FirstS1Buy(s, m, cs, j) && !(j >= 1 && PreviousReadable(s, live, j))
                then tick.error == Panicked && ProcessTick(s, r, i, m, e).error != Panicked
                else tick == ProcessTick(s, r, i, m, e))
  {
    hide Seeded, CompleteSets, GoodStrategy, PositivePrices, ProcessTick, Alike, EachComplete, PreviousReadable;
    hide Dropped, NonEmpty, MeanPrices;
    var ts := NonEmpty(cs);
    SeenIsPrefix(cs, j);
    SeenGrows(cs, j);
    hide SeenAt;
    var all, live := Seeded(Indicators(s), cs).sets, Seeded(Indicators(s), cs[..j + 1]).sets;
    var r := CompleteSets(Indicators(s), ts).sets;
    SeededPrefix(Indicators(s), cs, j + 1);
    assert live == all[..j + 1];
    var n, k := |SeenAt(cs, j)|, Dropped(s, ts);
    AllComplete(Indicators(s), ts);
    AlikeAt(s, cs, j);
    if s.S1? { S1DropsSome(s, ts); }
    if n == k + 1 && s.S1? {
      PreviousLacks(s, cs, j - 1);
      FirstTick(s, live, j, r, m, e);
    } else {
      if n > k + 1 { AlikeAt(s, cs, j - 1); }
      SameTick(s, live, j, r, n - 1 - k, m, e);
    }
  }

  // ---------- ticks at untraded candles ----------

  lemma SeenRepeats(cs: seq<Candle>, j: nat)
    requires j < |cs| && cs[j].bar.volume == 0.0
    ensures SeenAt(cs, j) == if j == 0 then [] else SeenAt(cs, j - 1)
  {
    assert cs[..j + 1][..j] == cs[..j];
    assert NonEmpty(cs[..j + 1]) == NonEmpty(cs[..j]);
    if j == 0 {
      assert NonEmpty(cs[..j]) == [];
      assert MeanPrices([]) == [];
    }
  }

  lemma DroppedSome(s: Strategy, ts: seq<Candle>)
    requires GoodStrategy(s) && PositivePrices(ts)
    ensures Dropped(s, ts) >= 0
  {
    StrategyPeriods(s);
    DroppedSetsAreInitial(Indicators(s), ts);
  }

  /** At an untraded candle the live set repeats the last computed one: the trader ticks as it would
      at the last traded candle, except that S1 takes the last set for the one before, too. */
  lemma {:induction false} LiveRepeats(s: Strategy, cs: seq<Candle>, j: nat, m: Model, e: Environment)
    requires GoodStrategy(s) && PositivePrices(NonEmpty(cs)) && m.state != UnknownState
    requires j < |cs| && cs[j].bar.volume == 0.0 && |SeenAt(cs, j)| > Dropped(s, NonEmpty(cs))
    ensures var live, r := Seeded(Indicators(s), cs[..j + 1]).sets, CompleteSets(Indicators(s), NonEmpty(cs)).sets;
            var tick, i := ProcessTick(s, live, j, m, e), |SeenAt(cs, j)| - 1 - Dropped(s, NonEmpty(cs));
            && |live| == j + 1 && 0 <= i < |r|
            && tick == ProcessTick(s, [r[i], r[i]], 1, m, e)
            && (!s.S1? ==> tick == ProcessTick(s, r, i, m, e))
  {
    hide Seeded, CompleteSets, GoodStrategy, PositivePrices, ProcessTick, Alike, EachComplete, Dropped, NonEmpty;
    var ts := NonEmpty(cs);
    SeenRepeats(cs, j);
    DroppedSome(s, ts);
    hide SeenAt;
    var all, live := Seeded(Indicators(s), cs).sets, Seeded(Indicators(s), cs[..j + 1]).sets;
    var r := CompleteSets(Indicators(s), ts).sets;
    SeededPrefix(Indicators(s), cs, j + 1);
    assert live == all[..j + 1];
    AllComplete(Indicators(s), ts);
    AlikeAt(s, cs, j);
    AlikeAt(s, cs, j - 1);
    var i := |SeenAt(cs, j)| - 1 - Dropped(s, ts);
    TwiceComplete(r, i, |Indicators(s)|);
    SameTick(s, live, j, [r[i], r[i]], 1, m, e);
    if !s.S1? {
      SameTick(s, live, j, r, i, m, e);
    }
  }

  lemma TwiceComplete(r: seq<IndicatorSet>, i: nat, n: nat)
    requires EachComplete(r, n) && i < |r|
    ensures EachComplete([r[i], r[i]], n)
  {
  }

  /** S1 repeats its sell decision; its buy decision changes exactly when it would enter and the last
      set and the one before differ in what they say of re-entering. */
  lemma RepeatedDecisions(s: Strategy, r: seq<IndicatorSet>, i: nat)
    requires s.S1? && EachComplete(r, 4) && 1 <= i < |r|
    ensures var p := [r[i], r[i]];
            && Sell(s, p, 1) == Sell(s, r, i)
            && (Buy(s, p, 1) == Buy(s, r, i) <==>
                  || S1Buys(s, r[i].values) == Decided(false)
                  || Reentering(r[i - 1].values, s.up, s.rsiExit) == Reentering(r[i].values, s.up, s.rsiExit))
  {
    assert Complete(r[i]) && Complete(r[i - 1]);
  }

  lemma LackingTick(s: Strategy, h: seq<IndicatorSet>, i: nat, m: Model, e: Environment)
    requires |h| == i + 1 && !AllSome(h[i].values) && m.state != UnknownState
    ensures ProcessTick(s, h, i, m, e) == Trading.Unchanged(m, NotEnough)
  {
    assert !Complete(h[i]);
  }

  lemma SameTick(s: Strategy, h: seq<IndicatorSet>, i: nat, g: seq<IndicatorSet>, j: nat,
                 m: Model, e: Environment)
    requires |h| == i + 1 && j < |g| && Alike(s, h[i], g[j]) && EachComplete(g, |Indicators(s)|)
    requires s.S1? ==> i >= 1 && j >= 1 && Alike(s, h[i - 1], g[j - 1])
    ensures ProcessTick(s, h, i, m, e) == ProcessTick(s, g, j, m, e)
  {
    DecisionsAlike(s, h, i, g, j);
    assert Valid(i, h) && Valid(j, g);
    hide Buy, Sell;
  }

  lemma FirstTick(s: Strategy, h: seq<IndicatorSet>, i: nat, g: seq<IndicatorSet>, m: Model,
                  e: Environment)
    requires s.S1? && |h| == i + 1 >= 2 && |g| >= 1 && Alike(s, h[i], g[0]) && EachComplete(g, |Indicators(s)|)
    requires |h[i - 1].values| == 4 && (h[i - 1].values[0].Some? ==> h[i - 1].values[3].None?)
    requires m.state != UnknownState
    ensures if m.state == TryingToBuy && !PreviousReadable(s, h, i)
            then ProcessTick(s, h, i, m, e).error == Panicked && ProcessTick(s, g, 0, m, e).error != Panicked
            else ProcessTick(s, h, i, m, e) == ProcessTick(s, g, 0, m, e)
  {
    assert Valid(i, h) && Valid(0, g);
    hide ProcessBuy, ProcessSell;
    NeverPanics(m, e);
  }

  lemma NeverPanics(m: Model, e: Environment)
    ensures ProcessBuy(m, e).error != Panicked && ProcessSell(m, e).error != Panicked
  {
  }

  // ---------- the exception is reachable ----------

  lemma {:induction false} AllTraded(cs: seq<Candle>)
    requires forall i :: 0 <= i < |cs| ==> cs[i].bar.volume != 0.0
    ensures NonEmpty(cs) == cs
  {
    if cs != [] {
      AllTraded(cs[..|cs| - 1]);
    }
  }

  const FLAT := Candle(0, 0, Bar(1.0, 1.0, 1.0, 1.0, 1.0), Up, "BTC-USD")

  const STEADY := S1(1, 1, 0.0, 0.0, 60.0, 40.0)

  lemma SteadyNeeds()
    ensures MostNeeded(Indicators(STEADY)) == 15
  {
    var rsi, average := RsiSpec(RSI_PERIOD), EmaSpec(1);
    assert [rsi][1..] == [];
    assert MostNeeded([rsi]) == 15;
    assert [average, rsi][1..] == [rsi];
    assert MostNeeded([average, rsi]) == 15;
    assert [average, average, rsi][1..] == [average, rsi];
    assert MostNeeded([average, average, rsi]) == 15;
    assert Indicators(STEADY)[1..] == [average, average, rsi];
  }

  /** After 15 candles at one price, live S1 dereferences a missing value. */
  lemma SteadyPanics(m: Model, e: Environment)
    requires m.state == TryingToBuy
    ensures var cs := seq(15, _ => FLAT);
            ProcessTick(STEADY, Seeded(Indicators(STEADY), cs).sets, 14, m, e).error == Panicked
  {
    var cs := seq(15, _ => FLAT);
    AllTraded(cs);
    AllTraded(cs[..14]);
    assert cs[..15] == cs && SeenAt(cs, 14) == MeanPrices(cs) && SeenAt(cs, 13) == MeanPrices(cs[..14]);
    hide NonEmpty, Seeded, ProcessTick;
    StrategyPeriods(STEADY);
    SteadyNeeds();
    DroppedSetsAreInitial(Indicators(STEADY), cs);
    LiveSetAt(STEADY, cs, 13);
    hide CompleteSets, MostNeeded;
    SteadyDifference(cs[..14]);
    LiveAgrees(STEADY, cs, 14, m, e);
    SeededPrefix(Indicators(STEADY), cs, 14);
  }

  /** Averages of equal period never differ. */
  lemma SteadyDifference(ts: seq<Candle>)
    ensures var v := ValuesAt(Indicators(STEADY), MeanPrices(ts))[0]; v.Some? ==> v.value == 0.0
  {
    var xs := MeanPrices(ts);
    assert ValuesAt(Indicators(STEADY), xs)[0] == SpecValue(DemaSpec(1, 1), xs);
    DemaFoldSplits(1, 1, xs);
  }
}
