/** From trades to stored minute candles to n-minute candles, end to end. */
module EndToEnd {
  import opened Grid
  import opened Candlesticks
  import opened Reprojection
  import opened Coarsening
  import opened Composition
  import opened RealtimeImport

  /** The rows of a candlestick query: those of the product within the time range, ascending. */
  ghost predicate Rows(cs: seq<Candle>, store: Store, product: Product, from: int, to: int) {
    && (forall i, j :: 0 <= i < j < |cs| ==> cs[i].start < cs[j].start)
    && (forall i :: 0 <= i < |cs| ==>
          && (cs[i].start, product) in store && store[(cs[i].start, product)] == cs[i]
          && from <= cs[i].start && cs[i].end <= to)
    && (forall m {:trigger (m, product) in store} ::
          (m, product) in store && from <= store[(m, product)].start && store[(m, product)].end <= to ==>
            exists i :: 0 <= i < |cs| && cs[i] == store[(m, product)])
  }

  /** Nothing of the product is stored within the time range. */
  ghost predicate NothingStored(store: Store, product: Product, from: int, to: int) {
    forall key {:trigger key in store} :: key in store && key.1 == product ==>
      !(from <= store[key].start && store[key].end <= to)
  }

  predicate GoodTrades(msgs: seq<ExchangeMessage>, product: Product) {
    forall i :: 0 <= i < |msgs| && IsTrade(product, msgs[i]) ==> msgs[i].price > 0.0 && msgs[i].size > 0.0
  }

  lemma {:induction false} TradesOrdered(msgs: seq<ExchangeMessage>, product: Product)
    requires forall i, j :: 0 <= i < j < |msgs| ==> msgs[i].time <= msgs[j].time
    requires GoodTrades(msgs, product)
    ensures Ascending(Trades(msgs, product)) && PrintsPositive(Trades(msgs, product))
    ensures forall i :: 0 <= i < |Trades(msgs, product)| ==> Trades(msgs, product)[i].bar.volume > 0.0
    ensures forall i :: 0 <= i < |Trades(msgs, product)| ==> Trades(msgs, product)[i].at <= msgs[|msgs| - 1].time
  {
    if msgs != [] {
      TradesOrdered(msgs[..|msgs| - 1], product);
      var rest := Trades(msgs[..|msgs| - 1], product);
      if |msgs| > 1 {
        assert msgs[|msgs| - 2].time <= msgs[|msgs| - 1].time;
      }
    }
  }

  /** With positive trades a minute has volume exactly when it has trades, and then positive prices. */
  lemma MinuteTraded(s: State, m: int)
    requires HistoryOrdered(s) && GoodTrades(s.processed, s.product)
    ensures var bar := FoldBars(MinuteTrades(s, m));
            if MinuteTrades(s, m) == [] then bar.volume == 0.0 else bar.volume > 0.0 && Positive(bar)
  {
    var ts := Trades(s.processed, s.product);
    TradesOrdered(s.processed, s.product);
    TradedVolume(ts, m, m + MINUTE);
    FoldVolume(MinuteTrades(s, m));
    BarsWithinPositive(ts, m, m + MINUTE);
    if MinuteTrades(s, m) != [] {
      FoldSummarises(MinuteTrades(s, m));
    }
  }

  /** What is stored within a range that was empty before is the candle of a past minute with trades. */
  lemma StoredMinute(s: State, before: Store, from: int, to: int, m: int)
    requires Inv(s, before) && NothingStored(before, s.product, from, to)
    requires (m, s.product) in s.store
    requires from <= s.store[(m, s.product)].start && s.store[(m, s.product)].end <= to
    ensures Aligned(m, 1) && s.store[(m, s.product)] == MinuteCandle(s, m) && MinuteTrades(s, m) != []
  {
    assert FoldBars([]) == EMPTY;
    assert !Unchanged(s.store, before, (m, s.product));
  }

  lemma RowsAreRun(s: State, before: Store, cs: seq<Candle>, from: int, to: int)
    requires Inv(s, before) && NothingStored(before, s.product, from, to)
    requires GoodTrades(s.processed, s.product) && Rows(cs, s.store, s.product, from, to)
    ensures CandleRun(cs, s.product, 1) && PositiveCandles(cs)
  {
    hide Inv, BarsWithin, FoldBars, NothingStored;
    assert HistoryOrdered(s) by { InvOrdered(s, before); }
    forall i | 0 <= i < |cs|
      ensures cs[i].product == s.product && Aligned(cs[i].start, 1) && cs[i].end == cs[i].start + Width(1)
      ensures Positive(cs[i].bar)
    {
      StoredMinute(s, before, from, to, cs[i].start);
      MinuteTraded(s, cs[i].start);
    }
  }

  lemma InvOrdered(s: State, before: Store)
    requires Inv(s, before)
    ensures HistoryOrdered(s)
  {
  }

  /** The stored row of a minute that is no longer live, if it has one, sums up its trades. */
  lemma MinuteRow(s: State, before: Store, cs: seq<Candle>, from: int, to: int, p: int)
    requires Inv(s, before) && NothingStored(before, s.product, from, to)
    requires GoodTrades(s.processed, s.product) && Rows(cs, s.store, s.product, from, to)
    requires Aligned(p, 1) && p !in s.candles && from <= p && p + MINUTE <= to
    ensures BarsWithin(Prints(cs), p, p + Width(1)) == Summary(MinuteTrades(s, p))
  {
    InvOrdered(s, before);
    RowsAreRun(s, before, cs, from, to);
    MinuteTraded(s, p);
    if MinuteTrades(s, p) != [] {
      FlushedMinuteStored(s, before, p);
      hide Inv, BarsWithin, FoldBars;
      var i :| 0 <= i < |cs| && cs[i] == s.store[(p, s.product)];
      OwnBucket(cs, s.product, 1, i);
    } else {
      hide Inv, BarsWithin, FoldBars, NothingStored;
      forall i | 0 <= i < |cs| ensures !(p <= cs[i].start < p + Width(1)) {
        if p <= cs[i].start < p + Width(1) {
          InBucketIff(p, cs[i].start, 1);
          StoredMinute(s, before, from, to, p);
        }
      }
      BarsWithinNone(Prints(cs), p, p + Width(1));
    }
  }

  lemma FlushedMinuteStored(s: State, before: Store, p: int)
    requires Inv(s, before) && Aligned(p, 1) && p !in s.candles
    requires MinuteTrades(s, p) != [] && FoldBars(MinuteTrades(s, p)).volume > 0.0
    ensures (p, s.product) in s.store && s.store[(p, s.product)] == MinuteCandle(s, p)
  {
    assert p in s.deleted;
    assert Settled(s, before, p);
  }

  lemma RowsCoarsen(s: State, before: Store, cs: seq<Candle>, from: int, to: int, lo: int, hi: int)
    requires Inv(s, before) && NothingStored(before, s.product, from, to)
    requires GoodTrades(s.processed, s.product) && Rows(cs, s.store, s.product, from, to)
    requires from <= lo && hi <= to && Aligned(lo, 1) && Aligned(hi, 1)
    requires forall m :: m in s.candles ==> !(lo <= m < hi)
    ensures Coarsens(Prints(cs), Trades(s.processed, s.product), 1, lo, hi)
  {
    hide BarsWithin, FoldBars, CandlestickBucket;
    InvOrdered(s, before);
    TradesOrdered(s.processed, s.product);
    RowsAreRun(s, before, cs, from, to);
    hide Inv, Rows, Trades, GoodTrades;
    forall p {:trigger Aligned(p, 1)} | Aligned(p, 1) && lo <= p < hi
      ensures BarsWithin(Prints(cs), p, p + Width(1))
           == Summary(BarsWithin(Trades(s.processed, s.product), p, p + Width(1)))
    {
      AlignedApart(p, hi, 1);
      MinuteRow(s, before, cs, from, to, p);
    }
  }

  lemma RowsProject(s: State, before: Store, cs: seq<Candle>, from: int, to: int, n: nat, b: int)
    requires Inv(s, before) && NothingStored(before, s.product, from, to)
    requires GoodTrades(s.processed, s.product) && Rows(cs, s.store, s.product, from, to)
    requires n >= 1 && Aligned(b, n) && from <= b && b + Width(n) <= to
    requires forall m :: m in s.candles ==> !(b <= m < b + Width(n))
    ensures var direct := BarsWithin(Trades(s.processed, s.product), b, b + Width(n));
            && BucketCandle(cs, s.product, b, n) == BuildCandle(s.product, b, b + Width(n), FoldBars(direct))
            && (BarsWithin(Prints(cs), b, b + Width(n)) == [] <==> direct == [])
  {
    hide Inv, Rows, Trades, GoodTrades, BarsWithin, FoldBars, CandlestickBucket, Coarsens;
    RowsAreRun(s, before, cs, from, to);
    OneDivides(n);
    NextAligned(b, n);
    AlignedNested(b, 1, n);
    AlignedNested(b + Width(n), 1, n);
    RowsCoarsen(s, before, cs, from, to, b, b + Width(n));
    CoarsenedFold(Prints(cs), Trades(s.processed, s.product), 1, b, b + Width(n), b, b + Width(n));
    BucketCandleOfRun(cs, s.product, 1, n, b);
  }

  lemma {:induction false} OneDivides(n: nat)
    ensures Divides(1, n)
  {
    if n > 0 { OneDivides(n - 1); }
  }

  lemma {:induction false} SomeWithin(ps: seq<Print>, lo: int, hi: int) returns (k: nat)
    requires BarsWithin(ps, lo, hi) != []
    ensures k < |ps| && lo <= ps[k].at < hi
  {
    if lo <= ps[|ps| - 1].at < hi {
      k := |ps| - 1;
    } else {
      k := SomeWithin(ps[..|ps| - 1], lo, hi);
    }
  }

  /** For every run of the importer, over a store that holds nothing of the product in the range of
      a later query, with positive trades: reproject what the query returns, and each n-minute
      bucket that lies in the query and has no live minutes left has the candle its trades fold to
      directly, if it is there, and is there if it has trades. */
  lemma ImportThenReproject(product: Product, before: Store, actions: seq<Action>, cs: seq<Candle>,
                            from: int, to: int, n: nat, b: int)
    requires NothingStored(before, product, from, to)
    requires Run(InitialState(product, before), actions).Next?
    requires var s := Run(InitialState(product, before), actions).state;
             && GoodTrades(s.processed, product) && Rows(cs, s.store, product, from, to)
             && (forall m :: m in s.candles ==> !(b <= m < b + Width(n)))
    requires n >= 1 && Aligned(b, n) && from <= b && b + Width(n) <= to
    ensures var s := Run(InitialState(product, before), actions).state;
            var direct := BarsWithin(Trades(s.processed, product), b, b + Width(n));
            && (direct != [] ==> cs != [])
            && (cs != [] ==>
            var out := ProjectedCandles(cs, product, n);
            && BucketsInRange(cs, n, FirstBucket(cs, n), LastBucket(cs, n))
            && (forall k :: 0 <= k < |out| && out[k].start == b ==>
                  out[k] == BuildCandle(product, b, b + Width(n), FoldBars(direct)))
            && (direct != [] ==> exists k :: 0 <= k < |out| && out[k].start == b))
  {
    hide Run, Inv, NothingStored, BarsWithin, FoldBars, Trades, Rows, CandlestickBucket, BucketAt, BucketCount;
    EveryRunAccounted(product, before, actions);
    var s := Run(InitialState(product, before), actions).state;
    RowsAreRun(s, before, cs, from, to);
    OneDivides(n);
    RowsProject(s, before, cs, from, to, n, b);
    if cs == [] {
      BarsWithinNone(Prints(cs), b, b + Width(n));
      return;
    }
    RunInRange(cs, product, 1, n);
    var out := ProjectedCandles(cs, product, n);
    forall k | 0 <= k < |out| && out[k].start == b ensures out[k] == BucketCandle(cs, product, b, n) {
      ProjectedAt(cs, product, n, k);
    }
    if BarsWithin(Trades(s.processed, product), b, b + Width(n)) != [] {
      var i := SomeWithin(Prints(cs), b, b + Width(n));
      InBucketIff(b, cs[i].start, n);
      BucketIsProjected(cs, product, 1, n, i);
    }
  }

  /** When the history query of a check for the candlestick that ends at t includes it, the last
      reprojected candle ends no earlier: the tick does not seed its trader a second time. */
  lemma HistoryReachesCheck(cs: seq<Candle>, product: Product, n: nat, t: int)
    requires CandleRun(cs, product, 1) && cs != [] && cs[|cs| - 1].end == t && n >= 1
    ensures var out := ProjectedCandles(cs, product, n); out != [] && out[|out| - 1].end >= t
  {
    OneDivides(n);
    ProjectedRun(cs, product, 1, n);
    BucketFits(cs[|cs| - 1].start, 1, n);
    hide CandlestickBucket, ProjectedCandles;
  }

  /** The bucket of the last candle is over exactly when the check's candlestick ends on the grid of
      the strategy's tick size: otherwise the tick decides on a candle that will still change. */
  lemma LastCandleWholeIff(cs: seq<Candle>, product: Product, n: nat, t: int)
    requires CandleRun(cs, product, 1) && cs != [] && cs[|cs| - 1].end == t && n >= 1
    ensures var out := ProjectedCandles(cs, product, n); out != [] && (out[|out| - 1].end <= t <==> Aligned(t, n))
  {
    OneDivides(n);
    ProjectedRun(cs, product, 1, n);
    HistoryReachesCheck(cs, product, n, t);
    var start := cs[|cs| - 1].start;
    var b := LastBucket(cs, n);
    BucketContains(start, n);
    NextAligned(b, n);
    hide CandlestickBucket, ProjectedCandles;
    if Aligned(t, n) {
      AlignedApart(b, t, n);
    }
  }

  const MINUTE_CANDLE := Candle(0, MINUTE, Bar(1.0, 1.0, 1.0, 1.0, 1.0), Up, "BTC-USD")

  /** A check after the first minute of a two-minute bucket: the last candle's bucket is not over. */
  lemma LastCandleOpen()
    ensures var cs, n := [MINUTE_CANDLE], 2;
            && CandleRun(cs, "BTC-USD", 1) && cs[|cs| - 1].end == MINUTE
            && var out := ProjectedCandles(cs, "BTC-USD", n); out != [] && out[|out| - 1].end > MINUTE
  {
    assert FloorTo(MINUTE, Width(2)) == 0;
    LastCandleWholeIff([MINUTE_CANDLE], "BTC-USD", 2, MINUTE);
  }
}
