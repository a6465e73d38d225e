/** What a stored candle, and one reprojected from stored candles, says of its trades, message by
    message. */
module StoredCandles {
  import opened Grid
  import opened Candlesticks
  import opened Reprojection
  import opened RealtimeImport
  import opened EndToEnd

  /** The trades of a product from lo to before hi, in the order they were processed. */
  function TradesOf(msgs: seq<ExchangeMessage>, product: Product, lo: int, hi: int): seq<ExchangeMessage> {
    if msgs == [] then []
    else
      var rest, e := TradesOf(msgs[..|msgs| - 1], product, lo, hi), msgs[|msgs| - 1];
      if e.kind == "match" && e.product == product && lo <= e.time < hi then rest + [e] else rest
  }

  function Sizes(es: seq<ExchangeMessage>): real {
    if es == [] then 0.0 else Sizes(es[..|es| - 1]) + es[|es| - 1].size
  }

  /** A candle from lo to hi that sums up the trades: first and last price, least and greatest price,
      the sum of the sizes, and whether the last price is no lower than the first. */
  ghost predicate SumsUp(c: Candle, product: Product, lo: int, hi: int, es: seq<ExchangeMessage>) {
    && es != [] && c.start == lo && c.end == hi && c.product == product
    && c.bar.open == es[0].price && c.bar.close == es[|es| - 1].price
    && (forall i :: 0 <= i < |es| ==> c.bar.low <= es[i].price <= c.bar.high)
    && (exists i :: 0 <= i < |es| && es[i].price == c.bar.low)
    && (exists i :: 0 <= i < |es| && es[i].price == c.bar.high)
    && c.bar.volume == Sizes(es)
    && (c.direction == Up <==> es[0].price <= es[|es| - 1].price)
  }

  /** Bars that carry one trade each. */
  ghost predicate OneTradeEach(bs: seq<Bar>, es: seq<ExchangeMessage>) {
    && |bs| == |es| && TotalVolume(bs) == Sizes(es)
    && forall i :: 0 <= i < |es| ==>
         && bs[i].open == es[i].price && bs[i].close == es[i].price
         && bs[i].low == es[i].price && bs[i].high == es[i].price
  }

  lemma OneMore(bs: seq<Bar>, es: seq<ExchangeMessage>, b: Bar, e: ExchangeMessage)
    requires OneTradeEach(bs, es) && b == TradeBar(e)
    ensures OneTradeEach(bs + [b], es + [e])
  {
    assert (bs + [b])[..|bs|] == bs && (es + [e])[..|es|] == es;
  }

  lemma NoTrades()
    ensures OneTradeEach([], [])
  {
  }

  lemma {:induction false} BarsOfTrades(msgs: seq<ExchangeMessage>, product: Product, lo: int, hi: int)
    ensures OneTradeEach(BarsWithin(Trades(msgs, product), lo, hi), TradesOf(msgs, product, lo, hi))
  {
    hide OneTradeEach, TradeBar;
    if msgs == [] {
      NoTrades();
    } else {
      var front, e := msgs[..|msgs| - 1], msgs[|msgs| - 1];
      BarsOfTrades(front, product, lo, hi);
      var ts, p := Trades(front, product), Print(e.time, TradeBar(e));
      assert (ts + [p])[..|ts|] == ts;
      OneMore(BarsWithin(ts, lo, hi), TradesOf(front, product, lo, hi), TradeBar(e), e);
    }
  }

  lemma {:induction false} PricesPositive(msgs: seq<ExchangeMessage>, product: Product, lo: int, hi: int)
    requires GoodTrades(msgs, product)
    ensures forall i :: 0 <= i < |TradesOf(msgs, product, lo, hi)| ==> TradesOf(msgs, product, lo, hi)[i].price > 0.0
  {
    if msgs != [] {
      PricesPositive(msgs[..|msgs| - 1], product, lo, hi);
    }
  }

  lemma FoldSumsUp(bs: seq<Bar>, es: seq<ExchangeMessage>, product: Product, lo: int, hi: int)
    requires OneTradeEach(bs, es) && es != [] && forall i :: 0 <= i < |es| ==> es[i].price > 0.0
    ensures SumsUp(BuildCandle(product, lo, hi, FoldBars(bs)), product, lo, hi, es)
  {
    hide TotalVolume, Sizes;
    assert AllPositive(bs);
    FoldSummarises(bs);
    hide FoldBars;
    var b := FoldBars(bs);
    var i :| 0 <= i < |bs| && b.low == bs[i].low;
    var j :| 0 <= j < |bs| && b.high == bs[j].high;
    assert es[i].price == b.low && es[j].price == b.high;
    assert forall k :: 0 <= k < |es| ==> b.low <= bs[k].low == es[k].price == bs[k].high <= b.high;
  }

  /** What the fold of a span's trades says of them. */
  lemma SpanSumsUp(msgs: seq<ExchangeMessage>, product: Product, lo: int, hi: int)
    requires GoodTrades(msgs, product)
    ensures var bs, es := BarsWithin(Trades(msgs, product), lo, hi), TradesOf(msgs, product, lo, hi);
            && (bs == [] <==> es == [])
            && (es != [] ==> SumsUp(BuildCandle(product, lo, hi, FoldBars(bs)), product, lo, hi, es))
  {
    hide SumsUp, FoldBars, BarsWithin, TradesOf, Trades, GoodTrades;
    BarsOfTrades(msgs, product, lo, hi);
    PricesPositive(msgs, product, lo, hi);
    if TradesOf(msgs, product, lo, hi) != [] {
      FoldSumsUp(BarsWithin(Trades(msgs, product), lo, hi), TradesOf(msgs, product, lo, hi), product, lo, hi);
    }
  }

  /** For every interleaving and every nondecreasing message stream with positive prices and sizes, at
      every state: the builder of a live minute builds, and the store holds of every other minute with
      trades, the candle that sums up exactly the minute's trades; of a minute without either the store
      says what it said before. */
  lemma EveryMinuteSumsUp(product: Product, before: Store, actions: seq<Action>, m: int)
    requires Run(InitialState(product, before), actions).Next? && Aligned(m, 1)
    requires GoodTrades(Run(InitialState(product, before), actions).state.processed, product)
    ensures var s := Run(InitialState(product, before), actions).state;
            var es := TradesOf(s.processed, product, m, m + 60_000_000_000);
            if m in s.candles then
              && s.candles[m] < |s.builders|
              && (es != [] ==> SumsUp(BuildFrom(s.builders[s.candles[m]]), product, m, m + 60_000_000_000, es))
            else if es != [] then
              (m, product) in s.store && SumsUp(s.store[(m, product)], product, m, m + 60_000_000_000, es)
            else ((m, product) in s.store <==> (m, product) in before)
                 && ((m, product) in s.store ==> s.store[(m, product)] == before[(m, product)])
  {
    hide Run, BarsWithin, FoldBars, Trades, TradesOf, SumsUp, GoodTrades, CandlestickBucket;
    EveryRunAccounted(product, before, actions);
    var s := Run(InitialState(product, before), actions).state;
    SpanSumsUp(s.processed, product, m, m + MINUTE);
    MinuteTraded(s, m) by { InvOrdered(s, before); }
    if m !in s.candles && MinuteTrades(s, m) == [] {
      QuietMinute(s, before, m);
    } else if m !in s.candles {
      FlushedMinuteStored(s, before, m);
    }
    hide Inv;
  }

  lemma QuietMinute(s: State, before: Store, m: int)
    requires Inv(s, before) && Aligned(m, 1) && MinuteTrades(s, m) == []
    ensures Unchanged(s.store, before, (m, s.product))
  {
    assert FoldBars([]) == EMPTY;
  }

  /** For every run of the importer over a store with nothing of the product in the range of a later
      query: query and reproject, and each n-minute bucket in the query with no live minutes has, if it
      had trades, a candle, and that candle sums up exactly the bucket's trades. */
  lemma EveryBucketSumsUp(product: Product, before: Store, actions: seq<Action>, cs: seq<Candle>,
                          from: int, to: int, n: nat, b: int)
    requires NothingStored(before, product, from, to)
    requires Run(InitialState(product, before), actions).Next?
    requires var s := Run(InitialState(product, before), actions).state;
             && GoodTrades(s.processed, product) && Rows(cs, s.store, product, from, to)
             && (forall m :: m in s.candles ==> !(b <= m < b + Width(n)))
    requires n >= 1 && Aligned(b, n) && from <= b && b + Width(n) <= to
    ensures var s := Run(InitialState(product, before), actions).state;
            var es := TradesOf(s.processed, product, b, b + Width(n));
            es != [] ==>
              && cs != []
              && var out := ProjectedCandles(cs, product, n);
                 exists k :: 0 <= k < |out| && SumsUp(out[k], product, b, b + Width(n), es)
  {
    hide Run, Inv, NothingStored, BarsWithin, FoldBars, Trades, Rows, CandlestickBucket, BucketAt, BucketCount;
    hide TradesOf, SumsUp, GoodTrades, BucketsInRange, ProjectedCandles;
    ImportThenReproject(product, before, actions, cs, from, to, n, b);
    SpanSumsUp(Run(InitialState(product, before), actions).state.processed, product, b, b + Width(n));
  }

  /** The messages that have been received, in order. */
  function Received(actions: seq<Action>): seq<ExchangeMessage> {
    if actions == [] then []
    else
      var rest, a := Received(actions[..|actions| - 1]), actions[|actions| - 1];
      if a.CreateBucket? then rest + [a.msg] else rest
  }

  function InHand(s: State): seq<ExchangeMessage> {
    if s.message.Waiting? then [] else [s.message.msg]
  }

  /** Every message received is processed, once and in order, but for one in hand. */
  lemma {:induction false} ReceivedIsProcessed(product: Product, before: Store, actions: seq<Action>)
    requires Run(InitialState(product, before), actions).Next?
    ensures var s := Run(InitialState(product, before), actions).state; Received(actions) == s.processed + InHand(s)
  {
    hide CandlestickBucket, Process, BuildFrom;
    if actions != [] {
      ReceivedIsProcessed(product, before, actions[..|actions| - 1]);
    }
  }
}
