/** Candles, the builder that folds trades or candles into one, and the algebra of that fold. */
module Candlesticks {

  type Product = string

  /** The five numbers of a candle. A price of zero means "not set yet" to the builder. */
  datatype Bar = Bar(low: real, high: real, open: real, close: real, volume: real)

  const EMPTY := Bar(0.0, 0.0, 0.0, 0.0, 0.0)

  datatype Direction = Up | Down

  datatype Candle = Candle(start: int, end: int, bar: Bar, direction: Direction, product: Product) {
    function MeanPrice(): real {
      (bar.open + bar.high + bar.low + bar.close) / 4.0
    }
  }

  /** Raising any one of the four prices raises the mean price by a quarter of that. */
  lemma MeanPriceRises(c: Candle, d: real)
    ensures c.(bar := c.bar.(open := c.bar.open + d)).MeanPrice() == c.MeanPrice() + d / 4.0
    ensures c.(bar := c.bar.(high := c.bar.high + d)).MeanPrice() == c.MeanPrice() + d / 4.0
    ensures c.(bar := c.bar.(low := c.bar.low + d)).MeanPrice() == c.MeanPrice() + d / 4.0
    ensures c.(bar := c.bar.(close := c.bar.close + d)).MeanPrice() == c.MeanPrice() + d / 4.0
  {
  }

  /** Four equal prices are their own mean; otherwise the mean lies between the least and the greatest. */
  lemma MeanPriceBetween(c: Candle, lo: real, hi: real)
    requires lo <= c.bar.open <= hi && lo <= c.bar.high <= hi && lo <= c.bar.low <= hi && lo <= c.bar.close <= hi
    ensures lo <= c.MeanPrice() <= hi
  {
  }

  datatype ExchangeMessage =
    ExchangeMessage(price: real, product: Product, size: real, kind: string, time: int)

  const MATCH := "match"

  predicate Positive(b: Bar) {
    b.low > 0.0 && b.high > 0.0 && b.open > 0.0 && b.close > 0.0
  }

  predicate AllPositive(bs: seq<Bar>) {
    forall i :: 0 <= i < |bs| ==> Positive(bs[i])
  }

  function BuildCandle(product: Product, start: int, end: int, b: Bar): Candle {
    Candle(start, end, b, if b.close >= b.open then Up else Down, product)
  }

  /** The bar a single trade adds. */
  function TradeBar(e: ExchangeMessage): Bar {
    Bar(e.price, e.price, e.price, e.price, e.size)
  }

  function OrElse(x: real, y: real): real {
    if x == 0.0 then y else x
  }

  /** One step of the builder. */
  function AddBar(b: Bar, e: Bar): Bar {
    Bar(if e.low < OrElse(b.low, e.low) then e.low else OrElse(b.low, e.low),
        if e.high > OrElse(b.high, e.high) then e.high else OrElse(b.high, e.high),
        OrElse(b.open, e.open),
        e.close,
        b.volume + e.volume)
  }

  function FoldBars(bs: seq<Bar>): Bar {
    if bs == [] then EMPTY else AddBar(FoldBars(bs[..|bs| - 1]), bs[|bs| - 1])
  }

  predicate AcceptsCandle(product: Product, start: int, end: int, e: Candle) {
    e.product == product && start <= e.start <= end && start <= e.end <= end
  }

  predicate AcceptsMessage(product: Product, start: int, end: int, e: ExchangeMessage) {
    e.kind == MATCH && e.product == product && start <= e.time <= end
  }

  class CandlestickBuilder {
    const productType: Product
    const startTime: int
    const endTime: int
    var low: real
    var high: real
    var open: real
    var close: real
    var volume: real

    ghost function Contents(): Bar
      reads this
    {
      Bar(low, high, open, close, volume)
    }

    constructor (product: Product, start: int, end: int)
      ensures productType == product && startTime == start && endTime == end
      ensures Contents() == EMPTY
    {
      productType, startTime, endTime := product, start, end;
      low, high, open, close, volume := 0.0, 0.0, 0.0, 0.0, 0.0;
    }

    method Build() returns (c: Candle)
      ensures c == BuildCandle(productType, startTime, endTime, Contents())
    {
      c := Candle(startTime, endTime, Bar(low, high, open, close, volume),
                  if close >= open then Up else Down, productType);
    }

    method ProcessCandlestickModel(e: Candle)
      modifies this
      ensures Contents() == if e.product == productType && startTime <= e.start <= endTime
                               && startTime <= e.end <= endTime
                            then AddBar(old(Contents()), e.bar) else old(Contents())
    {
      if e.product != productType || e.start > endTime || e.start < startTime
         || e.end < startTime || e.end > endTime {
        return;
      }
      volume := volume + e.bar.volume;
      if low == 0.0 { low := e.bar.low; }
      if high == 0.0 { high := e.bar.high; }
      if open == 0.0 { open := e.bar.open; }
      if close == 0.0 { close := e.bar.close; }
      if e.bar.low < low { low := e.bar.low; }
      if e.bar.high > high { high := e.bar.high; }
      close := e.bar.close;
    }

    method ProcessMessage(e: ExchangeMessage)
      modifies this
      ensures if e.kind == "match" && e.product == productType && startTime <= e.time <= endTime
              then Contents() == AddBar(old(Contents()), TradeBar(e))
                   && volume == old(volume) + e.size && close == e.price
              else Contents() == old(Contents())
    {
      if e.kind != MATCH || e.product != productType || e.time > endTime || e.time < startTime {
        return;
      }
      volume := volume + e.size;
      if low == 0.0 { low := e.price; }
      if high == 0.0 { high := e.price; }
      if open == 0.0 { open := e.price; }
      if close == 0.0 { close := e.price; }
      if e.price < low { low := e.price; }
      if e.price > high { high := e.price; }
      close := e.price;
    }
  }

  // ---------- what the fold computes ----------

  function TotalVolume(bs: seq<Bar>): real {
    if bs == [] then 0.0 else TotalVolume(bs[..|bs| - 1]) + bs[|bs| - 1].volume
  }

  /** What a candle over a nonempty run of bars should say: first open, last close, least low,
      greatest high, total volume. */
  ghost predicate Summarises(b: Bar, bs: seq<Bar>) {
    && bs != []
    && b.open == bs[0].open
    && b.close == bs[|bs| - 1].close
    && (exists i :: 0 <= i < |bs| && b.low == bs[i].low)
    && (forall i :: 0 <= i < |bs| ==> b.low <= bs[i].low)
    && (exists i :: 0 <= i < |bs| && b.high == bs[i].high)
    && (forall i :: 0 <= i < |bs| ==> b.high >= bs[i].high)
    && b.volume == TotalVolume(bs)
  }

  lemma {:induction false} FoldSummarises(bs: seq<Bar>)
    requires bs != [] && AllPositive(bs)
    ensures Summarises(FoldBars(bs), bs) && Positive(FoldBars(bs))
  {
    var front, last := bs[..|bs| - 1], bs[|bs| - 1];
    if front == [] {
      assert FoldBars(front) == EMPTY && TotalVolume(front) == 0.0;
      assert FoldBars(bs).low == bs[0].low && FoldBars(bs).high == bs[0].high;
    } else {
      FoldSummarises(front);
      var i :| 0 <= i < |front| && FoldBars(front).low == front[i].low;
      var j :| 0 <= j < |front| && FoldBars(front).high == front[j].high;
      assert bs[i] == front[i] && bs[j] == front[j];
      forall k | 0 <= k < |bs|
        ensures FoldBars(bs).low <= bs[k].low && FoldBars(bs).high >= bs[k].high
      {
        if k < |front| { assert bs[k] == front[k]; }
      }
      assert bs[0] == front[0];
      assert FoldBars(bs).low == bs[if last.low < FoldBars(front).low then |front| else i].low;
      assert FoldBars(bs).high == bs[if last.high > FoldBars(front).high then |front| else j].high;
    }
  }

  /** Folding a run in two pieces and adding the second candle to the first is folding the run. */
  lemma {:induction false} FoldConcat(xs: seq<Bar>, ys: seq<Bar>)
    requires AllPositive(ys)
    ensures FoldBars(xs + ys) == if ys == [] then FoldBars(xs) else AddBar(FoldBars(xs), FoldBars(ys))
  {
    if ys == [] {
      assert xs + ys == xs;
    } else {
      var front, last := ys[..|ys| - 1], ys[|ys| - 1];
      FoldConcat(xs, front);
      assert (xs + ys)[..|xs + ys| - 1] == xs + front;
      if front != [] {
        FoldSummarises(front);
      }
    }
  }

  lemma {:induction false} TotalVolumeConcat(xs: seq<Bar>, ys: seq<Bar>)
    ensures TotalVolume(xs + ys) == TotalVolume(xs) + TotalVolume(ys)
  {
    if ys == [] {
      assert xs + ys == xs;
    } else {
      TotalVolumeConcat(xs, ys[..|ys| - 1]);
      assert (xs + ys)[..|xs + ys| - 1] == xs + ys[..|ys| - 1];
    }
  }

  // ---------- runs of bars stamped with their times ----------

  /** A bar and the time it belongs to: a trade's time, or a candle's start. */
  datatype Print = Print(at: int, bar: Bar)

  function BarsWithin(ps: seq<Print>, lo: int, hi: int): seq<Bar> {
    if ps == [] then []
    else
      var rest := BarsWithin(ps[..|ps| - 1], lo, hi);
      var p := ps[|ps| - 1];
      if lo <= p.at < hi then rest + [p.bar] else rest
  }

  predicate Ascending(ps: seq<Print>) {
    forall i, j :: 0 <= i < j < |ps| ==> ps[i].at <= ps[j].at
  }

  predicate PrintsPositive(ps: seq<Print>) {
    forall i :: 0 <= i < |ps| ==> Positive(ps[i].bar)
  }

  lemma {:induction false} BarsWithinPositive(ps: seq<Print>, lo: int, hi: int)
    requires PrintsPositive(ps)
    ensures AllPositive(BarsWithin(ps, lo, hi))
  {
    if ps != [] {
      BarsWithinPositive(ps[..|ps| - 1], lo, hi);
    }
  }

  lemma {:induction false} BarsWithinNone(ps: seq<Print>, lo: int, hi: int)
    requires forall i :: 0 <= i < |ps| ==> !(lo <= ps[i].at < hi)
    ensures BarsWithin(ps, lo, hi) == []
  {
    if ps != [] {
      BarsWithinNone(ps[..|ps| - 1], lo, hi);
    }
  }

  lemma {:induction false} BarsWithinSome(ps: seq<Print>, lo: int, hi: int, k: nat)
    requires k < |ps| && lo <= ps[k].at < hi
    ensures BarsWithin(ps, lo, hi) != []
  {
    if k < |ps| - 1 {
      BarsWithinSome(ps[..|ps| - 1], lo, hi, k);
    }
  }

  /** In a run ordered by time, the bars of an interval are those of its first part followed by
      those of its second. */
  lemma {:induction false} BarsWithinSplit(ps: seq<Print>, lo: int, mid: int, hi: int)
    requires Ascending(ps) && lo <= mid <= hi
    ensures BarsWithin(ps, lo, hi) == BarsWithin(ps, lo, mid) + BarsWithin(ps, mid, hi)
  {
    if ps != [] {
      var front := ps[..|ps| - 1];
      BarsWithinSplit(front, lo, mid, hi);
      if ps[|ps| - 1].at < mid {
        BarsWithinNone(front, mid, hi);
      }
    }
  }
}
