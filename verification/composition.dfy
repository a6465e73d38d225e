/** Reprojecting in two passes, with the untraded candles dropped in between, is reprojecting once. */
module Composition {
  import opened Grid
  import opened Candlesticks
  import opened Reprojection
  import opened Coarsening

  lemma {:induction false} NonEmptyMembers(cs: seq<Candle>)
    ensures forall c :: c in NonEmpty(cs) ==> c in cs && c.bar.volume != 0.0
  {
    if cs != [] {
      NonEmptyMembers(cs[..|cs| - 1]);
    }
  }

  lemma {:induction false} NonEmptyRun(cs: seq<Candle>, product: Product, w: nat)
    requires CandleRun(cs, product, w)
    ensures CandleRun(NonEmpty(cs), product, w)
  {
    if cs != [] {
      NonEmptyRun(cs[..|cs| - 1], product, w);
      var rest := NonEmpty(cs[..|cs| - 1]);
      forall i | 0 <= i < |rest| ensures rest[i].start < cs[|cs| - 1].start {
        NonEmptyMembers(cs[..|cs| - 1]);
        assert rest[i] in cs[..|cs| - 1];
      }
    }
  }

  lemma {:induction false} NonEmptyEnds(cs: seq<Candle>)
    requires cs != []
    ensures cs[0].bar.volume != 0.0 ==> NonEmpty(cs) != [] && NonEmpty(cs)[0] == cs[0]
    ensures cs[|cs| - 1].bar.volume != 0.0 ==>
              NonEmpty(cs) != [] && NonEmpty(cs)[|NonEmpty(cs)| - 1] == cs[|cs| - 1]
  {
    var front := cs[..|cs| - 1];
    if front == [] {
      assert NonEmpty(front) == [];
    } else {
      NonEmptyEnds(front);
    }
  }

  lemma TradedGrows(bs: seq<Bar>, b: Bar)
    ensures Traded(bs + [b]) == if b.volume != 0.0 then Traded(bs) + [b] else Traded(bs)
  {
    assert (bs + [b])[..|bs|] == bs;
  }

  lemma WithinGrows(cs: seq<Candle>, c: Candle, lo: int, hi: int)
    ensures BarsWithin(Prints(cs + [c]), lo, hi)
         == if lo <= c.start < hi then BarsWithin(Prints(cs), lo, hi) + [c.bar] else BarsWithin(Prints(cs), lo, hi)
  {
    assert (cs + [c])[..|cs|] == cs;
    PrintsFront(cs + [c]);
  }

  lemma {:induction false} NonEmptyWithin(cs: seq<Candle>, lo: int, hi: int)
    ensures BarsWithin(Prints(NonEmpty(cs)), lo, hi) == Traded(BarsWithin(Prints(cs), lo, hi))
  {
    if cs == [] {
      assert NonEmpty(cs) == [];
    } else {
      var front, c := cs[..|cs| - 1], cs[|cs| - 1];
      assert cs == front + [c];
      NonEmptyWithin(front, lo, hi);
      WithinGrows(front, c, lo, hi);
      WithinGrows(NonEmpty(front), c, lo, hi);
      TradedGrows(BarsWithin(Prints(front), lo, hi), c.bar);
      hide Prints, Traded, BarsWithin;
    }
  }

  lemma {:induction false} TradedVolume(ps: seq<Print>, lo: int, hi: int)
    requires forall i :: 0 <= i < |ps| ==> ps[i].bar.volume > 0.0
    ensures var f := BarsWithin(ps, lo, hi);
            if f == [] then TotalVolume(f) == 0.0 else TotalVolume(f) > 0.0
  {
    if ps != [] {
      TradedVolume(ps[..|ps| - 1], lo, hi);
    }
  }

  /** The bars of a run that start in one of its own buckets. */
  lemma OwnBucket(out: seq<Candle>, product: Product, tick: nat, k: nat)
    requires CandleRun(out, product, tick) && k < |out|
    ensures BarsWithin(Prints(out), out[k].start, out[k].end) == [out[k].bar]
  {
    forall i | 0 <= i < |out| && i != k ensures !(out[k].start <= out[i].start < out[k].end) {
      if i > k {
        AlignedApart(out[k].start, out[i].start, tick);
      }
    }
    BarsWithinOne(Prints(out), out[k].start, out[k].end, k);
  }

  /** A bucket that is not among the projected ones has nothing in it, before or after. */
  lemma OutsideProjection(cs: seq<Candle>, product: Product, w: nat, tick: nat, p: int)
    requires CandleRun(cs, product, w) && tick >= 1 && Divides(w, tick) && cs != [] && Aligned(p, tick)
    requires forall k :: 0 <= k < |ProjectedCandles(cs, product, tick)| ==>
               ProjectedCandles(cs, product, tick)[k].start != p
    ensures BarsWithin(Prints(cs), p, p + Width(tick)) == []
    ensures BarsWithin(Prints(ProjectedCandles(cs, product, tick)), p, p + Width(tick)) == []
  {
    hide ProjectedCandles, BarsWithin, CandlestickBucket;
    var out := ProjectedCandles(cs, product, tick);
    ProjectedRun(cs, product, w, tick);
    forall k | 0 <= k < |out| ensures !(p <= out[k].start < p + Width(tick)) {
      InBucketIff(p, out[k].start, tick);
    }
    BarsWithinNone(Prints(out), p, p + Width(tick));
    forall i | 0 <= i < |cs| ensures !(p <= cs[i].start < p + Width(tick)) {
      if p <= cs[i].start < p + Width(tick) {
        InBucketIff(p, cs[i].start, tick);
        BucketIsProjected(cs, product, w, tick, i);
      }
    }
    BarsWithinNone(Prints(cs), p, p + Width(tick));
  }

  lemma BucketIsProjected(cs: seq<Candle>, product: Product, w: nat, tick: nat, i: nat)
    requires CandleRun(cs, product, w) && tick >= 1 && Divides(w, tick) && i < |cs|
    ensures exists k :: 0 <= k < |ProjectedCandles(cs, product, tick)|
              && ProjectedCandles(cs, product, tick)[k].start == CandlestickBucket(cs[i].start, tick)
  {
    var lo, b := FirstBucket(cs, tick), CandlestickBucket(cs[i].start, tick);
    RunInRange(cs, product, w, tick);
    BucketOnGrid(cs[0].start, tick);
    BucketOnGrid(cs[i].start, tick);
    var k := GridSteps(lo, b, tick);
    BucketAtBounds(lo, LastBucket(cs, tick), k, tick);
    ProjectedAt(cs, product, tick, k);
  }

  lemma ProjectionCoarsensAt(cs: seq<Candle>, product: Product, w: nat, tick: nat, p: int)
    requires CandleRun(cs, product, w) && tick >= 1 && Divides(w, tick) && cs != []
    requires TradedCandles(cs) && Aligned(p, tick)
    ensures BarsWithin(Prints(NonEmpty(ProjectedCandles(cs, product, tick))), p, p + Width(tick))
         == Summary(BarsWithin(Prints(cs), p, p + Width(tick)))
  {
    hide ProjectedCandles, BarsWithin, CandlestickBucket;
    var out := ProjectedCandles(cs, product, tick);
    NonEmptyWithin(out, p, p + Width(tick));
    var f := BarsWithin(Prints(cs), p, p + Width(tick));
    if k :| 0 <= k < |out| && out[k].start == p {
      ProjectedRun(cs, product, w, tick);
      OwnBucket(out, product, tick, k);
      TradedVolume(Prints(cs), p, p + Width(tick));
      FoldVolume(f);
      TradedSingle(out[k].bar);
    } else {
      OutsideProjection(cs, product, w, tick, p);
    }
  }

  lemma TradedSingle(b: Bar)
    ensures Traded([b]) == if b.volume != 0.0 then [b] else []
  {
    assert [b][..0] == [];
  }

  lemma FoldOfRunPositive(cs: seq<Candle>, lo: int, hi: int)
    requires PositiveCandles(cs)
    ensures var b := FoldBars(BarsWithin(Prints(cs), lo, hi)); b.volume != 0.0 ==> Positive(b)
  {
    BarsWithinPositive(Prints(cs), lo, hi);
    if BarsWithin(Prints(cs), lo, hi) != [] {
      FoldSummarises(BarsWithin(Prints(cs), lo, hi));
    }
  }

  /** The traded candles of a reprojection summarise the run they come from. */
  lemma ProjectionCoarsens(cs: seq<Candle>, product: Product, w: nat, tick: nat, lo: int, hi: int)
    requires CandleRun(cs, product, w) && tick >= 1 && Divides(w, tick) && cs != []
    requires PositiveCandles(cs) && TradedCandles(cs)
    ensures CandleRun(NonEmpty(ProjectedCandles(cs, product, tick)), product, tick)
    ensures Coarsens(Prints(NonEmpty(ProjectedCandles(cs, product, tick))), Prints(cs), tick, lo, hi)
  {
    var out := ProjectedCandles(cs, product, tick);
    var mid := NonEmpty(out);
    ProjectedRun(cs, product, w, tick);
    NonEmptyRun(out, product, tick);
    forall i | 0 <= i < |mid| ensures Positive(mid[i].bar) {
      NonEmptyMembers(out);
      assert mid[i] in out;
      FoldOfRunPositive(cs, mid[i].start, mid[i].end);
    }
    forall p {:trigger Aligned(p, tick)} | Aligned(p, tick) && lo <= p < hi
      ensures BarsWithin(Prints(mid), p, p + Width(tick)) == Summary(BarsWithin(Prints(cs), p, p + Width(tick)))
    {
      ProjectionCoarsensAt(cs, product, w, tick, p);
    }
  }

  lemma EndsSurvive(cs: seq<Candle>, product: Product, w: nat, tick: nat)
    requires CandleRun(cs, product, w) && tick >= 1 && Divides(w, tick) && cs != []
    requires TradedCandles(cs)
    ensures var mid := NonEmpty(ProjectedCandles(cs, product, tick));
            mid != [] && mid[0].start == FirstBucket(cs, tick) && mid[|mid| - 1].start == LastBucket(cs, tick)
  {
    var out := ProjectedCandles(cs, product, tick);
    ProjectedRun(cs, product, w, tick);
    EndTraded(cs, product, tick, 0, out[0]);
    EndTraded(cs, product, tick, |cs| - 1, out[|out| - 1]);
    NonEmptyEnds(out);
  }

  lemma EndTraded(cs: seq<Candle>, product: Product, tick: nat, i: nat, c: Candle)
    requires i < |cs| && tick >= 1 && TradedCandles(cs) && cs[i].start >= 0
    requires c.start == CandlestickBucket(cs[i].start, tick) && c.end == c.start + Width(tick)
    requires c.bar == FoldBars(BarsWithin(Prints(cs), c.start, c.end))
    ensures c.bar.volume != 0.0
  {
    BucketContains(cs[i].start, tick);
    BarsWithinSome(Prints(cs), c.start, c.end, i);
    TradedVolume(Prints(cs), c.start, c.end);
    FoldVolume(BarsWithin(Prints(cs), c.start, c.end));
  }

  lemma {:induction false} SameBucketCandle(cs: seq<Candle>, mid: seq<Candle>, product: Product, w: nat, a: nat,
                                            b: nat, p: int)
    requires CandleRun(cs, product, w) && CandleRun(mid, product, a) && Divides(w, b) && Divides(a, b) && b >= 1
    requires Aligned(p, b) && Coarsens(Prints(mid), Prints(cs), a, p, p + Width(b))
    ensures BucketCandle(mid, product, p, b) == BucketCandle(cs, product, p, b)
  {
    NextAligned(p, b);
    AlignedNested(p, a, b);
    AlignedNested(p + Width(b), a, b);
    CoarsenedFold(Prints(mid), Prints(cs), a, p, p + Width(b), p, p + Width(b));
    BucketCandleOfRun(cs, product, w, b, p);
    BucketCandleOfRun(mid, product, a, b, p);
  }

  lemma ComposesAt(cs: seq<Candle>, product: Product, w: nat, a: nat, b: nat, k: nat)
    requires CandleRun(cs, product, w) && cs != [] && PositiveCandles(cs) && TradedCandles(cs)
    requires a >= 1 && b >= 1 && Divides(w, a) && Divides(a, b)
    requires k < |ProjectedCandles(cs, product, b)|
    ensures var p := BucketAt(FirstBucket(cs, b), k, b);
            BucketCandle(NonEmpty(ProjectedCandles(cs, product, a)), product, p, b) == BucketCandle(cs, product, p, b)
  {
    DividesTransitive(w, a, b);
    EndsSurvive(cs, product, w, a);
    BucketContains(cs[0].start, b);
    var lo := FirstBucket(cs, b);
    BucketAtAligned(lo, k, b);
    hide BarsWithin, CandlestickBucket;
    var p := BucketAt(lo, k, b);
    ProjectionCoarsens(cs, product, w, a, p, p + Width(b));
    SameBucketCandle(cs, NonEmpty(ProjectedCandles(cs, product, a)), product, w, a, b, p);
  }

  /** When a divides b: reprojecting to a, dropping the untraded candles, and reprojecting to b
      gives the same candles as reprojecting straight to b. */
  lemma ReprojectionComposes(cs: seq<Candle>, product: Product, w: nat, a: nat, b: nat)
    requires CandleRun(cs, product, w) && cs != [] && PositiveCandles(cs) && TradedCandles(cs)
    requires a >= 1 && b >= 1 && Divides(w, a) && Divides(a, b)
    ensures var mid := NonEmpty(ProjectedCandles(cs, product, a));
            mid != [] && ProjectedCandles(mid, product, b) == ProjectedCandles(cs, product, b)
  {
    hide BarsWithin, CandlestickBucket, NonEmpty, BucketCandle, PositiveCandles, TradedCandles;
    EndsSurvive(cs, product, w, a);
    BucketNested(cs[0].start, a, b);
    BucketNested(cs[|cs| - 1].start, a, b);
    forall k | 0 <= k < |ProjectedCandles(cs, product, b)|
      ensures var p := BucketAt(FirstBucket(cs, b), k, b);
              BucketCandle(NonEmpty(ProjectedCandles(cs, product, a)), product, p, b) == BucketCandle(cs, product, p, b)
    {
      ComposesAt(cs, product, w, a, b, k);
    }
    var mid := NonEmpty(ProjectedCandles(cs, product, a));
    assert ProjectedCandles(mid, product, b) == ProjectedCandles(cs, product, b);
  }
}
