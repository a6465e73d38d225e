/** Reprojection as a group-by, and why regrouping in two passes is regrouping in one. */
module Coarsening {
  import opened Grid
  import opened Candlesticks
  import opened Reprojection

  /** Candles of one product, one grid width long each, in ascending order. */
  predicate CandleRun(cs: seq<Candle>, product: Product, w: nat) {
    && w >= 1
    && (forall i :: 0 <= i < |cs| ==>
          cs[i].product == product && Aligned(cs[i].start, w) && cs[i].end == cs[i].start + Width(w))
    && (forall i, j :: 0 <= i < j < |cs| ==> cs[i].start < cs[j].start)
  }

  predicate PositiveCandles(cs: seq<Candle>) {
    forall i :: 0 <= i < |cs| ==> Positive(cs[i].bar)
  }

  predicate TradedCandles(cs: seq<Candle>) {
    forall i :: 0 <= i < |cs| ==> cs[i].bar.volume > 0.0
  }

  function Prints(cs: seq<Candle>): (ps: seq<Print>)
    ensures |ps| == |cs|
  {
    seq(|cs|, i requires 0 <= i < |cs| => Print(cs[i].start, cs[i].bar))
  }

  function Bars(cs: seq<Candle>): (bs: seq<Bar>)
    ensures |bs| == |cs|
  {
    seq(|cs|, i requires 0 <= i < |cs| => cs[i].bar)
  }

  /** The candles something was traded in. */
  function NonEmpty(cs: seq<Candle>): seq<Candle> {
    if cs == [] then []
    else
      var rest := NonEmpty(cs[..|cs| - 1]);
      if cs[|cs| - 1].bar.volume != 0.0 then rest + [cs[|cs| - 1]] else rest
  }

  function Traded(bs: seq<Bar>): seq<Bar> {
    if bs == [] then []
    else
      var rest := Traded(bs[..|bs| - 1]);
      if bs[|bs| - 1].volume != 0.0 then rest + [bs[|bs| - 1]] else rest
  }

  // ---------- the buckets of a run ----------

  lemma PrintsFront(cs: seq<Candle>)
    requires cs != []
    ensures Prints(cs)[..|cs| - 1] == Prints(cs[..|cs| - 1])
    ensures Prints(cs)[|cs| - 1] == Print(cs[|cs| - 1].start, cs[|cs| - 1].bar)
  {
  }

  /** In a run, what reaches a bucket's builder is exactly what starts within the bucket. */
  lemma {:induction false} GroupedIsWithin(cs: seq<Candle>, product: Product, w: nat, b: int, tick: nat)
    requires CandleRun(cs, product, w) && Divides(w, tick) && Aligned(b, tick)
    ensures Grouped(cs, product, b, tick) == BarsWithin(Prints(cs), b, b + Width(tick))
  {
    if cs != [] {
      GroupedIsWithin(cs[..|cs| - 1], product, w, b, tick);
      PrintsFront(cs);
      var c := cs[|cs| - 1];
      InBucketIff(b, c.start, tick);
      BucketFits(c.start, w, tick);
    }
  }

  lemma {:induction false} BarsWithinOne(ps: seq<Print>, lo: int, hi: int, k: nat)
    requires k < |ps| && lo <= ps[k].at < hi
    requires forall i :: 0 <= i < |ps| && i != k ==> !(lo <= ps[i].at < hi)
    ensures BarsWithin(ps, lo, hi) == [ps[k].bar]
  {
    if k == |ps| - 1 {
      BarsWithinNone(ps[..|ps| - 1], lo, hi);
    } else {
      BarsWithinOne(ps[..|ps| - 1], lo, hi, k);
    }
  }

  lemma {:induction false} BarsWithinAll(cs: seq<Candle>, lo: int, hi: int)
    requires forall i :: 0 <= i < |cs| ==> lo <= cs[i].start < hi
    ensures BarsWithin(Prints(cs), lo, hi) == Bars(cs)
  {
    if cs != [] {
      PrintsFront(cs);
      BarsWithinAll(cs[..|cs| - 1], lo, hi);
    }
  }

  lemma {:induction false} BucketAtAligned(lo: int, k: nat, tick: nat)
    requires Aligned(lo, tick)
    ensures Aligned(BucketAt(lo, k, tick), tick)
  {
    if k > 0 {
      BucketAtAligned(lo, k - 1, tick);
      NextAligned(BucketAt(lo, k - 1, tick), tick);
    }
  }

  lemma {:induction false} BucketAtIncreases(lo: int, i: nat, j: nat, tick: nat)
    requires tick >= 1 && i < j
    ensures BucketAt(lo, i, tick) + Width(tick) <= BucketAt(lo, j, tick)
  {
    if i < j - 1 {
      BucketAtIncreases(lo, i, j - 1, tick);
    }
  }

  lemma RunInRange(cs: seq<Candle>, product: Product, w: nat, tick: nat)
    requires CandleRun(cs, product, w) && tick >= 1 && Divides(w, tick) && cs != []
    ensures BucketsInRange(cs, tick, FirstBucket(cs, tick), LastBucket(cs, tick))
    ensures 0 <= FirstBucket(cs, tick) <= LastBucket(cs, tick)
  {
    BucketContains(cs[0].start, tick);
    forall i | 0 <= i < |cs|
      ensures FirstBucket(cs, tick) <= CandlestickBucket(cs[i].start, tick) <= LastBucket(cs, tick)
    {
      if 0 < i { BucketMonotone(cs[0].start, cs[i].start, tick); }
      if i < |cs| - 1 { BucketMonotone(cs[i].start, cs[|cs| - 1].start, tick); }
    }
  }

  lemma LastOfProjected(lo: int, hi: int, tick: nat)
    requires OnGrid(lo, tick) && OnGrid(hi, tick) && lo <= hi
    ensures var n := BucketCount(lo, hi, tick); n >= 1 && BucketAt(lo, n - 1, tick) == hi
  {
    var k := GridSteps(lo, hi, tick);
    BucketAtBounds(lo, hi, k, tick);
    BucketAtBounds(lo, hi, k + 1, tick);
  }

  /** Candles that cover the grid points from lo to hi, each ending where the next one starts. */
  ghost predicate Tiles(out: seq<Candle>, lo: int, hi: int, tick: nat) {
    && out != [] && out[0].start == lo && out[|out| - 1].start == hi
    && (forall k :: 0 <= k < |out| ==> out[k].end == out[k].start + Width(tick))
    && (forall i, j :: 0 <= i && j == i + 1 && j < |out| ==> out[j].start == out[i].end)
  }

  ghost predicate HoldsGroups(out: seq<Candle>, cs: seq<Candle>) {
    forall k :: 0 <= k < |out| ==> out[k].bar == FoldBars(BarsWithin(Prints(cs), out[k].start, out[k].end))
  }

  lemma {:induction false} ProjectedAt(cs: seq<Candle>, product: Product, tick: nat, k: nat)
    requires cs != [] && tick >= 1 && k < |ProjectedCandles(cs, product, tick)|
    ensures ProjectedCandles(cs, product, tick)[k]
         == BucketCandle(cs, product, BucketAt(FirstBucket(cs, tick), k, tick), tick)
  {
  }

  lemma BucketCandleOfRun(cs: seq<Candle>, product: Product, w: nat, tick: nat, b: int)
    requires CandleRun(cs, product, w) && Divides(w, tick) && Aligned(b, tick)
    ensures BucketCandle(cs, product, b, tick)
         == BuildCandle(product, b, b + Width(tick), FoldBars(BarsWithin(Prints(cs), b, b + Width(tick))))
  {
    GroupedIsWithin(cs, product, w, b, tick);
  }

  lemma RunProjectsTo(cs: seq<Candle>, product: Product, w: nat, tick: nat, k: nat)
    requires CandleRun(cs, product, w) && tick >= 1 && Divides(w, tick) && cs != []
    requires k < |ProjectedCandles(cs, product, tick)|
    ensures var c, b := ProjectedCandles(cs, product, tick)[k], BucketAt(FirstBucket(cs, tick), k, tick);
            && Aligned(b, tick)
            && c == BuildCandle(product, b, b + Width(tick), FoldBars(BarsWithin(Prints(cs), b, b + Width(tick))))
  {
    hide BucketCount, BucketAt;
    var lo := FirstBucket(cs, tick);
    BucketContains(cs[0].start, tick);
    BucketAtAligned(lo, k, tick);
    ProjectedAt(cs, product, tick, k);
    BucketCandleOfRun(cs, product, w, tick, BucketAt(lo, k, tick));
  }

  lemma SpacedTiles(out: seq<Candle>, product: Product, lo: int, hi: int, tick: nat)
    requires tick >= 1 && OnGrid(lo, tick) && OnGrid(hi, tick) && lo <= hi && |out| == BucketCount(lo, hi, tick)
    requires forall k :: 0 <= k < |out| ==> out[k].start == BucketAt(lo, k, tick) && Aligned(out[k].start, tick)
    requires forall k :: 0 <= k < |out| ==> out[k].end == out[k].start + Width(tick) && out[k].product == product
    ensures CandleRun(out, product, tick) && Tiles(out, lo, hi, tick)
  {
    LastOfProjected(lo, hi, tick);
    forall i, j | 0 <= i < j < |out| ensures out[i].start < out[j].start {
      BucketAtIncreases(lo, i, j, tick);
    }
  }

  /** What reprojecting a run gives: one candle per bucket from the first to the last, in order
      and end to start, each holding the fold of the bars that start within it. */
  lemma ProjectedRun(cs: seq<Candle>, product: Product, w: nat, tick: nat)
    requires CandleRun(cs, product, w) && tick >= 1 && Divides(w, tick) && cs != []
    ensures var out := ProjectedCandles(cs, product, tick);
            && CandleRun(out, product, tick)
            && Tiles(out, FirstBucket(cs, tick), LastBucket(cs, tick), tick)
            && HoldsGroups(out, cs)
  {
    hide BarsWithin;
    var out, lo, hi := ProjectedCandles(cs, product, tick), FirstBucket(cs, tick), LastBucket(cs, tick);
    RunInRange(cs, product, w, tick);
    BucketOnGrid(cs[0].start, tick);
    BucketOnGrid(cs[|cs| - 1].start, tick);
    forall k | 0 <= k < |out|
      ensures out[k].start == BucketAt(lo, k, tick) && Aligned(out[k].start, tick)
      ensures out[k].end == out[k].start + Width(tick) && out[k].product == product
      ensures out[k].bar == FoldBars(BarsWithin(Prints(cs), out[k].start, out[k].end))
    {
      RunProjectsTo(cs, product, w, tick, k);
    }
    SpacedTiles(out, product, lo, hi, tick);
  }

  // ---------- volume is conserved ----------

  lemma {:induction false} VolumeOfGroups(out: seq<Candle>, ps: seq<Print>, lo: int, tick: nat)
    requires Ascending(ps)
    requires out != [] && Tiles(out, lo, out[|out| - 1].start, tick)
    requires forall k :: 0 <= k < |out| ==> out[k].bar.volume == TotalVolume(BarsWithin(ps, out[k].start, out[k].end))
    ensures lo <= out[|out| - 1].start
    ensures TotalVolume(Bars(out)) == TotalVolume(BarsWithin(ps, lo, out[|out| - 1].end))
  {
    var front, last := out[..|out| - 1], out[|out| - 1];
    assert Bars(out)[..|out| - 1] == Bars(front);
    if front == [] {
      assert Bars(out) == [last.bar];
    } else {
      assert front[|front| - 1] == out[|out| - 2];
      VolumeOfGroups(front, ps, lo, tick);
      BarsWithinSplit(ps, lo, last.start, last.end);
      TotalVolumeConcat(BarsWithin(ps, lo, last.start), BarsWithin(ps, last.start, last.end));
    }
  }

  lemma {:induction false} FoldVolume(bs: seq<Bar>)
    ensures FoldBars(bs).volume == TotalVolume(bs)
  {
    if bs != [] {
      FoldVolume(bs[..|bs| - 1]);
    }
  }

  /** Each candle says of the bars that start within it what a candle should say; a candle with
      no such bars is all zeros. */
  ghost predicate SummarisesGroups(out: seq<Candle>, ps: seq<Print>) {
    forall k :: 0 <= k < |out| ==>
      var group := BarsWithin(ps, out[k].start, out[k].end);
      if group == [] then out[k].bar == EMPTY else Summarises(out[k].bar, group)
  }

  /** A candle points up exactly when it closes no lower than it opens. */
  predicate Directed(cs: seq<Candle>) {
    forall k :: 0 <= k < |cs| ==> (cs[k].direction == Up <==> cs[k].bar.open <= cs[k].bar.close)
  }

  lemma GroupsSummarised(out: seq<Candle>, cs: seq<Candle>)
    requires PositiveCandles(cs) && HoldsGroups(out, cs)
    ensures SummarisesGroups(out, Prints(cs))
  {
    forall k | 0 <= k < |out|
      ensures var group := BarsWithin(Prints(cs), out[k].start, out[k].end);
              if group == [] then out[k].bar == EMPTY else Summarises(out[k].bar, group)
    {
      BarsWithinPositive(Prints(cs), out[k].start, out[k].end);
      if BarsWithin(Prints(cs), out[k].start, out[k].end) != [] {
        FoldSummarises(BarsWithin(Prints(cs), out[k].start, out[k].end));
      }
    }
  }

  lemma GroupVolumes(out: seq<Candle>, cs: seq<Candle>)
    requires HoldsGroups(out, cs)
    ensures forall k :: 0 <= k < |out| ==>
              out[k].bar.volume == TotalVolume(BarsWithin(Prints(cs), out[k].start, out[k].end))
  {
    forall k | 0 <= k < |out|
      ensures out[k].bar.volume == TotalVolume(BarsWithin(Prints(cs), out[k].start, out[k].end))
    {
      FoldVolume(BarsWithin(Prints(cs), out[k].start, out[k].end));
    }
  }

  lemma VolumeConserved(out: seq<Candle>, cs: seq<Candle>, lo: int, hi: int, tick: nat)
    requires Ascending(Prints(cs))
    requires Tiles(out, lo, hi, tick) && HoldsGroups(out, cs)
    requires forall i :: 0 <= i < |cs| ==> lo <= cs[i].start < hi + Width(tick)
    ensures TotalVolume(Bars(out)) == TotalVolume(Bars(cs))
  {
    GroupVolumes(out, cs);
    hide BarsWithin, TotalVolume, Ascending, HoldsGroups, FoldBars, Prints;
    VolumeOfGroups(out, Prints(cs), lo, tick);
    BarsWithinAll(cs, lo, hi + Width(tick));
  }

  lemma ProjectedDirected(cs: seq<Candle>, product: Product, tick: nat)
    requires cs != [] && tick >= 1
    ensures Directed(ProjectedCandles(cs, product, tick))
  {
    hide FoldBars, Grouped;
  }

  /** Reprojection is a group-by: the output tiles the span from the first bucket to the last,
      with (last - first) / width + 1 candles; every candle in whose bucket something starts has
      that bucket's first open, last close, least low and greatest high; every other candle is
      all zeros; a candle points up exactly when it does not close lower; and no volume is lost or
      added. */
  lemma ReprojectionIsGroupBy(cs: seq<Candle>, product: Product, w: nat, tick: nat)
    requires CandleRun(cs, product, w) && tick >= 1 && Divides(w, tick) && cs != [] && PositiveCandles(cs)
    ensures BucketsInRange(cs, tick, FirstBucket(cs, tick), LastBucket(cs, tick))
    ensures var out, lo, hi := ProjectedCandles(cs, product, tick), FirstBucket(cs, tick), LastBucket(cs, tick);
            && |out| == (hi - lo) / Width(tick) + 1
            && Tiles(out, lo, hi, tick)
            && SummarisesGroups(out, Prints(cs)) && Directed(out)
            && TotalVolume(Bars(out)) == TotalVolume(Bars(cs))
  {
    hide BarsWithin, CandlestickBucket;
    var out := ProjectedCandles(cs, product, tick);
    RunInRange(cs, product, w, tick);
    BucketCountClosed(FirstBucket(cs, tick), LastBucket(cs, tick), tick);
    ProjectedRun(cs, product, w, tick);
    ProjectedDirected(cs, product, tick);
    GroupsSummarised(out, cs);
    SpanCovers(cs, product, w, tick);
    VolumeConserved(out, cs, FirstBucket(cs, tick), LastBucket(cs, tick), tick);
  }

  lemma SpanCovers(cs: seq<Candle>, product: Product, w: nat, tick: nat)
    requires CandleRun(cs, product, w) && tick >= 1 && Divides(w, tick) && cs != []
    ensures forall i :: 0 <= i < |cs| ==> FirstBucket(cs, tick) <= cs[i].start < LastBucket(cs, tick) + Width(tick)
  {
    RunInRange(cs, product, w, tick);
    forall i | 0 <= i < |cs|
      ensures FirstBucket(cs, tick) <= cs[i].start < LastBucket(cs, tick) + Width(tick)
    {
      BucketContains(cs[i].start, tick);
    }
  }

  // ---------- coarser runs that summarise finer ones ----------

  function Summary(bs: seq<Bar>): seq<Bar> {
    if bs == [] then [] else [FoldBars(bs)]
  }

  /** On the span from lo to hi, coarse has one bar for each bucket of width w that has any fine
      bars, namely their fold, and none for the others. */
  ghost predicate Coarsens(coarse: seq<Print>, fine: seq<Print>, w: nat, lo: int, hi: int) {
    && Ascending(coarse) && PrintsPositive(coarse)
    && Ascending(fine) && PrintsPositive(fine)
    && (forall p {:trigger Aligned(p, w)} :: Aligned(p, w) && lo <= p < hi ==>
          BarsWithin(coarse, p, p + Width(w)) == Summary(BarsWithin(fine, p, p + Width(w))))
  }

  /** Folding a coarser run over any whole number of its buckets is folding the finer run. */
  lemma {:induction false} CoarsenedFold(coarse: seq<Print>, fine: seq<Print>, w: nat, lo: int, hi: int, p: int, q: int)
    requires Coarsens(coarse, fine, w, lo, hi)
    requires Aligned(p, w) && Aligned(q, w) && lo <= p <= q <= hi
    ensures FoldBars(BarsWithin(coarse, p, q)) == FoldBars(BarsWithin(fine, p, q))
    ensures BarsWithin(coarse, p, q) == [] <==> BarsWithin(fine, p, q) == []
    decreases q - p
  {
    if p == q {
      BarsWithinNone(coarse, p, q);
      BarsWithinNone(fine, p, q);
    } else {
      var mid := p + Width(w);
      AlignedApart(p, q, w);
      NextAligned(p, w);
      CoarsenedFold(coarse, fine, w, lo, hi, mid, q);
      BarsWithinSplit(coarse, p, mid, q);
      BarsWithinSplit(fine, p, mid, q);
      BarsWithinPositive(coarse, mid, q);
      BarsWithinPositive(fine, p, mid);
      BarsWithinPositive(fine, mid, q);
      FoldConcat(BarsWithin(coarse, p, mid), BarsWithin(coarse, mid, q));
      FoldConcat(BarsWithin(fine, p, mid), BarsWithin(fine, mid, q));
      SummaryFold(BarsWithin(fine, p, mid));
    }
  }

  lemma SummaryFold(bs: seq<Bar>)
    requires AllPositive(bs)
    ensures FoldBars(Summary(bs)) == FoldBars(bs)
  {
    if bs != [] {
      FoldSummarises(bs);
      assert Summary(bs)[..0] == [];
    }
  }
}
