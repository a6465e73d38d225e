/** Regrouping candles onto a coarser grid. */
module Reprojection {
  import opened Grid
  import opened Candlesticks

  datatype ReprojectError = NoCandles | MissingBuilder(start: int)
  datatype Reprojected = Projected(candles: seq<Candle>) | Failed(error: ReprojectError)

  // ---------- specification ----------

  /** How many grid points there are from lo to hi. */
  function BucketCount(lo: int, hi: int, tick: nat): nat
    requires tick >= 1
    decreases hi - lo
  {
    if hi < lo then 0 else 1 + BucketCount(lo + Width(tick), hi, tick)
  }

  /** The k-th grid point from lo on. */
  function BucketAt(lo: int, k: nat, tick: nat): int {
    if k == 0 then lo else BucketAt(lo, k - 1, tick) + Width(tick)
  }

  /** The bars, in order, that reach the builder of bucket b and are accepted by it. */
  function Grouped(cs: seq<Candle>, product: Product, b: int, tick: nat): seq<Bar>
    requires tick >= 1
  {
    if cs == [] then []
    else
      var rest := Grouped(cs[..|cs| - 1], product, b, tick);
      var c := cs[|cs| - 1];
      if CandlestickBucket(c.start, tick) == b && AcceptsCandle(product, b, b + Width(tick), c)
      then rest + [c.bar] else rest
  }

  function BucketCandle(cs: seq<Candle>, product: Product, b: int, tick: nat): Candle
    requires tick >= 1
  {
    BuildCandle(product, b, b + Width(tick), FoldBars(Grouped(cs, product, b, tick)))
  }

  predicate BucketsInRange(cs: seq<Candle>, tick: nat, lo: int, hi: int)
    requires tick >= 1
  {
    forall i :: 0 <= i < |cs| ==> lo <= CandlestickBucket(cs[i].start, tick) <= hi
  }

  function FirstBucket(cs: seq<Candle>, tick: nat): int
    requires cs != [] && tick >= 1
  {
    CandlestickBucket(cs[0].start, tick)
  }

  function LastBucket(cs: seq<Candle>, tick: nat): int
    requires cs != [] && tick >= 1
  {
    CandlestickBucket(cs[|cs| - 1].start, tick)
  }

  function ProjectedCandles(cs: seq<Candle>, product: Product, tick: nat): seq<Candle>
    requires cs != [] && tick >= 1
  {
    var lo := FirstBucket(cs, tick);
    seq(BucketCount(lo, LastBucket(cs, tick), tick),
        k requires k >= 0 => BucketCandle(cs, product, BucketAt(lo, k, tick), tick))
  }

  // ---------- the code ----------

  lemma {:induction false} BucketAtShift(lo: int, k: nat, tick: nat)
    ensures BucketAt(lo + Width(tick), k, tick) == BucketAt(lo, k + 1, tick)
  {
    if k > 0 {
      BucketAtShift(lo, k - 1, tick);
    }
  }

  /** The k-th grid point is within bounds exactly when k is below the count. */
  lemma {:induction false} BucketAtBounds(lo: int, hi: int, k: nat, tick: nat)
    requires tick >= 1
    ensures lo <= BucketAt(lo, k, tick)
    ensures BucketAt(lo, k, tick) <= hi <==> k < BucketCount(lo, hi, tick)
    decreases k
  {
    if k > 0 {
      BucketAtShift(lo, k - 1, tick);
      BucketAtBounds(lo + Width(tick), hi, k - 1, tick);
    }
  }

  lemma {:induction false} GridSteps(p: int, q: int, tick: nat) returns (k: nat)
    requires OnGrid(p, tick) && OnGrid(q, tick) && p <= q
    ensures q == BucketAt(p, k, tick)
    decreases q - p
  {
    if p == q {
      k := 0;
    } else {
      OnGridStep(p, q, tick);
      k := GridSteps(p + Width(tick), q, tick);
      BucketAtShift(p, k, tick);
      k := k + 1;
    }
  }

  /** The number of buckets between two grid points, in closed form. */
  lemma {:induction false} BucketCountClosed(lo: int, hi: int, tick: nat)
    requires tick >= 1 && lo <= hi
    ensures BucketCount(lo, hi, tick) == (hi - lo) / Width(tick) + 1
    decreases hi - lo
  {
    var w := Width(tick);
    if hi < lo + w {
      DivUnique(hi - lo, w, 0);
    } else {
      BucketCountClosed(lo + w, hi, tick);
      var rest := hi - (lo + w);
      DivStep(rest, w);
      assert rest + w == hi - lo;
    }
  }

  /** The buckets between the first and the last candle's; the loop fills them in ascending order. */
  method AllocateBuilders(product: Product, start: int, end: int, tick: nat)
    returns (buckets: seq<int>, builders: map<int, CandlestickBuilder>)
    requires tick >= 1
    ensures |buckets| == BucketCount(start, end, tick)
    ensures forall k :: 0 <= k < |buckets| ==> buckets[k] == BucketAt(start, k, tick)
    ensures forall b :: b in builders <==> b in buckets
    ensures forall b :: b in builders ==> fresh(builders[b])
    ensures BuildersHold(builders, [], product, tick)
  {
    buckets, builders := [], map[];
    NothingGrouped(product, tick);
    assert FoldBars([]) == EMPTY;
    var i := start;
    while i <= end
      invariant i == BucketAt(start, |buckets|, tick)
      invariant buckets != [] ==> buckets[|buckets| - 1] <= end
      invariant forall k :: 0 <= k < |buckets| ==> buckets[k] == BucketAt(start, k, tick)
      invariant forall b :: b in builders <==> b in buckets
      invariant forall b :: b in builders ==> fresh(builders[b])
      invariant BuildersHold(builders, [], product, tick)
      decreases end - i
    {
      buckets := buckets + [i];
      var builder := new CandlestickBuilder(product, i, i + Width(tick));
      builders := builders[i := builder];
      i := i + Width(tick);
    }
    BucketAtBounds(start, end, |buckets|, tick);
    if |buckets| > 0 {
      BucketAtBounds(start, end, |buckets| - 1, tick);
    }
  }

  ghost predicate BuildersHold(builders: map<int, CandlestickBuilder>, cs: seq<Candle>, product: Product, tick: nat)
    requires tick >= 1
    reads builders.Values
  {
    forall b :: b in builders ==>
      && builders[b].productType == product
      && builders[b].startTime == b && builders[b].endTime == b + Width(tick)
      && builders[b].Contents() == FoldBars(Grouped(cs, product, b, tick))
  }

  lemma NothingGrouped(product: Product, tick: nat)
    requires tick >= 1
    ensures forall b :: Grouped([], product, b, tick) == []
  {
  }

  lemma GroupedGrows(cs: seq<Candle>, j: nat, product: Product, b: int, tick: nat)
    requires tick >= 1 && j < |cs|
    ensures FoldBars(Grouped(cs[..j + 1], product, b, tick)) ==
            var fold := FoldBars(Grouped(cs[..j], product, b, tick));
            if CandlestickBucket(cs[j].start, tick) == b && AcceptsCandle(product, b, b + Width(tick), cs[j])
            then AddBar(fold, cs[j].bar) else fold
  {
    hide AddBar, CandlestickBucket;
    assert cs[..j + 1][..j] == cs[..j];
    var grouped := Grouped(cs[..j], product, b, tick);
    assert (grouped + [cs[j].bar])[..|grouped|] == grouped;
  }

  method FeedBuilder(builders: map<int, CandlestickBuilder>, cs: seq<Candle>, j: nat, product: Product, tick: nat)
    requires tick >= 1 && j < |cs| && CandlestickBucket(cs[j].start, tick) in builders
    requires BuildersHold(builders, cs[..j], product, tick)
    modifies builders[CandlestickBucket(cs[j].start, tick)]
    ensures BuildersHold(builders, cs[..j + 1], product, tick)
  {
    hide AddBar, CandlestickBucket, FoldBars, Grouped;
    builders[CandlestickBucket(cs[j].start, tick)].ProcessCandlestickModel(cs[j]);
    forall b | b in builders {
      GroupedGrows(cs, j, product, b, tick);
    }
  }

  /** Feeds the candles in order; stops at the first whose bucket has no builder. */
  method FeedBuilders(builders: map<int, CandlestickBuilder>, cs: seq<Candle>, product: Product, tick: nat)
    returns (fed: nat)
    requires tick >= 1 && BuildersHold(builders, [], product, tick)
    modifies set b | b in builders :: builders[b]
    ensures fed <= |cs| && BuildersHold(builders, cs[..fed], product, tick)
    ensures forall i :: 0 <= i < fed ==> CandlestickBucket(cs[i].start, tick) in builders
    ensures fed < |cs| ==> CandlestickBucket(cs[fed].start, tick) !in builders
  {
    fed := 0;
    while fed < |cs|
      invariant fed <= |cs| && BuildersHold(builders, cs[..fed], product, tick)
      invariant forall i :: 0 <= i < fed ==> CandlestickBucket(cs[i].start, tick) in builders
    {
      if CandlestickBucket(cs[fed].start, tick) !in builders {
        return;
      }
      FeedBuilder(builders, cs, fed, product, tick);
      fed := fed + 1;
    }
  }

  method BuildAll(builders: map<int, CandlestickBuilder>, buckets: seq<int>, cs: seq<Candle>, product: Product,
                  tick: nat)
    returns (response: seq<Candle>)
    requires tick >= 1 && BuildersHold(builders, cs, product, tick)
    requires forall b :: b in buckets ==> b in builders
    ensures |response| == |buckets|
    ensures forall k :: 0 <= k < |buckets| ==> response[k] == BucketCandle(cs, product, buckets[k], tick)
  {
    response := [];
    for k := 0 to |buckets|
      invariant |response| == k
      invariant forall i :: 0 <= i < k ==> response[i] == BucketCandle(cs, product, buckets[i], tick)
    {
      assert buckets[k] in buckets;
      var candlestick := builders[buckets[k]].Build();
      response := response + [candlestick];
    }
  }

  /** The first candle whose bucket is not between those of the first and the last candle. */
  predicate FirstOutOfRange(cs: seq<Candle>, tick: nat, i: int)
    requires tick >= 1 && cs != []
  {
    && 0 <= i < |cs|
    && !(FirstBucket(cs, tick) <= CandlestickBucket(cs[i].start, tick) <= LastBucket(cs, tick))
    && BucketsInRange(cs[..i], tick, FirstBucket(cs, tick), LastBucket(cs, tick))
  }

  /** Fails on no candles, or at the first candle that has no builder; otherwise gives the projection. */
  method ReprojectCandlesticks(cs: seq<Candle>, product: Product, tick: nat) returns (r: Reprojected)
    requires tick >= 1
    ensures cs == [] <==> r == Failed(NoCandles)
    ensures r.Failed? && cs != [] ==>
              exists i :: FirstOutOfRange(cs, tick, i) && r.error == MissingBuilder(cs[i].start)
    ensures r.Projected? ==>
              && BucketsInRange(cs, tick, FirstBucket(cs, tick), LastBucket(cs, tick))
              && r.candles == ProjectedCandles(cs, product, tick)
  {
    if |cs| == 0 {
      return Failed(NoCandles);
    }
    var start := CandlestickBucket(cs[0].start, tick);
    var end := CandlestickBucket(cs[|cs| - 1].start, tick);
    var buckets, builders := AllocateBuilders(product, start, end, tick);
    var fed := FeedBuilders(builders, cs, product, tick);
    forall i | 0 <= i < |cs|
      ensures start <= CandlestickBucket(cs[i].start, tick) <= end
         <==> CandlestickBucket(cs[i].start, tick) in builders
    {
      ListedIffInRange(cs[0].start, cs[i].start, end, buckets, tick);
    }
    if fed < |cs| {
      assert FirstOutOfRange(cs, tick, fed);
      return Failed(MissingBuilder(cs[fed].start));
    }
    assert cs[..fed] == cs;
    var response := BuildAll(builders, buckets, cs, product, tick);
    ProjectedAre(cs, product, tick, buckets, response);
    return Projected(response);
  }

  lemma ProjectedAre(cs: seq<Candle>, product: Product, tick: nat, buckets: seq<int>, response: seq<Candle>)
    requires tick >= 1 && cs != []
    requires |response| == |buckets| == BucketCount(FirstBucket(cs, tick), LastBucket(cs, tick), tick)
    requires forall k :: 0 <= k < |buckets| ==> buckets[k] == BucketAt(FirstBucket(cs, tick), k, tick)
    requires forall k :: 0 <= k < |buckets| ==> response[k] == BucketCandle(cs, product, buckets[k], tick)
    ensures response == ProjectedCandles(cs, product, tick)
  {
    hide BucketCandle, BucketCount, BucketAt, FirstBucket, LastBucket;
  }

  /** A bucket of some time on the grid of lo is one of the listed buckets exactly when in range. */
  lemma ListedIffInRange(s: int, t: int, hi: int, buckets: seq<int>, tick: nat)
    requires tick >= 1
    requires var lo := CandlestickBucket(s, tick);
             && |buckets| == BucketCount(lo, hi, tick)
             && forall k :: 0 <= k < |buckets| ==> buckets[k] == BucketAt(lo, k, tick)
    ensures CandlestickBucket(t, tick) in buckets
       <==> CandlestickBucket(s, tick) <= CandlestickBucket(t, tick) <= hi
  {
    var lo, b := CandlestickBucket(s, tick), CandlestickBucket(t, tick);
    if b in buckets {
      var k :| 0 <= k < |buckets| && buckets[k] == b;
      BucketAtBounds(lo, hi, k, tick);
    }
    if lo <= b <= hi {
      BucketOnGrid(s, tick);
      BucketOnGrid(t, tick);
      var k := GridSteps(lo, b, tick);
      BucketAtBounds(lo, hi, k, tick);
      assert buckets[k] == b;
    }
  }
}
