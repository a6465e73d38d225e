/** The importer's two methods as written, and why calling them is a run of the step machine. */
module RealtimeImporterCode {
  import opened Grid
  import opened Candlesticks
  import opened SortedKeys
  import opened Writes
  import opened RealtimeImport

  // ---------- specification of the two methods ----------

  function AfterMessage(live: map<int, Bar>, product: Product, msg: ExchangeMessage): map<int, Bar> {
    var bucket := CandlestickBucket(msg.time, 1);
    var bar := if bucket in live then live[bucket] else EMPTY;
    live[bucket := if AcceptsMessage(product, bucket, bucket + MINUTE, msg) then AddBar(bar, TradeBar(msg)) else bar]
  }

  function MinuteOf(product: Product, key: int, bar: Bar): Candle {
    BuildCandle(product, key, key + MINUTE, bar)
  }

  /** What flushing one bucket does to the map and the store. */
  function FlushBucket(live: map<int, Bar>, store: Store, product: Product, key: int,
                       outcome: WriteOutcome): (map<int, Bar>, Store)
    requires key in live
  {
    if !(live[key].volume > 0.0) then (live - {key}, store)
    else
      match outcome
      case Succeeded => (live - {key}, store[(key, product) := MinuteOf(product, key, live[key])])
      case FailedUnwritten => (live, store)
      case FailedWritten => (live, store[(key, product) := MinuteOf(product, key, live[key])])
  }

  predicate AllLive(keys: seq<int>, live: set<int>) {
    Sorted(keys) && forall i :: 0 <= i < |keys| ==> keys[i] in live
  }

  /** Every bucket but the last is flushed, in order. */
  function AfterFlush(live: map<int, Bar>, store: Store, product: Product, keys: seq<int>,
                      outcomes: int -> WriteOutcome): (map<int, Bar>, Store)
    requires AllLive(keys, live.Keys)
    decreases |keys|
  {
    if |keys| < 2 then (live, store)
    else
      var after := FlushBucket(live, store, product, keys[0], outcomes(keys[0]));
      AfterFlush(after.0, after.1, product, keys[1..], outcomes)
  }

  lemma AfterFlushStep(live: map<int, Bar>, store: Store, product: Product, keys: seq<int>,
                       outcomes: int -> WriteOutcome)
    requires |keys| >= 2 && AllLive(keys, live.Keys)
    ensures var after := FlushBucket(live, store, product, keys[0], outcomes(keys[0]));
            && AllLive(keys[1..], after.0.Keys)
            && AfterFlush(live, store, product, keys, outcomes)
               == AfterFlush(after.0, after.1, product, keys[1..], outcomes)
  {
  }

  lemma ShortFlush(live: map<int, Bar>, store: Store, product: Product, keys: seq<int>,
                   outcomes: int -> WriteOutcome)
    requires |keys| < 2 && AllLive(keys, live.Keys)
    ensures AfterFlush(live, store, product, keys, outcomes) == (live, store)
  {
  }

  /** What a flush does to each bucket: the last one stays as it is; one without volume goes; one with
      volume is stored unless its upsert did not reach the database, and goes when it succeeded. */
  lemma {:induction false} FlushedEach(live: map<int, Bar>, store: Store, product: Product, keys: seq<int>,
                                       outcomes: int -> WriteOutcome, k: int)
    requires AllLive(keys, live.Keys) && k in live
    ensures var after, key := AfterFlush(live, store, product, keys, outcomes), (k, product);
            var flushed := |keys| >= 2 && k in keys && k != keys[|keys| - 1];
            && (k in after.0 <==> !flushed || (live[k].volume > 0.0 && outcomes(k) != Succeeded))
            && (k in after.0 ==> after.0[k] == live[k])
            && (if flushed && live[k].volume > 0.0 && outcomes(k) != FailedUnwritten
                then key in after.1 && after.1[key] == BuildCandle(product, k, k + 60_000_000_000, live[k])
                else Unchanged(after.1, store, key))
    decreases |keys|
  {
    hide AfterFlush, FlushBucket;
    if |keys| < 2 {
      ShortFlush(live, store, product, keys, outcomes);
    } else {
      var mid := FlushBucket(live, store, product, keys[0], outcomes(keys[0]));
      AfterFlushStep(live, store, product, keys, outcomes);
      FlushedOne(live, store, product, keys[0], outcomes(keys[0]), k);
      KeysAreFirstAndRest(keys, k);
      if k in mid.0 {
        FlushedEach(mid.0, mid.1, product, keys[1..], outcomes, k);
      } else {
        GoneStays(mid.0, mid.1, product, keys[1..], outcomes, k);
      }
    }
  }

  lemma KeysAreFirstAndRest(keys: seq<int>, k: int)
    requires Sorted(keys) && |keys| >= 2
    ensures k in keys <==> k == keys[0] || k in keys[1..]
    ensures keys[0] !in keys[1..] && keys[1..][|keys| - 2] == keys[|keys| - 1]
    ensures forall i :: 0 <= i < |keys| - 2 ==> keys[1..][i] < keys[1..][|keys| - 2]
  {
    assert keys == [keys[0]] + keys[1..];
  }

  /** What flushing one bucket does to a bucket, the flushed one or another. */
  lemma FlushedOne(live: map<int, Bar>, store: Store, product: Product, key: int, outcome: WriteOutcome, k: int)
    requires key in live && k in live
    ensures var after := FlushBucket(live, store, product, key, outcome);
            && (k in after.0 <==> k != key || (live[k].volume > 0.0 && outcome != Succeeded))
            && (k in after.0 ==> after.0[k] == live[k])
            && (if k == key && live[k].volume > 0.0 && outcome != FailedUnwritten
                then (k, product) in after.1
                     && after.1[(k, product)] == BuildCandle(product, k, k + 60_000_000_000, live[k])
                else Unchanged(after.1, store, (k, product)))
  {
  }

  /** Flushing does nothing to a bucket that is not there. */
  lemma {:induction false} GoneStays(live: map<int, Bar>, store: Store, product: Product, keys: seq<int>,
                                     outcomes: int -> WriteOutcome, k: int)
    requires AllLive(keys, live.Keys) && k !in live
    ensures var after := AfterFlush(live, store, product, keys, outcomes);
            k !in after.0 && Unchanged(after.1, store, (k, product))
    decreases |keys|
  {
    if |keys| >= 2 {
      var mid := FlushBucket(live, store, product, keys[0], outcomes(keys[0]));
      AfterFlushStep(live, store, product, keys, outcomes);
      GoneStays(mid.0, mid.1, product, keys[1..], outcomes, k);
    }
  }

  // ---------- the code ----------

  class RealtimeImporter {
    const product: Product
    var candles: map<int, CandlestickBuilder>
    var store: Store

    ghost predicate Valid()
      reads this
    {
      forall b :: b in candles ==>
        candles[b].startTime == b && candles[b].endTime == b + MINUTE && candles[b].productType == product
    }

    ghost function Live(): map<int, Bar>
      reads this, set b | b in candles :: candles[b]
    {
      map b | b in candles :: candles[b].Contents()
    }

    constructor (p: Product, table: Store)
      ensures Valid() && product == p && store == table && Live() == map[]
    {
      product, candles, store := p, map[], table;
    }

    method ProcessExchangeMessage(msg: ExchangeMessage)
      requires Valid()
      modifies this`candles, set b | b in candles :: candles[b]
      ensures Valid() && Live() == AfterMessage(old(Live()), product, msg)
    {
      hide CandlestickBucket, AddBar, TradeBar;
      var bucket := CandlestickBucket(msg.time, 1);
      if bucket !in candles {
        var builder := new CandlestickBuilder(product, bucket, bucket + MINUTE);
        candles := candles[bucket := builder];
      }
      label L:
      candles[bucket].ProcessMessage(msg);
      assert forall b :: b in candles && b != bucket ==> candles[b].Contents() == old@L(candles[b].Contents());
    }

    method FlushOne(bucket: int, outcome: WriteOutcome)
      requires Valid() && bucket in candles
      modifies this`candles, this`store
      ensures Valid() && (Live(), store) == FlushBucket(old(Live()), old(store), product, bucket, outcome)
    {
      var candle := candles[bucket].Build();
      if candle.bar.volume > 0.0 {
        match outcome {
          case Succeeded =>
            store := store[(candle.start, candle.product) := candle];
          case FailedWritten =>
            store := store[(candle.start, candle.product) := candle];
            assert Live() == old(Live());
            return;
          case FailedUnwritten =>
            return;
        }
      }
      candles := candles - {bucket};
      assert forall b :: b in candles ==> b in old(candles) && candles[b] == old(candles[b]);
      assert Live() == old(Live()) - {bucket};
    }

    /** `outcomes` is what the database answers for each bucket's upsert. */
    method Flush(outcomes: int -> WriteOutcome)
      requires Valid()
      modifies this`candles, this`store
      ensures Valid()
      ensures exists keys :: Lists(keys, old(candles.Keys)) && AllLive(keys, old(Live()).Keys)
                && (Live(), store) == AfterFlush(old(Live()), old(store), product, keys, outcomes)
    {
      hide AfterFlush, FlushBucket;
      var buckets := SortKeys(candles.Keys);
      if |buckets| < 2 {
        ShortFlush(Live(), store, product, buckets, outcomes);
        return;
      }
      assert buckets[0..] == buckets;
      for j := 0 to |buckets| - 1
        invariant Valid() && AllLive(buckets[j..], Live().Keys)
        invariant AfterFlush(Live(), store, product, buckets[j..], outcomes)
               == AfterFlush(old(Live()), old(store), product, buckets, outcomes)
      {
        var bucket := buckets[j];
        assert buckets[j..][0] == bucket && buckets[j..][1..] == buckets[j + 1..];
        AfterFlushStep(Live(), store, product, buckets[j..], outcomes);
        FlushOne(bucket, outcomes(bucket));
      }
      ShortFlush(Live(), store, product, buckets[|buckets| - 1..], outcomes);
    }
  }

  // ---------- calls are runs ----------

  /** The machine's map and store, read as values. */
  ghost predicate Mirrors(s: State, live: map<int, Bar>, store: Store) {
    && s.message.Waiting? && s.store == store && s.candles.Keys == live.Keys
    && (forall k :: k in live ==>
          s.candles[k] < |s.builders| && s.builders[s.candles[k]] == Builder(k, k + MINUTE, s.product, live[k]))
  }

  /** A call of ProcessExchangeMessage is three steps of the message process. */
  lemma MessageIsRun(s: State, live: map<int, Bar>, store: Store, msg: ExchangeMessage)
    requires Mirrors(s, live, store) && msg.time >= s.clock
    ensures var o := Run(s, [CreateBucket(msg)] + [LookUp] + [ProcessTrade]);
            o.Next? && Mirrors(o.state, AfterMessage(live, s.product, msg), store) && o.state.flush == s.flush
  {
    hide CandlestickBucket;
    var t := Apply(s, CreateBucket(msg)).state;
    var u := Apply(t, LookUp).state;
    RunOne(s, CreateBucket(msg));
    RunOne(t, LookUp);
    RunConcat(s, [CreateBucket(msg)], [LookUp]);
    RunOne(u, ProcessTrade);
    RunConcat(s, [CreateBucket(msg)] + [LookUp], [ProcessTrade]);
    MessageMirrors(s, t, u, live, store, msg);
  }

  lemma CreateMirrors(s: State, t: State, live: map<int, Bar>, store: Store, msg: ExchangeMessage)
    requires Mirrors(s, live, store) && Apply(s, CreateBucket(msg)) == Next(t)
    ensures var bucket := CandlestickBucket(msg.time, 1);
            var ready := if bucket in live then live else live[bucket := EMPTY];
            Mirrors(t.(message := Waiting), ready, store)
  {
    hide CandlestickBucket;
  }

  lemma ProcessMirrors(u: State, live: map<int, Bar>, store: Store, msg: ExchangeMessage,
                       bucket: int)
    requires Mirrors(u.(message := Waiting), live, store)
    requires bucket in live && u.message == Holding(msg, u.candles[bucket])
    ensures var bar := if AcceptsMessage(u.product, bucket, bucket + MINUTE, msg)
                       then AddBar(live[bucket], TradeBar(msg)) else live[bucket];
            Apply(u, ProcessTrade).Next? && Mirrors(Apply(u, ProcessTrade).state, live[bucket := bar], store)
  {
    forall k | k in live && k != bucket ensures u.candles[k] != u.candles[bucket] {
      assert u.builders[u.candles[k]].start == k;
      assert u.builders[u.candles[bucket]].start == bucket;
    }
  }

  lemma MessageMirrors(s: State, t: State, u: State, live: map<int, Bar>, store: Store,
                       msg: ExchangeMessage)
    requires Mirrors(s, live, store) && Apply(s, CreateBucket(msg)) == Next(t) && Apply(t, LookUp) == Next(u)
    ensures Apply(u, ProcessTrade).Next?
    ensures Mirrors(Apply(u, ProcessTrade).state, AfterMessage(live, s.product, msg), store)
  {
    hide CandlestickBucket, AddBar;
    var bucket := CandlestickBucket(msg.time, 1);
    var ready := if bucket in live then live else live[bucket := EMPTY];
    CreateMirrors(s, t, live, store, msg);
    ProcessMirrors(u, ready, store, msg, bucket);
    var bar := if AcceptsMessage(u.product, bucket, bucket + MINUTE, msg)
               then AddBar(ready[bucket], TradeBar(msg)) else ready[bucket];
    hide Mirrors;
    assert ready[bucket := bar] == AfterMessage(live, s.product, msg);
  }

  /** Flushing from keys[j] on is a run of the flusher's steps. */
  lemma {:induction false} FlushFrom(s: State, live: map<int, Bar>, store: Store, keys: seq<int>, j: nat,
                                     outcomes: int -> WriteOutcome)
    returns (actions: seq<Action>)
    requires Mirrors(s, live, store) && j < |keys| && AllLive(keys[j..], live.Keys)
    requires s.flush == if j + 1 < |keys| then Examining(keys, j) else Asleep
    ensures Run(s, actions).Next?
    ensures var t, after := Run(s, actions).state, AfterFlush(live, store, s.product, keys[j..], outcomes);
            t.flush.Asleep? && t.product == s.product && Mirrors(t, after.0, after.1)
    decreases |keys| - j
  {
    if j + 1 >= |keys| {
      actions := [];
    } else {
      var first, t := FlushOneIsRun(s, live, store, keys, j, outcomes(keys[j]));
      var after := FlushBucket(live, store, s.product, keys[j], outcomes(keys[j]));
      assert keys[j..][0] == keys[j] && keys[j..][1..] == keys[j + 1..];
      AfterFlushStep(live, store, s.product, keys[j..], outcomes);
      hide AfterFlush, Apply, Run, FlushBucket;
      var rest := FlushFrom(t, after.0, after.1, keys, j + 1, outcomes);
      RunConcat(s, first, rest);
      actions := first + rest;
    }
  }

  lemma FlushOneIsRun(s: State, live: map<int, Bar>, store: Store, keys: seq<int>, j: nat,
                      outcome: WriteOutcome)
    returns (actions: seq<Action>, t: State)
    requires Mirrors(s, live, store) && s.flush == Examining(keys, j) && j + 1 < |keys| && keys[j] in live
    ensures Run(s, actions) == Next(t) && t.flush == Advance(keys, j) && t.product == s.product
    ensures var after := FlushBucket(live, store, s.product, keys[j], outcome); Mirrors(t, after.0, after.1)
  {
    var u := Apply(s, BuildNext).state;
    var v := Apply(u, Upsert(outcome)).state;
    RunOne(s, BuildNext);
    RunOne(u, Upsert(outcome));
    RunConcat(s, [BuildNext], [Upsert(outcome)]);
    actions := [BuildNext] + [Upsert(outcome)];
    t := v;
    if v.flush.Stored? {
      RunOne(v, Delete);
      RunConcat(s, actions, [Delete]);
      actions := actions + [Delete];
      t := Apply(v, Delete).state;
    }
  }

  /** A flush is a run of the flusher's steps, from the snapshot of the keys on. */
  lemma FlushIsRun(s: State, live: map<int, Bar>, store: Store, keys: seq<int>,
                   outcomes: int -> WriteOutcome)
    returns (actions: seq<Action>)
    requires Mirrors(s, live, store) && s.flush.Asleep? && Lists(keys, live.Keys)
    ensures AllLive(keys, live.Keys) && Run(s, actions).Next?
    ensures var t, after := Run(s, actions).state, AfterFlush(live, store, s.product, keys, outcomes);
            t.flush.Asleep? && t.product == s.product && Mirrors(t, after.0, after.1)
  {
    assert forall i :: 0 <= i < |keys| ==> keys[i] in live;
    var t := Apply(s, Snapshot(keys)).state;
    RunOne(s, Snapshot(keys));
    assert keys[0..] == keys;
    if |keys| < 2 {
      ShortFlush(live, store, s.product, keys, outcomes);
      actions := [Snapshot(keys)];
    } else {
      var rest := FlushFrom(t, live, store, keys, 0, outcomes);
      hide Apply, Run, Mirrors, AfterFlush;
      RunConcat(s, [Snapshot(keys)], rest);
      actions := [Snapshot(keys)] + rest;
    }
  }
}
