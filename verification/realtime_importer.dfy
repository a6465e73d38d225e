/** The realtime importer: one process turns exchange messages into minute candles, another
    flushes finished minutes to the store; they interleave on a shared map of builders. */
module RealtimeImport {
  import opened Grid
  import opened Candlesticks
  import opened SortedKeys
  import opened Writes

  type StoreKey = (int, Product)
  type Store = map<StoreKey, Candle>

  datatype Builder = Builder(start: int, end: int, product: Product, bar: Bar)

  /** Where the message loop is within ProcessExchangeMessage. The looked-up builder is held by
      reference: `id` stays valid even after the map entry is deleted. */
  datatype MessagePc = Waiting | Created(msg: ExchangeMessage) | Holding(msg: ExchangeMessage, id: nat)

  /** Where the flusher is: at the bucket keys[j] of its snapshot. */
  datatype FlushPc =
    | Asleep
    | Examining(keys: seq<int>, j: nat)
    | Built(keys: seq<int>, j: nat, candle: Candle)
    | Stored(keys: seq<int>, j: nat)

  datatype State = State(
    product: Product,
    builders: seq<Builder>,            // every builder ever allocated
    candles: map<int, nat>,            // the shared map, bucket to builder
    store: Store,
    clock: int,                        // the time of the last message received
    message: MessagePc,
    flush: FlushPc,
    processed: seq<ExchangeMessage>,   // history: messages handed to a builder
    deleted: set<int>)                 // history: buckets deleted from the map

  datatype Action =
    | CreateBucket(msg: ExchangeMessage)
    | LookUp
    | ProcessTrade
    | Snapshot(keys: seq<int>)
    | BuildNext
    | Upsert(outcome: WriteOutcome)
    | Delete

  /** Panic stands for the nil builder the code would dereference. */
  datatype Outcome = Next(state: State) | Disabled | Panic

  function InitialState(product: Product, store: Store): State {
    State(product, [], map[], store, 0, Waiting, Asleep, [], {})
  }

  function Advance(keys: seq<int>, j: nat): FlushPc {
    if j + 2 < |keys| then Examining(keys, j + 1) else Asleep
  }

  function BuildFrom(b: Builder): Candle {
    BuildCandle(b.product, b.start, b.end, b.bar)
  }

  function Process(b: Builder, msg: ExchangeMessage): Builder {
    if AcceptsMessage(b.product, b.start, b.end, msg) then b.(bar := AddBar(b.bar, TradeBar(msg))) else b
  }

  function Apply(s: State, a: Action): Outcome {
    match a
    case CreateBucket(msg) =>
      if !s.message.Waiting? || msg.time < s.clock then Disabled
      else
        var bucket := CandlestickBucket(msg.time, 1);
        var t := s.(clock := msg.time, message := Created(msg));
        if bucket in s.candles then Next(t)
        else Next(t.(builders := s.builders + [Builder(bucket, bucket + MINUTE, s.product, EMPTY)],
                     candles := s.candles[bucket := |s.builders|]))
    case LookUp =>
      if !s.message.Created? then Disabled
      else
        var bucket := CandlestickBucket(s.message.msg.time, 1);
        if bucket in s.candles then Next(s.(message := Holding(s.message.msg, s.candles[bucket]))) else Panic
    case ProcessTrade =>
      if !s.message.Holding? then Disabled
      else if s.message.id >= |s.builders| then Panic
      else Next(s.(builders := s.builders[s.message.id := Process(s.builders[s.message.id], s.message.msg)],
                   message := Waiting, processed := s.processed + [s.message.msg]))
    case Snapshot(keys) =>
      if !s.flush.Asleep? || !Lists(keys, s.candles.Keys) then Disabled
      else if |keys| < 2 then Next(s)
      else Next(s.(flush := Examining(keys, 0)))
    case BuildNext =>
      if !s.flush.Examining? || s.flush.j >= |s.flush.keys| then Disabled
      else if s.flush.keys[s.flush.j] !in s.candles || s.candles[s.flush.keys[s.flush.j]] >= |s.builders| then Panic
      else Next(s.(flush := Built(s.flush.keys, s.flush.j, BuildFrom(s.builders[s.candles[s.flush.keys[s.flush.j]]]))))
    case Upsert(outcome) =>
      if !s.flush.Built? then Disabled
      else
        var c := s.flush.candle;
        if !(c.bar.volume > 0.0) then Next(s.(flush := Stored(s.flush.keys, s.flush.j)))
        else
          var written := s.store[(c.start, c.product) := c];
          (match outcome
           case Succeeded => Next(s.(store := written, flush := Stored(s.flush.keys, s.flush.j)))
           case FailedUnwritten => Next(s.(flush := Advance(s.flush.keys, s.flush.j)))
           case FailedWritten => Next(s.(store := written, flush := Advance(s.flush.keys, s.flush.j))))
    case Delete =>
      if !s.flush.Stored? || s.flush.j >= |s.flush.keys| then Disabled
      else
        var bucket := s.flush.keys[s.flush.j];
        Next(s.(candles := s.candles - {bucket}, deleted := s.deleted + {bucket},
                flush := Advance(s.flush.keys, s.flush.j)))
  }

  /** A run: any interleaving of the steps of the two processes. */
  function Run(s: State, actions: seq<Action>): Outcome {
    if actions == [] then Next(s)
    else
      match Run(s, actions[..|actions| - 1])
      case Next(t) => Apply(t, actions[|actions| - 1])
      case o => o
  }

  lemma {:induction false} RunConcat(s: State, xs: seq<Action>, ys: seq<Action>)
    requires Run(s, xs).Next?
    ensures Run(s, xs + ys) == Run(Run(s, xs).state, ys)
  {
    hide Apply;
    if ys == [] {
      assert xs + ys == xs;
    } else {
      assert (xs + ys)[..|xs + ys| - 1] == xs + ys[..|ys| - 1];
      RunConcat(s, xs, ys[..|ys| - 1]);
    }
  }

  lemma RunOne(s: State, a: Action)
    ensures Run(s, [a]) == Apply(s, a)
  {
    hide Apply;
    assert [a][..0] == [];
  }

  // ---------- what should be true ----------

  predicate IsTrade(product: Product, msg: ExchangeMessage) {
    msg.kind == MATCH && msg.product == product
  }

  /** The accepted trades of a message history, stamped with their times. */
  function Trades(msgs: seq<ExchangeMessage>, product: Product): seq<Print> {
    if msgs == [] then []
    else
      var rest := Trades(msgs[..|msgs| - 1], product);
      var e := msgs[|msgs| - 1];
      if IsTrade(product, e) then rest + [Print(e.time, TradeBar(e))] else rest
  }

  function MinuteTrades(s: State, m: int): seq<Bar> {
    BarsWithin(Trades(s.processed, s.product), m, m + MINUTE)
  }

  /** The candle a minute should end up with. */
  function MinuteCandle(s: State, m: int): Candle {
    BuildCandle(s.product, m, m + MINUTE, FoldBars(MinuteTrades(s, m)))
  }

  predicate Unchanged(store: Store, before: Store, key: StoreKey) {
    (key in store <==> key in before) && (key in store ==> store[key] == before[key])
  }

  /** The store says of minute m what the trades of that minute say. */
  predicate Settled(s: State, before: Store, m: int) {
    if FoldBars(MinuteTrades(s, m)).volume > 0.0
    then (m, s.product) in s.store && s.store[(m, s.product)] == MinuteCandle(s, m)
    else Unchanged(s.store, before, (m, s.product))
  }

  /** Every minute's trades are in exactly one place: its live builder, or, once that is deleted,
      the store; a minute that is neither has no trades. */
  ghost predicate Accounted(s: State, before: Store) {
    && (forall m :: m in s.candles ==>
          && m !in s.deleted && s.candles[m] < |s.builders|
          && s.builders[s.candles[m]] == Builder(m, m + MINUTE, s.product, FoldBars(MinuteTrades(s, m))))
    && (forall m :: m in s.deleted ==> Settled(s, before, m))
    && (forall m {:trigger MinuteTrades(s, m)} :: Aligned(m, 1) && m !in s.candles && m !in s.deleted ==>
          MinuteTrades(s, m) == [])
  }

  // ---------- the rest of the invariant ----------

  function Current(s: State): int {
    CandlestickBucket(s.clock, 1)
  }

  predicate HistoryOrdered(s: State) {
    && s.clock >= 0
    && (forall i :: 0 <= i < |s.processed| ==> 0 <= s.processed[i].time <= s.clock)
    && (forall i, j :: 0 <= i < j < |s.processed| ==> s.processed[i].time <= s.processed[j].time)
  }

  predicate BucketsInPast(s: State) {
    && (forall m :: m in s.candles ==> Aligned(m, 1) && m <= Current(s))
    && (forall m :: m in s.deleted ==> Aligned(m, 1) && m < Current(s))
  }

  /** The store differs from the initial one only at minutes that can take no more trades. */
  ghost predicate StoreTouched(s: State, before: Store) {
    forall key {:trigger Unchanged(s.store, before, key)} :: Unchanged(s.store, before, key)
      || (key.1 == s.product && key.0 < Current(s) && key.0 in s.candles.Keys + s.deleted
          && key in s.store && s.store[key] == MinuteCandle(s, key.0) && MinuteCandle(s, key.0).bar.volume > 0.0)
  }

  predicate MessageSafe(s: State) {
    match s.message
    case Waiting => true
    case Created(msg) => msg.time == s.clock && Current(s) in s.candles
    case Holding(msg, id) => msg.time == s.clock && Current(s) in s.candles && s.candles[Current(s)] == id
  }

  predicate KeysSafe(s: State, keys: seq<int>, j: nat) {
    && Sorted(keys) && j + 1 < |keys| && keys[|keys| - 1] <= Current(s)
    && (forall i :: j <= i < |keys| - 1 ==> keys[i] in s.candles)
  }

  predicate FlushSafe(s: State, before: Store) {
    match s.flush
    case Asleep => true
    case Examining(keys, j) => KeysSafe(s, keys, j)
    case Built(keys, j, candle) => KeysSafe(s, keys, j) && candle == MinuteCandle(s, keys[j])
    case Stored(keys, j) => KeysSafe(s, keys, j) && Settled(s, before, keys[j])
  }

  ghost predicate Inv(s: State, before: Store) {
    && HistoryOrdered(s)
    && BucketsInPast(s)
    && Accounted(s, before)
    && StoreTouched(s, before)
    && MessageSafe(s)
    && FlushSafe(s, before)
  }

  lemma InitialInv(product: Product, store: Store)
    ensures Inv(InitialState(product, store), store)
  {
  }

  /** A step that leaves the processed messages alone leaves what a minute should hold alone. */
  lemma SameHistory(s: State, t: State)
    requires t.processed == s.processed && t.product == s.product
    ensures forall m {:trigger MinuteTrades(t, m)} :: MinuteTrades(t, m) == MinuteTrades(s, m)
    ensures forall m {:trigger MinuteCandle(t, m)} :: MinuteCandle(t, m) == MinuteCandle(s, m)
  {
  }

  lemma CreateKeepsAccounted(s: State, before: Store, msg: ExchangeMessage)
    requires Inv(s, before) && Apply(s, CreateBucket(msg)).Next?
    requires Aligned(CandlestickBucket(msg.time, 1), 1) && Current(s) <= CandlestickBucket(msg.time, 1)
    ensures Accounted(Apply(s, CreateBucket(msg)).state, before)
  {
    hide BarsWithin, CandlestickBucket;
    var t := Apply(s, CreateBucket(msg)).state;
    SameHistory(s, t);
    assert MinuteTrades(s, CandlestickBucket(msg.time, 1)) == [] || CandlestickBucket(msg.time, 1) in s.candles;
  }

  /** Receiving a message only moves the clock on, so nothing about the past or the flusher is disturbed. */
  lemma LaterKeepsRest(s: State, t: State, before: Store)
    requires StoreTouched(s, before) && FlushSafe(s, before)
    requires t.processed == s.processed && t.product == s.product && t.store == s.store && t.flush == s.flush
    requires t.deleted == s.deleted && s.candles.Keys <= t.candles.Keys && Current(s) <= Current(t)
    ensures StoreTouched(t, before) && FlushSafe(t, before)
  {
    hide BarsWithin, CandlestickBucket;
    SameHistory(s, t);
    forall key {:trigger Unchanged(t.store, before, key)} ensures Unchanged(t.store, before, key)
      || (key.1 == t.product && key.0 < Current(t) && key.0 in t.candles.Keys + t.deleted
          && key in t.store && t.store[key] == MinuteCandle(t, key.0) && MinuteCandle(t, key.0).bar.volume > 0.0)
    {
      assert Unchanged(s.store, before, key) || key.0 in s.candles.Keys + s.deleted;
    }
  }

  lemma CreateKeepsInv(s: State, before: Store, msg: ExchangeMessage)
    requires Inv(s, before) && Apply(s, CreateBucket(msg)).Next?
    ensures Inv(Apply(s, CreateBucket(msg)).state, before)
  {
    var t := Apply(s, CreateBucket(msg)).state;
    BucketContains(msg.time, 1);
    BucketMonotone(s.clock, msg.time, 1);
    hide BarsWithin, CandlestickBucket;
    CreateKeepsAccounted(s, before, msg);
    LaterKeepsRest(s, t, before);
    hide Accounted, StoreTouched, FlushSafe;
  }

  lemma LookUpKeepsInv(s: State, before: Store)
    requires Inv(s, before) && s.message.Created?
    ensures Apply(s, LookUp).Next? && Inv(Apply(s, LookUp).state, before)
  {
    hide BarsWithin, CandlestickBucket;
    SameHistory(s, Apply(s, LookUp).state);
  }

  /** A trade adds to its own minute and to no other. */
  lemma TradeAdds(msgs: seq<ExchangeMessage>, product: Product, msg: ExchangeMessage, m: int)
    requires Aligned(m, 1) && msg.time >= 0
    ensures BarsWithin(Trades(msgs + [msg], product), m, m + MINUTE)
         == BarsWithin(Trades(msgs, product), m, m + MINUTE)
            + if IsTrade(product, msg) && CandlestickBucket(msg.time, 1) == m then [TradeBar(msg)] else []
  {
    assert (msgs + [msg])[..|msgs|] == msgs;
    InBucketIff(m, msg.time, 1);
    if IsTrade(product, msg) {
      var ps, p := Trades(msgs, product), Print(msg.time, TradeBar(msg));
      assert (ps + [p])[..|ps|] == ps;
    }
  }

  lemma TradeKeepsOthers(s: State, t: State, m: int)
    requires s.message.Holding? && s.message.msg.time == s.clock >= 0
    requires t.product == s.product && t.processed == s.processed + [s.message.msg] && Aligned(m, 1)
    ensures m != Current(s) ==> MinuteTrades(t, m) == MinuteTrades(s, m) && MinuteCandle(t, m) == MinuteCandle(s, m)
    ensures m == Current(s) ==>
              MinuteTrades(t, m) == MinuteTrades(s, m)
                                    + if IsTrade(s.product, s.message.msg) then [TradeBar(s.message.msg)] else []
  {
    TradeAdds(s.processed, s.product, s.message.msg, m);
  }

  lemma ProcessAddsTrade(s: State, before: Store)
    requires Inv(s, before) && s.message.Holding?
    ensures var t := Apply(s, ProcessTrade).state;
            Apply(s, ProcessTrade).Next? && Accounted(t, before)
  {
    var msg, id, cur := s.message.msg, s.message.id, Current(s);
    var t := Apply(s, ProcessTrade).state;
    BucketContains(s.clock, 1);
    assert s.builders[id] == Builder(cur, cur + MINUTE, s.product, FoldBars(MinuteTrades(s, cur)));
    assert AcceptsMessage(s.product, cur, cur + MINUTE, msg) <==> IsTrade(s.product, msg);
    forall m | m in t.candles
      ensures t.builders[t.candles[m]] == Builder(m, m + MINUTE, s.product, FoldBars(MinuteTrades(t, m)))
    {
      TradeKeepsOthers(s, t, m);
      if m == cur && IsTrade(s.product, msg) {
        FoldOneMore(MinuteTrades(s, m), TradeBar(msg));
      }
    }
    forall m | m in t.deleted ensures Settled(t, before, m) {
      TradeKeepsOthers(s, t, m);
    }
    forall m {:trigger MinuteTrades(t, m)} | Aligned(m, 1) && m !in t.candles && m !in t.deleted
      ensures MinuteTrades(t, m) == []
    {
      TradeKeepsOthers(s, t, m);
      assert MinuteTrades(s, m) == [];
    }
  }

  lemma FoldOneMore(bs: seq<Bar>, b: Bar)
    ensures FoldBars(bs + [b]) == AddBar(FoldBars(bs), b)
  {
    assert (bs + [b])[..|bs|] == bs;
  }

  lemma ProcessKeepsRest(s: State, t: State, before: Store)
    requires StoreTouched(s, before) && FlushSafe(s, before) && BucketsInPast(s)
    requires s.message.Holding? && s.message.msg.time == s.clock >= 0
    requires t == s.(builders := t.builders, message := Waiting, processed := s.processed + [s.message.msg])
    ensures StoreTouched(t, before) && FlushSafe(t, before)
  {
    hide BarsWithin, CandlestickBucket;
    forall key {:trigger Unchanged(t.store, before, key)} ensures Unchanged(t.store, before, key)
      || (key.1 == t.product && key.0 < Current(t) && key.0 in t.candles.Keys + t.deleted
          && key in t.store && t.store[key] == MinuteCandle(t, key.0) && MinuteCandle(t, key.0).bar.volume > 0.0)
    {
      if !Unchanged(s.store, before, key) {
        TradeKeepsOthers(s, t, key.0);
      }
    }
    if !s.flush.Asleep? {
      var key := s.flush.keys[s.flush.j];
      assert key < s.flush.keys[|s.flush.keys| - 1];
      TradeKeepsOthers(s, t, key);
    }
  }

  lemma ProcessKeepsInv(s: State, before: Store)
    requires Inv(s, before) && s.message.Holding?
    ensures Apply(s, ProcessTrade).Next? && Inv(Apply(s, ProcessTrade).state, before)
  {
    hide BarsWithin, CandlestickBucket;
    ProcessAddsTrade(s, before);
    ProcessKeepsRest(s, Apply(s, ProcessTrade).state, before);
    hide Accounted, StoreTouched, FlushSafe;
  }

  lemma SnapshotKeepsInv(s: State, before: Store, keys: seq<int>)
    requires Inv(s, before) && Apply(s, Snapshot(keys)).Next?
    ensures Inv(Apply(s, Snapshot(keys)).state, before)
  {
    hide BarsWithin, CandlestickBucket;
    var t := Apply(s, Snapshot(keys)).state;
    SameHistory(s, t);
    forall i | 0 <= i < |keys| ensures keys[i] in s.candles {
      assert keys[i] in (set k | k in keys);
    }
  }

  lemma BuildKeepsInv(s: State, before: Store)
    requires Inv(s, before) && s.flush.Examining?
    ensures Apply(s, BuildNext).Next? && Inv(Apply(s, BuildNext).state, before)
  {
    SameHistory(s, Apply(s, BuildNext).state);
  }

  lemma WriteSettles(s: State, t: State, before: Store, m: int)
    requires Accounted(s, before) && StoreTouched(s, before) && m in s.candles && m < Current(s)
    requires MinuteCandle(s, m).bar.volume > 0.0
    requires t == s.(store := s.store[(m, s.product) := MinuteCandle(s, m)], flush := t.flush)
    ensures Accounted(t, before) && StoreTouched(t, before) && Settled(t, before, m)
  {
    hide BarsWithin, CandlestickBucket;
    SameHistory(s, t);
    forall k | k in t.deleted ensures Settled(t, before, k) {
      assert Settled(s, before, k) && k != m;
    }
    forall key {:trigger Unchanged(t.store, before, key)} ensures Unchanged(t.store, before, key)
      || (key.1 == t.product && key.0 < Current(t) && key.0 in t.candles.Keys + t.deleted
          && key in t.store && t.store[key] == MinuteCandle(t, key.0) && MinuteCandle(t, key.0).bar.volume > 0.0)
    {
      assert key == (m, s.product) || Unchanged(s.store, t.store, key);
      assert Unchanged(s.store, before, key) || key.0 in s.candles.Keys + s.deleted;
    }
  }

  lemma UnwrittenSettles(s: State, before: Store, m: int)
    requires StoreTouched(s, before) && !(MinuteCandle(s, m).bar.volume > 0.0)
    ensures Settled(s, before, m)
  {
    assert Unchanged(s.store, before, (m, s.product));
  }

  lemma UpsertKeepsInv(s: State, before: Store, outcome: WriteOutcome)
    requires Inv(s, before) && s.flush.Built?
    ensures Apply(s, Upsert(outcome)).Next? && Inv(Apply(s, Upsert(outcome)).state, before)
  {
    hide BarsWithin, CandlestickBucket, Accounted, StoreTouched;
    var t := Apply(s, Upsert(outcome)).state;
    SameHistory(s, t);
    var m := s.flush.keys[s.flush.j];
    assert m < s.flush.keys[|s.flush.keys| - 1] <= Current(s);
    if !(s.flush.candle.bar.volume > 0.0) {
      UnwrittenSettles(s, before, m);
    } else if outcome != FailedUnwritten {
      WriteSettles(s, t, before, m);
    }
    if t.store == s.store {
      FlushMoved(s, t, before);
    }
  }

  lemma FlushMoved(s: State, t: State, before: Store)
    requires Accounted(s, before) && StoreTouched(s, before) && t == s.(flush := t.flush)
    ensures Accounted(t, before) && StoreTouched(t, before)
  {
    hide BarsWithin, CandlestickBucket;
    SameHistory(s, t);
    forall k | k in t.deleted ensures Settled(t, before, k) {
      assert Settled(s, before, k);
    }
    forall key {:trigger Unchanged(t.store, before, key)} ensures Unchanged(t.store, before, key)
      || (key.1 == t.product && key.0 < Current(t) && key.0 in t.candles.Keys + t.deleted
          && key in t.store && t.store[key] == MinuteCandle(t, key.0) && MinuteCandle(t, key.0).bar.volume > 0.0)
    {
      assert Unchanged(s.store, before, key) || key.0 in s.candles.Keys + s.deleted;
    }
  }

  lemma DeleteKeepsInv(s: State, before: Store)
    requires Inv(s, before) && s.flush.Stored?
    ensures Apply(s, Delete).Next? && Inv(Apply(s, Delete).state, before)
  {
    hide BarsWithin, CandlestickBucket;
    var t := Apply(s, Delete).state;
    SameHistory(s, t);
    var m := s.flush.keys[s.flush.j];
    assert m < s.flush.keys[|s.flush.keys| - 1];
    assert Settled(t, before, m);
  }

  /** No step can dereference a missing builder, and every step keeps the invariant. */
  lemma StepKeepsInv(s: State, before: Store, a: Action)
    requires Inv(s, before)
    ensures !Apply(s, a).Panic?
    ensures Apply(s, a).Next? ==> Inv(Apply(s, a).state, before) && Apply(s, a).state.product == s.product
  {
    match a
    case CreateBucket(msg) => if Apply(s, a).Next? { CreateKeepsInv(s, before, msg); }
    case LookUp => if s.message.Created? { LookUpKeepsInv(s, before); }
    case ProcessTrade => if s.message.Holding? { ProcessKeepsInv(s, before); }
    case Snapshot(keys) => if Apply(s, a).Next? { SnapshotKeepsInv(s, before, keys); }
    case BuildNext => if s.flush.Examining? { BuildKeepsInv(s, before); }
    case Upsert(outcome) => if s.flush.Built? { UpsertKeepsInv(s, before, outcome); }
    case Delete => if s.flush.Stored? { DeleteKeepsInv(s, before); }
  }

  /** For every interleaving, of any length, from an empty map: the importer never panics, and at
      every state it reaches each minute's accepted trades are held by exactly its live builder or
      exactly the store, and no deleted bucket has come back. */
  lemma {:induction false} EveryRunAccounted(product: Product, before: Store, actions: seq<Action>)
    ensures !Run(InitialState(product, before), actions).Panic?
    ensures Run(InitialState(product, before), actions).Next? ==>
              var s := Run(InitialState(product, before), actions).state;
              Inv(s, before) && Accounted(s, before) && s.product == product
  {
    hide Apply, Accounted, StoreTouched, BucketsInPast, HistoryOrdered, MessageSafe, FlushSafe;
    if actions == [] {
      InitialInv(product, before);
    } else {
      var front := actions[..|actions| - 1];
      EveryRunAccounted(product, before, front);
      if Run(InitialState(product, before), front).Next? {
        StepKeepsInv(Run(InitialState(product, before), front).state, before, actions[|actions| - 1]);
      }
    }
  }

  lemma DeletedStays(s: State, a: Action, m: int)
    requires m in s.deleted
    ensures Apply(s, a).Next? ==> m in Apply(s, a).state.deleted
  {
  }

  lemma {:induction false} DeletedOverRun(product: Product, before: Store, actions: seq<Action>, more: seq<Action>,
                                          m: int)
    requires Run(InitialState(product, before), actions).Next?
    requires m in Run(InitialState(product, before), actions).state.deleted
    requires Run(InitialState(product, before), actions + more).Next?
    ensures m in Run(InitialState(product, before), actions + more).state.deleted
  {
    hide Apply;
    if more == [] {
      assert actions + more == actions;
    } else {
      var front := more[..|more| - 1];
      assert (actions + more)[..|actions + more| - 1] == actions + front;
      DeletedOverRun(product, before, actions, front, m);
      DeletedStays(Run(InitialState(product, before), actions + front).state, more[|more| - 1], m);
    }
  }

  /** A bucket that has been deleted is never created again, whatever happens next. */
  lemma {:induction false} DeletedForGood(product: Product, before: Store, actions: seq<Action>, more: seq<Action>,
                                          m: int)
    requires Run(InitialState(product, before), actions).Next?
    requires m in Run(InitialState(product, before), actions).state.deleted
    requires Run(InitialState(product, before), actions + more).Next?
    ensures m !in Run(InitialState(product, before), actions + more).state.candles
  {
    hide Run, Apply;
    DeletedOverRun(product, before, actions, more, m);
    EveryRunAccounted(product, before, actions + more);
  }
}
