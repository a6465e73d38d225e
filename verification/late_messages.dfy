/** The realtime importer when messages come in any order of time: which steps lose trades. */
module LateMessages {
  import opened Grid
  import opened Candlesticks
  import opened Coarsening
  import opened Composition
  import opened SortedKeys
  import opened Writes
  import opened RealtimeImport

  /** A step of the machine in which a message may be earlier than the ones before it. */
  function ApplyAny(s: State, a: Action): Outcome {
    match a
    case CreateBucket(msg) => Apply(s.(clock := msg.time), a)
    case _ => Apply(s, a)
  }

  function RunAny(s: State, actions: seq<Action>): Outcome {
    if actions == [] then Next(s)
    else
      match RunAny(s, actions[..|actions| - 1])
      case Next(t) => ApplyAny(t, actions[|actions| - 1])
      case o => o
  }

  /** From the base time on, trades have a positive price and size. */
  predicate GoodMessage(msg: ExchangeMessage, product: Product) {
    msg.time >= 0 && (IsTrade(product, msg) ==> msg.price > 0.0 && msg.size > 0.0)
  }

  predicate GoodAction(a: Action, product: Product) {
    a.CreateBucket? ==> GoodMessage(a.msg, product)
  }

  function BucketOf(msg: ExchangeMessage): int {
    CandlestickBucket(msg.time, 1)
  }

  /** A minute's trades, in the order they were processed, are in its live builder, or in the store
      when there is no builder or it is still empty. */
  predicate MinuteKept(s: State, before: Store, m: int) {
    if m !in s.candles then Settled(s, before, m)
    else
      && s.candles[m] < |s.builders|
      && var b := s.builders[s.candles[m]];
         && b == Builder(m, m + MINUTE, s.product, b.bar)
         && (b.bar == FoldBars(MinuteTrades(s, m)) || (b.bar == EMPTY && Settled(s, before, m)))
  }

  ghost predicate Kept(s: State, before: Store) {
    forall m :: Aligned(m, 1) ==> MinuteKept(s, before, m)
  }

  // ---------- what holds besides ----------

  predicate GoodHistory(s: State) {
    forall i :: 0 <= i < |s.processed| ==> GoodMessage(s.processed[i], s.product)
  }

  predicate MessageOk(s: State) {
    match s.message
    case Waiting => true
    case Created(msg) => GoodMessage(msg, s.product)
    case Holding(msg, id) =>
      && GoodMessage(msg, s.product) && id < |s.builders|
      && s.builders[id].start == BucketOf(msg) && s.builders[id].end == BucketOf(msg) + MINUTE
      && s.builders[id].product == s.product
  }

  predicate KeysOk(s: State, keys: seq<int>, j: nat) {
    Sorted(keys) && j + 1 < |keys| && forall i :: j <= i < |keys| - 1 ==> keys[i] in s.candles
  }

  predicate HasVolume(s: State, m: int) {
    m in s.candles && s.candles[m] < |s.builders| && s.builders[s.candles[m]].bar.volume > 0.0
  }

  predicate FlushOk(s: State) {
    match s.flush
    case Asleep => true
    case Examining(keys, j) => KeysOk(s, keys, j)
    case Built(keys, j, c) =>
      && KeysOk(s, keys, j) && c.start == keys[j] && c.product == s.product
      && (c.bar.volume > 0.0 ==> HasVolume(s, keys[j]))
    case Stored(keys, j) => KeysOk(s, keys, j)
  }

  /** Nothing has been written for a minute without trades. */
  ghost predicate StoreClean(s: State, before: Store) {
    forall m :: Aligned(m, 1) && MinuteTrades(s, m) == [] ==>
      Unchanged(s.store, before, (m, s.product))
  }

  ghost predicate Besides(s: State, before: Store) {
    && (forall m :: m in s.candles ==> Aligned(m, 1))
    && GoodHistory(s) && MessageOk(s) && FlushOk(s) && StoreClean(s, before)
  }

  // ---------- the steps that lose trades ----------

  predicate Stores(s: State, m: int, c: Candle) {
    (m, s.product) in s.store && s.store[(m, s.product)] == c
  }

  /** The bucket's builder is the one that the message loop holds. */
  predicate HoldsLive(s: State, b: int) {
    s.message.Holding? && b in s.candles && s.candles[b] == s.message.id && s.message.id < |s.builders|
  }

  /** The minute had no trades, and the candle of this first one is stored by chance. */
  predicate ByChance(s: State, b: int, msg: ExchangeMessage) {
    && MinuteTrades(s, b) == []
    && Stores(s, b, BuildCandle(s.product, b, b + MINUTE, AddBar(EMPTY, TradeBar(msg))))
  }

  /** A bucket that is gone before it is looked up; a trade for a builder that is no longer its
      bucket's, or that was made anew although the minute has trades; and deleting a bucket whose
      builder is not what the store holds. */
  predicate Loses(s: State, a: Action) {
    match a
    case LookUp => s.message.Created? && BucketOf(s.message.msg) !in s.candles
    case ProcessTrade =>
      && s.message.Holding? && IsTrade(s.product, s.message.msg)
      && var b := BucketOf(s.message.msg);
         if HoldsLive(s, b) then s.builders[s.message.id].bar == EMPTY && MinuteTrades(s, b) != []
         else !ByChance(s, b, s.message.msg)
    case Delete =>
      && s.flush.Stored? && s.flush.j < |s.flush.keys|
      && var m := s.flush.keys[s.flush.j];
         HasVolume(s, m) && !Stores(s, m, BuildFrom(s.builders[s.candles[m]]))
    case _ => false
  }

  lemma {:induction false} TradesGood(msgs: seq<ExchangeMessage>, product: Product)
    requires forall i :: 0 <= i < |msgs| ==> GoodMessage(msgs[i], product)
    ensures forall i :: 0 <= i < |Trades(msgs, product)| ==> Trades(msgs, product)[i].bar.volume > 0.0
  {
    if msgs != [] {
      TradesGood(msgs[..|msgs| - 1], product);
    }
  }

  /** A minute has volume exactly when it has trades. */
  lemma MinuteVolume(s: State, m: int)
    requires GoodHistory(s)
    ensures if MinuteTrades(s, m) == [] then FoldBars(MinuteTrades(s, m)) == EMPTY
            else FoldBars(MinuteTrades(s, m)).volume > 0.0
  {
    TradesGood(s.processed, s.product);
    TradedVolume(Trades(s.processed, s.product), m, m + MINUTE);
    FoldVolume(MinuteTrades(s, m));
  }

  // ---------- steps that leave a minute alone ----------

  /** Minute m's builder, its stored candle and its trades are the same in both states. */
  predicate SameMinute(s: State, t: State, m: int) {
    && t.product == s.product && MinuteTrades(t, m) == MinuteTrades(s, m)
    && (m in t.candles <==> m in s.candles)
    && (m in s.candles && s.candles[m] < |s.builders| ==>
          t.candles[m] == s.candles[m] && s.candles[m] < |t.builders|
          && t.builders[s.candles[m]] == s.builders[s.candles[m]])
    && Unchanged(t.store, s.store, (m, s.product))
  }

  lemma SameKept(s: State, t: State, before: Store, m: int)
    requires MinuteKept(s, before, m) && SameMinute(s, t, m)
    ensures MinuteKept(t, before, m)
  {
    hide FoldBars, MinuteTrades;
  }

  /** A step that leaves every minute but b alone keeps all trades exactly when it keeps b's. */
  lemma KeptIff(s: State, t: State, before: Store, b: int)
    requires Kept(s, before) && Aligned(b, 1)
    requires forall m :: Aligned(m, 1) && m != b ==> SameMinute(s, t, m)
    ensures Kept(t, before) <==> MinuteKept(t, before, b)
  {
    hide MinuteKept, SameMinute;
    forall m | Aligned(m, 1) && m != b ensures MinuteKept(t, before, m) {
      SameKept(s, t, before, m);
    }
  }

  /** A step that moves neither builders nor candles nor store. */
  lemma NothingMoved(s: State, t: State, before: Store)
    requires Kept(s, before) && StoreClean(s, before)
    requires t.processed == s.processed && t.product == s.product
    requires t.builders == s.builders && t.candles == s.candles && t.store == s.store
    ensures Kept(t, before) && StoreClean(t, before)
  {
    SameHistory(s, t);
    hide MinuteKept, MinuteTrades;
    forall m | Aligned(m, 1) ensures MinuteKept(t, before, m) {
      SameKept(s, t, before, m);
    }
    forall m | Aligned(m, 1) && MinuteTrades(t, m) == [] ensures Unchanged(t.store, before, (m, t.product)) {
      assert MinuteTrades(t, m) == MinuteTrades(s, m);
    }
  }

  lemma CreateKeeps(s: State, before: Store, msg: ExchangeMessage)
    requires Kept(s, before) && Besides(s, before) && GoodMessage(msg, s.product) && s.message.Waiting?
    ensures var o := ApplyAny(s, CreateBucket(msg)); o.Next? && Kept(o.state, before) && Besides(o.state, before)
  {
    hide CandlestickBucket, MinuteTrades, FoldBars, Kept, StoreClean;
    var b, t := BucketOf(msg), ApplyAny(s, CreateBucket(msg)).state;
    BucketContains(msg.time, 1);
    if b in s.candles {
      NothingMoved(s, t, before);
    } else {
      CreatedKept(s, t, before, b);
    }
  }

  /** A new bucket's builder is empty, and what the minute had is still in the store. */
  lemma CreatedKept(s: State, t: State, before: Store, b: int)
    requires Kept(s, before) && StoreClean(s, before) && b !in s.candles && Aligned(b, 1)
    requires t.processed == s.processed && t.product == s.product && t.store == s.store
    requires t.builders == s.builders + [Builder(b, b + MINUTE, s.product, EMPTY)]
    requires t.candles == s.candles[b := |s.builders|]
    ensures Kept(t, before) && StoreClean(t, before)
  {
    SameHistory(s, t);
    hide MinuteTrades, FoldBars;
    forall m | Aligned(m, 1) && m != b ensures SameMinute(s, t, m) {
      assert MinuteKept(s, before, m);
      assert MinuteTrades(t, m) == MinuteTrades(s, m);
    }
    assert MinuteKept(s, before, b) && MinuteTrades(t, b) == MinuteTrades(s, b);
    KeptIff(s, t, before, b);
    forall m | Aligned(m, 1) && MinuteTrades(t, m) == [] ensures Unchanged(t.store, before, (m, t.product)) {
      assert MinuteTrades(t, m) == MinuteTrades(s, m);
    }
  }

  lemma LookUpLosesIff(s: State, before: Store)
    requires Kept(s, before) && Besides(s, before) && s.message.Created?
    ensures var o := ApplyAny(s, LookUp);
            if Loses(s, LookUp) then o.Panic? else o.Next? && Kept(o.state, before) && Besides(o.state, before)
  {
    hide CandlestickBucket, MinuteTrades, FoldBars, StoreClean;
    if !Loses(s, LookUp) {
      NothingMoved(s, ApplyAny(s, LookUp).state, before);
      BucketContains(s.message.msg.time, 1);
      assert MinuteKept(s, before, BucketOf(s.message.msg));
    }
  }

  // ---------- the trade itself ----------

  /** What processing the held message does to what each minute should hold. */
  lemma TradesAfter(s: State, t: State, m: int)
    requires s.message.Holding? && GoodMessage(s.message.msg, s.product) && Aligned(m, 1)
    requires t.product == s.product && t.processed == s.processed + [s.message.msg]
    ensures MinuteTrades(t, m) == if IsTrade(s.product, s.message.msg) && BucketOf(s.message.msg) == m
                                  then MinuteTrades(s, m) + [TradeBar(s.message.msg)] else MinuteTrades(s, m)
  {
    TradeAdds(s.processed, s.product, s.message.msg, m);
  }

  predicate Processes(s: State, t: State) {
    && s.message.Holding? && s.message.id < |s.builders|
    && t == s.(message := Waiting, processed := s.processed + [s.message.msg],
               builders := s.builders[s.message.id := Process(s.builders[s.message.id], s.message.msg)])
  }

  lemma OthersUntouched(s: State, t: State, before: Store, m: int)
    requires Kept(s, before) && Besides(s, before) && Processes(s, t) && Aligned(m, 1)
    requires !IsTrade(s.product, s.message.msg) || m != BucketOf(s.message.msg)
    ensures SameMinute(s, t, m)
  {
    hide CandlestickBucket, MinuteTrades, FoldBars, AddBar, Settled, StoreClean;
    assert MinuteKept(s, before, m);
    TradesAfter(s, t, m);
  }

  lemma ProcessLosesIff(s: State, before: Store)
    requires Kept(s, before) && Besides(s, before) && s.message.Holding?
    ensures var o := ApplyAny(s, ProcessTrade);
            && o.Next? && (Kept(o.state, before) <==> !Loses(s, ProcessTrade))
            && (Kept(o.state, before) ==> Besides(o.state, before))
  {
    hide CandlestickBucket, MinuteTrades, FoldBars, AddBar, StoreClean, Kept, FlushOk;
    var b, t := BucketOf(s.message.msg), ApplyAny(s, ProcessTrade).state;
    BucketContains(s.message.msg.time, 1);
    BesidesAfter(s, t, before);
    forall m | Aligned(m, 1) && m != b ensures SameMinute(s, t, m) {
      OthersUntouched(s, t, before, m);
    }
    KeptIff(s, t, before, b);
    if IsTrade(s.product, s.message.msg) {
      if HoldsLive(s, b) { LiveTrade(s, t, before); } else { StrayTrade(s, t, before); }
    } else {
      OthersUntouched(s, t, before, b);
      assert MinuteKept(s, before, b) by { assert Kept(s, before); KeptAt(s, before, b); }
      SameKept(s, t, before, b);
    }
  }

  lemma KeptAt(s: State, before: Store, m: int)
    requires Kept(s, before) && Aligned(m, 1)
    ensures MinuteKept(s, before, m)
  {
  }

  /** A minute's trades grow by the trade and have volume. */
  lemma TradeGrows(s: State, t: State)
    requires GoodHistory(s) && Processes(s, t) && IsTrade(s.product, s.message.msg)
    requires GoodMessage(s.message.msg, s.product)
    ensures var b, bar := BucketOf(s.message.msg), TradeBar(s.message.msg);
            var had, has := FoldBars(MinuteTrades(s, b)), FoldBars(MinuteTrades(t, b));
            && has == AddBar(had, bar) && has.volume == had.volume + bar.volume && bar.volume > 0.0
            && (if MinuteTrades(s, b) == [] then had == EMPTY else had.volume > 0.0)
  {
    hide CandlestickBucket, MinuteTrades, FoldBars;
    var b := BucketOf(s.message.msg);
    BucketContains(s.message.msg.time, 1);
    TradesAfter(s, t, b);
    FoldOneMore(MinuteTrades(s, b), TradeBar(s.message.msg));
    MinuteVolume(s, b);
  }

  lemma LiveTrade(s: State, t: State, before: Store)
    requires Kept(s, before) && Besides(s, before) && Processes(s, t) && IsTrade(s.product, s.message.msg)
    requires HoldsLive(s, BucketOf(s.message.msg))
    ensures MinuteKept(t, before, BucketOf(s.message.msg)) <==> !Loses(s, ProcessTrade)
  {
    hide CandlestickBucket, MinuteTrades, FoldBars, StoreClean, Kept, Settled, AddBar, FlushOk;
    var msg, b, id := s.message.msg, BucketOf(s.message.msg), s.message.id;
    BucketContains(msg.time, 1);
    KeptAt(s, before, b);
    TradeGrows(s, t);
    assert AcceptsMessage(s.product, b, b + MINUTE, msg);
    assert t.builders[id] == Builder(b, b + MINUTE, s.product, AddBar(s.builders[id].bar, TradeBar(msg)));
    BarVolume(s.builders[id].bar, TradeBar(msg));
  }

  lemma BarVolume(b: Bar, e: Bar)
    ensures AddBar(b, e).volume == b.volume + e.volume
  {
  }

  lemma StrayTrade(s: State, t: State, before: Store)
    requires Kept(s, before) && Besides(s, before) && Processes(s, t) && IsTrade(s.product, s.message.msg)
    requires !HoldsLive(s, BucketOf(s.message.msg))
    ensures MinuteKept(t, before, BucketOf(s.message.msg)) <==> !Loses(s, ProcessTrade)
  {
    hide CandlestickBucket, MinuteTrades, FoldBars, StoreClean, Kept, AddBar, FlushOk;
    var b := BucketOf(s.message.msg);
    BucketContains(s.message.msg.time, 1);
    KeptAt(s, before, b);
    TradeGrows(s, t);
  }

  lemma BesidesAfter(s: State, t: State, before: Store)
    requires Kept(s, before) && Besides(s, before) && Processes(s, t)
    ensures Besides(t, before)
  {
    hide CandlestickBucket, MinuteTrades, FoldBars;
    forall m | Aligned(m, 1) && MinuteTrades(t, m) == [] ensures Unchanged(t.store, before, (m, t.product)) {
      TradesAfter(s, t, m);
    }
  }

  // ---------- the flusher ----------

  lemma SnapshotKeeps(s: State, before: Store, keys: seq<int>)
    requires Kept(s, before) && Besides(s, before) && ApplyAny(s, Snapshot(keys)).Next?
    ensures var t := ApplyAny(s, Snapshot(keys)).state; Kept(t, before) && Besides(t, before)
  {
    hide CandlestickBucket, MinuteTrades, FoldBars, Settled;
    NothingMoved(s, ApplyAny(s, Snapshot(keys)).state, before);
    hide Kept, StoreClean;
  }

  lemma BuildKeeps(s: State, before: Store)
    requires Kept(s, before) && Besides(s, before) && s.flush.Examining?
    ensures var o := ApplyAny(s, BuildNext); o.Next? && Kept(o.state, before) && Besides(o.state, before)
  {
    hide CandlestickBucket, MinuteTrades, FoldBars, AddBar, Settled;
    KeptAt(s, before, s.flush.keys[s.flush.j]);
    NothingMoved(s, ApplyAny(s, BuildNext).state, before);
    hide Kept, StoreClean;
  }

  /** Storing the candle of a builder with volume: the minute is kept by the builder itself. */
  lemma UpsertKeeps(s: State, before: Store, outcome: WriteOutcome)
    requires Kept(s, before) && Besides(s, before) && s.flush.Built?
    ensures var o := ApplyAny(s, Upsert(outcome)); o.Next? && Kept(o.state, before) && Besides(o.state, before)
  {
    hide CandlestickBucket, MinuteTrades, FoldBars;
    var m, t := s.flush.keys[s.flush.j], ApplyAny(s, Upsert(outcome)).state;
    SameHistory(s, t);
    KeptAt(s, before, m);
    MinuteVolume(s, m);
    forall k | Aligned(k, 1) && k != m ensures SameMinute(s, t, k) {
      KeptAt(s, before, k);
      assert MinuteTrades(t, k) == MinuteTrades(s, k);
    }
    assert MinuteTrades(t, m) == MinuteTrades(s, m);
    KeptIff(s, t, before, m);
    forall k | Aligned(k, 1) && MinuteTrades(t, k) == [] ensures Unchanged(t.store, before, (k, t.product)) {
      assert Unchanged(s.store, before, (k, s.product));
    }
    hide Settled, Unchanged, Kept;
  }

  lemma DeleteLosesIff(s: State, before: Store)
    requires Kept(s, before) && Besides(s, before) && s.flush.Stored?
    ensures var o := ApplyAny(s, Delete);
            && o.Next? && (Kept(o.state, before) <==> !Loses(s, Delete))
            && (Kept(o.state, before) ==> Besides(o.state, before))
  {
    hide CandlestickBucket, MinuteTrades, FoldBars;
    var m, t := s.flush.keys[s.flush.j], ApplyAny(s, Delete).state;
    SameHistory(s, t);
    KeptAt(s, before, m);
    MinuteVolume(s, m);
    forall k | Aligned(k, 1) && k != m ensures SameMinute(s, t, k) {
      KeptAt(s, before, k);
      assert MinuteTrades(t, k) == MinuteTrades(s, k);
    }
    assert MinuteTrades(t, m) == MinuteTrades(s, m);
    KeptIff(s, t, before, m);
    forall k | Aligned(k, 1) && MinuteTrades(t, k) == [] ensures Unchanged(t.store, before, (k, t.product)) {
      assert Unchanged(s.store, before, (k, s.product));
    }
    hide Kept;
  }

  // ---------- over whole runs ----------

  /** A step loses trades, or the process, exactly when its guard says so. */
  lemma StepLosesIff(s: State, before: Store, a: Action)
    requires Kept(s, before) && Besides(s, before) && GoodAction(a, s.product)
    ensures var o := ApplyAny(s, a);
            if Loses(s, a) then o.Panic? || (o.Next? && !Kept(o.state, before))
            else !o.Panic? && (o.Next? ==> Kept(o.state, before) && Besides(o.state, before))
    ensures ApplyAny(s, a).Next? ==> ApplyAny(s, a).state.product == s.product
  {
    match a
    case CreateBucket(msg) => if s.message.Waiting? { CreateKeeps(s, before, msg); }
    case LookUp => if s.message.Created? { LookUpLosesIff(s, before); }
    case ProcessTrade => if s.message.Holding? { ProcessLosesIff(s, before); }
    case Snapshot(keys) => if ApplyAny(s, a).Next? { SnapshotKeeps(s, before, keys); }
    case BuildNext => if s.flush.Examining? { BuildKeeps(s, before); }
    case Upsert(outcome) => if s.flush.Built? { UpsertKeeps(s, before, outcome); }
    case Delete => if s.flush.Stored? { DeleteLosesIff(s, before); }
  }

  ghost predicate Keeps(o: Outcome, before: Store) {
    !o.Panic? && (o.Next? ==> Kept(o.state, before))
  }

  function After(product: Product, before: Store, actions: seq<Action>, n: nat): Outcome
    requires n <= |actions|
  {
    RunAny(InitialState(product, before), actions[..n])
  }

  predicate LosesAt(product: Product, before: Store, actions: seq<Action>, n: nat)
    requires n < |actions|
  {
    After(product, before, actions, n).Next? && Loses(After(product, before, actions, n).state, actions[n])
  }

  predicate GoodRun(product: Product, actions: seq<Action>) {
    forall n :: 0 <= n < |actions| ==> GoodAction(actions[n], product)
  }

  lemma StartKept(product: Product, before: Store)
    ensures Kept(InitialState(product, before), before) && Besides(InitialState(product, before), before)
  {
    assert FoldBars([]) == EMPTY;
  }

  lemma AfterStep(product: Product, before: Store, actions: seq<Action>, n: nat)
    requires n < |actions|
    ensures var o := After(product, before, actions, n);
            After(product, before, actions, n + 1) == if o.Next? then ApplyAny(o.state, actions[n]) else o
  {
    assert actions[..n + 1][..n] == actions[..n];
    hide ApplyAny;
  }

  lemma {:induction false} KeepsUntil(product: Product, before: Store, actions: seq<Action>, n: nat)
    requires GoodRun(product, actions) && n <= |actions|
    requires forall k :: 0 <= k < n ==> !LosesAt(product, before, actions, k)
    ensures var o := After(product, before, actions, n);
            && !o.Panic?
            && (o.Next? ==> Kept(o.state, before) && Besides(o.state, before) && o.state.product == product)
  {
    hide ApplyAny, Kept, Besides, Loses, After;
    if n == 0 {
      StartKept(product, before);
      NoActions(product, before, actions);
    } else {
      KeepsUntil(product, before, actions, n - 1);
      AfterStep(product, before, actions, n - 1);
      var o := After(product, before, actions, n - 1);
      assert !LosesAt(product, before, actions, n - 1);
      if o.Next? {
        StepLosesIff(o.state, before, actions[n - 1]);
      }
    }
  }

  lemma NoActions(product: Product, before: Store, actions: seq<Action>)
    ensures After(product, before, actions, 0) == Next(InitialState(product, before))
  {
  }

  lemma {:induction false} FirstLoss(product: Product, before: Store, actions: seq<Action>, n: nat) returns (k: nat)
    requires n < |actions| && LosesAt(product, before, actions, n)
    ensures k <= n && LosesAt(product, before, actions, k)
    ensures forall i :: 0 <= i < k ==> !LosesAt(product, before, actions, i)
  {
    if i :| 0 <= i < n && LosesAt(product, before, actions, i) {
      k := FirstLoss(product, before, actions, i);
    } else {
      k := n;
    }
  }

  /** For every interleaving, messages in any order of time and any store to start with: no state
      panics and every state keeps each minute's trades in its live builder or the store, exactly
      when no step is one of the losing ones. */
  lemma KeepsTradesIff(product: Product, before: Store, actions: seq<Action>)
    requires GoodRun(product, actions)
    ensures (forall n :: 0 <= n <= |actions| ==> Keeps(After(product, before, actions, n), before))
       <==> (forall n :: 0 <= n < |actions| ==> !LosesAt(product, before, actions, n))
  {
    hide ApplyAny, Kept, Besides, Loses, After;
    if forall n :: 0 <= n < |actions| ==> !LosesAt(product, before, actions, n) {
      forall n | 0 <= n <= |actions| ensures Keeps(After(product, before, actions, n), before) {
        KeepsUntil(product, before, actions, n);
      }
    } else {
      var n :| 0 <= n < |actions| && LosesAt(product, before, actions, n);
      var k := FirstLoss(product, before, actions, n);
      KeepsUntil(product, before, actions, k);
      AfterStep(product, before, actions, k);
      StepLosesIff(After(product, before, actions, k).state, before, actions[k]);
      assert !Keeps(After(product, before, actions, k + 1), before);
    }
  }

  // ---------- messages in order ----------

  lemma InOrderKeeps(s: State, before: Store, a: Action)
    requires Inv(s, before) && GoodHistory(s) && Apply(s, a).Next?
    ensures !Loses(s, a) && ApplyAny(s, a) == Apply(s, a)
  {
    hide CandlestickBucket, MinuteTrades, FoldBars, AddBar, StoreTouched, BucketsInPast;
    if a.ProcessTrade? {
      MinuteVolume(s, Current(s));
    } else if a.Delete? {
      MinuteVolume(s, s.flush.keys[s.flush.j]);
    }
  }

  lemma InOrderHistory(s: State, before: Store, a: Action)
    requires Inv(s, before) && GoodHistory(s) && GoodAction(a, s.product) && MessageOk(s) && Apply(s, a).Next?
    ensures GoodHistory(Apply(s, a).state) && MessageOk(Apply(s, a).state)
  {
    hide CandlestickBucket, MinuteTrades, FoldBars, StoreTouched, FlushSafe, Settled;
    if a.CreateBucket? {
      BucketContains(a.msg.time, 1);
    }
  }

  lemma {:induction false} InOrderUntil(product: Product, before: Store, actions: seq<Action>)
    requires GoodRun(product, actions) && Run(InitialState(product, before), actions).Next?
    ensures RunAny(InitialState(product, before), actions) == Run(InitialState(product, before), actions)
    ensures var s := Run(InitialState(product, before), actions).state; GoodHistory(s) && MessageOk(s)
    ensures forall n :: 0 <= n < |actions| ==> !LosesAt(product, before, actions, n)
  {
    hide Apply, ApplyAny, Inv, Loses, GoodHistory, MessageOk;
    if actions == [] {
      StartGood(product, before);
    } else {
      var front, a := actions[..|actions| - 1], actions[|actions| - 1];
      InOrderUntil(product, before, front);
      EveryRunAccounted(product, before, front);
      var s := Run(InitialState(product, before), front).state;
      InOrderKeeps(s, before, a);
      InOrderHistory(s, before, a);
      forall n | 0 <= n < |actions| ensures !LosesAt(product, before, actions, n) {
        if n < |front| {
          assert !LosesAt(product, before, front, n);
          assert front[..n] == actions[..n];
        }
      }
    }
  }

  lemma StartGood(product: Product, before: Store)
    ensures GoodHistory(InitialState(product, before)) && MessageOk(InitialState(product, before))
  {
  }

  /** When messages come in order of time, none of the losing steps is taken: everything is kept. */
  lemma {:induction false} InOrderNeverLoses(product: Product, before: Store, actions: seq<Action>)
    requires GoodRun(product, actions) && Run(InitialState(product, before), actions).Next?
    ensures After(product, before, actions, |actions|) == Run(InitialState(product, before), actions)
    ensures forall n :: 0 <= n <= |actions| ==> Keeps(After(product, before, actions, n), before)
  {
    hide Run, Keeps;
    InOrderUntil(product, before, actions);
    KeepsTradesIff(product, before, actions);
    assert actions[..|actions|] == actions;
  }

  // ---------- a late trade ----------

  const BTC := "BTC-USD"

  function TradeAt(time: int): ExchangeMessage {
    ExchangeMessage(1.0, BTC, 1.0, MATCH, time)
  }

  /** A trade in each of two minutes, a flush of the first minute, one more trade of it, and
      another flush. */
  function LateTrade(): seq<Action> {
    [CreateBucket(TradeAt(0)), LookUp, ProcessTrade, CreateBucket(TradeAt(MINUTE)), LookUp, ProcessTrade,
     Snapshot([0, MINUTE]), BuildNext, Upsert(Succeeded), Delete, CreateBucket(TradeAt(0)), LookUp, ProcessTrade,
     Snapshot([0, MINUTE]), BuildNext, Upsert(Succeeded), Delete]
  }

  lemma TwoBuckets()
    ensures BucketOf(TradeAt(0)) == 0 && BucketOf(TradeAt(MINUTE)) == MINUTE
    ensures Aligned(0, 1)
  {
    assert FloorTo(MINUTE, Width(1)) == FloorTo(0, Width(1)) + Width(1);
  }

  function WithTrade(s: State, msg: ExchangeMessage): State {
    var b, bar := BucketOf(msg), AddBar(EMPTY, TradeBar(msg));
    s.(clock := msg.time, candles := s.candles[b := |s.builders|], processed := s.processed + [msg],
       builders := s.builders + [Builder(b, b + MINUTE, BTC, bar)])
  }

  /** The first trade of a minute, from step n on. */
  lemma FirstTrade(actions: seq<Action>, n: nat, s: State, msg: ExchangeMessage)
    requires n + 3 <= |actions| && actions[n] == CreateBucket(msg)
    requires actions[n + 1] == LookUp && actions[n + 2] == ProcessTrade
    requires After(BTC, map[], actions, n) == Next(s) && s.message.Waiting? && s.product == BTC
    requires IsTrade(BTC, msg) && msg.time >= 0 && BucketOf(msg) !in s.candles
    ensures After(BTC, map[], actions, n + 3) == Next(WithTrade(s, msg))
  {
    BucketContains(msg.time, 1);
    hide CandlestickBucket, AddBar, TradeBar;
    AfterStep(BTC, map[], actions, n);
    AfterStep(BTC, map[], actions, n + 1);
    AfterStep(BTC, map[], actions, n + 2);
    hide After;
    var b, bar := BucketOf(msg), AddBar(EMPTY, TradeBar(msg));
    var added := s.builders + [Builder(b, b + MINUTE, BTC, EMPTY)];
    assert added[|s.builders| := Builder(b, b + MINUTE, BTC, bar)] == s.builders + [Builder(b, b + MINUTE, BTC, bar)];
  }

  function WithFlush(s: State, m: int): State
    requires m in s.candles && s.candles[m] < |s.builders|
  {
    s.(store := s.store[(m, BTC) := BuildFrom(s.builders[s.candles[m]])], candles := s.candles - {m},
       deleted := s.deleted + {m})
  }

  /** A flush of the first of two buckets that stores its candle. */
  lemma FirstFlushed(actions: seq<Action>, n: nat, s: State, m: int, k: int)
    requires n + 4 <= |actions| && actions[n] == Snapshot([m, k]) && actions[n + 1] == BuildNext
    requires actions[n + 2] == Upsert(Succeeded) && actions[n + 3] == Delete
    requires After(BTC, map[], actions, n) == Next(s) && s.flush.Asleep? && Lists([m, k], s.candles.Keys)
    requires HasVolume(s, m)
    requires s.builders[s.candles[m]].start == m && s.builders[s.candles[m]].product == BTC
    ensures After(BTC, map[], actions, n + 4) == Next(WithFlush(s, m))
  {
    hide CandlestickBucket, BarsWithin, FoldBars;
    AfterStep(BTC, map[], actions, n);
    AfterStep(BTC, map[], actions, n + 1);
    AfterStep(BTC, map[], actions, n + 2);
    AfterStep(BTC, map[], actions, n + 3);
    hide After, Lists;
    assert [m, k][0] == m;
  }

  lemma TwoKeys(keys: set<int>)
    requires keys == {0, MINUTE}
    ensures Lists([0, MINUTE], keys)
  {
    assert [0, MINUTE][0] == 0 && [0, MINUTE][1] == MINUTE;
  }

  function TwoTraded(): State {
    WithTrade(WithTrade(InitialState(BTC, map[]), TradeAt(0)), TradeAt(MINUTE))
  }

  lemma TradedBuckets()
    ensures var s := TwoTraded();
            && s.candles == map[0 := 0, MINUTE := 1] && |s.builders| == 2 && s.message.Waiting? && s.flush.Asleep?
            && s.builders[0] == Builder(0, MINUTE, BTC, AddBar(EMPTY, TradeBar(TradeAt(0)))) && s.product == BTC
            && s.processed == [TradeAt(0), TradeAt(MINUTE)]
  {
    hide CandlestickBucket, BucketOf;
    TwoBuckets();
  }

  /** The state after the first flush. */
  function Flushed(): State {
    TradedBuckets();
    WithFlush(TwoTraded(), 0)
  }

  lemma UntilTraded()
    ensures After(BTC, map[], LateTrade(), 6) == Next(TwoTraded())
  {
    hide CandlestickBucket, After, BucketOf, AddBar, TradeBar;
    TwoBuckets();
    NoActions(BTC, map[], LateTrade());
    var start := InitialState(BTC, map[]);
    FirstTrade(LateTrade(), 0, start, TradeAt(0));
    FirstTrade(LateTrade(), 3, WithTrade(start, TradeAt(0)), TradeAt(MINUTE));
  }

  lemma UntilFlushed()
    ensures After(BTC, map[], LateTrade(), 10) == Next(Flushed())
  {
    hide CandlestickBucket, After, BucketOf, TwoTraded, WithTrade;
    UntilTraded();
    TradedBuckets();
    TwoKeys(TwoTraded().candles.Keys);
    FirstFlushed(LateTrade(), 6, TwoTraded(), 0, MINUTE);
  }

  /** The late trade starts another candle of the first minute. */
  lemma UntilEnd() returns (end: State)
    ensures After(BTC, map[], LateTrade(), 17) == Next(end) && 0 !in end.candles && end.product == BTC
    ensures end.processed == [TradeAt(0), TradeAt(MINUTE), TradeAt(0)]
    ensures (0, BTC) in end.store && end.store[(0, BTC)].bar.volume == 1.0
  {
    hide CandlestickBucket, After, BucketOf, TwoTraded;
    TwoBuckets();
    TradedBuckets();
    UntilFlushed();
    FirstTrade(LateTrade(), 10, Flushed(), TradeAt(0));
    var u := WithTrade(Flushed(), TradeAt(0));
    assert u.candles == map[MINUTE := 1, 0 := 2];
    TwoKeys(u.candles.Keys);
    FirstFlushed(LateTrade(), 13, u, 0, MINUTE);
    end := WithFlush(u, 0);
  }

  lemma NoMessages()
    ensures BarsWithin(Trades([], BTC), 0, MINUTE) == []
  {
  }

  /** All three trades are processed, two of them in the first minute. */
  lemma FirstMinuteTrades(s: State)
    requires s.product == BTC && s.processed == [TradeAt(0), TradeAt(MINUTE), TradeAt(0)]
    ensures MinuteTrades(s, 0) == [TradeBar(TradeAt(0)), TradeBar(TradeAt(0))]
    ensures MinuteCandle(s, 0).bar.volume == 2.0
  {
    hide CandlestickBucket, BarsWithin, Trades, FoldBars;
    TwoBuckets();
    NoMessages();
    TradeAdds([], BTC, TradeAt(0), 0);
    TradeAdds([TradeAt(0)], BTC, TradeAt(MINUTE), 0);
    TradeAdds([TradeAt(0), TradeAt(MINUTE)], BTC, TradeAt(0), 0);
    assert [TradeAt(0)] + [TradeAt(MINUTE)] == [TradeAt(0), TradeAt(MINUTE)] && [] + [TradeAt(0)] == [TradeAt(0)];
    assert [TradeAt(0), TradeAt(MINUTE)] + [TradeAt(0)] == s.processed;
    TwoVolume(TradeBar(TradeAt(0)));
  }

  lemma TwoVolume(b: Bar)
    ensures FoldBars([b, b]).volume == b.volume + b.volume
  {
    FoldOneMore([], b);
    FoldOneMore([b], b);
    assert [] + [b] == [b] && [b] + [b] == [b, b] && FoldBars([]) == EMPTY;
  }

  /** The late trade makes a new bucket and is processed; the next flush replaces the first candle
      of the minute, and of its two trades only the late one is left. */
  lemma LateTradeLoses()
    ensures var end := After(BTC, map[], LateTrade(), |LateTrade()|);
            && end.Next? && 0 !in end.state.candles
            && (0, BTC) in end.state.store && end.state.store[(0, BTC)].bar.volume == 1.0
            && MinuteCandle(end.state, 0).bar.volume == 2.0
    ensures exists n :: 0 <= n < |LateTrade()| && LosesAt(BTC, map[], LateTrade(), n)
  {
    hide CandlestickBucket, After, MinuteTrades, BucketOf;
    TwoBuckets();
    var end := UntilEnd();
    FirstMinuteTrades(end);
    assert !Settled(end, map[], 0);
    assert !Keeps(After(BTC, map[], LateTrade(), |LateTrade()|), map[]) by { assert !MinuteKept(end, map[], 0); }
    KeepsTradesIff(BTC, map[], LateTrade());
  }
}
