/** The historical importer: a time range is cut into batches that concurrent workers fetch and
    store, retrying a batch from its start when a fetch or an upsert fails. */
module HistoricalImport {
  import opened Grid
  import opened Candlesticks
  import opened RealtimeImport
  import opened Writes

  const BATCH := 150 * MINUTE
  const MAX_RETRIES := 20

  datatype Batch = Batch(start: int, end: int)

  // ---------- cutting a range into batches ----------

  /** The k-th batch of a range: 150 minutes. */
  function BatchAt(start: int, k: int): (b: Batch)
    ensures b.start == start + k * 9_000_000_000_000 && b.end == b.start + 9_000_000_000_000
  {
    Batch(start + k * BATCH, start + k * BATCH + BATCH)
  }

  predicate Covered(batches: seq<Batch>, t: int) {
    exists k :: 0 <= k < |batches| && batches[k].start <= t <= batches[k].end
  }

  /** For every range: the batches start at `start`, each ends where the next one starts, they
      cover the range, and there are floor((end - start) / 150 min) + 1 of them. */
  method Batches(start: int, end: int) returns (batches: seq<Batch>)
    ensures |batches| == if end < start then 0 else (end - start) / 9_000_000_000_000 + 1
    ensures forall k :: 0 <= k < |batches| ==> batches[k] == BatchAt(start, k)
    ensures forall t :: start <= t <= end ==> Covered(batches, t)
  {
    assert BATCH == 9_000_000_000_000;
    batches := [];
    var i := start;
    while i <= end
      invariant i == start + |batches| * 9_000_000_000_000
      invariant |batches| > 0 ==> i - 9_000_000_000_000 <= end
      invariant forall k :: 0 <= k < |batches| ==> batches[k] == BatchAt(start, k)
      decreases end - i
    {
      batches := batches + [Batch(i, i + BATCH)];
      i := i + BATCH;
    }
    forall t {:trigger Covered(batches, t)} | start <= t <= end ensures Covered(batches, t) {
      var k := (t - start) / 9_000_000_000_000;
      assert batches[k] == BatchAt(start, k);
    }
  }

  // ---------- storing candles ----------

  function Key(c: Candle): StoreKey {
    (c.start, c.product)
  }

  function WriteAll(store: Store, cs: seq<Candle>): Store {
    if cs == [] then store
    else
      var c := cs[|cs| - 1];
      WriteAll(store, cs[..|cs| - 1])[(c.start, c.product) := c]
  }

  /** Importing the batches one after the other, without failures. */
  function SequentialImport(store: Store, fetched: seq<seq<Candle>>): Store {
    if fetched == [] then store
    else WriteAll(SequentialImport(store, fetched[..|fetched| - 1]), fetched[|fetched| - 1])
  }

  /** What the exchange and the database answer during one try of a batch. */
  datatype Answer = Answer(fetchOk: bool, outcomes: nat -> WriteOutcome)

  datatype Progress = Progress(store: Store, ok: bool)

  /** Storing the candles from pos on, up to the first failure. */
  function SaveFrom(store: Store, cs: seq<Candle>, outcomes: nat -> WriteOutcome, pos: nat): Progress
    requires pos <= |cs|
    decreases |cs| - pos
  {
    if pos == |cs| then Progress(store, true)
    else
      var written := store[Key(cs[pos]) := cs[pos]];
      match outcomes(pos)
      case Succeeded => SaveFrom(written, cs, outcomes, pos + 1)
      case FailedUnwritten => Progress(store, false)
      case FailedWritten => Progress(written, false)
  }

  function TryBatch(store: Store, cs: seq<Candle>, a: Answer): Progress {
    if a.fetchOk then SaveFrom(store, cs, a.outcomes, 0) else Progress(store, false)
  }

  /** Trying a batch until it succeeds or has been retried too often. */
  function TriesFrom(store: Store, cs: seq<Candle>, answers: nat -> Answer, retries: nat): Progress
    decreases MAX_RETRIES - retries
  {
    if retries >= MAX_RETRIES then Progress(store, false)
    else
      var p := TryBatch(store, cs, answers(retries));
      if p.ok then p else TriesFrom(p.store, cs, answers, retries + 1)
  }

  class HistoricalImporter {
    var store: Store

    constructor (table: Store)
      ensures store == table
    {
      store := table;
    }

    /** `cs` is what the exchange returns for the batch. */
    method ProcessBatch(cs: seq<Candle>, a: Answer) returns (ok: bool)
      modifies this
      ensures Progress(store, ok) == TryBatch(old(store), cs, a)
    {
      if !a.fetchOk {
        return false;
      }
      for i := 0 to |cs|
        invariant SaveFrom(store, cs, a.outcomes, i) == SaveFrom(old(store), cs, a.outcomes, 0)
      {
        if a.outcomes(i) == FailedUnwritten {
          return false;
        }
        store := store[Key(cs[i]) := cs[i]];
        if a.outcomes(i) == FailedWritten {
          return false;
        }
      }
      return true;
    }

    /** What a worker does with one batch. */
    method ImportBatch(cs: seq<Candle>, answers: nat -> Answer) returns (ok: bool)
      modifies this
      ensures Progress(store, ok) == TriesFrom(old(store), cs, answers, 0)
    {
      var retries := 0;
      while true
        invariant retries <= MAX_RETRIES
        invariant TriesFrom(store, cs, answers, retries) == TriesFrom(old(store), cs, answers, 0)
        decreases MAX_RETRIES - retries
      {
        if retries >= MAX_RETRIES {
          return false;
        }
        ok := ProcessBatch(cs, answers(retries));
        if ok {
          return true;
        }
        retries := retries + 1;
      }
    }
  }

  predicate AllSucceed(cs: seq<Candle>, a: Answer) {
    a.fetchOk && forall i :: 0 <= i < |cs| ==> a.outcomes(i) == Succeeded
  }

  /** A try succeeds exactly when the fetch and all upserts do; then every candle has been written
      in order, and otherwise those before some point. */
  lemma TrySucceedsIff(store: Store, cs: seq<Candle>, a: Answer)
    ensures var p := TryBatch(store, cs, a);
            && (p.ok <==> a.fetchOk && forall i :: 0 <= i < |cs| ==> a.outcomes(i) == Succeeded)
            && (p.ok ==> p.store == WriteAll(store, cs))
            && (exists done :: 0 <= done <= |cs| && p.store == WriteAll(store, cs[..done]))
  {
    assert cs[..0] == [] && cs[..|cs|] == cs;
    assert WriteAll(store, cs[..0]) == store;
    if a.fetchOk {
      SaveWrites(store, store, cs, a.outcomes, 0);
    }
  }

  lemma {:induction false} SaveWrites(start: Store, store: Store, cs: seq<Candle>, outcomes: nat -> WriteOutcome,
                                      pos: nat)
    requires pos <= |cs| && store == WriteAll(start, cs[..pos])
    ensures var p := SaveFrom(store, cs, outcomes, pos);
            && (p.ok <==> forall i :: pos <= i < |cs| ==> outcomes(i) == Succeeded)
            && (p.ok ==> p.store == WriteAll(start, cs))
            && (exists done :: 0 <= done <= |cs| && p.store == WriteAll(start, cs[..done]))
    decreases |cs| - pos
  {
    if pos == |cs| {
      assert cs[..pos] == cs;
    } else {
      assert cs[..pos + 1][..pos] == cs[..pos];
      var written := store[Key(cs[pos]) := cs[pos]];
      assert written == WriteAll(start, cs[..pos + 1]);
      if outcomes(pos) == Succeeded {
        SaveWrites(start, written, cs, outcomes, pos + 1);
      }
    }
  }

  /** A batch is imported exactly when one of its first 20 tries meets no failure. */
  lemma {:induction false} ImportedWithin(store: Store, cs: seq<Candle>, answers: nat -> Answer, retries: nat)
    requires retries <= 20
    ensures TriesFrom(store, cs, answers, retries).ok <==> exists k :: retries <= k < 20 && AllSucceed(cs, answers(k))
    decreases 20 - retries
  {
    if retries < 20 {
      var p := TryBatch(store, cs, answers(retries));
      TrySucceedsIff(store, cs, answers(retries));
      hide TryBatch;
      if !p.ok {
        ImportedWithin(p.store, cs, answers, retries + 1);
      } else {
        assert AllSucceed(cs, answers(retries));
      }
    }
  }

  // ---------- the workers, interleaved ----------

  datatype Worker =
    | Idle
    | Fetching(batch: nat, retries: nat)
    | Upserting(batch: nat, retries: nat, pos: nat)

  datatype ImportState = ImportState(
    next: nat,                 // batches handed out so far
    workers: seq<Worker>,
    store: Store,
    finished: set<nat>,        // history: batches processed without error
    abandoned: set<nat>)       // history: batches given up after too many retries

  datatype Step =
    | Take(worker: nat)
    | Fetch(worker: nat, ok: bool)
    | Save(worker: nat, outcome: WriteOutcome)

  function Move(s: ImportState, w: nat, to: Worker): ImportState
    requires w < |s.workers|
  {
    s.(workers := s.workers[w := to])
  }

  /** One step of one worker; a step that does not apply changes nothing. `fetched[b]` is what
      the exchange returns for batch b. */
  function ApplyStep(fetched: seq<seq<Candle>>, s: ImportState, a: Step): ImportState {
    if a.worker >= |s.workers| then s
    else
      match (a, s.workers[a.worker])
      case (Take(w), Idle) =>
        if s.next >= |fetched| then s else Move(s, w, Fetching(s.next, 0)).(next := s.next + 1)
      case (Fetch(w, ok), Fetching(b, retries)) =>
        if retries >= MAX_RETRIES then Move(s, w, Idle).(abandoned := s.abandoned + {b})
        else Move(s, w, if ok then Upserting(b, retries, 0) else Fetching(b, retries + 1))
      case (Save(w, outcome), Upserting(b, retries, pos)) =>
        if b >= |fetched| || pos >= |fetched[b]| then Move(s, w, Idle).(finished := s.finished + {b})
        else
          var c := fetched[b][pos];
          var written := s.store[Key(c) := c];
          (match outcome
           case Succeeded => Move(s, w, Upserting(b, retries, pos + 1)).(store := written)
           case FailedUnwritten => Move(s, w, Fetching(b, retries + 1))
           case FailedWritten => Move(s, w, Fetching(b, retries + 1)).(store := written))
      case _ => s
  }

  function ImportRun(fetched: seq<seq<Candle>>, s: ImportState, steps: seq<Step>): ImportState {
    if steps == [] then s
    else ApplyStep(fetched, ImportRun(fetched, s, steps[..|steps| - 1]), steps[|steps| - 1])
  }

  function ImportStart(concurrency: nat, store: Store): ImportState {
    ImportState(0, seq(concurrency, _ => Idle), store, {}, {})
  }

  /** The exchange is fixed: whichever batches return a minute's candle return the same one. */
  predicate FixedExchange(fetched: seq<seq<Candle>>) {
    forall a, b, i, j ::
      (0 <= a < |fetched| && 0 <= b < |fetched| && 0 <= i < |fetched[a]| && 0 <= j < |fetched[b]|
       && fetched[a][i].start == fetched[b][j].start && fetched[a][i].product == fetched[b][j].product) ==>
        fetched[a][i] == fetched[b][j]
  }

  predicate Holds(store: Store, c: Candle) {
    (c.start, c.product) in store && store[(c.start, c.product)] == c
  }

  predicate HoldsFirst(store: Store, cs: seq<Candle>, n: nat) {
    forall i :: 0 <= i < n && i < |cs| ==> Holds(store, cs[i])
  }

  predicate Fetched(fetched: seq<seq<Candle>>, next: nat, c: Candle) {
    exists b, i :: 0 <= b < next && b < |fetched| && 0 <= i < |fetched[b]| && fetched[b][i] == c
  }

  /** The store is the initial one with some of the candles of the first `next` batches written. */
  ghost predicate Between(store: Store, before: Store, fetched: seq<seq<Candle>>, next: nat) {
    forall key {:trigger Unchanged(store, before, key)} ::
      Unchanged(store, before, key)
      || (key in store && key == (store[key].start, store[key].product) && Fetched(fetched, next, store[key]))
  }

  predicate Owned(s: ImportState, b: nat) {
    || b in s.finished || b in s.abandoned
    || exists w :: 0 <= w < |s.workers| && !s.workers[w].Idle? && s.workers[w].batch == b
  }

  ghost predicate ImportInv(s: ImportState, before: Store, fetched: seq<seq<Candle>>) {
    && s.next <= |fetched|
    && (forall w :: 0 <= w < |s.workers| && !s.workers[w].Idle? ==> s.workers[w].batch < s.next)
    && (forall w :: 0 <= w < |s.workers| && s.workers[w].Upserting? ==>
          HoldsFirst(s.store, fetched[s.workers[w].batch], s.workers[w].pos))
    && (forall b :: b in s.finished ==> b < s.next && HoldsFirst(s.store, fetched[b], |fetched[b]|))
    && (forall b :: 0 <= b < s.next ==> Owned(s, b))
    && Between(s.store, before, fetched, s.next)
  }

  /** Writing a candle the exchange returns disturbs none that is already there. */
  lemma WriteKeeps(fetched: seq<seq<Candle>>, store: Store, b: nat, pos: nat, cs: seq<Candle>,
                   n: nat, d: nat)
    requires FixedExchange(fetched) && b < |fetched| && pos < |fetched[b]| && d < |fetched| && cs == fetched[d]
    requires HoldsFirst(store, cs, n)
    ensures HoldsFirst(store[Key(fetched[b][pos]) := fetched[b][pos]], cs, n)
  {
  }

  lemma WriteBetween(fetched: seq<seq<Candle>>, store: Store, before: Store, next: nat, b: nat,
                     pos: nat)
    requires Between(store, before, fetched, next) && b < next && b < |fetched| && pos < |fetched[b]|
    ensures Between(store[Key(fetched[b][pos]) := fetched[b][pos]], before, fetched, next)
  {
    var c := fetched[b][pos];
    var t := store[Key(c) := c];
    forall key {:trigger Unchanged(t, before, key)}
      ensures Unchanged(t, before, key)
        || (key in t && key == (t[key].start, t[key].product) && Fetched(fetched, next, t[key]))
    {
      if key == Key(c) {
        assert fetched[b][pos] == t[key];
      } else {
        assert Unchanged(store, before, key) || key in store;
      }
    }
  }

  lemma OwnedMoves(s: ImportState, t: ImportState, w: nat, b: nat)
    requires w < |s.workers| == |t.workers| && t.workers == s.workers[w := t.workers[w]]
    requires s.finished <= t.finished && s.abandoned <= t.abandoned && Owned(s, b)
    requires !s.workers[w].Idle? && s.workers[w].batch == b ==> Owned(t, b)
    ensures Owned(t, b)
  {
    if b !in s.finished && b !in s.abandoned {
      var v :| 0 <= v < |s.workers| && !s.workers[v].Idle? && s.workers[v].batch == b;
      if v != w {
        assert t.workers[v] == s.workers[v];
      }
    }
  }

  lemma TakeKeepsInv(s: ImportState, before: Store, fetched: seq<seq<Candle>>, w: nat)
    requires ImportInv(s, before, fetched)
    ensures ImportInv(ApplyStep(fetched, s, Take(w)), before, fetched)
  {
    var t := ApplyStep(fetched, s, Take(w));
    if t != s {
      forall b | 0 <= b < t.next ensures Owned(t, b) {
        if b == s.next {
          assert t.workers[w].batch == b;
        } else {
          OwnedMoves(s, t, w, b);
        }
      }
      WidenBetween(s.store, before, fetched, s.next, t.next);
    }
  }

  lemma WidenBetween(store: Store, before: Store, fetched: seq<seq<Candle>>, n: nat, m: nat)
    requires Between(store, before, fetched, n) && n <= m
    ensures Between(store, before, fetched, m)
  {
    forall key {:trigger Unchanged(store, before, key)}
      ensures Unchanged(store, before, key)
        || (key in store && key == (store[key].start, store[key].product) && Fetched(fetched, m, store[key]))
    {
      if !Unchanged(store, before, key) {
        assert Fetched(fetched, n, store[key]);
      }
    }
  }

  lemma FetchKeepsInv(s: ImportState, before: Store, fetched: seq<seq<Candle>>, w: nat, ok: bool)
    requires ImportInv(s, before, fetched)
    ensures ImportInv(ApplyStep(fetched, s, Fetch(w, ok)), before, fetched)
  {
    var t := ApplyStep(fetched, s, Fetch(w, ok));
    if t != s {
      forall b | 0 <= b < t.next ensures Owned(t, b) {
        OwnedMoves(s, t, w, b);
      }
    }
  }

  lemma SaveKeepsInv(s: ImportState, before: Store, fetched: seq<seq<Candle>>, w: nat,
                     outcome: WriteOutcome)
    requires ImportInv(s, before, fetched) && FixedExchange(fetched)
    ensures ImportInv(ApplyStep(fetched, s, Save(w, outcome)), before, fetched)
  {
    var t := ApplyStep(fetched, s, Save(w, outcome));
    if w < |s.workers| && s.workers[w].Upserting? {
      forall b | 0 <= b < t.next ensures Owned(t, b) {
        OwnedMoves(s, t, w, b);
      }
      var b, pos := s.workers[w].batch, s.workers[w].pos;
      if pos < |fetched[b]| && outcome != FailedUnwritten {
        WriteBetween(fetched, s.store, before, s.next, b, pos);
        forall v | 0 <= v < |t.workers| && t.workers[v].Upserting?
          ensures HoldsFirst(t.store, fetched[t.workers[v].batch], t.workers[v].pos)
        {
          WriteKeeps(fetched, s.store, b, pos, fetched[t.workers[v].batch],
                     if v == w then pos else t.workers[v].pos, t.workers[v].batch);
        }
        forall d | d in t.finished ensures HoldsFirst(t.store, fetched[d], |fetched[d]|) {
          WriteKeeps(fetched, s.store, b, pos, fetched[d], |fetched[d]|, d);
        }
      }
    }
  }

  lemma {:induction false} EveryImportRun(fetched: seq<seq<Candle>>, before: Store, concurrency: nat, steps: seq<Step>)
    requires FixedExchange(fetched)
    ensures ImportInv(ImportRun(fetched, ImportStart(concurrency, before), steps), before, fetched)
  {
    if steps != [] {
      EveryImportRun(fetched, before, concurrency, steps[..|steps| - 1]);
      var s := ImportRun(fetched, ImportStart(concurrency, before), steps[..|steps| - 1]);
      match steps[|steps| - 1]
      case Take(w) => TakeKeepsInv(s, before, fetched, w);
      case Fetch(w, ok) => FetchKeepsInv(s, before, fetched, w, ok);
      case Save(w, outcome) => SaveKeepsInv(s, before, fetched, w, outcome);
    }
  }

  /** After every run: a row that is not as before is stored at its own start and product, and was
      fetched; every candle of a finished batch is what is stored at its start and product; and so no
      two rows written share both. */
  lemma {:induction false} EveryRowAtItsOwn(fetched: seq<seq<Candle>>, before: Store, concurrency: nat,
                                            steps: seq<Step>)
    requires FixedExchange(fetched)
    ensures var s := ImportRun(fetched, ImportStart(concurrency, before), steps);
            && (forall key :: key in s.store && !(key in before && s.store[key] == before[key]) ==>
                  && key.0 == s.store[key].start && key.1 == s.store[key].product
                  && Fetched(fetched, s.next, s.store[key]))
            && (forall key :: key in before ==> key in s.store)
            && (forall b, i :: b in s.finished && b < |fetched| && 0 <= i < |fetched[b]| ==>
                  var c := fetched[b][i]; (c.start, c.product) in s.store && s.store[(c.start, c.product)] == c)
  {
    hide ImportRun;
    EveryImportRun(fetched, before, concurrency, steps);
    var s := ImportRun(fetched, ImportStart(concurrency, before), steps);
    forall key | key in s.store && !(key in before && s.store[key] == before[key])
      ensures key.0 == s.store[key].start && key.1 == s.store[key].product && Fetched(fetched, s.next, s.store[key])
    {
      assert !Unchanged(s.store, before, key);
    }
    forall key | key in before ensures key in s.store {
      assert Unchanged(s.store, before, key) || key in s.store;
    }
    forall b, i | b in s.finished && b < |fetched| && 0 <= i < |fetched[b]| ensures Holds(s.store, fetched[b][i]) {
      assert HoldsFirst(s.store, fetched[b], |fetched[b]|);
    }
  }

  // ---------- agreement with the sequential import ----------

  lemma {:induction false} WriteAllIs(store: Store, before: Store, fetched: seq<seq<Candle>>, b: nat, n: nat)
    requires FixedExchange(fetched) && b < |fetched| && n <= |fetched[b]|
    requires Between(store, before, fetched, b)
    requires forall d :: 0 <= d < b ==> HoldsFirst(store, fetched[d], |fetched[d]|)
    ensures var t := WriteAll(store, fetched[b][..n]);
            && Between(t, before, fetched, b + 1) && HoldsFirst(t, fetched[b], n)
            && forall d :: 0 <= d < b ==> HoldsFirst(t, fetched[d], |fetched[d]|)
  {
    if n == 0 {
      WidenBetween(store, before, fetched, b, b + 1);
    } else {
      WriteAllIs(store, before, fetched, b, n - 1);
      assert fetched[b][..n][..n - 1] == fetched[b][..n - 1];
      var u := WriteAll(store, fetched[b][..n - 1]);
      WriteBetween(fetched, u, before, b + 1, b, n - 1);
      WriteKeeps(fetched, u, b, n - 1, fetched[b], n - 1, b);
      forall d | 0 <= d < b
        ensures HoldsFirst(u[Key(fetched[b][n - 1]) := fetched[b][n - 1]], fetched[d], |fetched[d]|)
      {
        WriteKeeps(fetched, u, b, n - 1, fetched[d], |fetched[d]|, d);
      }
    }
  }

  lemma {:induction false} SequentialHolds(before: Store, fetched: seq<seq<Candle>>, n: nat)
    requires FixedExchange(fetched) && n <= |fetched|
    ensures var t := SequentialImport(before, fetched[..n]);
            && Between(t, before, fetched, n)
            && forall d :: 0 <= d < n ==> HoldsFirst(t, fetched[d], |fetched[d]|)
  {
    if n > 0 {
      SequentialHolds(before, fetched, n - 1);
      assert fetched[..n][..n - 1] == fetched[..n - 1];
      WriteAllIs(SequentialImport(before, fetched[..n - 1]), before, fetched, n - 1, |fetched[n - 1]|);
      assert fetched[n - 1][..|fetched[n - 1]|] == fetched[n - 1];
    }
  }

  /** A store that holds everything fetched and nothing else new is determined. */
  lemma HoldingDetermines(s: Store, t: Store, before: Store, fetched: seq<seq<Candle>>)
    requires Between(s, before, fetched, |fetched|) && Between(t, before, fetched, |fetched|)
    requires forall d :: 0 <= d < |fetched| ==> HoldsFirst(s, fetched[d], |fetched[d]|)
    requires forall d :: 0 <= d < |fetched| ==> HoldsFirst(t, fetched[d], |fetched[d]|)
    ensures s == t
  {
    forall key ensures (key in s <==> key in t) && (key in s && key in t ==> s[key] == t[key]) {
      if b, i :| 0 <= b < |fetched| && 0 <= i < |fetched[b]| && Key(fetched[b][i]) == key {
        assert Holds(s, fetched[b][i]) && Holds(t, fetched[b][i]);
      } else {
        assert Unchanged(s, before, key) && Unchanged(t, before, key);
      }
    }
  }

  /** For every interleaving of any number of workers, failures and half-done batches included:
      once all batches are handed out, all workers idle and none was given up, the store is the
      one a sequential import without failures leaves. */
  lemma ImportOrderIndependent(fetched: seq<seq<Candle>>, before: Store, concurrency: nat,
                               steps: seq<Step>)
    requires FixedExchange(fetched)
    requires var s := ImportRun(fetched, ImportStart(concurrency, before), steps);
             s.next == |fetched| && s.abandoned == {} && forall w :: 0 <= w < |s.workers| ==> s.workers[w].Idle?
    ensures ImportRun(fetched, ImportStart(concurrency, before), steps).store == SequentialImport(before, fetched)
  {
    var s := ImportRun(fetched, ImportStart(concurrency, before), steps);
    EveryImportRun(fetched, before, concurrency, steps);
    SequentialHolds(before, fetched, |fetched|);
    assert fetched[..|fetched|] == fetched;
    forall d | 0 <= d < |fetched| ensures HoldsFirst(s.store, fetched[d], |fetched[d]|) {
      assert Owned(s, d);
    }
    HoldingDetermines(s.store, SequentialImport(before, fetched), before, fetched);
  }

  // ---------- calls are runs ----------

  lemma {:induction false} ImportRunConcat(fetched: seq<seq<Candle>>, s: ImportState, xs: seq<Step>, ys: seq<Step>)
    ensures ImportRun(fetched, s, xs + ys) == ImportRun(fetched, ImportRun(fetched, s, xs), ys)
  {
    hide ApplyStep;
    if ys == [] {
      assert xs + ys == xs;
    } else {
      assert (xs + ys)[..|xs + ys| - 1] == xs + ys[..|ys| - 1];
      ImportRunConcat(fetched, s, xs, ys[..|ys| - 1]);
    }
  }

  lemma StepThen(fetched: seq<seq<Candle>>, s: ImportState, a: Step, rest: seq<Step>)
    ensures ImportRun(fetched, s, [a] + rest) == ImportRun(fetched, ApplyStep(fetched, s, a), rest)
  {
    hide ApplyStep;
    assert [a][..0] == [];
    assert ImportRun(fetched, s, [a]) == ApplyStep(fetched, s, a);
    ImportRunConcat(fetched, s, [a], rest);
  }

  /** Where a try that starts at pos leaves its worker: done, or back at fetching. */
  function AfterTry(s: ImportState, w: nat, b: nat, retries: nat, p: Progress): ImportState
    requires w < |s.workers|
  {
    if p.ok then Move(s, w, Idle).(store := p.store, finished := s.finished + {b})
    else Move(s, w, Fetching(b, retries + 1)).(store := p.store)
  }

  lemma {:induction false} SavesAreRun(fetched: seq<seq<Candle>>, s: ImportState, w: nat, b: nat, retries: nat,
                                       pos: nat,
                                       outcomes: nat -> WriteOutcome)
    returns (steps: seq<Step>)
    requires w < |s.workers| && s.workers[w] == Upserting(b, retries, pos) && b < |fetched| && pos <= |fetched[b]|
    ensures ImportRun(fetched, s, steps) == AfterTry(s, w, b, retries, SaveFrom(s.store, fetched[b], outcomes, pos))
    decreases |fetched[b]| - pos
  {
    var outcome := if pos < |fetched[b]| then outcomes(pos) else Succeeded;
    var t := ApplyStep(fetched, s, Save(w, outcome));
    var rest := [];
    if pos < |fetched[b]| && outcome == Succeeded {
      rest := SavesAreRun(fetched, t, w, b, retries, pos + 1, outcomes);
    }
    steps := [Save(w, outcome)] + rest;
    StepThen(fetched, s, Save(w, outcome), rest);
  }

  lemma TryIsRun(fetched: seq<seq<Candle>>, s: ImportState, w: nat, b: nat, retries: nat, a: Answer)
    returns (steps: seq<Step>)
    requires w < |s.workers| && s.workers[w] == Fetching(b, retries) && b < |fetched| && retries < MAX_RETRIES
    ensures ImportRun(fetched, s, steps) == AfterTry(s, w, b, retries, TryBatch(s.store, fetched[b], a))
  {
    var t := ApplyStep(fetched, s, Fetch(w, a.fetchOk));
    var rest := [];
    if a.fetchOk {
      rest := SavesAreRun(fetched, t, w, b, retries, 0, a.outcomes);
    }
    steps := [Fetch(w, a.fetchOk)] + rest;
    StepThen(fetched, s, Fetch(w, a.fetchOk), rest);
  }

  lemma {:induction false} TriesAreRun(fetched: seq<seq<Candle>>, s: ImportState, w: nat, b: nat, retries: nat,
                                       answers: nat -> Answer)
    returns (steps: seq<Step>)
    requires w < |s.workers| && s.workers[w] == Fetching(b, retries) && b < |fetched|
    ensures ImportRun(fetched, s, steps) == AfterBatch(s, w, b, TriesFrom(s.store, fetched[b], answers, retries))
    decreases MAX_RETRIES - retries
  {
    if retries >= MAX_RETRIES {
      steps := [Fetch(w, true)] + [];
      StepThen(fetched, s, Fetch(w, true), []);
    } else {
      hide TryBatch, ApplyStep;
      var p := TryBatch(s.store, fetched[b], answers(retries));
      steps := TryIsRun(fetched, s, w, b, retries, answers(retries));
      if !p.ok {
        var t := AfterTry(s, w, b, retries, p);
        var rest := TriesAreRun(fetched, t, w, b, retries + 1, answers);
        ImportRunConcat(fetched, s, steps, rest);
        steps := steps + rest;
      }
    }
  }

  /** What a batch changes once its worker is idle again. */
  function AfterBatch(s: ImportState, w: nat, b: nat, p: Progress): ImportState
    requires w < |s.workers|
  {
    var t := Move(s, w, Idle).(store := p.store);
    if p.ok then t.(finished := s.finished + {b}) else t.(abandoned := s.abandoned + {b})
  }

  /** An idle worker that takes the next batch and imports it as the code does is a run of its steps. */
  lemma ImportBatchIsRun(fetched: seq<seq<Candle>>, s: ImportState, w: nat, answers: nat -> Answer)
    returns (steps: seq<Step>)
    requires w < |s.workers| && s.workers[w].Idle? && s.next < |fetched|
    ensures var p := TriesFrom(s.store, fetched[s.next], answers, 0);
            ImportRun(fetched, s, steps) == AfterBatch(s.(next := s.next + 1), w, s.next, p)
  {
    var t := ApplyStep(fetched, s, Take(w));
    var rest := TriesAreRun(fetched, t, w, s.next, 0, answers);
    steps := [Take(w)] + rest;
    StepThen(fetched, s, Take(w), rest);
  }
}
