/** The bot's scheduler: which strategies tick at which candlestick, with retries after errors. */
module Scheduling {
  import opened Options
  import opened Grid
  import opened Writes

  /** A strategy's row in the database; no next tick means that it is never scheduled. */
  datatype Record = Record(tick: nat, nextTickAt: Option<int>, lastTickAt: Option<int>, deactivatedAt: Option<int>)

  /** How processing one strategy goes: its tick completes, it lacks data, or it fails. A tick may
      have had an order filled, and may have stored a deactivation, whether or not it then fails;
      `saved` is how the closing save of the row goes. */
  datatype Outcome =
    | Ticked(trades: bool, deactivates: Option<int>, saved: WriteOutcome)
    | LacksData(saved: WriteOutcome)
    | Fails(trades: bool, deactivates: Option<int>)

  /** One check for a new candlestick: the most recent one's id and end, and what the outside does. */
  datatype Event = Event(id: int, time: int, found: bool, initialized: bool, outcomes: nat -> Outcome)

  /** History: at which check which strategy was processed, and how that went. */
  datatype Entry = Entry(event: nat, strategy: nat, time: int, outcome: Outcome)

  datatype BotState = BotState(current: Option<int>, db: seq<Record>, events: nat, log: seq<Entry>)

  // ---------- specification ----------

  predicate Due(r: Record, t: int) {
    r.deactivatedAt.None? && r.nextTickAt.Some? && r.nextTickAt.value <= t
  }

  function NextTick(tick: nat, t: int): int
    requires tick >= 1
  {
    CandlestickBucket(t, tick) + Width(tick)
  }

  /** The row once a tick has stored a deactivation. */
  function Deactivated(r: Record, at: Option<int>): Record {
    if at.Some? then r.(deactivatedAt := at) else r
  }

  /** The row after its strategy has been processed at t. */
  function AfterProcess(r: Record, t: int, o: Outcome): Record
    requires r.tick >= 1
  {
    match o
    case Ticked(_, at, saved) =>
      if Reached(saved) then Deactivated(r, at).(lastTickAt := Some(t), nextTickAt := Some(NextTick(r.tick, t)))
      else Deactivated(r, at)
    case LacksData(saved) => if Reached(saved) then r.(deactivatedAt := Some(t)) else r
    case Fails(_, at) => Deactivated(r, at)
  }

  /** A tick is completed once its schedule is stored. */
  predicate Completes(o: Outcome) {
    o.Ticked? && Reached(o.saved)
  }

  predicate TradesIn(o: Outcome) {
    !o.LacksData? && o.trades
  }

  predicate Errs(o: Outcome) {
    o.Fails? || o.saved != Succeeded
  }

  predicate GoodRecords(db: seq<Record>) {
    forall i :: 0 <= i < |db| ==> db[i].tick >= 1
  }

  datatype Progress = Progress(db: seq<Record>, log: seq<Entry>, failed: bool)

  /** The strategies up to the n-th, in order; the first error stops the rest. */
  function ProcessFirst(db: seq<Record>, log: seq<Entry>, e: Event, event: nat, n: nat): (p: Progress)
    requires n <= |db| && GoodRecords(db)
    ensures |p.db| == |db| && GoodRecords(p.db)
    ensures forall k :: n <= k < |db| ==> p.db[k] == db[k]
    ensures forall k :: 0 <= k < |db| ==> p.db[k].tick == db[k].tick
  {
    if n == 0 then Progress(db, log, false)
    else
      var p, i := ProcessFirst(db, log, e, event, n - 1), n - 1;
      if p.failed || !Due(db[i], e.time) then p
      else
        var o := e.outcomes(i);
        Progress(p.db[i := AfterProcess(db[i], e.time, o)],
                 p.log + [Entry(event, i, e.time, o)], Errs(o))
  }

  /** One check: an unchanged candlestick is not processed again, a failed one is retried. */
  function Check(s: BotState, e: Event): BotState
    requires GoodRecords(s.db)
  {
    var t := s.(events := s.events + 1);
    if !e.found then t
    else if s.current == Some(e.id) then t
    else if !e.initialized then t
    else
      var p := ProcessFirst(s.db, s.log, e, s.events, |s.db|);
      t.(db := p.db, log := p.log, current := if p.failed then s.current else Some(e.id))
  }

  function BotRun(db: seq<Record>, events: seq<Event>): (s: BotState)
    requires GoodRecords(db)
    ensures GoodRecords(s.db) && |s.db| == |db| && s.events == |events|
    ensures forall k :: 0 <= k < |db| ==> s.db[k].tick == db[k].tick
  {
    if events == [] then BotState(None, db, 0, [])
    else Check(BotRun(db, events[..|events| - 1]), events[|events| - 1])
  }

  // ---------- the code ----------

  class Bot {
    var currentCandlestick: Option<int>
    var db: seq<Record>
    ghost var events: nat
    ghost var log: seq<Entry>

    ghost function Contents(): BotState
      reads this
    {
      BotState(currentCandlestick, db, events, log)
    }

    constructor (rows: seq<Record>)
      requires GoodRecords(rows)
      ensures Contents() == BotRun(rows, [])
    {
      currentCandlestick, db, events, log := None, rows, 0, [];
    }

    /** Runs every strategy that is due, on rows loaded once at the start. */
    method ProcessTick(e: Event) returns (ok: bool)
      requires GoodRecords(db)
      modifies this`db, this`log
      ensures if !e.initialized then !ok && db == old(db) && log == old(log)
              else var p := ProcessFirst(old(db), old(log), e, events, |old(db)|);
                   ok == !p.failed && db == p.db && log == p.log
    {
      hide AfterProcess, Errs;
      if !e.initialized {
        return false;
      }
      var models := db;
      for i := 0 to |models|
        invariant |db| == |models|
        invariant Progress(db, log, false) == ProcessFirst(models, old(log), e, events, i)
      {
        var model := models[i];
        if model.nextTickAt.None? || model.deactivatedAt.Some? {
          continue;
        }
        if model.nextTickAt.value <= e.time {
          ok := ProcessStrategy(i, model, e);
          if !ok {
            FailureStops(models, old(log), e, events, i + 1, |models|);
            return false;
          }
        }
      }
      return true;
    }

    /** The tick stores a deactivation itself, before the closing save of the schedule. */
    method ProcessStrategy(i: nat, model: Record, e: Event) returns (ok: bool)
      requires i < |db| && db[i] == model && model.tick >= 1
      modifies this`db, this`log
      ensures db == old(db)[i := AfterProcess(model, e.time, e.outcomes(i))]
      ensures log == old(log) + [Entry(events, i, e.time, e.outcomes(i))]
      ensures ok == !Errs(e.outcomes(i))
    {
      log := log + [Entry(events, i, e.time, e.outcomes(i))];
      match e.outcomes(i) {
        case Fails(_, at) =>
          db := db[i := Deactivated(model, at)];
          return false;
        case LacksData(saved) =>
          if Reached(saved) {
            db := db[i := model.(deactivatedAt := Some(e.time))];
          }
          return saved == Succeeded;
        case Ticked(_, at, saved) =>
          var ticked := Deactivated(model, at);
          db := db[i := ticked];
          ticked := ticked.(lastTickAt := Some(e.time), nextTickAt := Some(NextTick(model.tick, e.time)));
          if Reached(saved) {
            db := db[i := ticked];
          }
          return saved == Succeeded;
      }
    }

    method ProcessTickForNewCandlestick(e: Event) returns (ok: bool)
      requires GoodRecords(db)
      modifies this
      ensures GoodRecords(db) && Contents() == Check(old(Contents()), e)
    {
      ok := e.found;
      if e.found && currentCandlestick != Some(e.id) {
        ok := ProcessTick(e);
        if ok {
          currentCandlestick := Some(e.id);
        }
      }
      events := events + 1;
    }
  }

  lemma {:induction false} FailureStops(db: seq<Record>, log: seq<Entry>, e: Event, event: nat, i: nat, n: nat)
    requires i <= n <= |db| && GoodRecords(db) && ProcessFirst(db, log, e, event, i).failed
    ensures ProcessFirst(db, log, e, event, n) == ProcessFirst(db, log, e, event, i)
  {
    if i < n {
      FailureStops(db, log, e, event, i, n - 1);
    }
  }

  // ---------- at most one completed tick, and one trade, per bucket ----------

  function BucketOf(db: seq<Record>, entry: Entry): int
    requires GoodRecords(db) && entry.strategy < |db|
  {
    CandlestickBucket(entry.time, db[entry.strategy].tick)
  }

  /** Completed ticks are before the next one scheduled. */
  predicate LogBehind(db: seq<Record>, log: seq<Entry>)
    requires GoodRecords(db)
  {
    forall k :: 0 <= k < |log| ==>
      && log[k].strategy < |db| && log[k].time >= 0
      && (Completes(log[k].outcome) ==>
            && db[log[k].strategy].nextTickAt.Some?
            && NextTick(db[log[k].strategy].tick, log[k].time) <= db[log[k].strategy].nextTickAt.value)
  }

  /** Once a strategy has completed a tick, it is not processed again before a later bucket. */
  predicate DoneWithBucket(db: seq<Record>, log: seq<Entry>)
    requires GoodRecords(db)
  {
    forall a, b :: 0 <= a < b < |log| && log[a].strategy == log[b].strategy < |db| && Completes(log[a].outcome) ==>
      BucketOf(db, log[a]) < BucketOf(db, log[b])
  }

  /** A time no earlier than the tick scheduled after s is in a later bucket than s. */
  lemma LaterBucket(s: nat, t: nat, tick: nat)
    requires tick >= 1
    ensures NextTick(tick, s) <= t <==> CandlestickBucket(s, tick) < CandlestickBucket(t, tick)
    ensures s < NextTick(tick, s)
  {
    BucketContains(s, tick);
    BucketContains(t, tick);
    var b, c := CandlestickBucket(s, tick), CandlestickBucket(t, tick);
    NextAligned(b, tick);
    if b + Width(tick) <= t {
      BucketMonotone(b + Width(tick), t, tick);
    }
    if b < c {
      AlignedApart(b, c, tick);
    }
  }

  /** Recording what happened to a due strategy. */
  lemma EntryKeepsDone(db: seq<Record>, log: seq<Entry>, event: nat, i: nat, t: int, o: Outcome)
    requires i < |db| && GoodRecords(db) && t >= 0 && LogBehind(db, log) && DoneWithBucket(db, log)
    requires Due(db[i], t)
    ensures var after, longer := db[i := AfterProcess(db[i], t, o)], log + [Entry(event, i, t, o)];
            LogBehind(after, longer) && DoneWithBucket(after, longer)
  {
    hide CandlestickBucket;
    forall k | 0 <= k < |log| && log[k].strategy == i && Completes(log[k].outcome)
      ensures CandlestickBucket(log[k].time, db[i].tick) < CandlestickBucket(t, db[i].tick)
      ensures NextTick(db[i].tick, log[k].time) <= NextTick(db[i].tick, t)
    {
      LaterBucket(log[k].time, t, db[i].tick);
    }
    hide Completes, Due;
  }

  lemma {:induction false} ProcessKeepsDone(db: seq<Record>, log: seq<Entry>, e: Event, event: nat, n: nat)
    requires n <= |db| && GoodRecords(db) && e.time >= 0 && LogBehind(db, log) && DoneWithBucket(db, log)
    ensures var p := ProcessFirst(db, log, e, event, n); LogBehind(p.db, p.log) && DoneWithBucket(p.db, p.log)
  {
    if n > 0 {
      ProcessKeepsDone(db, log, e, event, n - 1);
      var p, i := ProcessFirst(db, log, e, event, n - 1), n - 1;
      if !p.failed && Due(db[i], e.time) {
        hide LogBehind, DoneWithBucket, AfterProcess;
        EntryKeepsDone(p.db, p.log, event, i, e.time, e.outcomes(i));
      }
    }
  }

  lemma {:induction false} RunKeepsDone(db: seq<Record>, events: seq<Event>)
    requires GoodRecords(db) && forall n :: 0 <= n < |events| ==> events[n].time >= 0
    ensures var s := BotRun(db, events); LogBehind(s.db, s.log) && DoneWithBucket(s.db, s.log)
  {
    if events != [] {
      RunKeepsDone(db, events[..|events| - 1]);
      var s := BotRun(db, events[..|events| - 1]);
      if events[|events| - 1].found && s.current != Some(events[|events| - 1].id) && events[|events| - 1].initialized {
        ProcessKeepsDone(s.db, s.log, events[|events| - 1], s.events, |s.db|);
      }
    }
  }

  /** Of any two completed ticks of a strategy, the later one is in a later bucket. */
  predicate TicksOncePerBucket(db: seq<Record>, log: seq<Entry>)
    requires GoodRecords(db)
  {
    forall a, b :: 0 <= a < b < |log| && log[a].strategy == log[b].strategy < |db|
                   && Completes(log[a].outcome) && Completes(log[b].outcome) ==>
      BucketOf(db, log[a]) < BucketOf(db, log[b])
  }

  /** For every sequence of checks, in whatever order their times come and however they fail: no
      strategy completes two ticks in one bucket of its tick size. */
  lemma {:induction false} AtMostOncePerBucket(db: seq<Record>, events: seq<Event>)
    requires GoodRecords(db) && forall n :: 0 <= n < |events| ==> events[n].time >= 0
    ensures var s := BotRun(db, events); TicksOncePerBucket(s.db, s.log)
  {
    RunKeepsDone(db, events);
    hide BotRun, Completes, BucketOf;
  }

  // ---------- retries ----------

  /** What leaves a strategy due for a retry: neither its schedule nor a deactivation was stored. */
  predicate LeavesDue(o: Outcome) {
    match o
    case Ticked(_, at, saved) => at.None? && saved == FailedUnwritten
    case LacksData(saved) => saved == FailedUnwritten
    case Fails(_, at) => at.None?
  }

  /** Whether a check gets to strategy i: it is for a new candlestick, and nothing fails before. */
  predicate GetsTo(s: BotState, e: Event, i: nat)
    requires i <= |s.db| && GoodRecords(s.db)
  {
    && e.found && s.current != Some(e.id) && e.initialized
    && !ProcessFirst(s.db, s.log, e, s.events, i).failed
  }

  function StateBefore(db: seq<Record>, events: seq<Event>, n: nat): (s: BotState)
    requires GoodRecords(db) && n <= |events|
    ensures GoodRecords(s.db) && |s.db| == |db| && s.events == n
    ensures forall k :: 0 <= k < |db| ==> s.db[k].tick == db[k].tick
  {
    BotRun(db, events[..n])
  }

  predicate TurnAt(db: seq<Record>, events: seq<Event>, i: nat, n: nat)
    requires GoodRecords(db) && i < |db| && n < |events|
  {
    GetsTo(StateBefore(db, events, n), events[n], i)
  }

  predicate ProcessedAt(db: seq<Record>, events: seq<Event>, i: nat, n: nat)
    requires GoodRecords(db) && i < |db| && n < |events|
  {
    TurnAt(db, events, i, n) && Due(StateBefore(db, events, n).db[i], events[n].time)
  }

  lemma {:induction false} RowAfter(db: seq<Record>, log: seq<Entry>, e: Event, event: nat, i: nat, n: nat)
    requires i < n <= |db| && GoodRecords(db)
    ensures ProcessFirst(db, log, e, event, n).db[i]
         == if !ProcessFirst(db, log, e, event, i).failed && Due(db[i], e.time)
            then AfterProcess(db[i], e.time, e.outcomes(i)) else db[i]
  {
    hide Due, AfterProcess;
    if i < n - 1 {
      RowAfter(db, log, e, event, i, n - 1);
    }
  }

  lemma RowAfterCheck(db: seq<Record>, events: seq<Event>, i: nat, n: nat)
    requires GoodRecords(db) && i < |db| && n < |events|
    ensures var before, after := StateBefore(db, events, n).db[i], StateBefore(db, events, n + 1).db[i];
            after == if ProcessedAt(db, events, i, n)
                     then AfterProcess(before, events[n].time, events[n].outcomes(i)) else before
  {
    assert events[..n + 1][..n] == events[..n];
    var s, e := StateBefore(db, events, n), events[n];
    RowAfter(s.db, s.log, e, s.events, i, |s.db|);
    hide ProcessFirst, Due, AfterProcess;
  }

  /** A row that will not be due again in the bucket of t. */
  predicate DoneFor(r: Record, t: int)
    requires r.tick >= 1
  {
    r.deactivatedAt.Some? || (r.nextTickAt.Some? && NextTick(r.tick, t) <= r.nextTickAt.value)
  }

  lemma OutcomeDecides(r: Record, t: int, o: Outcome)
    requires r.tick >= 1 && Due(r, t)
    ensures if LeavesDue(o) then AfterProcess(r, t, o) == r else DoneFor(AfterProcess(r, t, o), t)
  {
  }

  lemma DoneIsNotDue(r: Record, s: nat, t: nat)
    requires r.tick >= 1 && DoneFor(r, s) && CandlestickBucket(s, r.tick) == CandlestickBucket(t, r.tick)
    ensures !Due(r, t)
  {
    LaterBucket(s, t, r.tick);
  }

  /** Every turn of strategy i from check m up to check n ends in an outcome that leaves it due. */
  predicate AllLeaveDue(db: seq<Record>, events: seq<Event>, i: nat, m: nat, n: nat)
    requires GoodRecords(db) && i < |db| && n <= |events|
  {
    forall k :: m <= k < n && TurnAt(db, events, i, k) ==> LeavesDue(events[k].outcomes(i))
  }

  predicate InOrder(events: seq<Event>) {
    && (forall n :: 0 <= n < |events| ==> events[n].time >= 0)
    && (forall m, n :: 0 <= m < n < |events| ==> events[m].time <= events[n].time)
  }

  lemma SameBucketBetween(events: seq<Event>, tick: nat, m: nat, k: nat, n: nat)
    requires InOrder(events) && tick >= 1 && m <= k <= n < |events|
    requires CandlestickBucket(events[m].time, tick) == CandlestickBucket(events[n].time, tick)
    ensures CandlestickBucket(events[m].time, tick) == CandlestickBucket(events[k].time, tick)
    ensures events[m].time <= events[k].time
  {
    BucketMonotone(events[m].time, events[k].time, tick);
    BucketMonotone(events[k].time, events[n].time, tick);
  }

  lemma {:induction false} StatusAfter(db: seq<Record>, events: seq<Event>, i: nat, m: nat, k: nat, n: nat)
    requires GoodRecords(db) && i < |db| && InOrder(events) && m < k <= n < |events|
    requires ProcessedAt(db, events, i, m)
    requires CandlestickBucket(events[m].time, db[i].tick) == CandlestickBucket(events[n].time, db[i].tick)
    ensures var r := StateBefore(db, events, k).db[i];
            if AllLeaveDue(db, events, i, m, k) then Due(r, events[m].time) else DoneFor(r, events[m].time)
  {
    var last := k - 1;
    SameBucketBetween(events, db[i].tick, m, last, n);
    RowAfterCheck(db, events, i, last);
    hide CandlestickBucket, StateBefore, TurnAt;
    var r := StateBefore(db, events, last).db[i];
    if last > m {
      StatusAfter(db, events, i, m, last, n);
      if !AllLeaveDue(db, events, i, m, last) {
        DoneIsNotDue(r, events[m].time, events[last].time);
      }
    }
    if ProcessedAt(db, events, i, last) {
      OutcomeDecides(r, events[last].time, events[last].outcomes(i));
      SameNext(r.tick, events[m].time, events[last].time);
    }
  }

  lemma SameNext(tick: nat, s: int, t: int)
    requires tick >= 1 && CandlestickBucket(s, tick) == CandlestickBucket(t, tick)
    ensures NextTick(tick, s) == NextTick(tick, t)
  {
  }

  /** For every sequence of checks in order of time, and every strategy processed at check m: a
      later check in the same bucket that gets to it processes it again exactly when every turn it
      had in between left it due. */
  lemma ProcessedAgainIff(db: seq<Record>, events: seq<Event>, i: nat, m: nat, n: nat)
    requires GoodRecords(db) && i < |db| && InOrder(events) && m < n < |events|
    requires ProcessedAt(db, events, i, m) && TurnAt(db, events, i, n)
    requires CandlestickBucket(events[m].time, db[i].tick) == CandlestickBucket(events[n].time, db[i].tick)
    ensures ProcessedAt(db, events, i, n) <==> AllLeaveDue(db, events, i, m, n)
  {
    StatusAfter(db, events, i, m, n, n);
    hide CandlestickBucket, StateBefore, TurnAt, AllLeaveDue;
    var r := StateBefore(db, events, n).db[i];
    if DoneFor(r, events[m].time) {
      DoneIsNotDue(r, events[m].time, events[n].time);
    }
  }

  // ---------- the log says who was processed ----------

  predicate Logged(log: seq<Entry>, event: nat, i: nat) {
    exists k :: 0 <= k < |log| && log[k].event == event && log[k].strategy == i
  }

  lemma LoggedGrows(log: seq<Entry>, entry: Entry, event: nat, i: nat)
    ensures Logged(log + [entry], event, i) <==> Logged(log, event, i) || (entry.event == event && entry.strategy == i)
  {
    var longer := log + [entry];
    assert longer[|log|] == entry && forall k :: 0 <= k < |log| ==> longer[k] == log[k];
  }

  lemma {:induction false} ProcessLogs(db: seq<Record>, log: seq<Entry>, e: Event, event: nat, n: nat,
                                       asked: nat, i: nat)
    requires n <= |db| && GoodRecords(db)
    ensures Logged(ProcessFirst(db, log, e, event, n).log, asked, i)
       <==> Logged(log, asked, i)
            || (asked == event && i < n && !ProcessFirst(db, log, e, event, i).failed && Due(db[i], e.time))
  {
    if n > 0 {
      ProcessLogs(db, log, e, event, n - 1, asked, i);
      LoggedGrows(ProcessFirst(db, log, e, event, n - 1).log, Entry(event, n - 1, e.time, e.outcomes(n - 1)), asked, i);
      hide Logged, Due, AfterProcess;
    }
  }

  lemma {:induction false} LoggedUpTo(db: seq<Record>, events: seq<Event>, i: nat, m: nat, n: nat)
    requires GoodRecords(db) && i < |db| && m < |events| && n <= |events|
    ensures Logged(StateBefore(db, events, n).log, m, i) <==> m < n && ProcessedAt(db, events, i, m)
  {
    if n > 0 {
      LoggedUpTo(db, events, i, m, n - 1);
      assert events[..n][..n - 1] == events[..n - 1];
      var s, e := StateBefore(db, events, n - 1), events[n - 1];
      ProcessLogs(s.db, s.log, e, s.events, |s.db|, m, i);
      hide Logged, Due, ProcessFirst;
    }
  }

  /** The bot's log has an entry of a check and a strategy exactly when that check processed it. */
  lemma {:induction false} LoggedIff(db: seq<Record>, events: seq<Event>, i: nat, m: nat)
    requires GoodRecords(db) && i < |db| && m < |events|
    ensures Logged(BotRun(db, events).log, m, i) <==> ProcessedAt(db, events, i, m)
  {
    LoggedUpTo(db, events, i, m, |events|);
    assert events[..|events|] == events;
  }

  predicate TradesAt(db: seq<Record>, events: seq<Event>, i: nat, n: nat)
    requires GoodRecords(db) && i < |db| && n < |events|
  {
    ProcessedAt(db, events, i, n) && TradesIn(events[n].outcomes(i))
  }

  /** A trade, and a later check in its bucket that gets to the strategy and finds it willing to
      trade, while every turn from the trade on left it due. */
  predicate TradeRetried(db: seq<Record>, events: seq<Event>, i: nat, m: nat, n: nat)
    requires GoodRecords(db) && i < |db| && m < n < |events|
  {
    && TradesAt(db, events, i, m)
    && CandlestickBucket(events[m].time, db[i].tick) == CandlestickBucket(events[n].time, db[i].tick)
    && TurnAt(db, events, i, n) && TradesIn(events[n].outcomes(i)) && AllLeaveDue(db, events, i, m, n)
  }

  /** For every sequence of checks in order of time: a strategy trades at both of two checks in one
      bucket exactly when the first trade is retried at the second. */
  lemma TradesTwiceIff(db: seq<Record>, events: seq<Event>, i: nat, m: nat, n: nat)
    requires GoodRecords(db) && i < |db| && InOrder(events) && m < n < |events|
    ensures TradesAt(db, events, i, m) && TradesAt(db, events, i, n)
            && CandlestickBucket(events[m].time, db[i].tick) == CandlestickBucket(events[n].time, db[i].tick)
       <==> TradeRetried(db, events, i, m, n)
  {
    if ProcessedAt(db, events, i, m) && TurnAt(db, events, i, n)
       && CandlestickBucket(events[m].time, db[i].tick) == CandlestickBucket(events[n].time, db[i].tick) {
      ProcessedAgainIff(db, events, i, m, n);
    }
  }

  // ---------- when a check fails ----------

  /** Strategy i is processed, as the check gets to it and its row is due, and that reports an error:
      its tick fails, or its closing save is not confirmed. */
  predicate FailsAt(db: seq<Record>, log: seq<Entry>, e: Event, event: nat, i: nat)
    requires i < |db| && GoodRecords(db)
  {
    && !ProcessFirst(db, log, e, event, i).failed && Due(db[i], e.time)
    && match e.outcomes(i)
       case Ticked(_, _, saved) => saved == FailedWritten || saved == FailedUnwritten
       case LacksData(saved) => saved == FailedWritten || saved == FailedUnwritten
       case Fails(_, _) => true
  }

  lemma StepFails(db: seq<Record>, log: seq<Entry>, e: Event, event: nat, i: nat)
    requires i < |db| && GoodRecords(db)
    ensures var p, q := ProcessFirst(db, log, e, event, i), ProcessFirst(db, log, e, event, i + 1);
            q.failed <==> p.failed || FailsAt(db, log, e, event, i)
  {
    hide AfterProcess, Due;
  }

  lemma {:induction false} FailedSomewhere(db: seq<Record>, log: seq<Entry>, e: Event, event: nat, n: nat)
    returns (i: nat)
    requires n <= |db| && GoodRecords(db) && ProcessFirst(db, log, e, event, n).failed
    ensures i < n && FailsAt(db, log, e, event, i)
  {
    i := n - 1;
    hide FailsAt;
    StepFails(db, log, e, event, i);
    if ProcessFirst(db, log, e, event, i).failed {
      i := FailedSomewhere(db, log, e, event, i);
    }
  }

  /** A check fails exactly when one strategy it processes does, and processes none after that. */
  lemma CheckFailsIff(db: seq<Record>, log: seq<Entry>, e: Event, event: nat, n: nat)
    requires n <= |db| && GoodRecords(db)
    ensures ProcessFirst(db, log, e, event, n).failed <==> exists i :: 0 <= i < n && FailsAt(db, log, e, event, i)
    ensures forall i :: 0 <= i < n && FailsAt(db, log, e, event, i) ==>
              ProcessFirst(db, log, e, event, n) == ProcessFirst(db, log, e, event, i + 1)
  {
    hide FailsAt, ProcessFirst;
    if ProcessFirst(db, log, e, event, n).failed {
      var i := FailedSomewhere(db, log, e, event, n);
    }
    forall i | 0 <= i < n && FailsAt(db, log, e, event, i)
      ensures ProcessFirst(db, log, e, event, n).failed
      ensures ProcessFirst(db, log, e, event, n) == ProcessFirst(db, log, e, event, i + 1)
    {
      StepFails(db, log, e, event, i);
      FailureStops(db, log, e, event, i + 1, n);
    }
  }

  // ---------- one candlestick ----------

  /** A check that finds the candlestick that the check before has processed gets to no strategy; one
      that finds the candlestick that the check before missed, could not start on or failed on starts
      with the first strategy. */
  lemma CandlestickOnce(db: seq<Record>, events: seq<Event>, i: nat, n: nat)
    requires GoodRecords(db) && i < |db| && n + 1 < |events| && events[n].id == events[n + 1].id
    requires events[n + 1].found && events[n + 1].initialized
    requires StateBefore(db, events, n).current != Some(events[n].id)
    ensures var s := StateBefore(db, events, n);
            if events[n].found && events[n].initialized
               && !ProcessFirst(s.db, s.log, events[n], s.events, |s.db|).failed
            then !TurnAt(db, events, i, n + 1) else TurnAt(db, events, 0, n + 1)
  {
    assert events[..n + 1][..n] == events[..n];
  }

  // ---------- the last tick ----------

  /** The time of a strategy's last completed tick in the log. */
  function LastCompletion(log: seq<Entry>, i: nat): Option<int> {
    if log == [] then None
    else if log[|log| - 1].strategy == i && Completes(log[|log| - 1].outcome) then Some(log[|log| - 1].time)
    else LastCompletion(log[..|log| - 1], i)
  }

  /** Every row's last tick is its last completed one, or else the one it started with. */
  predicate LastTicksHold(rows: seq<Record>, db: seq<Record>, log: seq<Entry>) {
    |db| == |rows| && forall i :: 0 <= i < |db| ==>
      db[i].lastTickAt == if LastCompletion(log, i).Some? then LastCompletion(log, i) else rows[i].lastTickAt
  }

  lemma LastTickGrows(rows: seq<Record>, db: seq<Record>, log: seq<Entry>, event: nat, i: nat, t: int, o: Outcome)
    requires LastTicksHold(rows, db, log) && i < |db| && db[i].tick >= 1
    ensures LastTicksHold(rows, db[i := AfterProcess(db[i], t, o)], log + [Entry(event, i, t, o)])
  {
    hide NextTick;
    var longer := log + [Entry(event, i, t, o)];
    assert longer[..|longer| - 1] == log;
  }

  lemma {:induction false} ProcessKeepsLast(rows: seq<Record>, db: seq<Record>, log: seq<Entry>, e: Event, event: nat,
                                            n: nat)
    requires n <= |db| && GoodRecords(db) && LastTicksHold(rows, db, log)
    ensures var p := ProcessFirst(db, log, e, event, n); LastTicksHold(rows, p.db, p.log)
  {
    if n > 0 {
      ProcessKeepsLast(rows, db, log, e, event, n - 1);
      var p, i := ProcessFirst(db, log, e, event, n - 1), n - 1;
      if !p.failed && Due(db[i], e.time) {
        LastTickGrows(rows, p.db, p.log, event, i, e.time, e.outcomes(i));
        hide LastTicksHold, AfterProcess;
      }
    }
  }

  /** For every sequence of checks: the last tick stored in a row is the time of the check at which
      the strategy last completed a tick, and is as it was while it has not completed any. */
  lemma {:induction false} LastTickIsLast(db: seq<Record>, events: seq<Event>)
    requires GoodRecords(db)
    ensures var s := BotRun(db, events); LastTicksHold(db, s.db, s.log)
  {
    if events != [] {
      var front, e := events[..|events| - 1], events[|events| - 1];
      LastTickIsLast(db, front);
      var s := BotRun(db, front);
      ProcessKeepsLast(db, s.db, s.log, e, s.events, |s.db|);
      hide LastTicksHold, ProcessFirst;
    }
  }

  // ---------- without errors, exactly the first check of every bucket ----------

  /** Every check succeeds, and an id stands for one candlestick. */
  ghost predicate NoErrors(events: seq<Event>) {
    && (forall n :: 0 <= n < |events| ==> events[n].found && events[n].initialized && events[n].time >= 0)
    && (forall n, i: nat :: 0 <= n < |events| ==> !Errs(events[n].outcomes(i)))
    && (forall m, n :: 0 <= m < n < |events| ==> events[m].time <= events[n].time)
    && (forall m, n :: 0 <= m < n < |events| && events[m].id == events[n].id ==> events[m].time == events[n].time)
  }

  predicate KeepsGoing(o: Outcome) {
    o.Ticked? && o.deactivates == None && o.saved == Succeeded
  }

  /** Strategy i stays active over the first n checks. */
  predicate StaysActive(events: seq<Event>, i: nat, n: nat)
    requires n <= |events|
  {
    forall m :: 0 <= m < n ==> KeepsGoing(events[m].outcomes(i))
  }

  predicate Completed(log: seq<Entry>, event: nat, i: nat) {
    exists k :: 0 <= k < |log| && log[k].event == event && log[k].strategy == i && Completes(log[k].outcome)
  }

  /** Whether the n-th check is the first of its bucket from the scheduled start on. */
  predicate FirstOfBucket(events: seq<Event>, tick: nat, start: int, n: nat)
    requires n < |events| && tick >= 1
  {
    && start <= events[n].time
    && forall m :: 0 <= m < n && start <= events[m].time ==>
         CandlestickBucket(events[m].time, tick) != CandlestickBucket(events[n].time, tick)
  }

  /** Without errors the strategies do not get in each other's way. */
  lemma {:induction false} RowsProcessed(db: seq<Record>, log: seq<Entry>, e: Event, event: nat, n: nat)
    requires n <= |db| && GoodRecords(db) && forall i: nat :: !Errs(e.outcomes(i))
    ensures var p := ProcessFirst(db, log, e, event, n);
            && !p.failed
            && (forall i :: 0 <= i < n ==>
                  p.db[i] == if Due(db[i], e.time) then AfterProcess(db[i], e.time, e.outcomes(i)) else db[i])
  {
    if n > 0 {
      RowsProcessed(db, log, e, event, n - 1);
      hide AfterProcess, Due;
    }
  }

  lemma CompletedGrows(log: seq<Entry>, entry: Entry, event: nat, i: nat)
    ensures Completed(log + [entry], event, i)
       <==> Completed(log, event, i) || (entry.event == event && entry.strategy == i && Completes(entry.outcome))
  {
    var longer := log + [entry];
    assert longer[|log|] == entry && forall k :: 0 <= k < |log| ==> longer[k] == log[k];
  }

  lemma NotCompleted(log: seq<Entry>, event: nat)
    requires forall k :: 0 <= k < |log| ==> log[k].event < event
    ensures forall i: nat :: !Completed(log, event, i)
  {
  }

  /** One more strategy adds its own entry, if it is due. */
  lemma LogStep(db: seq<Record>, log: seq<Entry>, after: seq<Entry>, e: Event, event: nat, n: nat)
    requires 1 <= n <= |db|
    requires forall i: nat :: Completed(log, event, i) <==> i < n - 1 && Due(db[i], e.time) && Completes(e.outcomes(i))
    requires after == if Due(db[n - 1], e.time) then log + [Entry(event, n - 1, e.time, e.outcomes(n - 1))] else log
    ensures forall i: nat :: Completed(after, event, i) <==> i < n && Due(db[i], e.time) && Completes(e.outcomes(i))
  {
    hide Due, Completed, Completes;
    forall i: nat
      ensures Completed(after, event, i) <==> i < n && Due(db[i], e.time) && Completes(e.outcomes(i))
    {
      CompletedGrows(log, Entry(event, n - 1, e.time, e.outcomes(n - 1)), event, i);
    }
  }

  lemma {:induction false} TicksLogged(db: seq<Record>, log: seq<Entry>, e: Event, event: nat, n: nat)
    requires n <= |db| && GoodRecords(db) && forall i: nat :: !Errs(e.outcomes(i))
    requires forall k :: 0 <= k < |log| ==> log[k].event < event
    ensures var p := ProcessFirst(db, log, e, event, n);
            && log <= p.log
            && (forall k :: |log| <= k < |p.log| ==> p.log[k].event == event)
            && (forall i: nat ::
                  Completed(p.log, event, i) <==> i < n && Due(db[i], e.time) && Completes(e.outcomes(i)))
  {
    hide AfterProcess, Due, Completed, Completes, Errs;
    if n == 0 {
      NotCompleted(log, event);
    } else {
      TicksLogged(db, log, e, event, n - 1);
      RowsProcessed(db, log, e, event, n - 1);
      LogStep(db, ProcessFirst(db, log, e, event, n - 1).log, ProcessFirst(db, log, e, event, n).log, e, event, n);
    }
  }

  lemma ProcessesEach(db: seq<Record>, log: seq<Entry>, e: Event, event: nat, n: nat)
    requires n <= |db| && GoodRecords(db) && forall i: nat :: !Errs(e.outcomes(i))
    requires forall k :: 0 <= k < |log| ==> log[k].event < event
    ensures var p := ProcessFirst(db, log, e, event, n);
            && !p.failed && log <= p.log
            && (forall k :: |log| <= k < |p.log| ==> p.log[k].event == event)
            && (forall i :: 0 <= i < n ==>
                  p.db[i] == if Due(db[i], e.time) then AfterProcess(db[i], e.time, e.outcomes(i)) else db[i])
            && (forall i: nat ::
                  Completed(p.log, event, i) <==> i < n && Due(db[i], e.time) && Completes(e.outcomes(i)))
  {
    RowsProcessed(db, log, e, event, n);
    TicksLogged(db, log, e, event, n);
    hide AfterProcess, Due, ProcessFirst, Completed;
  }

  /** The schedule of strategy i after the first checks: still the initial one, or the end of the
      latest bucket it has ticked in. */
  ghost predicate Scheduled(events: seq<Event>, r: Record, start: int, n: nat)
    requires n <= |events| && r.tick >= 1
  {
    && r.deactivatedAt.None? && r.nextTickAt.Some?
    && (forall m :: 0 <= m < n && start <= events[m].time ==> NextTick(r.tick, events[m].time) <= r.nextTickAt.value)
    && ((r.nextTickAt.value == start && (forall m :: 0 <= m < n ==> events[m].time < start))
        || (exists m :: 0 <= m < n && start <= events[m].time
              && r.nextTickAt.value == NextTick(r.tick, events[m].time)))
  }

  lemma DueIffFirst(events: seq<Event>, r: Record, start: int, n: nat)
    requires n < |events| && r.tick >= 1 && Scheduled(events, r, start, n)
    requires forall k :: 0 <= k < |events| ==> events[k].time >= 0
    requires forall a, b :: 0 <= a < b < |events| ==> events[a].time <= events[b].time
    ensures Due(r, events[n].time) <==> FirstOfBucket(events, r.tick, start, n)
  {
    var t := events[n].time;
    forall m | 0 <= m < n
      ensures NextTick(r.tick, events[m].time) <= t
         <==> CandlestickBucket(events[m].time, r.tick) < CandlestickBucket(t, r.tick)
      ensures CandlestickBucket(events[m].time, r.tick) <= CandlestickBucket(t, r.tick)
    {
      LaterBucket(events[m].time, t, r.tick);
      BucketMonotone(events[m].time, t, r.tick);
    }
    hide CandlestickBucket;
  }

  predicate KnownCurrent(events: seq<Event>, s: BotState, n: nat)
    requires n <= |events|
  {
    && (s.current.Some? ==> exists m :: 0 <= m < n && events[m].id == s.current.value)
    && (forall k :: 0 <= k < |s.log| ==> s.log[k].event < n)
  }

  lemma SameTimeScheduled(events: seq<Event>, r: Record, start: int, n: nat, m: nat)
    requires m < n < |events| && r.tick >= 1 && Scheduled(events, r, start, n) && events[m].time == events[n].time
    ensures Scheduled(events, r, start, n + 1)
  {
  }

  lemma UndueScheduled(events: seq<Event>, r: Record, start: int, n: nat)
    requires n < |events| && r.tick >= 1 && Scheduled(events, r, start, n) && !Due(r, events[n].time)
    requires forall k :: 0 <= k < |events| ==> events[k].time >= 0
    requires forall a, b :: 0 <= a < b < |events| ==> events[a].time <= events[b].time
    ensures Scheduled(events, r, start, n + 1)
  {
    var t := events[n].time;
    if start <= t {
      var m :| 0 <= m < n && start <= events[m].time && r.nextTickAt.value == NextTick(r.tick, events[m].time);
      LaterBucket(events[m].time, t, r.tick);
      BucketMonotone(events[m].time, t, r.tick);
    }
  }

  lemma TickedScheduled(events: seq<Event>, r: Record, start: int, n: nat, o: Outcome)
    requires KeepsGoing(o)
    requires n < |events| && r.tick >= 1 && Scheduled(events, r, start, n) && Due(r, events[n].time)
    requires forall k :: 0 <= k < |events| ==> events[k].time >= 0
    requires forall a, b :: 0 <= a < b < |events| ==> events[a].time <= events[b].time
    ensures Scheduled(events, AfterProcess(r, events[n].time, o), start, n + 1)
  {
    var t := events[n].time;
    forall m | 0 <= m < n && start <= events[m].time
      ensures NextTick(r.tick, events[m].time) <= NextTick(r.tick, t) && start <= t
    {
      LaterBucket(events[m].time, t, r.tick);
    }
  }

  lemma CheckKeepsCurrent(events: seq<Event>, s: BotState, n: nat)
    requires GoodRecords(s.db) && NoErrors(events) && n < |events| && s.events == n && KnownCurrent(events, s, n)
    ensures KnownCurrent(events, Check(s, events[n]), n + 1)
  {
    var e := events[n];
    if s.current != Some(e.id) {
      ProcessesEach(s.db, s.log, e, n, |s.db|);
      hide ProcessFirst, Completed;
      assert events[n].id == e.id;
    }
  }

  lemma CheckKeepsSchedule(events: seq<Event>, s: BotState, i: nat, start: int, n: nat)
    requires GoodRecords(s.db) && NoErrors(events) && n < |events| && s.events == n && KnownCurrent(events, s, n)
    requires i < |s.db| && Scheduled(events, s.db[i], start, n) && KeepsGoing(events[n].outcomes(i))
    ensures Scheduled(events, Check(s, events[n]).db[i], start, n + 1)
  {
    var e := events[n];
    if s.current == Some(e.id) {
      var m :| 0 <= m < n && events[m].id == e.id;
      SameTimeScheduled(events, s.db[i], start, n, m);
    } else {
      ProcessesEach(s.db, s.log, e, n, |s.db|);
      hide AfterProcess, Scheduled, ProcessFirst, Completed;
      if Due(s.db[i], e.time) {
        TickedScheduled(events, s.db[i], start, n, e.outcomes(i));
      } else {
        UndueScheduled(events, s.db[i], start, n);
      }
    }
  }

  lemma {:induction false} ScheduleHolds(db: seq<Record>, events: seq<Event>, i: nat, start: int, n: nat)
    requires GoodRecords(db) && NoErrors(events) && i < |db| && n <= |events| && StaysActive(events, i, n)
    requires db[i].deactivatedAt.None? && db[i].nextTickAt == Some(start)
    ensures var s := BotRun(db, events[..n]);
            Scheduled(events, s.db[i], start, n) && KnownCurrent(events, s, n)
  {
    if n > 0 {
      ScheduleHolds(db, events, i, start, n - 1);
      assert events[..n][..n - 1] == events[..n - 1];
      var s := BotRun(db, events[..n - 1]);
      hide Check, Scheduled, KnownCurrent;
      CheckKeepsCurrent(events, s, n - 1);
      CheckKeepsSchedule(events, s, i, start, n - 1);
    }
  }

  lemma {:induction false} CompletedAtOwnCheck(db: seq<Record>, events: seq<Event>, i: nat, start: int, n: nat)
    requires GoodRecords(db) && NoErrors(events) && i < |db| && n < |events| && StaysActive(events, i, n)
    requires db[i].deactivatedAt.None? && db[i].nextTickAt == Some(start) && events[n].outcomes(i).Ticked?
    ensures Completed(BotRun(db, events[..n + 1]).log, n, i) <==> FirstOfBucket(events, db[i].tick, start, n)
  {
    ScheduleHolds(db, events, i, start, n);
    assert events[..n + 1][..n] == events[..n];
    var s, e := BotRun(db, events[..n]), events[n];
    assert BotRun(db, events[..n + 1]) == Check(s, e);
    if s.current == Some(e.id) {
      var m :| 0 <= m < n && events[m].id == e.id;
      assert events[m].time == e.time;
    } else {
      ProcessesEach(s.db, s.log, e, s.events, |s.db|);
      DueIffFirst(events, s.db[i], start, n);
    }
  }

  /** Later entries, of another check, change nothing about an earlier one. */
  lemma LaterEntries(log: seq<Entry>, more: seq<Entry>, event: nat, i: nat)
    requires log <= more && forall k :: |log| <= k < |more| ==> more[k].event != event
    ensures Completed(more, event, i) <==> Completed(log, event, i)
  {
  }

  lemma CheckAppends(s: BotState, e: Event)
    requires GoodRecords(s.db) && forall i: nat :: !Errs(e.outcomes(i))
    requires forall k :: 0 <= k < |s.log| ==> s.log[k].event < s.events
    ensures s.log <= Check(s, e).log
    ensures forall k :: |s.log| <= k < |Check(s, e).log| ==> Check(s, e).log[k].event == s.events
  {
    hide ProcessFirst, AfterProcess, Due, Completed, Completes;
    ProcessesEach(s.db, s.log, e, s.events, |s.db|);
  }

  lemma {:induction false} CompletedStays(db: seq<Record>, events: seq<Event>, i: nat, n: nat, k: nat)
    requires GoodRecords(db) && NoErrors(events) && n < k <= |events|
    ensures Completed(BotRun(db, events[..k]).log, n, i) <==> Completed(BotRun(db, events[..n + 1]).log, n, i)
  {
    hide Check, Completed;
    if n + 1 < k {
      CompletedStays(db, events, i, n, k - 1);
      assert events[..k][..k - 1] == events[..k - 1];
      var s, e := BotRun(db, events[..k - 1]), events[k - 1];
      LogOfPast(db, events, k - 1);
      CheckAppends(s, e);
      LaterEntries(s.log, Check(s, e).log, n, i);
    }
  }

  lemma {:induction false} LogOfPast(db: seq<Record>, events: seq<Event>, n: nat)
    requires GoodRecords(db) && NoErrors(events) && n <= |events|
    ensures forall k :: 0 <= k < |BotRun(db, events[..n]).log| ==> BotRun(db, events[..n]).log[k].event < n
  {
    if n > 0 {
      LogOfPast(db, events, n - 1);
      assert events[..n][..n - 1] == events[..n - 1];
      var s, e := BotRun(db, events[..n - 1]), events[n - 1];
      hide Check;
      CheckAppends(s, e);
    }
  }

  /** For every run of checks without errors, at nondecreasing times: until it is deactivated, a
      strategy completes its tick at a check exactly when that is the first check in its bucket
      from its initial next tick on. */
  lemma {:induction false} TicksAtFirstOfBucket(db: seq<Record>, events: seq<Event>, i: nat, start: int, n: nat)
    requires GoodRecords(db) && NoErrors(events) && i < |db| && n < |events|
    requires db[i].deactivatedAt.None? && db[i].nextTickAt == Some(start)
    requires StaysActive(events, i, n) && events[n].outcomes(i).Ticked?
    ensures Completed(BotRun(db, events).log, n, i) <==> FirstOfBucket(events, db[i].tick, start, n)
  {
    CompletedAtOwnCheck(db, events, i, start, n);
    CompletedStays(db, events, i, n, |events|);
    assert events[..|events|] == events;
  }
}
