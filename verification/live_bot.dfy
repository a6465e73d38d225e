/** The bot with its strategies: what a check does to a strategy is computed from the trader that the
    check seeds, so the scheduler, the trader and the ledger move as one. */
module LiveBot {
  import opened Options
  import opened Writes
  import opened Grid
  import opened Candlesticks
  import opened Coarsening
  import opened Rsi
  import opened WilderSmoothing
  import opened IndicatorSets
  import opened Strategies
  import opened Truncation
  import opened Trading
  import opened Traders
  import opened Ledger
  import opened Live
  import opened Scheduling

  /** What one strategy meets at a check: whether its own queries succeed, the candles its trader is
      seeded with, what exchange and database answer its tick, and how the closing save goes. */
  datatype Meeting = Meeting(seeded: bool, candles: seq<Candle>, environment: Environment, closing: WriteOutcome)

  /** One check of the bot, for the most recent candlestick. */
  datatype Round = Round(id: int, time: int, found: bool, initialized: bool, meetings: nat -> Meeting)

  function InputOf(s: Strategy, meeting: Meeting, t: int): TickInput {
    TickInput(Seeded(Indicators(s), meeting.candles).sets, |meeting.candles| - 1,
              meeting.environment, meeting.closing, t)
  }

  /** The exchange has filled an order: the ledger has its entry, or failed to store it. */
  predicate Traded(r: TickResult) {
    r.order.Some? || r.error == LedgerFailed
  }

  /** How processing the strategy goes, as the scheduler sees it. */
  function OutcomeOf(s: Strategy, m: Model, meeting: Meeting, t: int): Outcome {
    if !meeting.seeded then Fails(false, None)
    else
      var r := ResultOf(s, m, InputOf(s, meeting, t));
      match r.error
      case NoError => Ticked(Traded(r), r.persisted.deactivatedAt, meeting.closing)
      case NotEnough => LacksData(meeting.closing)
      case _ => Fails(Traded(r), r.persisted.deactivatedAt)
  }

  /** The scheduler's rows, and for each strategy its model and its recorded orders. */
  datatype State = State(bot: BotState, dbs: seq<Db>)

  predicate Matches(strategies: seq<Strategy>, s: State) {
    GoodRecords(s.bot.db) && |strategies| == |s.dbs| == |s.bot.db|
  }

  function EventOf(strategies: seq<Strategy>, dbs: seq<Db>, round: Round): Event
    requires |strategies| == |dbs|
  {
    Event(round.id, round.time, round.found, round.initialized,
          (i: nat) => if i < |dbs| then OutcomeOf(strategies[i], dbs[i].model, round.meetings(i), round.time)
                      else Fails(false, None))
  }

  predicate Processes(strategies: seq<Strategy>, s: State, round: Round, i: nat)
    requires Matches(strategies, s) && i < |strategies|
  {
    GetsTo(s.bot, EventOf(strategies, s.dbs, round), i) && Due(s.bot.db[i], round.time)
  }

  function After(strategies: seq<Strategy>, s: State, round: Round, i: nat): Db
    requires Matches(strategies, s) && i < |strategies|
  {
    if Processes(strategies, s, round, i) && round.meetings(i).seeded
    then Tick(strategies[i], s.dbs[i], InputOf(strategies[i], round.meetings(i), round.time)) else s.dbs[i]
  }

  function Step(strategies: seq<Strategy>, s: State, round: Round): (t: State)
    requires Matches(strategies, s)
    ensures |t.dbs| == |s.dbs| && forall i :: 0 <= i < |s.dbs| ==> t.dbs[i] == After(strategies, s, round, i)
  {
    State(Check(s.bot, EventOf(strategies, s.dbs, round)),
          seq(|s.dbs|, i requires 0 <= i < |s.dbs| => After(strategies, s, round, i)))
  }

  predicate Startable(strategies: seq<Strategy>, rows: seq<Record>, models: seq<Model>) {
    && GoodRecords(rows) && |strategies| == |rows| == |models|
    && forall i :: 0 <= i < |rows| ==> rows[i].deactivatedAt == models[i].deactivatedAt
  }

  function Start(rows: seq<Record>, models: seq<Model>): (s: State)
    ensures |s.dbs| == |models| && forall i :: 0 <= i < |models| ==> s.dbs[i] == Db(models[i], [])
  {
    State(BotState(None, rows, 0, []), seq(|models|, i requires 0 <= i < |models| => Db(models[i], [])))
  }

  /** The scheduler's view of a run: what each check meets, computed from the models of that moment. */
  function Play(strategies: seq<Strategy>, rows: seq<Record>, models: seq<Model>, rounds: seq<Round>)
    : (r: (State, seq<Event>))
    requires Startable(strategies, rows, models)
    ensures Matches(strategies, r.0) && |r.1| == |rounds| && r.0.bot == BotRun(rows, r.1)
  {
    if rounds == [] then (Start(rows, models), [])
    else
      var r, round := Play(strategies, rows, models, rounds[..|rounds| - 1]), rounds[|rounds| - 1];
      var e := EventOf(strategies, r.0.dbs, round);
      assert (r.1 + [e])[..|r.1|] == r.1;
      (Step(strategies, r.0, round), r.1 + [e])
  }

  // ---------- the run refines the scheduler and each ledger ----------

  /** The inputs of the ticks of strategy i, in order. */
  function InputsOf(strategies: seq<Strategy>, rows: seq<Record>, models: seq<Model>, rounds: seq<Round>, i: nat)
    : seq<TickInput>
    requires Startable(strategies, rows, models) && i < |rows|
  {
    if rounds == [] then []
    else
      var front, round := rounds[..|rounds| - 1], rounds[|rounds| - 1];
      var before := InputsOf(strategies, rows, models, front, i);
      if Processes(strategies, Play(strategies, rows, models, front).0, round, i) && round.meetings(i).seeded
      then before + [InputOf(strategies[i], round.meetings(i), round.time)] else before
  }

  /** For every run of the bot: its rows are the scheduler's, run over the outcomes that the trader
      computes, and what it does to each strategy is a run of that strategy's ticks. */
  lemma {:induction false} RunRefines(strategies: seq<Strategy>, rows: seq<Record>, models: seq<Model>,
                                      rounds: seq<Round>, i: nat)
    requires Startable(strategies, rows, models) && i < |rows|
    ensures var r := Play(strategies, rows, models, rounds);
            && r.0.bot == BotRun(rows, r.1)
            && r.0.dbs[i] == LiveRun(strategies[i], models[i], InputsOf(strategies, rows, models, rounds, i))
  {
    if rounds != [] {
      var front, round := rounds[..|rounds| - 1], rounds[|rounds| - 1];
      RunRefines(strategies, rows, models, front, i);
      var inputs := InputsOf(strategies, rows, models, front, i);
      var input := InputOf(strategies[i], round.meetings(i), round.time);
      assert (inputs + [input])[..|inputs|] == inputs;
      hide Processes, Tick, InputOf;
    }
  }

  /** The scheduler's row and the model agree on whether the strategy is deactivated. */
  predicate Agrees(r: Record, db: Db) {
    r.deactivatedAt == db.model.deactivatedAt
  }

  lemma TickAgrees(s: Strategy, r: Record, db: Db, meeting: Meeting, t: int)
    requires r.tick >= 1 && Agrees(r, db) && Due(r, t) && meeting.seeded
    ensures Agrees(AfterProcess(r, t, OutcomeOf(s, db.model, meeting, t)), Tick(s, db, InputOf(s, meeting, t)))
  {
    hide Buy, Sell, Valid, Seeded, NextTick;
  }

  lemma {:induction false} RunAgrees(strategies: seq<Strategy>, rows: seq<Record>, models: seq<Model>,
                                     rounds: seq<Round>, i: nat)
    requires Startable(strategies, rows, models) && i < |rows|
    ensures var s := Play(strategies, rows, models, rounds).0; Agrees(s.bot.db[i], s.dbs[i])
  {
    if rounds != [] {
      var front, round := rounds[..|rounds| - 1], rounds[|rounds| - 1];
      RunAgrees(strategies, rows, models, front, i);
      var s := Play(strategies, rows, models, front).0;
      StepAgrees(strategies, s, round, i);
    }
  }

  lemma StepAgrees(strategies: seq<Strategy>, s: State, round: Round, i: nat)
    requires Matches(strategies, s) && i < |strategies| && Agrees(s.bot.db[i], s.dbs[i])
    ensures var t := Step(strategies, s, round); Agrees(t.bot.db[i], t.dbs[i])
  {
    var e := EventOf(strategies, s.dbs, round);
    RowAfter(s.bot.db, s.bot.log, e, s.bot.events, i, |s.bot.db|);
    assert e.outcomes(i) == OutcomeOf(strategies[i], s.dbs[i].model, round.meetings(i), round.time);
    if Processes(strategies, s, round, i) && round.meetings(i).seeded {
      TickAgrees(strategies[i], s.bot.db[i], s.dbs[i], round.meetings(i), round.time);
    }
    hide ProcessFirst, Tick, InputOf, Due;
  }

  // ---------- what the checks of a run meet ----------

  function ModelAt(strategies: seq<Strategy>, rows: seq<Record>, models: seq<Model>, rounds: seq<Round>, i: nat, k: nat)
    : Model
    requires Startable(strategies, rows, models) && i < |rows| && k <= |rounds|
  {
    Play(strategies, rows, models, rounds[..k]).0.dbs[i].model
  }

  lemma {:induction false} PlayPrefix(strategies: seq<Strategy>, rows: seq<Record>, models: seq<Model>,
                                      rounds: seq<Round>, k: nat)
    requires Startable(strategies, rows, models) && k <= |rounds|
    ensures Play(strategies, rows, models, rounds[..k]).1 == Play(strategies, rows, models, rounds).1[..k]
  {
    hide EventOf, Step;
    if k < |rounds| {
      PlayPrefix(strategies, rows, models, rounds[..|rounds| - 1], k);
      assert rounds[..|rounds| - 1][..k] == rounds[..k];
    } else {
      assert rounds[..k] == rounds;
    }
  }

  /** The k-th check meets the models of that moment. */
  lemma {:induction false} EventAt(strategies: seq<Strategy>, rows: seq<Record>, models: seq<Model>,
                                   rounds: seq<Round>, i: nat, k: nat)
    requires Startable(strategies, rows, models) && i < |rows| && k < |rounds|
    ensures var events, m := Play(strategies, rows, models, rounds).1, ModelAt(strategies, rows, models, rounds, i, k);
            && events[k].time == rounds[k].time
            && events[k].outcomes(i) == OutcomeOf(strategies[i], m, rounds[k].meetings(i), rounds[k].time)
            && StateBefore(rows, events, k).db[i].deactivatedAt == m.deactivatedAt
  {
    PlayPrefix(strategies, rows, models, rounds, k);
    PlayPrefix(strategies, rows, models, rounds, k + 1);
    assert rounds[..k + 1][..k] == rounds[..k];
    RunAgrees(strategies, rows, models, rounds[..k], i);
    hide Step, OutcomeOf;
    var events := Play(strategies, rows, models, rounds).1;
    assert events[k] == events[..k + 1][k];
  }

  // ---------- second trades in one bucket ----------

  /** A sell below the minimum budget. */
  predicate SellsBelow(m: Model, e: Environment) {
    m.state == TryingToSell && Fill(m, e).Some? && !KeepsShare(m.initialBudget, Cut(Fill(m, e).value))
  }

  /** A filled order whose tick stores neither the schedule nor a deactivation: its ledger entry or
      its save reports an error, or the one write that would end the tick does not reach the database. */
  predicate LosesSchedule(m: Model, e: Environment, closing: WriteOutcome) {
    || e.ledger != Succeeded || e.update != Succeeded
    || (if SellsBelow(m, e) then e.deactivate == FailedUnwritten else closing == FailedUnwritten)
  }

  /** For every strategy, model and answers: a tick trades exactly when the exchange fills an order,
      recorded or not, and a trade leaves the strategy due exactly when it loses its schedule. */
  lemma TradeOutcome(s: Strategy, m: Model, meeting: Meeting, t: int)
    requires m.deactivatedAt.None?
    ensures var o := OutcomeOf(s, m, meeting, t);
            && (TradesIn(o) <==> meeting.seeded && FillsOrder(s, m, InputOf(s, meeting, t)))
            && (TradesIn(o) ==> (LeavesDue(o) <==> LosesSchedule(m, meeting.environment, meeting.closing)))
  {
    hide Buy, Sell, Valid, Seeded, Cut;
    var fill := Fill(m, meeting.environment);
    if fill.Some? {
      BelowMinimumIff(AfterSell(m, fill.value));
    }
    hide BelowMinimum, KeepsShare;
  }

  /** For every run of the bot, checks in order of time: after a trade, the next check in its bucket
      that gets to the strategy runs it again exactly when the trade lost its schedule; and then it
      trades again exactly when an order that its model, as the first tick left it, decides on is filled. */
  lemma {:induction false} TradesAgainIff(strategies: seq<Strategy>, rows: seq<Record>, models: seq<Model>,
                                          rounds: seq<Round>, i: nat, m: nat, n: nat)
    requires Startable(strategies, rows, models) && i < |rows| && m < n < |rounds|
    requires var events := Play(strategies, rows, models, rounds).1;
             && InOrder(events) && TradesAt(rows, events, i, m) && TurnAt(rows, events, i, n)
             && CandlestickBucket(events[m].time, rows[i].tick) == CandlestickBucket(events[n].time, rows[i].tick)
             && forall k :: m < k < n ==> !TurnAt(rows, events, i, k)
    ensures var events := Play(strategies, rows, models, rounds).1;
            var before, meeting := ModelAt(strategies, rows, models, rounds, i, m), rounds[m].meetings(i);
            var after, next := ModelAt(strategies, rows, models, rounds, i, n), rounds[n].meetings(i);
            && (ProcessedAt(rows, events, i, n) <==> LosesSchedule(before, meeting.environment, meeting.closing))
            && (TradesAt(rows, events, i, n) <==>
                  && LosesSchedule(before, meeting.environment, meeting.closing)
                  && next.seeded && FillsOrder(strategies[i], after, InputOf(strategies[i], next, rounds[n].time)))
  {
    var events := Play(strategies, rows, models, rounds).1;
    EventAt(strategies, rows, models, rounds, i, m);
    EventAt(strategies, rows, models, rounds, i, n);
    ProcessedAgainIff(rows, events, i, m, n);
    hide Play, CandlestickBucket, FillsOrder, OutcomeOf, LosesSchedule, InputOf, StateBefore, TurnAt;
    var before := ModelAt(strategies, rows, models, rounds, i, m);
    var after := ModelAt(strategies, rows, models, rounds, i, n);
    TradeOutcome(strategies[i], before, rounds[m].meetings(i), rounds[m].time);
    assert AllLeaveDue(rows, events, i, m, n) <==> LeavesDue(events[m].outcomes(i));
    if ProcessedAt(rows, events, i, n) {
      TradeOutcome(strategies[i], after, rounds[n].meetings(i), rounds[n].time);
    }
  }

  /** For every run of the bot, whatever fails in the queries, at the exchange and in closing saves:
      when no failed ledger entry of a strategy reaches the database and every save after an order
      does, its ledger is one chain. */
  lemma {:induction false} BotLedgerIsChain(strategies: seq<Strategy>, rows: seq<Record>, models: seq<Model>,
                                            rounds: seq<Round>, i: nat)
    requires Startable(strategies, rows, models) && i < |rows| && OneHolding(models[i])
    requires forall k :: 0 <= k < |rounds| ==>
               var e := rounds[k].meetings(i).environment; e.ledger != FailedWritten && Reached(e.update)
    ensures var db := Play(strategies, rows, models, rounds).0.dbs[i];
            Chain(models[i], db.orders) && Follows(models[i], db.orders, db.model)
  {
    RunRefines(strategies, rows, models, rounds, i);
    InputsMet(strategies, rows, models, rounds, i);
    hide Play, InputsOf, LiveRun, Chain, Follows;
    LedgerIsChain(strategies[i], models[i], InputsOf(strategies, rows, models, rounds, i));
  }

  lemma {:induction false} InputsMet(strategies: seq<Strategy>, rows: seq<Record>, models: seq<Model>,
                                     rounds: seq<Round>, i: nat)
    requires Startable(strategies, rows, models) && i < |rows|
    ensures forall input :: input in InputsOf(strategies, rows, models, rounds, i) ==>
              exists k :: 0 <= k < |rounds| && input.environment == rounds[k].meetings(i).environment
  {
    if rounds != [] {
      var front, last := rounds[..|rounds| - 1], rounds[|rounds| - 1];
      InputsMet(strategies, rows, models, front, i);
      hide Play, Processes;
      forall input | input in InputsOf(strategies, rows, models, rounds, i)
        ensures exists k :: 0 <= k < |rounds| && input.environment == rounds[k].meetings(i).environment
      {
        if input in InputsOf(strategies, rows, models, front, i) {
          var k :| 0 <= k < |front| && input.environment == front[k].meetings(i).environment;
          assert rounds[k] == front[k];
        } else {
          assert input.environment == rounds[|rounds| - 1].meetings(i).environment;
        }
      }
    }
  }

  // ---------- a strategy that trades twice in one bucket ----------

  /** It buys and sells at an index of 50, which two candles at one price have. */
  const BUSY := RSIStrategy(1, 50.0, 50.0)

  /** A check at the base time whose orders are filled and whose closing save does not arrive. */
  function AtBase(ledger: WriteOutcome): Round {
    Round(1, 0, true, true,
          _ => Meeting(true, [FLAT, FLAT], Environment((side, cost) => Some(1.0), ledger, Succeeded, Succeeded, 0),
                       FailedUnwritten))
  }

  const UNSAVED := AtBase(Succeeded)

  const UNRECORDED := AtBase(FailedUnwritten)

  const EVERY_MINUTE := Record(1, Some(0), None, None)

  lemma FlatIndex()
    ensures RsiValueOf(RsiFold(1, [1.0, 1.0])) == Some(50.0)
  {
    var xs := [1.0, 1.0];
    hide RsiFold;
    RsiShape(1, xs);
    AveragesAreCarried(1, xs);
    PeriodOne(Gains(xs));
    PeriodOne(Losses(xs));
  }

  lemma BusySet()
    ensures var sets := Seeded(Indicators(BUSY), [FLAT, FLAT]).sets; |sets| == 2 && sets[1].values == [Some(50.0)]
  {
    hide Seeded, NonEmpty, RsiFold, RsiValueOf;
    var cs := [FLAT, FLAT];
    AllTraded(cs);
    assert cs[..2] == cs;
    assert PositivePrices(cs);
    LiveSetAt(BUSY, cs, 1);
    FlatIndex();
    assert MeanPrices(cs) == [1.0, 1.0];
    assert ValuesAt(Indicators(BUSY), [1.0, 1.0])[0] == SpecValue(RsiSpec(1), [1.0, 1.0]);
  }

  lemma BusyTrades(ledger: WriteOutcome, m: Model)
    requires m.deactivatedAt.None? && m.state != UnknownState
    ensures var meeting := AtBase(ledger).meetings(0);
            FillsOrder(BUSY, m, InputOf(BUSY, meeting, 0)) && TradesIn(OutcomeOf(BUSY, m, meeting, 0))
  {
    BusySet();
    var meeting := AtBase(ledger).meetings(0);
    var input := InputOf(BUSY, meeting, 0);
    assert Complete(input.history[1]) && Valid(input.current, input.history);
    hide Seeded;
    TradeOutcome(BUSY, m, meeting, 0);
  }

  function Sides(orders: seq<Order>): (sides: seq<Side>)
    ensures |sides| == |orders| && forall i :: 0 <= i < |orders| ==> sides[i] == orders[i].side
  {
    seq(|orders|, i requires 0 <= i < |orders| => orders[i].side)
  }

  /** What the check does to a bot that is at its start, but for the model. */
  lemma UnsavedStep(s: State)
    requires Matches([BUSY], s) && s.bot.db == [EVERY_MINUTE] && s.bot.current == None
    requires OneHolding(s.dbs[0].model) && s.dbs[0].model.deactivatedAt.None?
    ensures var t, m := Step([BUSY], s, UNSAVED), s.dbs[0].model;
            && Processes([BUSY], s, UNSAVED, 0) && TradesIn(EventOf([BUSY], s.dbs, UNSAVED).outcomes(0))
            && Sides(t.dbs[0].orders) == Sides(s.dbs[0].orders) + [SideOf(m.state)]
            && (m.state == TryingToBuy ==>
                  && t.bot.db == [EVERY_MINUTE] && t.bot.current == None
                  && OneHolding(t.dbs[0].model) && t.dbs[0].model.deactivatedAt.None?
                  && t.dbs[0].model.state == TryingToSell)
  {
    var m, meeting := s.dbs[0].model, UNSAVED.meetings(0);
    var e, input := EventOf([BUSY], s.dbs, UNSAVED), InputOf(BUSY, meeting, 0);
    BusyTrades(Succeeded, m);
    assert ProcessFirst(s.bot.db, s.bot.log, e, s.bot.events, 0) == Progress(s.bot.db, s.bot.log, false);
    assert Processes([BUSY], s, UNSAVED, 0);
    TickMoves(BUSY, s.dbs[0], input);
    TradeOutcome(BUSY, m, meeting, 0);
    TickAgrees(BUSY, EVERY_MINUTE, s.dbs[0], meeting, 0);
    assert Step([BUSY], s, UNSAVED).dbs[0] == Tick(BUSY, s.dbs[0], input);
    if m.state == TryingToBuy {
      assert LosesSchedule(m, meeting.environment, meeting.closing);
      OutcomeDecides(EVERY_MINUTE, 0, e.outcomes(0));
      RowAfter(s.bot.db, s.bot.log, e, s.bot.events, 0, 1);
      UnsavedCheck(s.bot, e);
      hide ProcessFirst, Tick, InputOf, OutcomeOf, Seeded;
    }
  }

  /** A check whose only strategy is left due fails, and is tried again. */
  lemma UnsavedCheck(s: BotState, e: Event)
    requires s.db == [EVERY_MINUTE] && s.current == None && e.found && e.initialized && e.time == 0
    requires LeavesDue(e.outcomes(0))
    ensures Check(s, e).db == [EVERY_MINUTE] && Check(s, e).current == None
  {
    assert GoodRecords(s.db);
    OutcomeDecides(EVERY_MINUTE, 0, e.outcomes(0));
    assert ProcessFirst(s.db, s.log, e, s.events, 0) == Progress(s.db, s.log, false);
  }

  /** The bot buys, fails to store the schedule, and at its next try sells within the same bucket. */
  lemma BuysAndSells()
    ensures var start := Model(TryingToBuy, 1.0, 1.0, 0.0, None);
            var r := Play([BUSY], [EVERY_MINUTE], [start], [UNSAVED, UNSAVED]);
            && TradesAt([EVERY_MINUTE], r.1, 0, 0) && TradesAt([EVERY_MINUTE], r.1, 0, 1)
            && Sides(r.0.dbs[0].orders) == [BuySide, SellSide]
  {
    var start := Model(TryingToBuy, 1.0, 1.0, 0.0, None);
    var zero := Start([EVERY_MINUTE], [start]);
    assert OneHolding(start);
    PlayTwice(Succeeded, start);
    hide Play, BotRun, Step;
    TwoSteps(zero, Play([BUSY], [EVERY_MINUTE], [start], [UNSAVED, UNSAVED]).1);
  }

  lemma {:induction false} TwoSteps(zero: State, events: seq<Event>)
    requires Matches([BUSY], zero) && zero.bot.db == [EVERY_MINUTE] && zero.bot.current == None
    requires zero.dbs[0].model.state == TryingToBuy && zero.dbs[0].orders == []
    requires OneHolding(zero.dbs[0].model) && zero.dbs[0].model.deactivatedAt.None?
    requires var one := Step([BUSY], zero, UNSAVED);
             && Matches([BUSY], one)
             && events == [EventOf([BUSY], zero.dbs, UNSAVED), EventOf([BUSY], one.dbs, UNSAVED)]
             && StateBefore([EVERY_MINUTE], events, 0) == zero.bot && StateBefore([EVERY_MINUTE], events, 1) == one.bot
    ensures TradesAt([EVERY_MINUTE], events, 0, 0) && TradesAt([EVERY_MINUTE], events, 0, 1)
    ensures Sides(Step([BUSY], Step([BUSY], zero, UNSAVED), UNSAVED).dbs[0].orders) == [BuySide, SellSide]
  {
    hide Step, EventOf, StateBefore, Processes, TradesAt, TradesIn, GoodRecords, OneHolding;
    var one := Step([BUSY], zero, UNSAVED);
    UnsavedStep(zero);
    UnsavedStep(one);
    ProcessedTrades(Succeeded, zero, events, 0);
    ProcessedTrades(Succeeded, one, events, 1);
  }

  lemma ProcessedTrades(ledger: WriteOutcome, s: State, events: seq<Event>, n: nat)
    requires Matches([BUSY], s) && n < |events| && events[n] == EventOf([BUSY], s.dbs, AtBase(ledger))
    requires StateBefore([EVERY_MINUTE], events, n) == s.bot
    requires Processes([BUSY], s, AtBase(ledger), 0) && TradesIn(events[n].outcomes(0))
    ensures TradesAt([EVERY_MINUTE], events, 0, n)
  {
  }

  lemma {:induction false} PlayTwice(ledger: WriteOutcome, start: Model)
    requires start.deactivatedAt == None
    ensures var zero := Start([EVERY_MINUTE], [start]);
            var one := Step([BUSY], zero, AtBase(ledger));
            var e, f := EventOf([BUSY], zero.dbs, AtBase(ledger)), EventOf([BUSY], one.dbs, AtBase(ledger));
            && Matches([BUSY], zero) && Matches([BUSY], one)
            && Play([BUSY], [EVERY_MINUTE], [start], [AtBase(ledger), AtBase(ledger)])
               == (Step([BUSY], one, AtBase(ledger)), [e, f])
            && StateBefore([EVERY_MINUTE], [e, f], 0) == zero.bot && StateBefore([EVERY_MINUTE], [e, f], 1) == one.bot
  {
    var zero := Start([EVERY_MINUTE], [start]);
    var one := Step([BUSY], zero, AtBase(ledger));
    var rounds := [AtBase(ledger), AtBase(ledger)];
    assert [AtBase(ledger)][..0] == [] && rounds[..|rounds| - 1] == [AtBase(ledger)];
    var e, f := EventOf([BUSY], zero.dbs, AtBase(ledger)), EventOf([BUSY], one.dbs, AtBase(ledger));
    hide Step, EventOf, Check;
    assert Play([BUSY], [EVERY_MINUTE], [start], []) == (zero, []);
    assert Play([BUSY], [EVERY_MINUTE], [start], [AtBase(ledger)]) == (one, [] + [e]);
    assert [] + [e] + [f] == [e, f] && [e, f][..0] == [] && [e, f][..1] == [e];
  }

  /** What a check does whose order is filled and whose ledger entry fails: nothing is stored. */
  lemma UnrecordedStep(s: State)
    requires Matches([BUSY], s) && s.bot.db == [EVERY_MINUTE] && s.bot.current == None
    requires s.dbs[0].model.deactivatedAt.None? && s.dbs[0].model.state == TryingToBuy
    ensures var t := Step([BUSY], s, UNRECORDED);
            && Processes([BUSY], s, UNRECORDED, 0) && TradesIn(EventOf([BUSY], s.dbs, UNRECORDED).outcomes(0))
            && t.dbs == s.dbs && t.bot.db == [EVERY_MINUTE] && t.bot.current == None
  {
    var m, meeting := s.dbs[0].model, UNRECORDED.meetings(0);
    var e, input := EventOf([BUSY], s.dbs, UNRECORDED), InputOf(BUSY, meeting, 0);
    BusyTrades(FailedUnwritten, m);
    assert ProcessFirst(s.bot.db, s.bot.log, e, s.bot.events, 0) == Progress(s.bot.db, s.bot.log, false);
    assert Processes([BUSY], s, UNRECORDED, 0);
    TradeOutcome(BUSY, m, meeting, 0);
    hide InputOf, Seeded;
    assert Step([BUSY], s, UNRECORDED).dbs[0] == Tick(BUSY, s.dbs[0], input) == s.dbs[0];
    UnsavedCheck(s.bot, e);
    hide ProcessFirst, Tick, OutcomeOf;
  }

  /** The exchange fills a buy of the whole budget at both tries, and nothing of either is stored. */
  lemma BuysUnrecorded()
    ensures var start := Model(TryingToBuy, 1.0, 1.0, 0.0, None);
            var r := Play([BUSY], [EVERY_MINUTE], [start], [UNRECORDED, UNRECORDED]);
            && TradesAt([EVERY_MINUTE], r.1, 0, 0) && TradesAt([EVERY_MINUTE], r.1, 0, 1)
            && r.0.dbs == [Db(start, [])]
  {
    var start := Model(TryingToBuy, 1.0, 1.0, 0.0, None);
    PlayTwice(FailedUnwritten, start);
    hide Play, BotRun, Step;
    TwoFills(Start([EVERY_MINUTE], [start]), Play([BUSY], [EVERY_MINUTE], [start], [UNRECORDED, UNRECORDED]).1);
  }

  lemma {:induction false} TwoFills(zero: State, events: seq<Event>)
    requires Matches([BUSY], zero) && zero.bot.db == [EVERY_MINUTE] && zero.bot.current == None
    requires zero.dbs[0].model.deactivatedAt.None? && zero.dbs[0].model.state == TryingToBuy
    requires var one := Step([BUSY], zero, UNRECORDED);
             && Matches([BUSY], one)
             && events == [EventOf([BUSY], zero.dbs, UNRECORDED), EventOf([BUSY], one.dbs, UNRECORDED)]
             && StateBefore([EVERY_MINUTE], events, 0) == zero.bot && StateBefore([EVERY_MINUTE], events, 1) == one.bot
    ensures TradesAt([EVERY_MINUTE], events, 0, 0) && TradesAt([EVERY_MINUTE], events, 0, 1)
    ensures Step([BUSY], Step([BUSY], zero, UNRECORDED), UNRECORDED).dbs == zero.dbs
  {
    hide Step, EventOf, StateBefore, Processes, TradesAt, TradesIn, GoodRecords;
    var one := Step([BUSY], zero, UNRECORDED);
    UnrecordedStep(zero);
    UnrecordedStep(one);
    ProcessedTrades(FailedUnwritten, zero, events, 0);
    ProcessedTrades(FailedUnwritten, one, events, 1);
  }
}
