# Vespyr, modelled and verified

Vespyr is a trading bot. Trades become minute candles, minute candles become n-minute candles,
candles drive indicators, indicators decide when to buy and sell, and decisions move a budget.
This project models that pipeline in Dafny and proves what holds over all inputs, all runs and all
interleavings.

| stage | files |
|---|---|
| time grid and candle aggregation | `grid.dfy`, `candlesticks.dfy`, `reprojection.dfy`, `coarsening.dfy`, `composition.dfy` |
| importers | `options.dfy`, `writes.dfy`, `sorted_keys.dfy`, `realtime_importer.dfy`, `realtime_importer_code.dfy`, `late_messages.dfy`, `historical_importer.dfy`, `end_to_end.dfy`, `stored_candles.dfy` |
| indicators | `reals.dfy`, `ema.dfy`, `dema.dfy`, `rsi.dfy`, `wilder.dfy`, `indicator_sets.dfy` |
| decisions and trading | `strategies.dfy`, `truncation.dfy`, `trading.dfy`, `trader.dfy`, `ledger.dfy`, `live.dfy`, `windows.dfy` |
| backtester | `backtesting.dfy`, `results.dfy`, `compounding.dfy`, `decision_laws.dfy`, `market_laws.dfy`, `live_backtest.dfy` |
| scheduler | `bot.dfy`, `live_bot.dfy` |

Code that changes state is a class or a method with a loop, proved equal to a function of its
inputs and old state; the laws are lemmas about those functions. The two concurrent parts, the
realtime importer and the historical importer's workers, are state machines whose runs are
arbitrary sequences of small steps. The realtime importer's methods are also written as they are in
the code, and each call is proved to be a run of that machine.

Numbers are `real`, times are whole nanoseconds from the candlestick base time, and the store is a
map keyed by start time and product. What the exchange, the database, the clock and the random
source answer are parameters, and every answer is allowed unless a contract says otherwise. A write
that reports an error may or may not have reached the database.

Where the code does less than its readers might expect, the exact condition is proved, and one
input that fails is given:

- A time before the base time lies in the bucket computed for it only when it is itself a grid point
  (`Grid.BucketContainsIff`, failing input in `Grid.BeforeBaseOutside`).
- The order ledger stays one chain exactly as long as no order is recorded after one that left the
  database with the model it was made from (`Ledger.LedgerIsChainIff`, `Ledger.BuysTwice`).
- A strategy falls below seven tenths of its initial budget and stays active exactly when a sell
  below them is stored and its deactivation is not, because the save reported an error or because
  the deactivation could not be stored (`Ledger.MinimumHoldsIff`, `Ledger.StaysActive`).
- With messages in any order of time and any store to start with, the realtime importer keeps every
  minute's trades exactly when none of three steps happens: a bucket gone before it is looked up; a
  trade for a builder that is no longer its bucket's (unless it is the minute's first and its candle
  is stored by chance), or that was made anew although the minute has trades; or the deletion of a
  bucket whose stored candle is not its builder's. A bucket made anew for a message without a trade
  loses nothing (`LateMessages.KeepsTradesIff`,
  `LateMessages.LateTradeLoses`).
- A strategy whose order was filled is run again within its bucket exactly when the tick stored
  neither its schedule nor a deactivation: its ledger entry or its save reported an error, or its last
  write did not reach the database. It then has an order filled again when its model decides to and
  the exchange fills (`LiveBot.TradesAgainIff`, `LiveBot.BuysAndSells`, `LiveBot.BuysUnrecorded`).
- The bucket of the last candle that a check decides on is over exactly when the check's candlestick
  ends on the strategy's grid (`EndToEnd.LastCandleWholeIff`, `EndToEnd.LastCandleOpen`).
- At its first complete indicator set, a live S1 strategy that tries to buy dereferences a missing
  value of the set before, unless that set has its averages and their difference is below the up
  threshold (`Live.LiveAgrees`, `Live.SteadyPanics`). A backtest, which drops incomplete sets, does not.
- The RSI divides by 14 whatever its period. Its averages are Wilder's smoothing exactly for period 14,
  at the first averages, or when nothing moved (`WilderSmoothing.RsiIsWilderIff`,
  `WilderSmoothing.RisingIsNotWilder`), and forget where they started exactly for periods below 15
  (`WilderSmoothing.WindowForgetsIff`, `WilderSmoothing.NeverForgets`). Its range holds for every
  history exactly for periods of at least 1 (`Rsi.RangeIff`, `Rsi.PeriodZeroLeavesRange`); mirror
  symmetry and unit invariance are proved for these.
- Without a sell, the reported final budget is 0 and not the budget, unless that is 0 too
  (`Results.FinalBudgetIff`, `Results.UnsoldBudget`).

The bot seeds its traders anew at every check, from the last candles only, so a live value may differ
from the backtest's. Where the values of the backtest are farther from their thresholds than the
window can move them, the decisions are the same, tick by tick (`Windows.WindowDecides`) and over
whole runs (`LiveBacktest.WindowedIsBacktest`).

## Model

| member | source | states |
|---|---|---|
| Grid.BucketFormula | pkg/vespyr/candlesticks.go:20-24 | for every time, before the base included, truncating integer division computes the grid projection that the other lemmas are about |
| Grid.BucketContains | pkg/vespyr/candlesticks.go:20-24 | from the base time on, a time lies in its bucket, and a bucket starts on the grid, so bucketing is idempotent |
| Grid.BucketContainsIff | pkg/vespyr/candlesticks.go:20-24 | for every time: its bucket contains it exactly when it is not before the base or is a grid point itself |
| Grid.BeforeBaseOutside | pkg/vespyr/candlesticks.go:20-24 | a moment before the base time is put into the bucket that starts after it |
| Grid.InBucketIff | pkg/vespyr/candlesticks.go:20-24 | from the base time on, the times projected to a grid point are exactly those of its half-open interval |
| Grid.BucketIs | pkg/vespyr/candlesticks.go:20-24 | for every time and grid point: which times are projected to it, before the base the ones of the bucket that ends there, and at the base those of both sides |
| Grid.BucketMonotone | pkg/vespyr/candlesticks.go:20-24 | for all times, before the base included: later times are not projected to earlier buckets |
| Grid.BucketNested | pkg/vespyr/candlesticks.go:20-24 | for all times, before the base included: when tick a divides tick b, projecting to a first does not change the projection to b |
| Grid.DividesIsMod | pkg/vespyr/candlesticks.go:20-24 | the recursive divisibility used for tick sizes is divisibility by remainder |
| Candlesticks.CandlestickBuilder.constructor | pkg/vespyr/candlesticks.go:100-106 | a new builder holds nothing |
| Candlesticks.CandlestickBuilder.Build | pkg/vespyr/candlesticks.go:109-130 | the candle of what the builder holds, its direction included; the builder does not change |
| Candlesticks.CandlestickBuilder.ProcessCandlestickModel | pkg/vespyr/candlesticks.go:134-178 | a candle of the product that starts and ends within the builder's span, both ends included, is folded in; any other changes nothing |
| Candlesticks.CandlestickBuilder.ProcessMessage | pkg/vespyr/candlesticks.go:181-222 | a match of the product within the span is folded in as a one-trade bar, its size added to the volume; any other message changes nothing |
| Candlesticks.FoldSummarises | pkg/vespyr/candlesticks.go:154-177 | folding positive bars gives the first open, the last close, the attained minimum of lows and maximum of highs, and the total volume |
| Candlesticks.MeanPriceRises | pkg/vespyr/models.go:30-41 | raising any one of the four prices raises the mean price by a quarter of that |
| Candlesticks.MeanPriceBetween | pkg/vespyr/models.go:30-41 | the mean price lies between any bounds of the four prices, so that of four equal ones is that price |
| Candlesticks.FoldConcat | pkg/vespyr/candlesticks.go:154-177 | the fold of a run is the fold of its first part with the candle of its second part added: candles of candles lose nothing |
| Candlesticks.BarsWithinSplit | pkg/vespyr/candlesticks.go:66-73 | what starts in an interval is what starts in its first part followed by what starts in the rest |
| Reprojection.AllocateBuilders | pkg/vespyr/candlesticks.go:56-64 | exactly one empty builder per bucket from the first to the last, in ascending order |
| Reprojection.FeedBuilders | pkg/vespyr/candlesticks.go:66-73 | after feeding, each builder holds the fold of the candles of its bucket; it stops at the first candle without a builder |
| Reprojection.BucketCountClosed | pkg/vespyr/candlesticks.go:58-62 | the loop over buckets allocates (last - first) / width + 1 of them |
| Reprojection.ReprojectCandlesticks | pkg/vespyr/candlesticks.go:48-83 | fails exactly on no candles or at the first candle outside the span of the first and the last; otherwise returns each bucket's candle in order |
| Coarsening.ProjectedRun | pkg/vespyr/candlesticks.go:48-83 | reprojecting an ascending aligned run gives again such a run, contiguous from the first bucket to the last, each candle the fold of what starts in it |
| Coarsening.ReprojectionIsGroupBy | pkg/vespyr/candlesticks.go:53-82 | reprojection is a group-by: closed-form length, contiguous and sorted, first open, last close, least low, greatest high per nonempty bucket, zeros for gaps, up exactly when it closes no lower than it opens, total volume conserved |
| Coarsening.CoarsenedFold | pkg/vespyr/candlesticks.go:154-177 | folding a coarser run that sums up a finer one, over any whole number of its buckets, is folding the finer run |
| Composition.ProjectionCoarsens | pkg/vespyr/candlesticks.go:48-83 | the nonempty candles of a projection sum up the original run on every span of whole buckets |
| Composition.ReprojectionComposes | pkg/vespyr/candlesticks.go:48-83 | when a divides b: to a minutes, dropping untraded candles, and on to b minutes gives the candles of going straight to b |
| SortedKeys.SortKeys | pkg/vespyr/realtime_importer.go:121-126 | the keys of the map in strictly ascending order, each exactly once |
| RealtimeImport.StepKeepsInv | pkg/vespyr/realtime_importer.go:97-157 | every step of either process (create, look up, process; snapshot, build, upsert with any outcome, delete) keeps the whole invariant and cannot dereference a missing builder |
| RealtimeImport.EveryRunAccounted | pkg/vespyr/realtime_importer.go:97-157 | over every interleaving and every nondecreasing message stream: no panic, and each minute's accepted trades are held by exactly its live builder or, once that is deleted, exactly the store |
| RealtimeImport.DeletedForGood | pkg/vespyr/realtime_importer.go:102-108 | a bucket that was flushed and deleted is never created again |
| LateMessages.StepLosesIff | pkg/vespyr/realtime_importer.go:97-157 | with messages in any order of time and any store: a step panics or leaves some minute's trades neither in its live builder nor, when there is none or it is still empty, in the store, exactly when it is one of three losing steps, each read off the state before it |
| LateMessages.KeepsTradesIff | pkg/vespyr/realtime_importer.go:97-157 | over every interleaving, messages in any order and any initial store: no panic and every minute's trades kept at every state exactly when no step is a losing one |
| LateMessages.InOrderNeverLoses | pkg/vespyr/realtime_importer.go:97-157 | with messages in order of time the run is the other machine's, takes no losing step, and keeps every minute's trades at every state |
| LateMessages.LateTradeLoses | pkg/vespyr/realtime_importer.go:102-155 | a run in which a trade of a flushed minute is processed into a new bucket, and the next flush replaces the minute's candle by one of volume 1 where its trades have volume 2 |
| RealtimeImporterCode.RealtimeImporter.constructor | pkg/vespyr/realtime_importer.go:26-33 | a new importer has no buckets |
| RealtimeImporterCode.RealtimeImporter.ProcessExchangeMessage | pkg/vespyr/realtime_importer.go:97-117 | exactly the message's bucket changes: created when missing, with the trade folded in when the builder accepts it |
| RealtimeImporterCode.RealtimeImporter.FlushOne | pkg/vespyr/realtime_importer.go:136-155 | one bucket is stored and deleted, deleted only when it has no volume, and kept when its upsert fails, whether or not the failed upsert was written |
| RealtimeImporterCode.RealtimeImporter.Flush | pkg/vespyr/realtime_importer.go:120-157 | every bucket but the latest is flushed, in ascending order; with fewer than two buckets nothing changes |
| RealtimeImporterCode.FlushedEach | pkg/vespyr/realtime_importer.go:120-157 | bucket by bucket: a flush leaves the last one alone, drops those without volume, stores each other minute's candle unless its upsert does not reach the database, and drops it when the upsert succeeds |
| RealtimeImporterCode.MessageIsRun | pkg/vespyr/realtime_importer.go:97-117 | a call of the message processor is a run of three steps of the state machine with the same effect |
| RealtimeImporterCode.FlushIsRun | pkg/vespyr/realtime_importer.go:120-157 | a flush is a run of the flusher's steps with the same effect, from the snapshot of the keys on |
| EndToEnd.ImportThenReproject | pkg/vespyr/backend.go:69-89 | for every run of the importer over a store with nothing of the product in the queried range: querying the stored minutes and reprojecting to n minutes gives, for every n-minute bucket with no live minutes, the candle its trades fold to directly, and there is one if it has trades |
| StoredCandles.EveryMinuteSumsUp | pkg/vespyr/realtime_importer.go:97-157 | over every run with positive prices and sizes, message by message: what the builder of a live minute builds, and what is stored of every other minute with trades, is from the minute's start to its end and has the first and the last price, the least and the greatest, the sum of the sizes and the direction of exactly the minute's trades |
| StoredCandles.EveryBucketSumsUp | pkg/vespyr/backend.go:69-89 | the same for n minutes: query and reproject, and the candle of each bucket that had trades and has no live minutes sums up exactly the bucket's trades |
| StoredCandles.ReceivedIsProcessed | pkg/vespyr/realtime_importer.go:97-117 | over every run the messages received are the ones processed, once each and in order, but for one in hand |
| EndToEnd.HistoryReachesCheck | pkg/vespyr/bot.go:147-153 | when the history query of a check includes its candlestick, the last reprojected candle ends no earlier than the check, so the tick does not seed its trader a second time |
| EndToEnd.LastCandleWholeIff | pkg/vespyr/bot.go:102-105 | the bucket of the last reprojected candle is over at the check exactly when the check's candlestick ends on the grid of the strategy's tick size |
| EndToEnd.LastCandleOpen | pkg/vespyr/bot.go:102-105 | one minute candle at a tick size of two: the last candle ends after the check |
| HistoricalImport.Batches | pkg/vespyr/historical_importer.go:95-106 | for every range: contiguous batches from its start, floor((end - start) / 150 min) + 1 of them, covering every time of the range |
| HistoricalImport.HistoricalImporter.constructor | pkg/vespyr/historical_importer.go:27-34 | an importer starts on the store it is given |
| HistoricalImport.HistoricalImporter.ProcessBatch | pkg/vespyr/historical_importer.go:36-50 | one try of a batch: a failed fetch stores nothing, candles are stored in order up to the first failing upsert |
| HistoricalImport.HistoricalImporter.ImportBatch | pkg/vespyr/historical_importer.go:56-71 | a batch is tried until it succeeds and given up after 20 failures; what the failed tries stored stays |
| HistoricalImport.TrySucceedsIff | pkg/vespyr/historical_importer.go:36-50 | a try succeeds exactly when the fetch and every upsert do; then all candles are stored, otherwise exactly the first ones up to some point |
| HistoricalImport.ImportedWithin | pkg/vespyr/historical_importer.go:56-71 | a batch is imported exactly when one of its first 20 tries meets no failure |
| HistoricalImport.ImportBatchIsRun | pkg/vespyr/historical_importer.go:52-73 | an idle worker that takes the next batch and imports it is a run of the state machine's steps with the same effect |
| HistoricalImport.EveryImportRun | pkg/vespyr/historical_importer.go:52-73 | with a fixed exchange, over every interleaving of workers, batches retried and given up included: the store lies between the old one and what was fetched, finished batches are wholly in it, and every batch handed out is finished, given up or with a worker |
| HistoricalImport.EveryRowAtItsOwn | pkg/vespyr/historical_importer.go:43-47 | after every run: each row that is not as before is stored at its own start and product and was fetched, no row is lost, and every candle of a finished batch is what is stored at its start and product |
| HistoricalImport.ImportOrderIndependent | pkg/vespyr/historical_importer.go:36-107 | with a fixed exchange, every interleaving that ends with no batch given up leaves the store of a sequential import without failures |
| Ema.SMA | pkg/vespyr/ema.go:12-25 | the mean of the values from max(0, index - period + 1) to the index; none for period 0, when the code divides zero by zero |
| Ema.EMAIndicator.AddCandlestick | pkg/vespyr/ema.go:52-80 | the step of the incremental average: untraded candles are skipped, prices are collected until there are enough, their mean is the seed |
| Ema.EMAIndicator.Value | pkg/vespyr/ema.go:83-92 | a value exactly when the average has been seeded |
| Ema.EmaComputesAverage | pkg/vespyr/ema.go:52-92 | over every positive history the running fields equal the average of the whole history: not ready before `period` prices, then the seed mean carried on |
| Ema.AverageBounds | pkg/vespyr/ema.go:62-77 | the average stays between any bounds of the prices it has seen |
| Ema.EmaClosedForm | pkg/vespyr/ema.go:76-77 | the running average in closed form: geometrically weighted prices plus the geometrically damped start value |
| Ema.StartForgotten | pkg/vespyr/ema.go:76-77 | two averages of one period fed the same n prices differ by exactly ((p-1)/(p+1))^n times their starting difference |
| Ema.HistoryWindowSuffices | pkg/vespyr/bot.go:99-111 | seeding from the last h prices only is within ((p-1)/(p+1))^(h-p) times the price range of using all history |
| Dema.DEMAIndicator.AddCandlestick | pkg/vespyr/ema.go:121-133 | both averages receive every traded candle |
| Dema.DEMAIndicator.Value | pkg/vespyr/ema.go:136-152 | half the relative difference of the averages, exactly when both are ready and do not cancel; infinite when they cancel |
| Dema.ShortLeads | pkg/vespyr/ema.go:52-80 | on prices that never fall, the average of a shorter period is never below that of a longer one, seeds included |
| Dema.RatioFromDema | pkg/vespyr/ema.go:136-152 | there is a value exactly from the longer period on, and it gives the ratio of the averages back: short / long = (1 + 2 v) / (1 - 2 v) |
| Dema.RisingDema | pkg/vespyr/ema.go:136-152 | if prices never fall and 1 <= short <= long, every value is in [0, 1/2) |
| Dema.FallingDema | pkg/vespyr/ema.go:136-152 | if prices never rise and 1 <= short <= long, every value is in (-1/2, 0] |
| Dema.AverageScales | pkg/vespyr/ema.go:52-80 | an average of scaled prices is the scaled average |
| Dema.DemaUnitFree | pkg/vespyr/ema.go:136-152 | multiplying all prices by one positive factor changes no value and no readiness |
| Rsi.RSIIndicator.AddCandlestick | pkg/vespyr/rsi.go:35-121 | the step of the incremental index, deferred update included; untraded candles change nothing |
| Rsi.RSIIndicator.Update | pkg/vespyr/rsi.go:51-120 | everything but the deferred update: sums, seed averages, smoothing with the literal 14, and the degenerate branches |
| Rsi.RSIIndicator.Value | pkg/vespyr/rsi.go:129-138 | a value exactly after more than `periods` traded candles |
| Rsi.RsiIsShare | pkg/vespyr/rsi.go:30-32 | away from the flat case the index is 100 times the share of the average gain in gain plus loss |
| Rsi.RsiInRange | pkg/vespyr/rsi.go:55-118 | over every history and period of at least 1 the index is in [0, 100], and present exactly after enough prices |
| Rsi.RangeIff | pkg/vespyr/rsi.go:55-118 | the index is in [0, 100] for every history exactly for periods of at least 1 |
| Rsi.PeriodZeroLeavesRange | pkg/vespyr/rsi.go:88-103 | three prices for which period 0 gives a value below 0 |
| Rsi.RsiMirrors | pkg/vespyr/rsi.go:55-118 | mirroring all prices around any level turns the index into 100 minus it, all three degenerate branches included |
| Rsi.RsiUnitFree | pkg/vespyr/rsi.go:35-121 | multiplying all prices by one positive factor changes no value of the index |
| WilderSmoothing.AveragesAreCarried | pkg/vespyr/rsi.go:66-103 | for every period and history the running averages are the mean of the first gains and losses, carried on by the code's step over all others |
| WilderSmoothing.CarriedVersusWilder | pkg/vespyr/rsi.go:88-100 | from period 2 on, once anything moved after the first averages, the code's average is strictly below Wilder's for periods below 14 and strictly above for periods above |
| WilderSmoothing.RsiIsWilderIff | pkg/vespyr/rsi.go:66-103 | for every period and history: both running averages are Wilder's smoothing of all gains and of all losses exactly when the period is 14, or only the first averages are in, or nothing moved (for period 1: at the last price) |
| WilderSmoothing.RsiIsWilder | pkg/vespyr/rsi.go:66-118 | for period 14 and every history the value is the index of Wilder's smoothing |
| WilderSmoothing.RisingIsNotWilder | pkg/vespyr/rsi.go:88-100 | four rising prices for which period 2 is not Wilder's smoothing |
| WilderSmoothing.WilderClosedForm | pkg/vespyr/rsi.go:88-103 | Wilder's smoothing of period p in closed form: an exponential average of period 2p - 1 |
| WilderSmoothing.FoldsApart | pkg/vespyr/rsi.go:88-103 | two indicators past their period and at one price, fed the same n prices, end up exactly ((p-1)/14)^n times their difference apart |
| WilderSmoothing.WindowForgetsIff | pkg/vespyr/bot.go:99-111 | seeding from the last h prices only leaves the averages exactly ((p-1)/14)^(h-p-1) times as far off as at the window's seed, and closer than there exactly for periods below 15 |
| WilderSmoothing.NeverForgets | pkg/vespyr/rsi.go:88-100 | for every period from 15 on, a history whose first price the window misses and the average gain does not forget |
| IndicatorSets.UpdateIndicators | pkg/vespyr/backtesting.go:177-193 | after one traded candle every indicator holds the whole history, and the set is skipped exactly when some value is missing |
| IndicatorSets.GenerateIndicatorSets | pkg/vespyr/backtesting.go:169-200 | the complete sets of the traded candles, each computed from the whole history up to its candle, and the candles they belong to |
| IndicatorSets.CompleteIff | pkg/vespyr/backtesting.go:179-194 | a set is complete exactly from the number of candles that the neediest indicator needs on |
| IndicatorSets.DroppedSetsAreInitial | pkg/vespyr/backtesting.go:194-197 | the incomplete sets that are dropped form exactly an initial segment, with its length in closed form |
| IndicatorSets.AllComplete | pkg/vespyr/backtesting.go:194-197 | every set handed to the trader has a value for every indicator |
| Strategies.ValidateIndicatorSets | pkg/vespyr/strategy.go:184-210 | accepts exactly when there are sets, the tick is not beyond them, and the latest set has values and none missing |
| Strategies.DecisionsAlike | pkg/vespyr/s1_strategy.go:52-117 | for all three strategies: on complete sets buying and selling are always decided, and depend on no more than the current set and, for S1, the one before it |
| DecisionLaws.RowTradesIff | pkg/vespyr/backtesting.go:229-251 | for every strategy and history: a backtest's row buys exactly when it is after the start, the model is trying to buy and the values of the prices seen there say so (a difference of averages above the up threshold, an index at or below the buy threshold, for S1 an index at or below the entrance or a difference above the up threshold unless the row before had both a difference at or above it and an index at or above the exit), and sells exactly when the values say that |
| DecisionLaws.FallingNeverBuys | pkg/vespyr/s1_strategy.go:52-87 | if mean prices never rise, a crossover backtest with an up threshold of at least 0 never buys; nor does, on any prices, an RSI backtest with a threshold below 0; nor S1 with both |
| DecisionLaws.RisingNeverSells | pkg/vespyr/s1_strategy.go:91-117 | if mean prices never fall, a crossover backtest with a down threshold of at most 0 never sells; nor does, on any prices, an RSI backtest with a threshold above 100; nor S1 with both |
| DecisionLaws.AlwaysBuys | pkg/vespyr/s1_strategy.go:52-87 | with an entrance of at least 100 S1 buys at every row at which it is trying to buy and not re-entering; likewise the RSI strategy, and the crossover on prices that never fall with a negative threshold |
| DecisionLaws.AlwaysSells | pkg/vespyr/s1_strategy.go:91-117 | with an exit of at most 0 S1 sells at every row at which it is trying to sell; likewise the RSI strategy, and the crossover on prices that never rise with a positive threshold |
| DecisionLaws.DecisionsMonotone | pkg/vespyr/s1_strategy.go:52-117 | for all three strategies: a higher difference or a lower index never turns a buy into none, and a lower difference or a higher index never turns a sell into none |
| Truncation.TruncateBounds | pkg/vespyr/math.go:9-12 | cutting a non-negative amount never raises it and takes less than one unit of the last place |
| Truncation.TruncateLargest | pkg/vespyr/math.go:9-12 | the result is the largest multiple of the last place that does not exceed the amount |
| Truncation.TruncateOdd | pkg/vespyr/math.go:9-12 | negative amounts are cut toward zero too |
| Trading.PerformOrder | pkg/vespyr/order_strategies.go:56-105 | a response exactly when the exchange fills and the ledger write succeeds; a ledger entry of the same side, cost and fill also when the write reached the database and reported an error |
| Trading.UpdateTradingStrategy | pkg/vespyr/backend.go:117-120 | the row is the model in memory exactly when the write reached the database, reported as an error or not |
| Trading.SellDeactivatesIff | pkg/vespyr/strategy.go:290-344 | with a positive initial budget, a filled sell whose writes succeed deactivates the strategy, at the clock's moment, exactly when ten times its cut fill is less than seven times the initial budget |
| Traders.TradingStrategy.TryBuy | pkg/vespyr/strategy.go:214-269 | the whole new model, the row and the order that the database then holds, and the error, for every decision and every failure of exchange, ledger and backend |
| Traders.TradingStrategy.TrySell | pkg/vespyr/strategy.go:273-351 | likewise for selling: the minimum-budget deactivation is looked at only after a save that succeeded |
| Traders.TradingStrategy.ProcessTick | pkg/vespyr/strategy.go:165-180 | dispatches on the state; an unknown state is an error that changes nothing |
| Ledger.LedgerIsChainIff | pkg/vespyr/strategy.go:165-301 | over every run of ticks, with exchanges that fail and writes that fail before or after they reach the database: orders alternate from the starting side, the first spends the starting holding and each later one the cut fill of the one before, exactly when no order is recorded after one that left the database with the model it was made from; one currency is held at a time |
| Ledger.LedgerIsChain | pkg/vespyr/strategy.go:224-301 | when no failed ledger entry reaches the database and every save does, the ledger is one chain and the model holds the cut fill of its last order |
| Ledger.BuysTwice | pkg/vespyr/strategy.go:224-242 | a run whose ledger has two buys in a row, the first one's save having failed |
| Ledger.MinimumHoldsIff | pkg/vespyr/strategy.go:299-344 | over every run: an active strategy that is out of a trade always has ten times its budget at least seven times its initial one, exactly when no sell below that is stored by a save that reports an error or without its deactivation being stored |
| Ledger.DeactivatedWhy | pkg/vespyr/strategy.go:325-344 | over every run: a deactivated strategy was so by one tick, at the moment stored, that sold below seven tenths of its initial budget or lacked data |
| Ledger.StaysActive | pkg/vespyr/strategy.go:299-344 | runs that leave a strategy active at half its initial budget, one for each way its deactivation can be lost |
| Traders.TradingStrategy.constructor | pkg/vespyr/strategy.go:107-124 | a new trader has one fresh indicator per name and no sets |
| Traders.TradingStrategy.SeedIndicators | pkg/vespyr/strategy.go:127-148 | every name's indicator receives the candle in turn, a name listed twice receives it twice; one set is appended and the tick moves on |
| Traders.SeededTimes | pkg/vespyr/strategy.go:127-148 | there is one set per candle, in order, with the candle's start |
| Live.LiveSetsAgree | pkg/vespyr/strategy.go:127-148 | after every history, untraded candles and equal periods included: the live values a strategy reads are those a backtest computes from the traded candles, and all are there exactly when the backtest's are |
| Live.LiveLacksData | pkg/vespyr/strategy.go:184-210 | until it has seen as many traded candles as the first set that a backtest keeps, a live tick reports a lack of data and changes nothing |
| Live.LiveAgrees | pkg/vespyr/strategy.go:165-351 | for every history, untraded candles included: from the first complete set on, a live tick at a traded candle does exactly what the backtest's does there with the same model and answers; the one exception, S1 buying at that first set, is characterised exactly |
| Live.LiveRepeats | pkg/vespyr/strategy.go:127-148 | for every history: a live tick at an untraded candle is the backtest's tick at the last traded one with the same model and answers, except that S1 takes the last set for the one before, too |
| Live.RepeatedDecisions | pkg/vespyr/s1_strategy.go:52-117 | handed its last set twice, S1 sells as before, and buys differently exactly when it would enter and the last set and the one before differ about re-entering |
| Windows.WindowDema | pkg/vespyr/bot.go:99-111 | for every history and window: the difference of averages from the window is within an error, known beforehand, of that from the whole history |
| Windows.WindowRsi | pkg/vespyr/bot.go:99-111 | for every period, history and window: the index from the window, times the movement, is within 100 times the averages' gap of that from the whole history, and the same when nothing moves |
| Windows.RsiGapBound | pkg/vespyr/rsi.go:88-103 | for periods up to 14 that gap is at most ((p-1)/14)^(n-p-1) times the price range |
| Windows.WindowDecides | pkg/vespyr/bot.go:99-117 | for every strategy, history and window with enough traded candles: where every value that the decision compares is farther from its threshold than the window can move it, the trader seeded from the window ticks exactly as the backtest of the whole history does there |
| Live.SteadyPanics | pkg/vespyr/s1_strategy.go:60-66 | after 15 candles at one price, a live S1 strategy that tries to buy dereferences a missing value |
| LiveBacktest.LiveIsBacktest | pkg/vespyr/backtesting.go:203-256 | for every strategy and every history, untraded candles included, with enough of it before the start: until a sell falls below the minimum budget, a live strategy that is seeded with all candles so far and meets the simulated fills records exactly the orders of the backtest and ends with its model |
| LiveBacktest.WindowedIsBacktest | pkg/vespyr/bot.go:76-119 | for every strategy, history and choice of windows: where each tick of the backtest decides by more than its window can move the values, a live strategy seeded anew from its window at every tick records exactly the orders of the backtest and ends with its model |
| Backtesting.OrderConserves | pkg/vespyr/backtesting.go:112-136 | an order's cost is what it brings in plus its fees, at the price it was filled at, and the fees are a quarter percent of what was paid or brought in |
| Backtesting.SlippageIsEven | pkg/vespyr/backtesting.go:104-108 | as the draw goes from 0 to 1 the fill price goes evenly from the close to the whole slippage below it |
| Backtesting.BacktesterExchange.NextTick | pkg/vespyr/backtesting.go:80-82 | the exchange moves on by one candle |
| Backtesting.ResultCalculator.Next | pkg/vespyr/backtesting.go:462-465 | the row that was begun and recorded into is appended and the order cleared |
| Backtesting.RunTick | pkg/vespyr/backtesting.go:229-251 | one iteration keeps the trader's tick, the exchange's candle and the loop index equal, and does to model, orders and rows what the step function says |
| Backtesting.RunBacktest | pkg/vespyr/backtesting.go:203-256 | the loop over all sets is the fold of that step over the complete sets of the history |
| Backtesting.BacktestIndexSafe | pkg/vespyr/backtesting.go:229-251 | for every history and strategy: no tick of a backtest lacks data or panics, so the skipping branch is unreachable and row i is the i-th complete set's, which bears its candle's start |
| Backtesting.TickIgnoresFuture | pkg/vespyr/backtesting.go:224-243 | handed all sets or only those up to k, a tick before k does the same |
| Backtesting.BacktestIsCausal | pkg/vespyr/backtesting.go:203-256 | backtesting a prefix of the candles gives a prefix of the rows of the full run: orders, budgets and amounts |
| Results.ComputeResults | pkg/vespyr/backtesting.go:310-360 | the pass computes the gross sums, the counts, the final budget, the close of the first buy, the close of the last sell, and the portfolio value at the first row of every new day |
| Results.ProfitsCounted | pkg/vespyr/backtesting.go:337-347 | the profitable trades counted are the sells that brought in no less than the budget before them |
| Results.ValuePerDay | pkg/vespyr/backtesting.go:323-335 | there is one portfolio value for each row that begins a new day of the week after the start; it is that row's, and comes after those of the rows before |
| Results.FinalBudgetIff | pkg/vespyr/backtesting.go:353-356 | the reported final budget is the budget after the last sell, or the initial one, exactly when there was a sell or the initial budget is 0 |
| Results.UnsoldBudget | pkg/vespyr/backtesting.go:310-318 | a backtest of one traded candle, with one row and no order: the budget is 100 and the reported final budget 0 |
| Results.PortfolioIsLiquidation | pkg/vespyr/backtesting.go:324-328 | for every backtest the portfolio value of a row is its budget plus what selling its holding at the row's close would bring in after fees |
| Results.SumsTelescope | pkg/vespyr/backtesting.go:275-277 | over any rows with non-negative fills: both gross sums are non-negative, and net profit exceeds the change in budget by at least 0 and less than one unit per sell |
| Results.TradeConsistent | pkg/vespyr/backtesting.go:112-136 | every backtest trade keeps the model sound, spends the whole holding, and leaves the cut fill in the other currency and nothing in this one |
| Results.SimulationTracks | pkg/vespyr/backtesting.go:353-356 | whenever a run with sells is out of a trade, the budget after the rows' last sell is the model's |
| Results.ResultsTelescope | pkg/vespyr/backtesting.go:275-357 | for every backtest whose traded candles have a close, untraded ones included, and the results computed from it: the reported net profit minus the change in budget is in [0, n * 10^-8) for n sells, and the reported final budget is the model's when it sold and is out of a trade |
| Compounding.HoldingCompounds | pkg/vespyr/backtesting.go:112-136 | without slippage, at every point of every run the holding is at most the start times the product of the orders' factors, and short of it by at most the units cut off, carried through later orders |
| Compounding.BudgetCompounds | pkg/vespyr/strategy.go:235-297 | out of a trade, the budget is at most B0 times the product over its round trips of (1 - fee)^2 * sold / bought, and short of it by at most the carried cut-offs |
| Compounding.PoorTripLoses | pkg/vespyr/backtesting.go:112-136 | a round trip that sells no higher than it bought strictly shrinks a positive budget |
| Compounding.BacktestIsChain | pkg/vespyr/strategy.go:224-301 | for every backtest, with any slippage: its orders form one chain, and the model holds what the last one brought in |
| Compounding.EachPoorTripLoses | pkg/vespyr/backtesting.go:112-136 | for every backtest without slippage: each of its round trips that bought with a positive budget and sold at a close no higher strictly loses, and the next order has less to spend |
| Compounding.EachFlatTripLoses | pkg/vespyr/backtesting.go:112-136 | at a constant price, each round trip of every backtest strictly loses |
| Compounding.FlatMarketDecays | pkg/vespyr/backtesting.go:112-136 | at a constant price every backtest's budget shrinks to 0.99500625 of what it was, or less, per round trip |
| MarketLaws.BacktestUnitFree | pkg/vespyr/backtesting.go:229-251 | for every strategy, scaling all prices by one positive factor leaves the rows that trade and their sides unchanged |
| MarketLaws.PriceRolesDoNotMatter | pkg/vespyr/models.go:30-41 | for every strategy: exchanging the four prices of any candles among each other changes no indicator value, and a backtest trades at the same rows on the same sides |
| MarketLaws.DecisionsMirror | pkg/vespyr/rsi_strategy.go:41-71 | on mirrored sets, the RSI strategy with mirrored and exchanged thresholds sells exactly where the original buys and buys where it sells |
| MarketLaws.RsiTradesMirror | pkg/vespyr/backtesting.go:229-251 | on every history mirrored around any level, the backtest of the RSI strategy with mirrored and exchanged thresholds, started on the opposite side, trades at the same rows on the opposite side each time |
| Scheduling.Bot.constructor | pkg/vespyr/bot.go:27-37 | a new bot has seen no candlestick |
| Scheduling.Bot.ProcessStrategy | pkg/vespyr/bot.go:146-199 | a stored closing save schedules the end of the bucket, a lack of data deactivates; a deactivation stored inside the tick stays when the closing save or the tick fails |
| Scheduling.Bot.ProcessTick | pkg/vespyr/bot.go:121-144 | exactly the due strategies are processed, in order, up to the first error |
| Scheduling.Bot.ProcessTickForNewCandlestick | pkg/vespyr/bot.go:60-74 | an unchanged candlestick is not processed again; after an error the same one is processed again |
| Scheduling.LaterBucket | pkg/vespyr/bot.go:190-192 | a time has reached the tick scheduled after s exactly when it is in a later bucket than s |
| Scheduling.AtMostOncePerBucket | pkg/vespyr/bot.go:121-199 | over every sequence of checks, with any failures and retries: no strategy completes two ticks, their schedule stored, in one bucket of its tick size |
| Scheduling.LoggedIff | pkg/vespyr/bot.go:121-144 | the bot processes a strategy at a check exactly when the check gets to it, no strategy before it failing, and its row is due at that moment |
| Scheduling.ProcessedAgainIff | pkg/vespyr/bot.go:131-141 | over every sequence of checks in order of time: a later check in the same bucket that gets to a strategy processes it again exactly when every turn it had since left it due, storing neither schedule nor deactivation |
| Scheduling.CheckFailsIff | pkg/vespyr/bot.go:131-196 | a check fails exactly when a strategy that it processes does, by a failing tick or a closing save that reports an error, and processes none after that |
| Scheduling.CandlestickOnce | pkg/vespyr/bot.go:60-74 | a check that finds the candlestick that the check before has processed gets to no strategy; one that finds the candlestick that the check before missed, could not start on or failed on starts with the first strategy |
| Scheduling.LastTickIsLast | pkg/vespyr/bot.go:190-196 | over every sequence of checks: the last tick stored in a row is the time of the strategy's last completed tick, and as it was while there is none |
| Scheduling.TradesTwiceIff | pkg/vespyr/bot.go:164-196 | a strategy trades at two checks of one bucket exactly when the second gets to it and finds it willing, and every turn from the first trade on left it due |
| LiveBot.RunRefines | pkg/vespyr/bot.go:76-199 | for every run of the bot with its strategies: its rows are the scheduler's, run over outcomes that the seeded traders compute, and what happens to each strategy's model and ledger is a run of its ticks |
| LiveBot.RunAgrees | pkg/vespyr/bot.go:127-130 | the scheduler and the trader agree at every moment on whether a strategy is deactivated |
| LiveBot.TradeOutcome | pkg/vespyr/strategy.go:214-351 | for every strategy, model and answers: a tick trades exactly when the exchange fills its order, recorded or not, and a trade leaves its strategy due exactly when its ledger entry or its save reports an error or the write that ends the tick does not reach the database |
| LiveBot.TradesAgainIff | pkg/vespyr/bot.go:131-196 | for every run of the bot: after a filled order, recorded or not, the next check in its bucket that gets to the strategy runs it again exactly when the tick lost its schedule, and an order is filled again exactly when the model then decides to and the exchange fills it |
| LiveBot.BotLedgerIsChain | pkg/vespyr/bot.go:121-199 | for every run of the bot, whatever else fails: when no failed ledger entry of a strategy reaches the database and every save after an order does, its ledger is one chain |
| LiveBot.BuysAndSells | pkg/vespyr/bot.go:190-196 | an RSI strategy, two candles at one price and a closing save that fails: the bot buys and, at its next try in the same bucket, sells |
| LiveBot.BuysUnrecorded | pkg/vespyr/order_strategies.go:71-94 | the same strategy with ledger entries that fail: the exchange fills a buy of the whole budget at both tries in one bucket, and nothing of either is stored |
| Scheduling.TicksAtFirstOfBucket | pkg/vespyr/bot.go:121-199 | without errors and until it is deactivated, a strategy completes its tick at a check exactly when that is the first check in its bucket from its initial next tick on |

## Left out

- Floating point: rounding, infinities and the conversion of an overflowing product to an integer in `TruncateFloat`; amounts are `real`.
- The whole-second rounding of float `Seconds()` near a bucket's boundary; times are integers.
- Messages from before the base time.
- Zero prices: a price of zero means "not set yet" to the builder and to the averages, so the laws about them ask for positive prices.
- Zero denominators that positive prices rule out get an arbitrary value in `RelativeDifference`, `RsiFromRs`, `Filled` and `Factor`.
- What the exchange does with an order that it answers with an error is not part of the model.
- An upsert leaves the end time of a row that is there already; rows of one start and product end at one time here.
- Ema.EMAIndicator.AddCandlestick: a period of 0, whose `period - 1` wraps around, is an average that never starts.
- Reprojection.ReprojectCandlesticks: the sort of the bucket list, which is allocated in ascending order already, is left out.
- Scheduling.Bot.ProcessStrategy: the seeding and the tick are one outcome here; `LiveBot` computes it, for whatever candles the queries return.
- A panic of a strategy ends the process; the model goes on with the next check as after a failure.
- Sharpe ratio, profit factor, expected payoff and the CSV output of a backtest.
- HistoricalImport.EveryImportRun: the waiting time between retries; the channel is the order in which batches are handed out.
- Indicators inside the backtester and the live trader are values in a sequence or a map; what the model keeps of their sharing is that one name is one indicator.
- Currencies, identifiers and messages to the notifier do not take part in decisions and are dropped from orders and models.
- Candlestick streams of exchanges that emit whole candles, and `ValidateCandlesticks`.
- MACD indicators, strategy optimisation, exchange clients, the caching backend, migrations, configuration and the command line.
