# Trading-signal service: verified model

A Dafny model of the workers of a trading-signal service: a background backtest task, a signal calculator that runs
every strategy on every pair and timeframe, a Redis lock around the signal refresh, free trials with an IP limit, an
upsert of performance metrics, and the folds that turn signals into trades and trades into metrics. Arithmetic is exact,
time is explicit, and the Postgres tables and Redis keys are values that each operation reads and replaces.

`dafny verify dfyconfig.toml` checks the whole project.

| files | what they model |
|---|---|
| Common, Arith, Statistics | options, directions, rounding; product and quotient facts; sums and sample variance |
| Columns | strategies as straight-line programs of in-place column assignments on a shared frame |
| Strategies, Bars | the shape the strategies share, how a chain's flags come about, single-assignment indicators |
| TurtleTrading, Nr7Breakout, IchimokuTrend | three strategies, and what their signals mean on the bars |
| SignalRows | the direction rule, the confidence score, the edge-triggered extraction of a history |
| Trades | buy/sell pairing, compounding, one-pass drawdown, profit factor, Sharpe, win rate |
| SignalStore, Calculator, SignalRuns | the signals table and the cached list, the calculator with its frame cache and savepoints, whole runs |
| MetricsValidator, PairMetrics, LiveMetrics | value ranges, the timestamp-guarded upsert, the live estimates |
| Trials, RefreshLock, Backtests | three step machines: trial creation, the refresh lock and failure counter, the backtest task |

## Main results

- **Aliasing is harmless.** All strategies write into one cached frame per pair and timeframe, and a strategy that raises
  midway leaves what it wrote. Still a run does to the table and to Redis what running every combination on a frame of
  its own would do (`Calculator.SignalCalculator.ComputeAllSignals`), for strategies that read only bars and what they
  wrote themselves, write no bar column and set all four signal columns. The three modelled strategies do, whatever their
  parameters. A strategy that leaves one of the four to others is safe only as far as it never says hold: wherever
  it does on a frame of its own, it says buy or sell after a strategy that set that column
  (`Strategies.StaleColumnLeaks`).
- **Live equals history.** The last row on the first i + 1 bars is row i of the full history (`Columns.LiveEqualsHistory`),
  so a live signal has the direction the history extraction gives it (`SignalRuns.LiveSignalIsHistory`).
- **The cache agrees with the table** until the TTL of the write is over (`SignalRuns.CacheAgreesWithTable`); after a
  run that raises, readers get its signals while the table keeps the old rows (`SignalRuns.RaisedRunSplitsStores`).
- **Entries that decide nothing.** With its exit channel no longer than the entry channels, Turtle's direction is decided
  by the exit channel alone; Ichimoku's is decided by its exits alone, so that neither the cloud nor the displacement
  has a say.
- **One pass finds the real drawdown; the edge trigger preserves trades; the two pairing loops agree exactly when every
  entry price is positive.** The pairing is the greedy one (`Trades.PairingIsGreedy`), compounding its returns gives the
  ratio of exit to entry prices (`Trades.EquityIsPriceRatio`), and the Sharpe ratio does not depend on the unit of the
  returns (`Trades.SharpeIgnoresScale`).
- **Every cache entry expires an hour after its last write.** Over whole runs, from then on the database answers, and
  before it the cache does, with the time of that write (`SignalRuns.ReadersFollowLastWrite`).
- **The backtest subprocess starts at most once per strategy and date, and publication is atomic**, under any
  interleaving of deliveries, admin submissions, crashes and handler failures; a committed status only moves PENDING to
  RUNNING to DONE or FAILED, or is born FAILED in exactly one case (`Backtests.BornFailedIff`).
- **When a failure undoes everything.** Every result, every result_json and every change of a strategy's columns belongs
  to a DONE task if and only if no error outside the database strikes between the corresponding write and its commit
  (`Backtests.ResultsBelongToDoneIff`, `JsonBelongsToDoneIff`, `ColumnsChangeWithDoneIff`); such errors are reached
  (`Backtests.LeakReached`).
- **Failures are recorded.** A row stays RUNNING with nobody at work on it if and only if its worker died or could not
  commit FAILED (`Backtests.StuckIffAbandoned`).
- **The refresh lock excludes** as long as no worker outstays its lock. Exactly: at every point of a run, whoever tries
  next, at most one worker is within its TTL if and only if no DELETE takes the lock from another worker that is
  (`RefreshLock.ExclusionIffNoRobbery`).
- **The trial limit, on records actually stored.** In every run, a stretch of time shorter than a window holds at most
  `IP_MAX - 1 + n` creations for an IP, with n the most calls that are ever at once between check and INCR, plus those
  whose calls died before their INCR (`Trials.WindowHoldsFew`). That among any six consecutive creations two neighbours
  are a window apart needs more: that the counter keeps up with the streak of creations (`Trials.RollingLimit`), as it
  does when no call is held up or dies between SET and INCR. That is also the exact condition: where calls come one at a
  time, the rule survives every prompt continuation if and only if the counter has kept up (`Trials.NeighbourRuleIff`).
  `Trials.UncountedCreations` and `Trials.HoldUpsBreakNeighbours` show a crash and a hold-up breaking it.
- **A call that lost its SET NX answers with a stored record** exactly when the key is still there at its second read
  (`Trials.RereadAnswersIff`).
- **Replaying earlier metric writes changes nothing**, the two branches of the upsert write the same row, and the arrival
  order of writes is irrelevant exactly when none of them brings something new under a null of the newest
  (`PairMetrics.OrderIrrelevantIff`).
- **Live metrics always pass the validator**, the Sharpe ratio through an integer gap in n Σk² − (Σk)².

## Where the code and its documentation differ

The model follows the code.

- The BACKTEST and LIVE branches of the upsert are said to treat null fields differently (pair_metrics_service.py:60-61,
  143-144); they compute the same row.
- `_compute_max_drawdown` is documented as normalised to [0, 1] (signal_tasks.py:318). It is so exactly
  when sells never outnumber buys, except by one while buys have not yet outnumbered sells.
- The calculator's confidence is said to match the fetcher's (signal_calculator.py:325); it leaves out the volume and
  volatility points, and `SignalRuns.LiveSignalIsHistory` says when that makes a difference.
- A task status is said to move only PENDING to RUNNING to DONE or FAILED (models/backtest.py:32). A row can also be born
  FAILED, for a strategy that is not in the registry.
- A failure of the backtest task is said to roll everything back (backtest_tasks.py:361-362). The generic handler commits
  FAILED without a rollback: after an error outside the database, such as a signal without a direction (393), the result,
  the result_json and the strategy's columns are published with it. After a database error the session refuses every
  commit, and nothing is written, FAILED included.
- The refresh lock is deleted without an owner token.
- Creations beyond IP_MAX in 24 hours are said to be refused, with None (trial_service.py:38). The limit counts INCRs, so
  it does not see a record whose call died before its INCR; and a refusal is an error object.
- `init_trial` falls through to the IP counter when its SET NX fails and the record is gone at the second read; the answer
  is then a record that was never stored.
- With fewer than five rows the live metrics are all null, and the upsert still stamps the stored row as LIVE.

## Model

| member | source | states |
|---|---|---|
| Strategies.CellOfDo | src/freqtrade_bridge/strategies/turtle_trading.py:57-86 | after an assignment a cell of a named column has the value of the right-hand side at its row, or the given value where the mask holds; every other cell keeps its value |
| Strategies.DoKeepsOthers | src/freqtrade_bridge/strategies/turtle_trading.py:57-86 | a column the assignment does not name is as it was, present or absent |
| Columns.Frame.RunProgram | src/freqtrade_bridge/signal_calculator.py:283-290 | the populate methods run in place; when a statement raises, the frame keeps exactly what was assigned before it |
| Columns.Frame.RunOnCopy | src/freqtrade_bridge/seeds/seed_signals.py:66-75 | the seeding variant computes the same columns on a fresh copy and leaves the given frame as it was |
| Columns.AtLocal | src/freqtrade_bridge/strategies/nr7_breakout.py:49-62 | rolling, shift, where, ffill and comparison at row i depend only on the first i + 1 rows of the columns they read |
| Columns.ExecAgrees | src/freqtrade_bridge/signal_calculator.py:247-290 | two runs of a well-scoped program from frames that agree on the bars agree on every column it wrote |
| Columns.ExecKeepsBase | src/freqtrade_bridge/signal_calculator.py:247-290 | however far a strategy gets before it raises, the bars are as they were |
| Columns.ExecOfTake | src/freqtrade_bridge/signal_calculator.py:286-290 | running a strategy on the first k bars gives the first k rows of running it on all of them |
| Columns.LiveEqualsHistory | src/freqtrade_bridge/seeds/seed_signals.py:91-111 | for every history, every program and every i, the last row on the first i + 1 bars has the direction, and every other extracted field, of row i of the full history |
| Strategies.EntryFlags | src/freqtrade_bridge/strategies/turtle_trading.py:69-87 | after the entry method a flag is set exactly where its own condition holds and the other side's does not |
| Strategies.ExitFlags | src/freqtrade_bridge/strategies/turtle_trading.py:89-99 | after the exit method each exit flag is set exactly where its condition holds |
| Strategies.ChainFlags | src/freqtrade_bridge/signal_calculator.py:286-318 | the direction of a row in terms of the four conditions on the frame with the finished indicators |
| Strategies.DefiningEquation | src/freqtrade_bridge/strategies/nr7_breakout.py:49-62 | although columns are assigned one after the other, in the finished frame each indicator column equals its own right-hand side |
| Strategies.ChainScoped | src/freqtrade_bridge/signal_calculator.py:286-290 | a chain on single-assignment indicators reads only bars and its own columns, and writes all four signal columns |
| Strategies.StaleColumnLeaks | src/freqtrade_bridge/signal_calculator.py:311-323 | every strategy that does not write one of the four signal columns says buy or sell, where it says hold on a frame of its own, on a frame on which that column is set |
| TurtleTrading.ChannelIsAbove | src/freqtrade_bridge/strategies/turtle_trading.py:57-63 | the close exceeds rolling(w).max().shift(1) exactly when it exceeds each of the w highs before |
| TurtleTrading.ChannelIsBelow | src/freqtrade_bridge/strategies/turtle_trading.py:57-63 | the close is under rolling(w).min().shift(1) exactly when it is under each of the w lows before |
| TurtleTrading.NeverBothBreaks | src/freqtrade_bridge/strategies/turtle_trading.py:74-86 | with low at most high, no bar breaks one channel upwards and another downwards, whatever the lookbacks |
| TurtleTrading.FastAloneDecides | src/freqtrade_bridge/strategies/turtle_trading.py:74-79 | for fast at most slow, the double breakout is the fast breakout, on both sides |
| TurtleTrading.TurtleDirection | src/freqtrade_bridge/strategies/turtle_trading.py:49-99 | the direction of every bar in terms of the bars before it; the conflict reset is never needed |
| TurtleTrading.ExitChannelDecides | src/freqtrade_bridge/strategies/turtle_trading.py:30-32 | with the exit channel no longer than the entry channels, as in the defaults, it alone decides the direction |
| TurtleTrading.TurtleScoped | src/freqtrade_bridge/strategies/turtle_trading.py:49-99 | Turtle reads only bars and its own columns, writes no bar, and sets all four signal columns |
| Bars.VolumeMeanOfTwenty | src/freqtrade_bridge/strategies/turtle_trading.py:66 | volume_mean is there exactly when the last twenty rows exist and have a volume, and twenty times it is their sum |
| Nr7Breakout.NarrowColumn | src/freqtrade_bridge/strategies/nr7_breakout.py:49-51 | is_nr is 1 exactly on bars whose range is at most each of the last n ranges |
| Nr7Breakout.TriggerColumns | src/freqtrade_bridge/strategies/nr7_breakout.py:53-59 | the triggers are the high and low of the newest narrow bar before the row, and missing when there is none |
| Nr7Breakout.NeverBothBreaks | src/freqtrade_bridge/strategies/nr7_breakout.py:80-81 | no bar closes both above and below the newest narrow bar |
| Nr7Breakout.Nr7Direction | src/freqtrade_bridge/strategies/nr7_breakout.py:47-91 | a traded bar is a buy above the newest narrow bar before it, a sell below it, and a hold otherwise |
| Nr7Breakout.Nr7Scoped | src/freqtrade_bridge/strategies/nr7_breakout.py:47-91 | NR7 reads only bars and its own columns, writes no bar, and sets all four signal columns |
| IchimokuTrend.MidpointOfWindow | src/freqtrade_bridge/strategies/ichimoku_trend.py:59-63 | a midpoint is there exactly when its whole window is, and lies halfway between the window's highest high and lowest low |
| IchimokuTrend.EntryExcludesItsExit | src/freqtrade_bridge/strategies/ichimoku_trend.py:80-113 | an entry is never an exit of its own side and always one of the other |
| IchimokuTrend.IchimokuDirection | src/freqtrade_bridge/strategies/ichimoku_trend.py:50-114 | the direction is decided by the two exits alone; cloud and displacement have no say, and no conflict arises |
| IchimokuTrend.IchimokuScoped | src/freqtrade_bridge/strategies/ichimoku_trend.py:50-114 | Ichimoku reads only bars and its own columns, writes no bar, and sets all four signal columns |
| SignalRows.Confidence | src/freqtrade_bridge/signal_fetcher.py:181-205 | the score is a whole number of twentieths, 0 exactly for hold and else between 1/2 and 9/10: the cap never bites |
| SignalRows.RowDirection | src/freqtrade_bridge/seeds/seed_signals.py:97-106 | buy exactly for a long entry, or a short exit with neither a short entry nor a long exit; sell exactly for a short entry or long exit without a long entry |
| SignalRows.ConfidenceTerms | src/freqtrade_bridge/signal_fetcher.py:181-205 | over the base, 4 twentieths for a volume over 1.5 times its mean or 2 over the mean, 2 for an entry, 2 for an ATR under 2% of the close or 1 under 4%, for any prices |
| SignalRows.ExtractAllSignals | src/freqtrade_bridge/seeds/seed_signals.py:88-151 | the rows that become signals, in order, are exactly those that have a direction which the row before does not have; each signal carries its row's time, direction, confidence and rounded close |
| SignalRows.OneMoreRow | src/freqtrade_bridge/seeds/seed_signals.py:97-111 | a row that repeats the direction of the row before adds no signal; the same direction after a row without one adds one |
| SignalRows.ExtractionOrdered | src/freqtrade_bridge/seeds/seed_signals.py:91-111 | the extraction of a time-ordered history is time-ordered |
| Trades.SortIsStable | src/freqtrade_bridge/seeds/seed_all.py:62 | sorting by time orders the signals and keeps those of one time in their order |
| Trades.PairingIsGreedy | src/freqtrade_bridge/seeds/seed_all.py:64-77 | each trade is the first buy after the exit before and the first sell after that buy; what stays open is the first buy after the last exit |
| Trades.EdgeTriggerPreservesTrades | src/freqtrade_bridge/seeds/seed_all.py:61-77 | pairing the edge-triggered signals gives exactly the trades, and the open position, of pairing one signal per signalling row |
| Trades.CollectReturns | src/freqtrade_bridge/seeds/seed_all.py:64-77 | the loop's returns are those of the completed pairs with a positive entry price |
| Trades.ReturnsOfTrades | src/freqtrade_bridge/seeds/seed_all.py:72-76 | one return for each trade with a positive entry price, in order, and entry times (1 + return) is the exit |
| Trades.EquityIsPriceRatio | src/freqtrade_bridge/seeds/seed_all.py:95-98 | with positive entries the compounded equity times the product of the entry prices is the product of the exit prices |
| Trades.FoldReturns | src/freqtrade_bridge/seeds/seed_all.py:89-111 | the loop's four results are those of the walk over the equity curve |
| Trades.ComputePairMetrics | src/freqtrade_bridge/seeds/seed_all.py:42-133 | the metrics are 0, 1, 0, 0, 0 without a recorded trade; otherwise the rounded end of the equity curve, its real drawdown, gains over losses (10 without losses, capped at 9999) and a Sharpe ratio of the size SharpeMagnitude gives, capped at 9999 both ways |
| Trades.SolventIffExitsNonNegative | src/freqtrade_bridge/seeds/seed_all.py:71-76 | no return falls below -1 exactly when no recorded exit price is negative |
| Trades.OnePassIsWorstRun | src/freqtrade_bridge/seeds/seed_all.py:89-111 | the loop's drawdown is 1 minus the least product of (1 + pnl) over a contiguous, possibly empty run of trades, and lies in [0, 1] |
| Trades.OnePassIsRealDrawdown | src/freqtrade_bridge/seeds/seed_all.py:89-113 | it is the maximum relative fall between two points of the equity curve, is 1 exactly when some trade loses everything, and the unrounded total return is at least its negative |
| Trades.PairDrawdownIsReal | src/freqtrade_bridge/seeds/seed_all.py:107-130 | the reported drawdown and total return are those of the equity curve, rounded, for any signals with non-negative prices; with positive prices the drawdown is below 1 |
| Trades.GrossSplit | src/freqtrade_bridge/seeds/seed_all.py:102-105 | gross profit minus gross loss is the sum of the returns, their sum is the sum of the magnitudes, and neither is negative |
| Trades.SharpeSign | src/freqtrade_bridge/seeds/seed_all.py:119-125 | the Sharpe ratio has the sign of the sum of the returns, also when the variance is 0 |
| Trades.SharpeMagnitude | src/freqtrade_bridge/seeds/seed_all.py:119-125 | for returns that vary the squared ratio times the variance is the squared mean times min(n, 252); for returns that do not, a thousandth of it is the mean times the root of min(n, 252); below two returns it is 0 |
| Trades.SharpeIgnoresScale | src/freqtrade_bridge/seeds/seed_all.py:119-123 | multiplying all returns by a positive factor leaves it unchanged when they vary |
| Trades.ProfitFactorAgreesWithSharpe | src/freqtrade_bridge/seeds/seed_all.py:115-131 | for two or more trades the capped profit factor exceeds 1 exactly when the capped Sharpe ratio is positive |
| Common.RoundIsNearest | src/freqtrade_bridge/seeds/seed_all.py:127-133 | rounding gives the nearest multiple of the unit, the even one of two |
| Trades.CountTrades | src/freqtrade_bridge/seeds/seed_all.py:157-167 | the second pairing loop counts the completed pairs, and as wins those that close higher |
| Trades.SumWeightedSharpe | src/freqtrade_bridge/seeds/seed_all.py:148-151 | the loop's sum of Sharpe ratios weighted by trade count |
| Trades.MeanSharpeIsWeighted | src/freqtrade_bridge/seeds/seed_all.py:146-151 | the aggregated ratio times the number of trades is the sum of the ratios weighted by trade counts, so it lies between the least and the greatest; 0 without trades |
| Trades.WinRateIsShare | src/freqtrade_bridge/seeds/seed_all.py:153-169 | the win rate times the number of completed trades is the number of positions that closed higher |
| Trades.AllTradesSplit | src/freqtrade_bridge/seeds/seed_all.py:156-167 | the completed trades are those of each pair, one pair after the other |
| Trades.ComputeStrategyAggregate | src/freqtrade_bridge/seeds/seed_all.py:136-176 | the four aggregates, all zero without pairs; the win rate lies in [0, 1] |
| Trades.RecordedIffPositive | src/freqtrade_bridge/seeds/seed_all.py:72-77 | every completed trade is recorded exactly when every entry price is positive, and then wins are the positive returns |
| Trades.TwoFoldsAgree | src/freqtrade_bridge/seeds/seed_all.py:144-169 | over all pairs the second loop counts what the first recorded exactly when every entry price is positive, and then its wins are the trades with positive return |
| SignalStore.UpsertIsMapUpdate | src/freqtrade_bridge/signal_calculator.py:383-399 | the upsert gives its key the new row, leaves every other key its row, and keeps realtime keys unique |
| SignalStore.UpsertKeepsBacktests | migrations/versions/008_partial_unique_trading_signals_realtime.py:34-40 | backtest rows are neither matched by the partial index nor touched |
| SignalStore.FindOrAppend | src/freqtrade_bridge/signal_calculator.py:441-468 | the loop replaces the first entry of the pair and timeframe, or appends |
| SignalStore.PutIsMapUpdate | src/freqtrade_bridge/signal_calculator.py:441-468 | find-or-append is a map update that leaves every other entry in place and keeps keys unique |
| SignalStore.ListSignals | src/services/signal_service.py:157-205 | an unknown strategy is an error; the cache answers exactly when Redis works and an unexpired list is there whose entries and time of update all parse, with the entries that match both filters, their number, the requested page and the time of the last update; otherwise the database does |
| SignalStore.MatchingKeepsOrder | src/services/signal_service.py:180-183 | the filters keep exactly the entries that fit both, in their order |
| SignalStore.PagesCover | src/services/signal_service.py:185-187 | read one after the other, the pages give the matching entries in order, none twice and none left out |
| SignalStore.MatchingIsGet | src/services/signal_service.py:180-183 | with unique keys, filtering by pair and timeframe finds the entry and nothing else |
| Calculator.SignalCalculator.LoadOhlcv | src/freqtrade_bridge/signal_calculator.py:247-265 | a cached key is a hit and answers the same frame object; any other is a miss, and only a non-empty result is cached |
| Calculator.SignalCalculator.RunStrategyOnDf | src/freqtrade_bridge/signal_calculator.py:283-290 | the strategy overwrites the frame it is given; the bars survive even when it raises, or has no class |
| Calculator.SignalCalculator.UpdateRedisCache | src/freqtrade_bridge/signal_calculator.py:426-486 | an absent, expired or unparsable value becomes a list of one entry, in a list the entry of the pair and timeframe is replaced or appended and all others stay; what is written carries the clock and expires 3600 seconds later; anything else and any error leaves Redis as it was, as are all other ids |
| Calculator.SignalCalculator.SignalOnSharedFrame | src/freqtrade_bridge/signal_calculator.py:174-180 | on the shared, overwritten frame a combination yields the signal it yields on a freshly loaded one |
| Calculator.SignalCalculator.ComputeCombination | src/freqtrade_bridge/signal_calculator.py:171-209 | a combination succeeds exactly when its data loads non-empty, its strategy completes, and statement and savepoint work; then it upserts its row and updates the cache; a failing one leaves session and cache as at its savepoint |
| Calculator.SignalCalculator.Turn | src/freqtrade_bridge/signal_calculator.py:171-209 | one turn of the inner loop follows the run on frames of its own; it raises exactly when a savepoint cannot be opened or rolled back |
| Calculator.SignalCalculator.ComputeAllSignals | src/freqtrade_bridge/signal_calculator.py:128-232 | returns exactly when the commit and every savepoint work and every failed combination can be rolled back; then table, cache, counts and failed list are those of running every combination, in loop order, on a frame of its own; otherwise the table is unchanged and the cache holds what was written before |
| Calculator.HitRateIsShare | src/freqtrade_bridge/signal_calculator.py:219-232 | the hit rate times all lookups is the number of hits, and 0 without any |
| Calculator.SharedIsFresh | src/freqtrade_bridge/signal_calculator.py:247-323 | a safe strategy extracts the same signal from a frame others have written to as from a fresh one |
| SignalRuns.CombosExactly | src/freqtrade_bridge/signal_calculator.py:163-169 | the three loops visit every combination of strategy, pair and timeframe and nothing else |
| SignalRuns.CombosInOrder | src/freqtrade_bridge/signal_calculator.py:163-169 | strategy by strategy, within it pair by pair, within it timeframe by timeframe |
| SignalRuns.TotalsAddUp | src/freqtrade_bridge/signal_calculator.py:155-232 | success + failure = total and hits + misses = total |
| SignalRuns.FailedExactly | src/freqtrade_bridge/signal_calculator.py:198-201 | the failed list holds exactly the combinations without an outcome |
| SignalRuns.FailedInOrder | src/freqtrade_bridge/signal_calculator.py:198-201 | it names the failed combinations in the order in which they ran, each as often as it failed |
| SignalRuns.MissesExactly | src/freqtrade_bridge/signal_calculator.py:247-265 | a pair and timeframe that loads is a miss exactly once, one that does not load is a miss every time |
| SignalRuns.OutcomeMeans | src/freqtrade_bridge/signal_calculator.py:305-345 | direction by the four flags of the last row, 0.6 for an entry and 0.5 for an exit, at the date of that row or else now |
| SignalRuns.RunUpserts | src/freqtrade_bridge/signal_calculator.py:183-191 | after a run each key has the row of its last successful combination, or else the row it had; keys stay unique and backtest rows untouched |
| SignalRuns.RunKeepsSound | src/freqtrade_bridge/signal_calculator.py:441-477 | every cached list keeps at most one entry a pair and timeframe, all of them readable |
| SignalRuns.StaysHeld | src/freqtrade_bridge/signal_calculator.py:427-477 | from a combination's cache write to the end of the run nobody removes its entry while its TTL lasts |
| SignalRuns.ExpiresAfterLastWrite | src/freqtrade_bridge/signal_calculator.py:470-477 | over whole runs a strategy's entry expires exactly 3600 seconds after the clock of the last combination that wrote it, and carries that clock as its last update |
| SignalRuns.UnwrittenKeepsEntry | src/freqtrade_bridge/signal_calculator.py:427-477 | a strategy that no combination wrote keeps its entry, or its lack of one |
| SignalRuns.ReadersFollowLastWrite | src/services/signal_service.py:157-205 | after a run, from that expiry on the database answers, and before it the cache does, with the time of the last write |
| SignalRuns.CacheAgreesWithTable | src/services/signal_service.py:164-189 | read by pair and timeframe before the TTL of the last successful write, the cached path gives exactly one signal, with direction, confidence and time of the realtime row |
| SignalRuns.StoppedOnce | src/freqtrade_bridge/signal_calculator.py:171-217 | a run raises at one point only, a combination or the commit |
| SignalRuns.RaisedRunSplitsStores | src/freqtrade_bridge/signal_calculator.py:193-217 | for every run that raises and every key whose last success before that wrote the cache, a reader before the TTL gets that signal while the table holds the old row; they agree exactly when the old row already had its direction, confidence and time |
| SignalRuns.ModelledStrategiesAreSafe | src/freqtrade_bridge/signal_calculator.py:267-290 | Turtle, NR7 and Ichimoku may share frames, whatever their parameters |
| SignalRuns.LiveSignalIsHistory | src/freqtrade_bridge/signal_calculator.py:308-334 | the live signal on the first i + 1 bars has the direction and time of history row i; its confidence is at most the history's, and equal exactly where volume and volatility earn nothing |
| SignalRuns.ConfidencesDiffer | src/freqtrade_bridge/signal_calculator.py:325-334 | a bar on which the live confidence is 0.6 and the history's 0.8 |
| SignalRuns.ComputedIsProduced | src/freqtrade_bridge/signal_calculator.py:325-334 | a computed confidence is 0 for hold and else 10 or 12 twentieths |
| MetricsValidator.ValidateMetrics | src/services/metrics_validator.py:23-83 | passes exactly when every field is absent or in range, and otherwise names the first field that is not |
| MetricsValidator.ValidIffInRange | src/services/metrics_validator.py:17-83 | the four floats are null or between -10000 and 10000 and the count null or not negative |
| PairMetrics.BranchesAgree | src/services/pair_metrics_service.py:166-208 | the BACKTEST and the LIVE branch compute the same row |
| PairMetrics.LiveKeepsStoredMetrics | src/services/pair_metrics_service.py:198-208 | a LIVE write leaves stored metrics alone exactly when it is not newer or brings nothing different |
| PairMetrics.MetricsStore.ExecuteWithRetry | src/services/pair_metrics_service.py:220-287 | the statement takes effect once if one of three attempts works, and not at all otherwise; waits 1 and 2 seconds |
| PairMetrics.MetricsStore.UpsertPairMetrics | src/services/pair_metrics_service.py:84-126 | a rejected write changes nothing, an accepted one merges into its key's row, other keys keep theirs; it raises only when three attempts fail |
| PairMetrics.FoldTimestamp | src/services/pair_metrics_service.py:210-215 | over any writes the stored timestamp is the greatest among the passing ones and the row before |
| PairMetrics.AcceptedIffRecord | src/services/pair_metrics_service.py:210-215 | a write is accepted exactly when it passes and its timestamp exceeds all passing ones before it |
| PairMetrics.FoldIsLatestAccepted | src/services/pair_metrics_service.py:147-217 | each stored field is the latest non-null among the accepted writes |
| PairMetrics.ReplayChangesNothing | src/services/pair_metrics_service.py:210-215 | replaying any earlier writes, in any order and number, changes nothing |
| PairMetrics.CompleteWritesKeepOne | src/services/pair_metrics_service.py:147-217 | after null-free writes the row is one of them, or the row before |
| PairMetrics.ArrivalOrderIrrelevant | src/services/pair_metrics_service.py:147-217 | null-free writes with distinct timestamps give the same row in every arrival order |
| PairMetrics.OrderIrrelevantIff | src/services/pair_metrics_service.py:147-217 | for any stored row and writes with distinct timestamps, all arrival orders give the same row exactly when no passing, newer-than-stored write carries, under a field the newest of them leaves null, a value other than the stored one |
| PairMetrics.TimeOrderAloneMisleads | src/services/pair_metrics_service.py:147-217 | writes that leave the stored values alone in time order may change them in another order |
| PairMetrics.TwoWritesCommuteIff | src/services/pair_metrics_service.py:147-217 | on an empty key two passing writes give the same row in both orders exactly when the newer lacks no field that the older has |
| LiveMetrics.ComputeMaxDrawdown | src/workers/tasks/signal_tasks.py:314-346 | the loop finds the deepest dip below the running peak of the balance of buys and sells, and None where there is none |
| LiveMetrics.DrawdownIsDeepestDip | src/workers/tasks/signal_tasks.py:329-346 | no dip of the balance under its peak so far, relative to that peak or to 1, is deeper, and one is as deep |
| LiveMetrics.DrawdownBounds | src/workers/tasks/signal_tasks.py:329-346 | None exactly without a sell, and otherwise positive and at most the number of sells |
| LiveMetrics.NormalisedIffNeverOversold | src/workers/tasks/signal_tasks.py:314-346 | the dip stays in [0, 1] exactly for sequences whose balance never goes below 0, except to -1 from a peak of 0 |
| LiveMetrics.AllSellsGiveTheirNumber | src/workers/tasks/signal_tasks.py:329-346 | n sells alone give n |
| LiveMetrics.NonHoldKeepsSums | src/workers/tasks/signal_tasks.py:280-290 | leaving the hold rows out changes neither sum, and leaves as many rows as there are buys and sells |
| LiveMetrics.ComputeLiveMetrics | src/workers/tasks/signal_tasks.py:226-311 | all null below five rows; otherwise the return is the sum of the signed scores, the profit factor times the sells' sum is the buys' sum (so above 1 exactly for a positive return, null without positive sells), the drawdown is the deepest dip, the count that of buys and sells, and the squared Sharpe ratio times the variance is the squared mean |
| LiveMetrics.OneMoreRow | src/workers/tasks/signal_tasks.py:278-290 | one more buy raises the return by its confidence, one more sell lowers it by that, a hold or a null confidence leaves it |
| LiveMetrics.ReturnWithoutSells | src/workers/tasks/signal_tasks.py:278-290 | without a sell the return is the sum of the scores that are not hold |
| LiveMetrics.ExtractedIsProduced | src/freqtrade_bridge/seeds/seed_signals.py:131-151 | an extracted signal's confidence is on the producers' grid |
| LiveMetrics.SharpeBounded | src/workers/tasks/signal_tasks.py:292-300 | for at most 200 rows on the grid the Sharpe ratio is between 0 and 3800 |
| LiveMetrics.LiveMetricsAlwaysValid | src/workers/tasks/signal_tasks.py:263-346 | for at most 200 rows of this repository's producers every estimate is null or within the validator's bounds |
| LiveMetrics.TryUpsertLiveMetrics | src/workers/tasks/signal_tasks.py:349-400 | the estimates reach the row of their key; when the fetch, three attempts or the commit fail, nothing changes and nothing is raised; with fewer than five rows an older row keeps its metrics and becomes LIVE |
| Trials.TrialService.InitTrial | src/services/trial_service.py:34-80 | a live trial is returned untouched; with five counted the call is refused; otherwise the record is stored for three days and the IP counter raised and its window of a day restarted |
| Trials.FinishIsRun | src/services/trial_service.py:34-80 | an uninterrupted call is a run of the step machine |
| Trials.CounterInvariant | src/services/trial_service.py:48-76 | over all interleavings the IP counter is the length of the trailing streak of INCRs less than a window apart |
| Trials.CounterBounded | src/services/trial_service.py:48-76 | with at most n calls between check and INCR the counter never exceeds IP_MAX - 1 + n |
| Trials.StreaksBounded | src/services/trial_service.py:72-76 | nor does any streak of INCRs less than a window apart |
| Trials.IncrementsSpread | src/services/trial_service.py:72-76 | among any IP_MAX + n consecutive INCRs two neighbours are a window apart |
| Trials.CounterAlwaysCovers | src/services/trial_service.py:48-76 | until a window from a is over, the counter holds every creation since a that is neither on its way to its INCR nor lost |
| Trials.PromptKeepsTrack | src/services/trial_service.py:61-76 | the counter keeps up with the streak of creations in every run in which no call is held up or dies between SET and INCR |
| Trials.CreationStreaksBounded | src/services/trial_service.py:48-76 | in runs in which it keeps up no streak of creations less than a window apart exceeds IP_MAX - 1 + n |
| Trials.RollingLimit | src/services/trial_service.py:48-76 | in such runs, among any IP_MAX + n consecutive creations (SET NX that took) two neighbours are at least a window apart; six for calls that do not overlap |
| Trials.NeighbourRuleIff | src/services/trial_service.py:48-76 | for calls one at a time, at any point with none on its way: no prompt continuation ever has six creations in a row less than a window apart if and only if there are no six now and the counter holds, and outlives, the open streak |
| Trials.WindowHoldsFew | src/services/trial_service.py:48-76 | in every run a stretch of time shorter than a window holds at most IP_MAX - 1 + n creations (SET NX that took), plus those whose calls died before their INCR |
| Trials.RecordsAreCreations | src/services/trial_service.py:61-62 | every stored record is one of these creations |
| Trials.RecordsWithinLimit | src/services/trial_service.py:48-76 | so the store holds no more records of one IP from such a stretch |
| Trials.UncountedCreations | src/services/trial_service.py:61-76 | for every k there is a run, never two calls at once, that ends with k live records of one IP, all stored at one instant, and no counter |
| Trials.HoldUpsBreakNeighbours | src/services/trial_service.py:61-76 | a run without crashes and never two calls at once, with ten creations each less than a window after the one before |
| Trials.LiveTrialKept | src/services/trial_service.py:61-70 | a live record is never overwritten, and every answer read meanwhile carries its created_at and expires_at |
| Trials.RereadAnswersIff | src/services/trial_service.py:62-80 | whatever happens meanwhile, a call that lost its SET NX answers with the stored record exactly when, by its second read, the key has not expired or another SET NX took that has not; otherwise with its own, which nobody stored |
| Trials.FallThrough | src/services/trial_service.py:62-80 | from every state before a second read, once the key has expired the answer is not stored and the counter goes up for it |
| Trials.FallThroughAnswersUnstoredRecord | src/services/trial_service.py:62-80 | such a state is reachable: a run that ends with an answer nobody stored, counted |
| Trials.RecordExpiresBeforeKey | src/services/trial_service.py:54-62 | a stored record never promises a later end than its key has |
| Trials.ActiveIffASecondLeft | src/services/trial_service.py:83-111 | a trial is active exactly while its record has a full second left |
| Trials.ReportedTrial | src/services/trial_service.py:83-105 | a trial is reported exactly while its key lives, with the stored times and the whole seconds left on its record, rounded down; expired when none is left |
| RefreshLock.LocksStayInPlace | src/workers/tasks/signal_coord_task.py:143-149 | as long as no DELETE takes the lock from a worker within its TTL, the lock of every such worker is in place |
| RefreshLock.TimelyKeepsLocks | src/workers/tasks/signal_coord_task.py:143-149 | it is so if every release comes within _LOCK_TTL |
| RefreshLock.MutualExclusion | src/workers/tasks/signal_coord_task.py:143-149 | if every release comes within _LOCK_TTL, of two workers in the pipeline at least one has outstayed its lock |
| RefreshLock.AtMostOneWorker | src/workers/tasks/signal_coord_task.py:143-149 | if no worker outstays its lock, at most one is in the pipeline |
| RefreshLock.DeleteRemovesOwnLock | src/workers/tasks/signal_coord_task.py:244-253 | under timely releases a DELETE removes the worker's own lock |
| RefreshLock.RobberyBreaksExclusion | src/workers/tasks/signal_coord_task.py:244-253 | after any DELETE that takes the lock from a worker within its TTL, whoever tries next enters beside it |
| RefreshLock.ExclusionIffNoRobbery | src/workers/tasks/signal_coord_task.py:143-149 | at every point of a run, whoever tries next, at most one worker is within its TTL, if and only if there is no such DELETE |
| RefreshLock.LateReleaseBreaksExclusion | src/workers/tasks/signal_coord_task.py:244-253 | such a DELETE is reachable: one late release lets two workers in, both within their TTL |
| RefreshLock.LockFreedWithinTtl | src/workers/tasks/signal_coord_task.py:143 | whatever crashes, a lock is free _LOCK_TTL later unless a newer worker took it |
| RefreshLock.OnlyDeleteFrees | src/workers/tasks/signal_coord_task.py:143-253 | until _LOCK_TTL is over nothing but a DELETE frees a lock, a crash of its worker included, and every attempt in between is skipped |
| RefreshLock.CounterIsTrailingFailures | src/workers/tasks/signal_coord_task.py:209-242 | the counter is the number of failed executions since the last success, and alerts are raised exactly where that is at least 3 |
| RefreshLock.HistoryInAcquisitionOrder | src/workers/tasks/signal_coord_task.py:143-242 | if no worker outstays its lock, executions are counted in the order they began |
| RefreshLock.RefreshTask.GenerateAllSignals | src/workers/tasks/signal_coord_task.py:127-253 | one task: skipped exactly when a lock less than 600 seconds old is held, raises exactly on failure, alerts from the third failure in a row, counter and lock as stated for each outcome, and equal to a run of the machine |
| Backtests.RunsKeepInv | src/workers/tasks/backtest_tasks.py:49-277 | what holds of every committed state and of the worker survives every event |
| Backtests.StartedAtMostOnce | src/workers/tasks/backtest_tasks.py:66-168 | in every run the subprocess starts at most once per strategy and date, and a started key is never PENDING |
| Backtests.PublicationIsAtomic | src/workers/tasks/backtest_tasks.py:172-232 | in every committed state a DONE task has one result with the metrics of its result_json, PENDING and RUNNING tasks have none, none has two |
| Backtests.DoneCommitUpdatesStrategy | src/workers/tasks/backtest_tasks.py:358-378 | the commit that sets DONE leaves the strategy's six columns equal to the result_json |
| Backtests.EventForward | src/models/backtest.py:32-44 | every event keeps each row, its id and its date, moves the status only from PENDING to RUNNING to DONE or FAILED, and keeps results; new rows carry no result |
| Backtests.BornFailedIff | src/workers/tasks/backtest_tasks.py:84-110 | an event gives a key a first row that is FAILED exactly when the worker finds the strategy known but not in the registry |
| Backtests.FinishedWasRunning | src/workers/tasks/backtest_tasks.py:133-136 | a task that was PENDING and is DONE or FAILED has been RUNNING in between |
| Backtests.ResultsBelongToDoneIff | src/workers/tasks/backtest_tasks.py:181-273 | in every run each result belongs to a DONE task if and only if no error outside the database struck between the adding of a result and its commit with a handler that committed |
| Backtests.JsonBelongsToDoneIff | src/workers/tasks/backtest_tasks.py:181-273 | the same for result_json |
| Backtests.ColumnsChangeWithDoneIff | src/workers/tasks/backtest_tasks.py:199-273 | in every run each change of a strategy's six columns is the commit that sets one of its tasks DONE with those values if and only if no such error struck after they were set to new values |
| Backtests.LeakReached | src/workers/tasks/backtest_tasks.py:393-415 | from every initial state and for every registered strategy, an execution whose signals cannot be inserted ends FAILED with its result and result_json published and the columns overwritten |
| Backtests.RunsMoveForward | src/models/backtest.py:32-44 | over whole runs rows stay, and a finished one never changes |
| Backtests.FinishedStaysFinished | src/workers/tasks/backtest_tasks.py:66-129 | a finished task keeps its row, and no delivery starts its subprocess again, also after FAILED |
| Backtests.AbandonedStaysRunning | src/workers/tasks/backtest_tasks.py:66-82 | a task whose worker died while RUNNING stays RUNNING, and its redelivery starts nothing |
| Backtests.StuckIffAbandoned | src/workers/tasks/backtest_tasks.py:140-277 | over runs a row is RUNNING with no worker at it if and only if its worker died or could not commit FAILED |
| Backtests.SubmissionAddsPending | src/services/admin_backtest_service.py:29-90 | a submission gives a registered strategy without a row of the day a PENDING one and changes nothing else; any other changes nothing |
| Backtests.FinishIsRun | src/workers/tasks/backtest_tasks.py:49-277 | an uninterrupted execution is a run of the machine |
| Backtests.HandlePublished | src/workers/tasks/backtest_tasks.py:258-273 | however the generic handler fares, and whatever writes it takes along, the state stays tidy: ids unique, no task with two results, none on PENDING or RUNNING |
| Backtests.BacktestStore.RunBacktestTask | src/workers/tasks/backtest_tasks.py:49-277 | one execution ends where the machine's worker ends; spelled out: it starts the subprocess exactly for a registered strategy whose day has no row or a PENDING one, when RUNNING can be committed and the preparation works; a failed subprocess, preparation or unexpected error leaves FAILED and nothing published if FAILED can be committed, else RUNNING; a success publishes task, result and strategy together; no other row changes |

## Left out

- Floating-point rounding and NaN as a number: arithmetic is exact; a missing cell makes comparisons false and arithmetic missing.
- Square roots and standard deviations are parameters of which only positivity, or the defining square, is used.
- The annual return, stop-loss and take-profit levels, signal strength and indicator snapshots: single formulas.
- TA-Lib indicators are arbitrary functions of the rows so far; the seven strategies built on TA-Lib or qtpylib are not modelled.
- Strategy callbacks during a backtest: custom_stoploss is disabled, custom_exit is one branch.
- Row ids and the columns of trading_signals that the upsert does not mention.
- The database path of list_signals, its order and its paging.
- generate_signals_task as a second writer of `signal:{id}`: it replaces the whole key, and is taken not to run meanwhile.
- Calculator.SignalCalculator.ComputeAllSignals: one clock reading a combination, where the code reads the clock several times.
- Calculator.SignalCalculator.UpdateRedisCache: GET and SET count as one step, so a second writer between them is not modelled.
- Backtests.BacktestStore.RunBacktestTask: the pair-metric upserts and signal inserts of the same transaction are not modelled, nor are commits whose acknowledgement is lost.
- Backtests.StartedAtMostOnce: one backtest worker at a time, and tasks and strategies are not deleted; an admin submission is one step.
- Backtests.EventForward: the model keys rows by strategy and date, which is what the unique constraint allows.
- Trials.ActiveIffASecondLeft: records hold numeric timestamps; the ISO-string format of older records is not modelled.
- PairMetrics.MetricsStore.ExecuteWithRetry: every attempt fails or works as a whole, and the session is usable after a failed one.
- Trades.SortIsStable: the sort is an insertion sort with the result a stable sort has.
- FastAPI routes, authentication, logging, settings, the data downloader and the freqtrade subprocess itself.
- Celery, Postgres and Redis networking beyond commit, savepoint, unique key, SET NX, INCR, EXPIRE and DELETE.
