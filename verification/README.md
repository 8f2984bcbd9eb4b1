# Trading engines and protocols, verified

This project models the parts of a stock-scanner application in which a loop, a state machine or a set of concurrent
steps decides something that no single function shows, and proves what those parts promise. Prices, indicators and
profits are exact reals, dates and times are integers.

- **Top-Bottom** (`TopBottom*.dfy`): an always reversing trailing-stop engine driven by confirmed swings. The source's
  loop over heap trades is proved equal to an online machine, and its signals to be the only ones that obey the rules.
- **GFS and System One** (`Rsi`, `Resample`, `BacktestScan`, `Gfs*`, `SystemOne*`, `Drawdown`): one trade at a time,
  weekly and monthly RSI carried onto daily candles, a staged stop, and the account of every signal.
- **15-minute breakout** (`Breakout*.dfy`): one day as a value, the engine that fills it in, and its symmetry.
- **Worksheet sync** (`SheetSync*.dfy`): rows queued in memory and written in batches, under every interleaving and
  every write fault, before or after it took effect.
- **Scan jobs** (`JobRegistry`, `JobLiveness`, `JobManager`, `ScanJob`, `JobPolling`, `ScanJobHook`): the registry's
  caps and eviction, a job's logs, and a browser that polls them through cursors with several tick loops alive at once.
- **Live data** (`Live*`, `Candles`, `CandleSet`): reference counting across reconnects, and ticks folded into candles.
- **Cup pattern and divergences** (`Swings`, `Divergence`, `Cup*`).

Protocols are worlds with events: an event that is not enabled changes nothing, a run is any sequence of events, and
theorems speak of every run. Code between two awaits is one event. The service classes beside them hold the same state
in fields and keep the history of events as a ghost: each handler is one event of the protocol and promises what the
protocol guarantees.

The `*Rules` files state when a day, a trade, a skip or a status is right in candles, averages and levels alone, without
the functions that compute it, and prove that all results are; the engines promise these rules.

`dafny verify dfyconfig.toml` checks everything.

## Findings

Where the code does not do what is said of it. Each line cites the promise, a concrete input, and the exact condition.

- The stop is there to protect a new trade (backend/strategies/top_bottom/backtest.py:129-132), but closes with a
  plateau can open a trade beyond its stop: `TopBottomProtection.PlateausCanUnprotect`; exactly when no trade does:
  `TopBottomProtection.ProtectedIff`.
- CALL and PUT are described as mirror images (backend/strategies/breakout15/engine.py:7-11), but a minute that breaks
  both ends from exactly halfway is always a CALL: `BreakoutTie.EvenDayIsACall`; exactly which days are not mirrored:
  `BreakoutTie.MirrorIff`.
- A row's mark is to be cleared only after it was written (backend/services/excel_sync/scan_sync.py:163), but a row
  queued again while its own write is in flight loses its mark with its newer cells unwritten:
  `SheetSync.RequeueInFlightLosesTheNewerValue`; exactly when unmarked rows are current:
  `SheetSync.CleanRowsAlwaysCurrentIff`.
- A cancel is answered with "cancelling" (backend/api/scan_jobs.py:321-328), but a job cancelled before its task took a
  step stays "running" and keeps its slot (backend/services/scan_job_manager.py:335-351):
  `JobLiveness.CancelledAtOnceRunsForEver`, `JobLiveness.ThreeCancelledAtOnceBlockTheType`; exactly which jobs can end
  and which types can start again: `JobLiveness.EndsIff`, `JobLiveness.StartsAgainIff`.
- A symbol is to be subscribed only while somebody refers to it (backend/live/subscription_manager.py:12-16), but one
  released while a reconnect restores subscriptions is subscribed again by the group it was snapshotted in
  (backend/live/market_data_service.py:198-208): `LiveSubscriptions.ReleasedWhileRestoringStaysSubscribed`; exactly when
  nothing else is subscribed: `LiveSubscriptions.OnlyRegisteredAreSubscribedIff`.

## Assumptions

- Every weekly or monthly period between the first and the last candle has a candle, and candles have distinct dates.
- A calendar maps a day to the last day of its period and is constant on periods.
- Job identifiers are never drawn twice and time moves on between completions; a job's runner records nothing after
  its end; a cancelled task takes no further step; different symbols have different tokens; callbacks do not raise and
  tick listeners do not release symbols.

## Model

| member | source | states |
|---|---|---|
| TopBottomSwings.DetectConfirmedSwings | backend/strategies/top_bottom/swing_detection.py:29-65 | the swing loop: refuses windows below one bar and otherwise returns exactly the confirmed swings; the final sort has nothing to move |
| TopBottomSwings.ConfirmedExact | backend/strategies/top_bottom/swing_detection.py:20-28 | the reported swings are exactly the strict extremes of the closes confirmed in time, each once, in order of confirmation and then pivot |
| TopBottomSwings.WindowTest | backend/strategies/top_bottom/swing_detection.py:34-51 | beating the extremes of both windows is the same as beating every close in them |
| TopBottomSwings.ConfirmedPrefix | backend/strategies/top_bottom/swing_detection.py:5-10 | appending closes changes no swing that was already confirmed |
| TopBottomSwings.RefilterIsConfirmed | backend/strategies/top_bottom/swing_detection.py:68-73 | filtering the whole list by confirmation bar gives precisely what a list made at that bar would hold |
| TopBottomEngine.LatestStep | backend/strategies/top_bottom/backtest.py:117-121 | a level changes at a bar exactly when the close before it is a strict extreme of three |
| TopBottomEngine.OnlineLevels | backend/strategies/top_bottom/backtest.py:117-121 | the levels obtained by refiltering all swings at every bar are those of a machine that keeps two closes, one top and one bottom |
| TopBottomEngine.LatestLevels | backend/strategies/top_bottom/backtest.py:117-121 | the refiltering code returns the machine levels of that very bar |
| TopBottomEngine.Trade.constructor | backend/strategies/top_bottom/backtest.py:56-84 | a new trade has its stop and its stop history at the initial stop |
| TopBottomEngine.Trade.TrailTo | backend/strategies/top_bottom/backtest.py:154-163 | trailing a trade in place is the tightening of its value; looser levels change nothing |
| TopBottomEngine.ManageOpen | backend/strategies/top_bottom/backtest.py:153-189 | trailing, closing and reversing an open trade in place is one step of the machine |
| TopBottomEngine.OnBar | backend/strategies/top_bottom/backtest.py:113-189 | one bar on heap trades and growing lists is one machine step on their values |
| TopBottomEngine.RunBars | backend/strategies/top_bottom/backtest.py:109-189 | the event loop keeps lists and open trade equal to the machine after every bar |
| TopBottomEngine.RunTopBottomBacktest | backend/strategies/top_bottom/backtest.py:87-197 | the whole backtest: its signals obey the rules read off closes and levels, its trades are those of the online machine, an open one closed at the last close; lists of different length are refused |
| TopBottomTheorems.RunChained | backend/strategies/top_bottom/backtest.py:123-189 | at every bar: a signal for each trade in order, each trade starting where the last one stopped in the opposite direction, and every stop history moving strictly one way |
| TopBottomTheorems.ReportIsChained | backend/strategies/top_bottom/backtest.py:165-197 | signals and reported trades correspond one to one, each exit date and price is the next entry date and price, directions alternate, and only the last trade ends with the data |
| TopBottomTheorems.NeverFlatAgain | backend/strategies/top_bottom/backtest.py:25-30 | once a trade has opened the engine never is flat again, so the branch without an anchor for the reversed stop is dead |
| TopBottomTheorems.StopIsRunningExtreme | backend/strategies/top_bottom/backtest.py:154-163 | the stop in force is the extreme of the opposite levels since the entry bar, and every closed trade ended at that extreme |
| TopBottomTheorems.NoLookAhead | backend/strategies/top_bottom/backtest.py:32-33 | a run on fewer bars gives a prefix of the signals and reversed trades; only its forced last close differs, and that trade is the longer run's next one |
| TopBottomRules.SignalsIff | backend/strategies/top_bottom/backtest.py:109-189 | a list of signals is the one of the run if and only if it obeys the rules read off closes and levels: the first bar to close beyond a known level with both known, at that level; then each time the first bar to close through the best opposite level since the last signal, the other way, at that stop; none missing |
| TopBottomRules.TradesStopAtAnchors | backend/strategies/top_bottom/backtest.py:126-150 | every reported trade starts with the latest level on its losing side as its stop |
| TopBottomProtection.ProtectedIff | backend/strategies/top_bottom/backtest.py:123-189 | all initial stops lie on the losing side of their entries if and only if, at each turn of a stop-free reading of the closes, the latest bottom is below the latest top |
| TopBottomProtection.NoTradeExitsWorseThanItsInitialStop | backend/strategies/top_bottom/backtest.py:165-195 | in such a run every trade, also the one closed with the data, exits no worse than its initial stop and entered on a close beyond its entry price |
| TopBottomProtection.NoFlatTurnProtects | backend/strategies/top_bottom/backtest.py:10-17 | the condition holds when no plateau hides a turn |
| TopBottomProtection.NoEqualNeighboursProtects | backend/strategies/top_bottom/backtest.py:10-17 | closes that never repeat give trades that keep their initial risk, every one of them |
| TopBottomProtection.PlateausCanUnprotect | backend/strategies/top_bottom/backtest.py:126-150 | eight closes with two plateaus make the engine buy at 3 with its stop at 8 |
| Rsi.WilderArrays | backend/indicators/rsi.py:14-46 | the array version (undefined warm-up, seeded means, smoothed entries) computes the RSI series |
| Rsi.RunningAverages | frontend/src/chart/chartStudies.ts:10-41 | the running-average version computes the same series at every index |
| Rsi.RsiInRange | backend/indicators/rsi.py:43-46 | every defined value lies between 0 and 100 |
| Rsi.RsiAtPrefix | backend/indicators/rsi.py:37-39 | a value depends only on the closes up to its own |
| Rsi.RsiPrefix | backend/indicators/rsi.py:37-46 | the RSI of a prefix is the prefix of the RSI |
| Rsi.MoveAt | backend/indicators/rsi.py:14-16 | a rise counts as gain and nothing as loss, a fall the other way round |
| Rsi.AveragesMean | backend/indicators/rsi.py:24-39 | an average is the plain mean of the first moves, and after that one part of the new move to period minus one parts of the average before |
| Rsi.RsiMeans | backend/indicators/rsi.py:21-46 | defined from the period on; then the RSI divides average gain by average gain and loss together, and is 100 without losses |
| Resample.LabelsBefore | backend/indicators/resample.py:38-44 | all period bars but the last have ended before the last day |
| Resample.CompletedStays | backend/indicators/resample.py:45-46 | bars that had ended by a day are never touched by later days, and all others are labelled later |
| Resample.CarriedIsKnown | backend/strategies/gfs_backtest.py:59-66 | whatever prefix-stable indicator is carried onto a day, its value is the one of the bars completed by that day |
| Resample.CarriedNoLookAhead | backend/strategies/gfs_backtest.py:59-66 | cutting the data off after any later day leaves the carried value of a day as it is |
| Resample.CarriedRsiNoLookAhead | backend/strategies/gfs_backtest.py:93-98 | the same for the weekly and monthly RSI |
| Resample.GroupCuts | backend/indicators/resample.py:38-44 | the bars cut the days into stretches without gap or overlap, and each bar has the open of its first day, the close of its last, the highest high and the lowest low |
| Resample.CompletedAre | backend/indicators/resample.py:45-46 | kept are exactly the bars whose label is no later than the last day |
| Resample.CarriedRsiMeans | backend/strategies/gfs_backtest.py:59-66 | what a day sees is the RSI of the bars completed by then at the last of them, and nothing before the first |
| Resample.UpToMeans | backend/strategies/gfs_backtest.py:163-165 | cut at an end date, the candles are exactly those dated no later |
| BacktestScan.ScanInOrder | backend/strategies/system_one_backtest.py:298-384 | signal, entry, exit and next signal strictly follow each other, and only the last trade may be open |
| BacktestScan.ScanReportsAccepted | backend/strategies/system_one_backtest.py:300-306 | nothing is reported but accepted signals |
| BacktestScan.ExactlyOnce | backend/strategies/system_one_backtest.py:298-384 | every accepted signal is exactly one of: the signal of a trade, a recorded skip, or inside one trade |
| BacktestScan.ScanNoLookAhead | backend/strategies/system_one_backtest.py:262-263 | with decisions that agree on the past, the shorter run reports the longer run's entries cut at its end |
| Gfs.GfsNoLookAhead | backend/strategies/gfs_backtest.py:145-245 | across three timeframes: a run on the candles up to any date reports exactly the longer run's trades and skips cut there |
| Gfs.SetupOnPrefix | backend/strategies/gfs_backtest.py:101-111 | the setup of a candle depends only on the candles up to it |
| GfsTheorems.EarlierEndSameTrades | backend/strategies/gfs_backtest.py:163-170 | a run with an earlier end date has the trades of one with a later end date, the last of them possibly still open; runs refused for too little history included |
| GfsTheorems.FirstExitIsFirst | backend/strategies/gfs_backtest.py:129-142 | the exit found is an exit of its candle under the stop in force, and every candle before it survives |
| GfsTheorems.StopNeverFalls | backend/strategies/gfs_backtest.py:18-24 | the staged stop never decreases |
| GfsTheorems.StopBelowLastClose | backend/strategies/gfs_backtest.py:136-141 | while the trade lives the stop for the next candle lies at or below the last processed close |
| GfsTheorems.BreakevenStop | backend/strategies/gfs_backtest.py:137-139 | after a close at the breakeven level the stop never lies below the entry price again |
| GfsTheorems.QuantityRisk | backend/strategies/gfs_backtest.py:209-210 | the quantity is the largest whole number of shares that risks no more than planned, up to the floor guard |
| GfsTheorems.ClosedTradesLoseAtMostTheRisk | backend/strategies/gfs_backtest.py:218-232 | every closed trade of a run that is not a gap exit loses at most the planned risk plus the guard times the risk per share |
| GfsTheorems.NoLossAfterBreakeven | backend/strategies/gfs_backtest.py:129-142 | once a surviving candle closed at the breakeven level, no exit but a gap loses money |
| GfsTheorems.EverySignalIsAccountedFor | backend/strategies/gfs_backtest.py:189-245 | the signal account of a GFS run |
| GfsTheorems.TradesFollowEachOther | backend/strategies/gfs_backtest.py:244-245 | the order of trades of a GFS run |
| GfsRules.AcceptedIff | backend/strategies/gfs_backtest.py:101-111 | a signal exactly where monthly, weekly and daily RSI agree on a candle from the start date on and did not agree on the one before |
| GfsRules.InitialStopMeans | backend/strategies/gfs_backtest.py:114-116 | the initial stop is the lowest of the last lows, the entry candle included; missing exactly with too few candles |
| GfsRules.StopMeans | backend/strategies/gfs_backtest.py:136-141 | the stop in force is the highest of the initial stop, the entry price once a candle closed at the breakeven level, and the first low of each run of rising lows before it |
| GfsRules.FirstExitManages | backend/strategies/gfs_backtest.py:129-142 | on every candle before the exit the open holds the stop, the low stays above it and the weekly RSI is undefined or at the limit; the exit candle meets the condition of its reason, at the open, the stop or the close |
| GfsRules.SizedIs | backend/strategies/gfs_backtest.py:209-210 | no larger whole number of shares keeps to the planned risk, up to the floor guard |
| GfsRules.EntriesObey | backend/strategies/gfs_backtest.py:189-245 | every trade and every refused signal of a run is the one these rules ask for, entry, stop, size, exit, price and reason |
| GfsEngine.RaiseStop | backend/strategies/gfs_backtest.py:136-141 | one raise in the loop's form, with its own loop over the last lows |
| GfsEngine.ManageTrade | backend/strategies/gfs_backtest.py:119-142 | walking the candles with a mutable stop finds the first exit of the staged-stop specification |
| GfsEngine.Attempt | backend/strategies/gfs_backtest.py:199-232 | one signal is refused for the first reason that applies or becomes a sized trade with its exit |
| GfsEngine.ScanSignals | backend/strategies/gfs_backtest.py:189-245 | the while loop appends exactly the trades and skips of the specification |
| GfsEngine.RunGfs | backend/strategies/gfs_backtest.py:145-249 | the whole run: every trade and skip it lists obeys the rules read off candles and RSI; it warns exactly on short histories and then lists nothing |
| SystemOne.SystemOneNoLookAhead | backend/strategies/system_one_backtest.py:24-26 | moving-average stops and RSI crossings look at nothing later: a shorter run reports the longer run's entries cut at its end |
| SystemOne.EverySignalIsAccountedFor | backend/strategies/system_one_backtest.py:298-384 | the signal account of a System One run |
| SystemOne.TradesFollowEachOther | backend/strategies/system_one_backtest.py:383-384 | the order of trades of a System One run |
| SystemOne.SignalsAreFresh | backend/strategies/system_one_backtest.py:224-231 | between two signals the RSI has been back at or below the level |
| SystemOneRules.SmaSlides | backend/indicators/moving_averages.py:10-11 | the average moves by the close that enters the window and the one that leaves it |
| SystemOneRules.SmaBetween | backend/indicators/moving_averages.py:10-11 | it is there once the window is full and lies between the least and the greatest close of the window |
| SystemOneRules.AcceptedIff | backend/strategies/system_one_backtest.py:224-231 | a signal exactly where the RSI rises above the level from at or below it, from the start date on |
| SystemOneRules.FirstExitManages | backend/strategies/system_one_backtest.py:350-363 | on every candle before the exit the previous average is missing or open and low hold it; the exit fills at an open below it, or else at the average the low touched |
| SystemOneRules.EntriesObey | backend/strategies/system_one_backtest.py:298-384 | every trade and every refused signal of a run is the one these rules ask for, entry, stop, size, exit, price and reason |
| SystemOneRules.ExitsIgnoreTheirCandlesClose | backend/strategies/system_one_backtest.py:350-363 | changing the close of a candle and everything later leaves each trade entered before it with its entry, size and, up to that candle, exit and price |
| SystemOneEngine.FindExit | backend/strategies/system_one_backtest.py:350-363 | the loop finds the first exit under the previous moving average |
| SystemOneEngine.Attempt | backend/strategies/system_one_backtest.py:308-348 | one signal is refused for the first reason that applies or becomes a sized trade with its exit |
| SystemOneEngine.ScanSignals | backend/strategies/system_one_backtest.py:298-384 | the while loop appends exactly the trades and skips of the specification |
| SystemOneEngine.RunSystemOne | backend/strategies/system_one_backtest.py:234-384 | the whole run: every trade and skip it lists obeys the rules read off candles and averages; it warns exactly on short histories and then lists nothing |
| Drawdown.MaxDrawdown | backend/strategies/system_one_backtest.py:173-178 | one pass with a running peak finds the largest peak-to-trough fall of the equity curve, its start included |
| Drawdown.LongestLosingStreak | backend/strategies/system_one_backtest.py:180-185 | the counter finds the longest stretch of consecutive losses |
| BreakoutDay.FirstBreakIsFirst | backend/strategies/breakout15/engine.py:161 | no earlier candle breaks out |
| BreakoutDay.FirstStopIsFirst | backend/strategies/breakout15/engine.py:225-229 | no earlier candle reaches the stop |
| BreakoutMirror.FlipResolve | backend/strategies/breakout15/engine.py:98-115 | reflected minutes decide the other side on the reflected minute, except at an exact midpoint tie, which both days call CALL |
| BreakoutTie.MirrorIff | backend/strategies/breakout15/engine.py:98-243 | reflecting all prices of a day swaps CALL and PUT and reflects entry, stop and exit while times, reason, flags and points stay, if and only if it is not a day whose first candle and first minute to break out went through both ends, the minute from the exact middle |
| BreakoutTie.TieDaysAreCalls | backend/strategies/breakout15/engine.py:104-110 | each such day is a CALL |
| BreakoutTie.EvenDayIsACall | backend/strategies/breakout15/engine.py:104-110 | two candles and a minute that are their own reflection, and a CALL |
| BreakoutRules.DayObeys | backend/strategies/breakout15/engine.py:118-243 | read off candles and minutes: who breaks out first, CALL for an open above the base or a high above it with the low inside and PUT otherwise, the ordering of a candle through both ends by its minutes, entry at the broken end or the open beyond it, the opposite end as stop, the first candle that reaches it with its fill, or else the last close with its reason, points and flags |
| BreakoutRules.AfterBaseMembers | backend/strategies/breakout15/engine.py:155-156 | traded are exactly the candles from the end of the base candle to the last start, the last one given of equal starts, in time order |
| BreakoutRules.BaseCounts | backend/strategies/breakout15/engine.py:135-140 | the base candle is the last one given with its start; missing exactly if there is none |
| BreakoutRules.SessionEnds | backend/strategies/breakout15/engine.py:128-134 | the last candle ends at 15:30 and the second-last one candle before; the first one starts at 09:15 |
| BreakoutRules.SecondLastCounts | backend/strategies/breakout15/engine.py:147-153 | the second-last candle is the last one given with its start |
| BreakoutTheorems.StopLossCostsTheRange | backend/strategies/breakout15/engine.py:173-204 | every STOP_LOSS day costs at least the base range, however it was reached |
| BreakoutTheorems.TimeExitIsInsideTheStop | backend/strategies/breakout15/engine.py:230-243 | every other exit lies strictly inside the stop and, from an entry that did not gap, costs strictly less than the base range |
| BreakoutTheorems.UnlistedDaysIgnoreMinutes | backend/strategies/breakout15/engine.py:282-291 | minute data never changes a day that is not listed |
| BreakoutTheorems.ListedDaysNeedOneCandleOfMinutes | backend/strategies/breakout15/engine.py:282-291 | on a listed day only the minutes of the listed candle matter |
| BreakoutTheorems.WindowMembers | backend/strategies/breakout15/engine.py:102 | the sorted window holds exactly the minutes of its span, in time order |
| BreakoutTheorems.CompleteMinutesDecide | backend/strategies/breakout15/engine.py:173-195 | if the minutes reach the extremes of a candle through both ends, its side and its stop are found among them |
| BreakoutTheorems.DaysWithCompleteMinutesAreDecided | backend/strategies/breakout15/engine.py:173-195 | so such a day is never left unresolved and the incomplete-data fallback is not reached |
| BreakoutEngine.ResolveSide | backend/strategies/breakout15/engine.py:98-115 | the early-return loop over the sorted minutes finds the first decisive one |
| BreakoutEngine.DayResult.OrderByMinutes | backend/strategies/breakout15/engine.py:173-204 | the both-ends branch fills the record as specified |
| BreakoutEngine.DayResult.HoldPosition | backend/strategies/breakout15/engine.py:206-243 | the holding loop with its flags and exit reasons fills the record as specified |
| BreakoutEngine.RunDay | backend/strategies/breakout15/engine.py:118-243 | the record filled field by field obeys the day rules read off candles and minutes; refused are exactly other sizes than 5 and 15 minutes and base candles that end on the next day |
| SheetSync.Batched | backend/services/excel_sync/scan_sync.py:155-160 | batches are contiguous, at most 200 rows long, and flatten back to the sorted rows |
| SheetSync.Batch | backend/services/excel_sync/scan_sync.py:155-160 | the batching loop computes them |
| SheetSync.RunKeeps | backend/services/excel_sync/scan_sync.py:93-163 | over every interleaving of enqueues and flushes and every fault: one row per key, one key per row, rows 2, 3, and so on, requests over marked rows only |
| SheetSync.RowNumbersAreForEver | backend/services/excel_sync/scan_sync.py:95-99 | a key keeps its row number for ever |
| SheetSync.SucceedCleanIff | backend/services/excel_sync/scan_sync.py:161-163 | clearing the marks after a success is right exactly when no row of the request was given other cells in flight |
| SheetSync.CleanRowsAlwaysCurrentIff | backend/services/excel_sync/scan_sync.py:154-163 | unmarked rows stand on the sheet with their latest cells throughout if and only if no request ever succeeded with outdated cells |
| SheetSync.UndisturbedRunsAreClean | backend/services/excel_sync/scan_sync.py:154-163 | in particular when no row is queued again while its own write is in flight |
| SheetSync.RequeueInFlightLosesTheNewerValue | backend/services/excel_sync/scan_sync.py:162-163 | otherwise a newer value can be lost: a run of five events from the start that ends with nothing marked, the newer cells in the queue and the older ones on the sheet |
| SheetSync.FinalFlush | backend/services/excel_sync/scan_sync.py:161-163 | after such a history one flush without faults leaves nothing marked and exactly one row per key with its latest cells |
| SheetSync.QueueHoldsLatest | backend/services/excel_sync/scan_sync.py:93-101 | the queue holds for every key the cells it was given last |
| SheetSyncService.ScanSheetSync.Enqueue | backend/services/excel_sync/scan_sync.py:93-102 | rows stay where they are, one per key, and for every key the object holds the cells it was given last in its whole history |
| SheetSyncService.ScanSheetSync.StartFlush | backend/services/excel_sync/scan_sync.py:154-162 | a flush begins with a block of at most 200 consecutive marked rows and their latest cells, every other marked row being in a batch behind it |
| SheetSyncService.ScanSheetSync.OnWritten | backend/services/excel_sync/scan_sync.py:161-163 | a good answer unmarks the rows of its request; if unmarked rows were current they still are exactly when no row of the request was given other cells meanwhile |
| SheetSyncService.ScanSheetSync.OnFailed | backend/services/excel_sync/scan_sync.py:143-152 | a fault, before or after the write took effect, unmarks nothing |
| SheetSyncService.ScanSheetSync.Flush | backend/services/excel_sync/scan_sync.py:154-163 | a whole flush over any outcomes of its requests: without a fault nothing stays marked and, unless a row was ever queued again in flight, the sheet holds exactly the latest cells; a fault leaves something marked |
| JobRegistry.AtMostThreeRun | backend/services/scan_job_manager.py:318-331 | in every reachable registry at most three jobs of a type run |
| JobRegistry.AtMostOnePerDevice | backend/services/scan_job_manager.py:319-325 | unless concurrency was asked for, no device runs two jobs of one type |
| JobRegistry.KeptAreTheFiveNewest | backend/services/scan_job_manager.py:354-364 | in every reachable registry the finished jobs of a type are exactly its five most recently completed ones |
| JobRegistry.EvictedIsFirstFive | backend/services/scan_job_manager.py:358-364 | evicting by rank is dropping everything behind the fifth of the sorted list |
| JobRegistry.RunningIsNeverEvicted | backend/services/scan_job_manager.py:356-357 | a running job leaves the running ones only by its own end |
| JobLiveness.DoomedIffCancelledFirst | backend/services/scan_job_manager.py:335-351 | read off the events: a registered job is beyond reach exactly when its first step after the start was a cancel |
| JobLiveness.EndsIff | backend/services/scan_job_manager.py:335-351 | a running job can still end, under some continuation, if and only if it was not cancelled before its task took a step |
| JobLiveness.StartsAgainIff | backend/services/scan_job_manager.py:318-330 | a type can be started again for a device, at some later moment, if and only if fewer than three of its running jobs were cancelled before their first step and, unless concurrency is allowed, none of these is of that device |
| JobLiveness.CancelledAtOnceRunsForEver | backend/services/scan_job_manager.py:388-393 | two events, a start and a cancel, leave a job that is reported as running whatever happens later |
| JobLiveness.ThreeCancelledAtOnceBlockTheType | backend/services/scan_job_manager.py:326-330 | three devices that start and cancel at once block a type for every device, for ever |
| JobManagerClass.SortFinished | backend/services/scan_job_manager.py:358-362 | sorting the finished jobs, newest first |
| JobManagerClass.JobManager.StartJob | backend/services/scan_job_manager.py:287-352 | a start is refused exactly in the two stated cases, with the running job or the full type to show for it, and otherwise adds one job |
| JobManagerClass.JobManager.EvictOld | backend/services/scan_job_manager.py:354-364 | the deletion loop keeps running jobs and other types, leaves at most five, and with distinct times exactly the newest |
| JobManagerClass.JobManager.EndTask | backend/services/scan_job_manager.py:335-351 | the end of a task is the step of the registry |
| JobManagerClass.JobManager.CancelJob | backend/services/scan_job_manager.py:388-393 | a cancel is accepted exactly for a running job of that device |
| JobManagerClass.ReachableTimesDiffer | backend/services/scan_job_manager.py:349-351 | in reachable registries completion times differ, so the class follows the steps |
| ScanJobs.RecordingKeepsConsistent | backend/services/scan_job_manager.py:117-189 | counters and logs agree, entries carry their position, and logs only grow |
| ScanJobs.PagesJoin | backend/services/scan_job_manager.py:191-197 | a page and the page behind its cursor make up the log, nothing twice and nothing missing |
| ScanJobs.ScanJob.RecordProgress | backend/services/scan_job_manager.py:117-143 | every processed stock is logged and counted once |
| ScanJobs.SignalsAreCounted | backend/services/scan_job_manager.py:171-189 | the count of signals is always the number of signals in the recorded results |
| ScanJobs.ProgressIsTallied | backend/services/scan_job_manager.py:117-143 | processed, successful and failed counts and the failure list are those of the log, whatever is recorded |
| ScanJobs.ResultIsListed | backend/services/scan_job_manager.py:171-189 | a qualifying stock is listed once, with its strategies in order; any other one leaves the log as it is |
| ScanJobs.ScanJob.RecordResult | backend/services/scan_job_manager.py:145-189 | only qualifying stocks are logged, with every strategy and its detail, and counted |
| ScanJobs.ScanJob.PartialAfter | backend/services/scan_job_manager.py:191-193 | the page completes a list that ends at the cursor and its entries are numbered on from there; a cursor beyond the log gets nothing |
| ScanJobs.ScanJob.ProgressAfter | backend/services/scan_job_manager.py:195-197 | the same for the progress log |
| JobPolling.ListsArePrefixes | frontend/src/hooks/useScanJob.ts:113-228 | for every order of appends, replies, failures and repeated polls, both lists are gap-free and duplicate-free beginnings of the polled job's logs |
| JobPolling.CompleteAtTheEnd | frontend/src/hooks/useScanJob.ts:133-172 | once the end was seen and the fetch behind it succeeded or was not needed, a list is the whole log |
| JobPolling.SupersededIsSilent | frontend/src/hooks/useScanJob.ts:131-161 | replies to a superseded loop change no list, no cursor and no polled job |
| JobPolling.PollingGoesOn | frontend/src/hooks/useScanJob.ts:131-228 | the loop that counts stops asking only after its job ended or a request of it failed beyond recovery |
| JobPolling.SupersededForEver | frontend/src/hooks/useScanJob.ts:121 | and no later event makes that loop current again |
| ScanJobHooks.ScanJobHook.Poll | frontend/src/hooks/useScanJob.ts:114-129 | a poll starts from empty lists, and of all loops alive only the new one counts |
| ScanJobHooks.ScanJobHook.StopPolling | frontend/src/hooks/useScanJob.ts:302-310 | after a cancel or unmount no loop counts, and the promises about the lists hold |
| ScanJobHooks.ScanJobHook.OnTimer | frontend/src/hooks/useScanJob.ts:130-131 | a due timer asks for the job again exactly for the loop that counts |
| ScanJobHooks.ScanJobHook.OnReply | frontend/src/hooks/useScanJob.ts:132-176 | whatever reply arrives, the lists only grow, stay gap-free beginnings of the polled job's logs and are whole once the end was seen; a superseded loop changes neither list |
| ScanJobHooks.ScanJobHook.OnFailed | frontend/src/hooks/useScanJob.ts:148-220 | a failed request leaves both lists, and only a job that is gone ends polling |
| ScanJobHooks.ScanJobHook.OnAnswer | backend/services/scan_job_manager.py:191-197 | the server's pages, read through its cursor methods, are the ones the protocol sends |
| Live.RegisteredAreSubscribed | backend/live/market_data_service.py:121-208 | over every interleaving of acquires, releases, losses and reconnects: while connected, with nothing in flight and nothing failed on this connection, every registered token is subscribed |
| Live.NeverGivesUp | backend/live/market_data_service.py:155-196 | while anything is registered the connection task lives and never meets its stop flag |
| Live.StopsWithTheLastSymbol | backend/live/market_data_service.py:138-169 | and when nothing is registered and no unsubscribe is in flight there is no task, and no connection but one being closed |
| Live.RegisteredAreReferenced | backend/live/market_data_service.py:131-143 | every registered symbol is referenced, under one token only |
| Live.OnlyTheLastReleaseUnregisters | backend/live/market_data_service.py:138-143 | nothing but the last release of its symbol unregisters a token |
| Live.TicksStayApart | backend/live/market_data_service.py:220-228 | a tick changes the candles of its own symbol or nothing at all |
| Live.CallbacksAlternate | backend/live/subscription_manager.py:35-59 | for every symbol the callbacks strictly alternate, subscription first, and the last one tells whether it is referenced |
| Live.CountIsOutstanding | backend/live/subscription_manager.py:35-59 | the reference count is the number of acquires not yet given back |
| LiveSubscriptions.OnlyRegisteredAreSubscribedIff | backend/live/subscription_manager.py:12-16 | while connected nothing is subscribed but what is registered or just leaving, throughout a run, if and only if no unsubscribe of a subscribed token failed and no restored group held a token released since |
| LiveSubscriptions.SubscribedAreRegistered | backend/live/subscription_manager.py:12-16 | in quiet moments of such a run the transport carries exactly the registered tokens |
| LiveSubscriptions.ReleasedWhileRestoringStaysSubscribed | backend/live/market_data_service.py:198-208 | nine events without any fault after which a released symbol stays subscribed |
| LiveSubscriptions.FailedIff | backend/live/market_data_service.py:129-136 | a connection counts as failed exactly if a subscription could not be sent on it |
| LiveService.MarketDataService.AcquireSymbol | backend/live/subscription_manager.py:35-45 | after an acquire the symbol is counted, the subscription callback runs exactly on the first reference, and every promise of the service holds |
| LiveService.MarketDataService.ReleaseSymbol | backend/live/subscription_manager.py:47-59 | after the last release no token of the symbol is registered, and every promise of the service holds, the stop with nothing registered included |
| LiveService.MarketDataService.UnsubscribeNow | backend/live/market_data_service.py:138-151 | whichever token the search by symbol meets is the one that is removed, and with nothing left the service closes |
| LiveService.MarketDataService.OnResolved | backend/live/market_data_service.py:121-134 | a symbol that was found is registered and the connection task lives |
| LiveService.MarketDataService.OnSent | backend/live/market_data_service.py:129-151 | the end of a message, good or bad, keeps registered tokens subscribed in quiet moments, the callbacks alternating, and ends the task when it was the last unsubscribe |
| LiveService.MarketDataService.OnClosed | backend/live/market_data_service.py:164-169 | a closed service has nothing registered |
| LiveService.MarketDataService.OnConnected | backend/live/market_data_service.py:174-179 | a new connection keeps what is registered and still has all of it to restore |
| LiveService.MarketDataService.OnGroupSent | backend/live/market_data_service.py:198-208 | the task listens exactly after the last group, and then every registered token is subscribed unless a message failed |
| LiveService.MarketDataService.OnInterrupted | backend/live/market_data_service.py:187-196 | a lost connection keeps what is registered and always leads to another attempt |
| LiveService.MarketDataService.OnWake | backend/live/market_data_service.py:173-194 | after the back-off the task always connects again |
| LiveService.MarketDataService.OnTick | backend/live/market_data_service.py:220-228 | a tick is added to the candles of its own symbol and to no others |
| LiveService.MarketDataService.Handle | backend/live/market_data_service.py:71-226 | whatever event comes next, its handler keeps every promise: subscribed in quiet moments, task alive, symbols referenced, callbacks alternating, counts equal to outstanding references |
| Candles.CandleBuilder.OnTick | backend/live/candle_builder.py:89-117 | evicted, kept and current candles together are those of all ticks seen |
| Candles.CandleBuilder.TakeEntry | backend/live/candle_builder.py:104-117 | one tick extends the current candle or completes it and opens the next |
| Candles.CandleBuilder.FinalizeIfPeriodEnded | backend/live/candle_builder.py:119-132 | finalizing marks the current candle of the period and changes no price or volume |
| Candles.BuilderGroupsByBucket | backend/live/candle_builder.py:55-117 | for time-ordered ticks there is one candle per period, in order, and it sums up exactly the ticks of its period |
| Candles.CoarseIsMergeOfFine | backend/live/candle_builder.py:66-67 | candles of a timeframe are the merged candles of any finer one nested in it |
| Candles.BarsStart | backend/live/candle_builder.py:104-110 | every candle starts at the first tick of its period |
| Candles.CeilNests | backend/live/candle_builder.py:66-67 | rounding a moment up to a span and then to a multiple of it is rounding it up to the multiple, in any unit of time |
| Candles.QuartersNestInHours | backend/live/candle_builder.py:66-67 | quarter hours nest in hours at any resolution of the clock |
| Candles.VolumeAgrees | backend/live/candle_builder.py:93-101 | every timeframe sees the same total volume |
| Candles.VolumeIsStretchEnds | backend/live/candle_builder.py:93-101 | and it is the sum of the final values of the counter's non-decreasing stretches |
| CandleSet.SymbolCandleSet.constructor | backend/live/candle_builder.py:144-154 | a builder per timeframe, none of which has seen a tick |
| CandleSet.SymbolCandleSet.OnTick | backend/live/candle_builder.py:156-157 | every builder takes every tick, and the candles returned are the current ones, each in the period of the tick |
| CandleSet.SymbolCandleSet.TimeframesAgree | backend/live/candle_builder.py:144-157 | all timeframes of a symbol agree on the total volume, which is what the counter's stretches add up to |
| CandleSet.SymbolCandleSet.CoarserIsMerged | backend/live/candle_builder.py:144-157 | the hour candles held are the merge of the quarter-hour candles held |
| Swings.HighIsStrict | backend/divergence/swing.py:26-40 | being the window maximum with no second bar at that value is the same as beating every other bar of the window |
| Swings.LowIsStrict | backend/divergence/swing.py:26-41 | the same for lows |
| Swings.FindSwingPoints | backend/divergence/swing.py:17-51 | masks first, then the loop that collects the points in order |
| Swings.KindsSeparate | backend/divergence/detector.py:50-51 | picking highs (or lows) out of the merged list gives exactly the marked bars |
| Swings.MarkedIsFound | backend/divergence/swing.py:43-48 | no marked bar is missed |
| Swings.SwingPointsAreStable | backend/divergence/swing.py:35-51 | appending bars only appends swing points |
| Divergence.Scan | backend/divergence/detector.py:63-107 | the loop with its early continues passes over a pair for the first reason that applies and otherwise reports it, as specified |
| Divergence.DetectDivergences | backend/divergence/detector.py:49-109 | the signals of the highs, then of the lows |
| Divergence.SignalsAreNeverRetracted | backend/divergence/detector.py:60-68 | appending bars only extends the list for highs and the list for lows |
| Divergence.DivergencesAreNeverRetracted | backend/divergence/detector.py:60-68 | the same with the RSI recomputed from the closes of each series |
| Divergence.SignalsAreGenuine | backend/divergence/detector.py:63-107 | every reported signal comes from a pair of neighbouring points |
| Divergence.ReportedIff | backend/divergence/detector.py:63-107 | a signal is reported if and only if some pair of neighbouring points, the later one confirmed, diverges so: both thresholds cleared, price and RSI moving apart |
| Divergence.SignalsInOrder | backend/divergence/detector.py:63-107 | signals come in the order of their later points, none twice |
| Divergence.GenuineMeans | backend/divergence/detector.py:36-47 | a signal is confirmed, clears both thresholds, and joins a price move with the opposite RSI move, as its kind says |
| Cup.CandidateIs | backend/strategies/cup.py:207-208 | a candidate rim beats both months on either side and is old enough |
| Cup.PickIsNearest | backend/strategies/cup.py:215-285 | the search keeps the candidate of least distance, the oldest of equals |
| Cup.FoundCupIsGenuine | backend/strategies/cup.py:207-285 | a reported cup has an old enough rim, a low that is the minimum of all later lows, no higher month in between, and the least distance of all valid candidates |
| Cup.NothingFoundMeansNoneValid | backend/strategies/cup.py:285 | nothing is found only if no candidate is valid |
| CupTheorems.EarlyCupBand | backend/strategies/cup.py:621-637 | an early cup closes within the allowed distance below its level, never above, and unless exactly at the level farther away than a near breakout |
| CupTheorems.EarlyCupWithinAQuarter | backend/strategies/cup.py:629-637 | with the default distance: between three quarters of the level and the level |
| CupTheorems.EarlyWithinReachIffAtLevel | backend/strategies/cup.py:623-637 | of the watched cups within the near distance exactly those that closed at the level itself are early ones |
| CupTheorems.NearBreakoutBand | backend/strategies/cup.py:623-625 | a near breakout closes strictly below the level, within the near distance |
| CupTheorems.WatchedCupsAreNotAbove | backend/strategies/cup.py:505-637 | no cup still watched has its latest completed close above the level, because the breakout branches came first |
| CupTheorems.RisingCupsNeverRollOver | backend/strategies/cup.py:339-360 | a cup whose latest close is the highest of its recovery is never rejected as rolled over |
| CupTheorems.NearCupsHaveNearRims | backend/strategies/cup.py:612-621 | a cup within the near distance is never rejected for its right rim when that limit is no tighter |
| CupTheorems.ConfirmedIff | backend/strategies/cup.py:502-545 | confirmed exactly when the latest completed month is the first to close above the level |
| CupTheorems.RecentIff | backend/strategies/cup.py:546-548 | recent exactly when the first such month is one to the allowed number of months old |
| CupTheorems.BreakoutsIgnoreTheRunningMonth | backend/strategies/cup.py:18-24 | both statuses are the same whatever the running month does |
| CupTheorems.RunningMonthAddsNothing | backend/indicators/resample.py:45-46 | days of a month that has not ended add nothing to the completed months |
| CupTheorems.BreakoutsSurviveTheRunningMonth | backend/strategies/cup.py:18-24 | so further days of the running month change neither status |
| CupTheorems.DeepCupsAreRounded | backend/strategies/cup.py:57-106 | a deep cup has a real base, a long enough climb, and no month that makes up too much of it |
| CupRules.StatusIff | backend/strategies/cup.py:500-637 | a cup has a status if and only if the months fit it: breakouts by the age of the first close above the level, forming and too far above by the running high and close, rollover and rim by the highest close behind the low, near and early by the distance |
| CupRules.JudgeObeys | backend/strategies/cup.py:215-283 | a candidate is refused for the first of level, dominance, depth, recovery and uptrend, each in prices, and otherwise is a cup at its distance |
| CupRules.DeepIs | backend/strategies/cup.py:83-106 | a deep cup is refused for the first of three reasons: months near the low, months since it, one month too large |
| CupRules.UptrendIs | backend/strategies/cup.py:109-165 | the trend into the rim: history, gain from its lowest low, and a second half with the higher mean |
| CupRules.CupLowExists | backend/strategies/cup.py:219-223 | every rim has exactly one cup low: the first of the lowest lows behind it |
| CupRules.RequiredAgeMeans | backend/strategies/cup.py:200-205 | the required age: the full one, or with relaxation the whole part of a share of the history between its two limits |
| CupEngine.ClassifyDeepCup | backend/strategies/cup.py:83-106 | the counting loops decide as specified |
| CupEngine.Examine | backend/strategies/cup.py:215-283 | the loop body with its early exits gives each candidate its verdict |
| CupEngine.FindCupStructure | backend/strategies/cup.py:168-285 | the search loop over the candidates finds the specified cup and the last rejection |
| CupEngine.DecideStatus | backend/strategies/cup.py:502-637 | breakout, running month, rollover, rim and distance, branch after branch, decide the status as specified |
| CupEngine.Detect | backend/strategies/cup.py:397-637 | history check, search and status together: with a cup the status the rules give it, without one the last rejection, and too little history exactly below six months or the required age |

## Left out

- TopBottomEngine.RunTopBottomBacktest: symbol, trading symbol, expiry, instrument class, lot size and reversal identifiers are carried through unchanged by the source and are not fields of the model.
- BreakoutTie.MirrorIff: percentages, which depend on the price level, are read off the record and not part of the reflected value.
- BreakoutEngine.RunDay: percentages of a zero price, where the source raises, are undefined values here; a base candle that would end on the next day is refused as the time constructor of the source does.
- GfsTheorems.ClosedTradesLoseAtMostTheRisk: gap exits are excluded, because the source fills them at the open however far below the stop that is; a candle's close is taken to be no lower than its low.
- GfsEngine.RunGfs: the series and the weekly and monthly bars for charts, holding periods, percentages and R multiples are not produced; columns missing from the input are not modelled.
- SystemOneEngine.RunSystemOne: the chart series, holding periods, percentages and R multiples are not produced.
- ScanJobs.ScanJob.RecordResult: instrument types, the free-form `extra` part of a signal and the hook that mirrors results to the worksheet are not fields of the model.
- CupEngine.Detect: the status and the structure behind it; dates, volumes, the handle and rounded figures of the result are not part of the model.
- Resample.CarriedNoLookAhead: a period without any candle, which the source keeps as a bar without prices, is not modelled.
- JobRegistry.KeptAreTheFiveNewest: jobs that complete at the same instant are not ordered; the class is also proved for that case, but only to keep at most five.
- JobRegistry.AtMostOnePerDevice: says nothing about callers that pass allow_concurrent_same_type.
- JobPolling.CompleteAtTheEnd: a list stays incomplete for good when the fetch behind the last status fails; the source does not retry it either.
- Live.RegisteredAreSubscribed: the grouping by exchange is any split of the snapshot; a stop from outside at shutdown, heartbeats and back-off times are not steps of the model.
- Candles.BuilderGroupsByBucket: day, week and month buckets are any non-decreasing function of time, not computed from a calendar.
- Cup.FoundCupIsGenuine: volumes, the handle, trade levels and rounded display values are not part of the result.
- SheetSync.FinalFlush: worksheet creation and its naming loop, waiting and back-off are not modelled; a sheet exists.
- Rsi.RunningAverages: rounding of binary floating point and NaN are outside the model; undefined values are options.
- Job elapsed times, estimates, percentages and the 24-hour result cache.
- HTTP, WebSocket, Graph and file access, except as events that succeed or fail.
- Screeners that only compare values with thresholds, scoring, serializers, charts and pages.
- ADX, MACD, EMA and Bollinger bands.
