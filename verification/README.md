# Orvixa: a verified model of the market-data pipeline

Orvixa takes one-minute candles from a reconnecting exchange feed, batches them into
tables, keeps a universe of symbols in tiers, computes incremental indicators with
signals and events, and replays history to validate those signals. This project models
the stateful core of each part and proves what it promises over whole runs.

- **Symbols.** `Tiering` is one refresh cycle as functions of the universe;
  `SpikeHysteresis` and `TieringTheorems` are the theorems over sequences of cycles,
  `RankTheorems` and `PromotionTheorems` those in terms of tickers and old records alone;
  `Ranking` and `Sorting` the two rankings; `Subscriptions` the reconciliation with the
  feed. `SymbolManager` is the object that mutates its records, proved to take exactly
  the steps of `Tiering`.
- **Persistence.** `BatchProtocol` is the batch writer as a protocol whose coroutines run
  from one suspension point to the next, and its invariants hold for every schedule;
  `BatchDrain` is what a disciplined caller gets and `BatchDiscipline` why no less
  discipline will do; `BatchWriter` is the object, each method one protocol step.
  `CandleStore` adds the id cache and the keyed table.
- **Analytics.** `Indicators` defines every reading on the whole price history,
  `Calculators` are the incremental objects proved equal to it, `Latch` is the edge
  detector that all signals and events share, `Signals`, `Events` and `Engine` are the
  engines; `RsiTheorems`, `ReadingTheorems`, `SignalTheorems`, `EventTheorems` and
  `IndicatorRows` say what readings, signals, events and rows mean on the candles;
  `EventEdges`, `CandleEvents`, `MarketTheorems`, `FallingMarkets` and `RisingMarkets` are
  the theorems about whole runs.
- **Replay.** `Statistics`, `ForwardReturns` and `Replay` are the validation harness,
  with the two independent replays proved to agree; `SampleSize` and `ReplayTheorems` say
  what its statistics, tags and captured signals mean.
- **Feed.** `FeedProtocol` and `BinanceFeed` compare the streams a socket carries with
  the subscription set in every interleaving.

`Numbers`, `Collections` and `Market` hold what these share.

Conventions. Floats are `real`; timestamps are integer milliseconds; rounding is half to
even; the natural logarithm and the square root are function parameters of the settings,
and the only fact used is that square roots of nonnegative numbers are nonnegative, except
in `VolatilityMeaning` and the rows built on it, which assume exact roots.
What the outside world decides (fetched pairs and statistics, whether a feed send or a
batch sink call succeeds, random draws, jitter, when a coroutine resumes) is an arbitrary
input. The display symbol of a pair is an arbitrary function.

## Where the code does not do what one would expect

- Cluster tags: the documentation of `_compute_cluster_tags` says "strictly within" the
  window, the code includes its far end (`<=`) and excludes the same time. The model follows the
  code; `ClusterEdges` shows both ends.
- A `demotion_grace_cycles` below 1 acts as 1 (`PromotionRefinesHistory`).
- A relisted symbol is not logged, so the log is faithful about tiers, not about status
  (`RelistingIsNotLogged`). `SilentRelisting` is an input, `RelistedLog` the exact
  condition.
- The reason "demote_spike" does not mean that the symbol was promoted:
  `DropoutLooksLikeSpike` is an input, `CycleLog` says when each reason is logged.
- Two active pairs with one display symbol share a record, and the last one listed wins.
  `ShadowedPairLeavesSlotEmpty` is an input; the volume slots are filled if and only if no
  top pair is shadowed this way (`VolumeSlotsFilled`).
- `_sync_feed` does not repair everything after a call that raised: `RaisedSubscribeLeaks`
  is an input, `SyncRepairsIff` the exact condition for one sync and `LeaksAndLosses` for
  any sequence of them. A raised call also ends the refresh loop
  (`src/orvixa/symbols/manager.py:147-156`), so a next cycle needs a direct call of
  `refresh_universe`.
- A monotone market can emit signals. With an RSI period of 1 a falling one can sell
  (`RsiPeriodOneSells` is an input), and with a fast period longer than the slow one,
  which the settings allow, a falling one can buy and a rising one sell:
  `FallingSilenceIff` and `RisingSilenceIff` are the exact conditions on the settings.
- A non-positive volatility multiplier can swallow an edge: `SuppressedEdge` is an input,
  `SpikeEdgesIffPositiveMultiplier` the exact condition.
- `start` during `stop` runs two loops at once: `OverlappingStartReorders` is an input.
  Conservation still holds (`Conservation`); order and drain stay safe if and only if no
  `stop` is under way at a `start` (`StartIsSafeIff`).

## Model

| member | source | states |
|---|---|---|
| `Latch.LastDecisiveMeaning` | src/orvixa/analytics/signals.py:61-103 | the remembered state is a class exactly when it was decided last and everything since was undecided, or nothing was decided and it is the idle one |
| `Latch.SuccessiveFiringsSeparated` | src/orvixa/analytics/signals.py:83-94 | two successive emissions of one class have an idle (neutral) decision strictly between them |
| `Latch.RisingEdge` | src/orvixa/analytics/events.py:157-189 | when every previous look was decisive, firing is exactly "holds now, did not hold at the look before" |
| `Latch.TracksStep` | src/orvixa/analytics/signals.py:73-103 | storing decisive decisions and ignoring undecided ones keeps a state dictionary equal to the last decision of every symbol's log |
| `Indicators.EmaInHull` | src/orvixa/analytics/indicators.py:20-33 | both averages of any run of prices stay inside the range of the prices |
| `Indicators.MonotonePricesOrderEmas` | src/orvixa/analytics/indicators.py:20-33 | on prices that never fall the fast average is at least the slow one, on prices that never rise at most |
| `Indicators.WilderZero` | src/orvixa/analytics/indicators.py:53-80 | a smoothed average of nonnegative values is zero if all are, and only then when the period is at least 2 |
| `Indicators.RisingRsi` | src/orvixa/analytics/indicators.py:36-80 | a warm RSI over closes that never fell is 100 |
| `Indicators.FallingRsi` | src/orvixa/analytics/indicators.py:36-80 | with period at least 2, a warm RSI over closes that never rose is 0 unless they never moved |
| `Indicators.RealizedVolNonnegative` | src/orvixa/analytics/indicators.py:116-136 | the volatility reading is nonnegative whenever the square root is |
| `Calculators.EMA.Update` | src/orvixa/analytics/indicators.py:28-33 | after any number of updates the result is the exponential average of the whole price history |
| `Calculators.WilderRSI.Update` | src/orvixa/analytics/indicators.py:53-80 | seed lists, averages and warm-up together return the RSI of the whole close history |
| `Calculators.WilderATR.Update` | src/orvixa/analytics/indicators.py:93-113 | returns the Wilder average of the true ranges of the whole candle history |
| `Calculators.RealizedVolatility.Update` | src/orvixa/analytics/indicators.py:125-136 | the bounded deque yields the volatility of the last `window` log returns of the history, skipping non-positive closes |
| `Calculators.RelativeVolume.Update` | src/orvixa/analytics/indicators.py:147-155 | the volume over the mean of the `window` volumes before it, the current one excluded |
| `Calculators.RsiAppend` | src/orvixa/analytics/indicators.py:53-80 | how one more close moves the two smoothed averages and the RSI, through warm-up, seeding and steady state |
| `RsiTheorems.RsiIsShare` | src/orvixa/analytics/indicators.py:53-80 | a warm RSI is the percentage of the smoothed movement that was upward: RSI times the smoothed absolute changes is 100 times the smoothed rises |
| `RsiTheorems.FirstRsi` | src/orvixa/analytics/indicators.py:63-80 | at exactly period + 1 closes, RSI times the sum of all absolute changes is 100 times the sum of the rises |
| `RsiTheorems.MirroredRsi` | src/orvixa/analytics/indicators.py:53-80 | reversing every price change turns the RSI into 100 minus itself iff the smoothed movement is not zero |
| `RsiTheorems.NoMovement` | src/orvixa/analytics/indicators.py:53-80 | with period at least 2 the smoothed movement is zero iff the closes never moved |
| `RsiTheorems.RsiFollowsClose` | src/orvixa/analytics/indicators.py:53-80 | one more close that does not fall never lowers a warm RSI, one that falls never raises it |
| `RsiTheorems.WilderAdds` | src/orvixa/analytics/indicators.py:65-73 | Wilder smoothing of a sum is the sum of the smoothed values |
| `RsiTheorems.WilderInHull` | src/orvixa/analytics/indicators.py:104-113 | a smoothed average lies between the smallest and the largest value |
| `RsiTheorems.WilderForgets` | src/orvixa/analytics/indicators.py:71-73 | what was averaged before fades by the factor 1 - 1 / period with every further value |
| `ReadingTheorems.TrueRangeIsSpan` | src/orvixa/analytics/indicators.py:93-102 | the true range is the span of the candle together with the close before it |
| `ReadingTheorems.LogReturnsAt` | src/orvixa/analytics/indicators.py:125-128 | on positive closes there is one log return per step, of the later close over the earlier one |
| `ReadingTheorems.SkippedLogReturn` | src/orvixa/analytics/indicators.py:125-128 | a step with a non-positive close adds no return |
| `ReadingTheorems.VarianceMeaning` | src/orvixa/analytics/indicators.py:133-134 | the variance is the mean of the squares minus the square of the mean |
| `ReadingTheorems.VolatilityMeaning` | src/orvixa/analytics/indicators.py:125-136 | on positive closes and with exact roots, a reading exists iff there are more closes than the window, and is the deviation of the last window of log returns in percent |
| `ReadingTheorems.RelativeVolumeMeaning` | src/orvixa/analytics/indicators.py:147-155 | a reading exists iff the window before the candle is full and has volume; times that volume it is the candle's volume times the window |
| `IndicatorRows.RowAverages` | src/orvixa/analytics/engine.py:155-167 | a written row carries id and time; its averages lie within the closes, and its score is positive (negative) iff the fast one is 0.05 percent above (below) the slow one |
| `IndicatorRows.RowRsi` | src/orvixa/analytics/engine.py:155-167 | a written RSI is the upward share of the smoothed movement of the symbol's closes, and is there iff they are more than the period |
| `IndicatorRows.RowAtr` | src/orvixa/analytics/engine.py:155-167 | a written ATR is the smoothed true range, within the smallest and largest range, and is there iff there are period candles |
| `IndicatorRows.RowVolatilityAndVolume` | src/orvixa/analytics/engine.py:155-167 | a written volatility is the deviation of the last log returns, a written relative volume the ratio to the window before |
| `IndicatorRows.ResultRows` | src/orvixa/analytics/engine.py:169-197 | signal and event rows carry the symbol's id and the time of the candle, one row for each result, in order |
| `Calculators.SymbolIndicators.Update` | src/orvixa/analytics/indicators.py:186-200 | one update of all calculators returns the snapshot defined on the symbol's candle history, with the slow average of the candle before |
| `Trend.DiffSign` | src/orvixa/analytics/trend.py:38-48 | the separation has the sign of fast minus slow |
| `Trend.DiffInBand` | src/orvixa/analytics/trend.py:38-48 | averages inside a positive band are at most the width of the band, in percent of its floor, apart |
| `SignalTheorems.TrendDirection` | src/orvixa/analytics/trend.py:38-47 | with a positive slow average, the trend is up (down) and the score positive (negative) iff the fast one is more than 0.05 percent above (below) it |
| `SignalTheorems.TrendStrength` | src/orvixa/analytics/trend.py:46-47 | the strength is 20 points per percent of separation, full from five percent on, and the size of the score unless flat |
| `SignalTheorems.TrendSlope` | src/orvixa/analytics/trend.py:50-53 | the slope is the percentage by which the slow average moved since the candle before, 0 at the first candle |
| `Signals.ConfidenceNeedsStrength` | src/orvixa/analytics/signals.py:105-110 | confidence m needs trend strength of at least (m - 40.5) / 0.6, rounding included |
| `SignalTheorems.ConfidenceMeaning` | src/orvixa/analytics/signals.py:105-110 | up to rounding the confidence is 60 points for the strength, 20 for the RSI's distance from 50, and 20 for a volume reaching three times the usual |
| `SignalTheorems.ConfidenceMonotone` | src/orvixa/analytics/signals.py:105-110 | more strength, an RSI farther from 50 and more volume never lower the confidence |
| `SignalTheorems.PressureMeaning` | src/orvixa/analytics/signals.py:61-103 | a candle is decisively a buy iff the fast average is above the slow one by 0.05 percent, the RSI is below 70 and the confidence suffices; a sell likewise below and above 30; neutral iff it points neither way; undecided while a reading is missing |
| `SignalTheorems.HighvolConfidenceMeaning` | src/orvixa/analytics/signals.py:127 | a high reading has confidence 50 at the threshold, 100 from twice the threshold on, and in between 50 times its ratio to the threshold, rounded |
| `SignalTheorems.HighvolMeaning` | src/orvixa/analytics/signals.py:112-133 | with a minimum confidence of at most 50, volatility is decided high iff the reading reaches the threshold |
| `SignalTheorems.SignalsWellFormed` | src/orvixa/analytics/signals.py:85-144 | every emitted signal leaves the last decisive state for another one, that of its kind, with enough confidence and a score of the right sign; a highvol signal carries the reading |
| `Signals.SignalEngine.EvaluatePressure` | src/orvixa/analytics/signals.py:61-103 | emits exactly when the candle is decisive, not neutral and differs from the last decisive candle of the symbol's whole log |
| `Signals.SignalEngine.EvaluateHighvol` | src/orvixa/analytics/signals.py:112-144 | emits exactly when the candle is confidently high and the last decisive one was not |
| `Signals.SignalEngine.Evaluate` | src/orvixa/analytics/signals.py:45-59 | pressure result before volatility result, both logs extended by one decision |
| `Events.EventEngine.CheckBreakout` | src/orvixa/analytics/events.py:76-114 | returns the breakout or breakdown defined on the symbol's whole snapshot history |
| `Events.EventEngine.CheckPumpDump` | src/orvixa/analytics/events.py:116-155 | returns the pump or dump defined on the whole history, leaving the state alone on a non-positive reference |
| `Events.EventEngine.CheckVolSpike` | src/orvixa/analytics/events.py:157-189 | returns the volatility spike defined on the whole history of readings |
| `Events.EventEngine.UpdateHistory` | src/orvixa/analytics/events.py:191-204 | every deque equals the last `maxlen` observations of its symbol |
| `Events.EventEngine.Evaluate` | src/orvixa/analytics/events.py:57-74 | checks before the history update, so the windows exclude the current candle; results in check order |
| `EventEdges.BreakoutIsRisingEdge` | src/orvixa/analytics/events.py:76-114 | a breakout (breakdown) fires iff the close is beyond every one of the `w` candles before it and was not at the previous candle |
| `EventEdges.PumpIsRisingEdge` | src/orvixa/analytics/events.py:116-155 | with positive closes, a pump (dump) fires iff its threshold is met now and was not at the previous candle |
| `EventEdges.SpikeStateIsLastReading` | src/orvixa/analytics/events.py:157-189 | the early return on a zero baseline never strands the state: it is "spike" iff the very last reading was one |
| `EventEdges.SpikeEdgesIffPositiveMultiplier` | src/orvixa/analytics/events.py:157-189 | spikes fire on exactly the rising edges if and only if the configured multiplier is positive |
| `EventEdges.SuppressedEdge` | src/orvixa/analytics/events.py:169-189 | with a non-positive multiplier a concrete run (a window of ones, a window of zeros, two ones) swallows the rising edge at its last reading |
| `EventEdges.VolSpikeIsRisingEdge` | src/orvixa/analytics/events.py:157-189 | a spike event is reported iff the candle has a reading and that reading is a rising edge among the symbol's readings |
| `CandleEvents.BreakoutsAreRisingEdges` | src/orvixa/analytics/events.py:76-114 | for every run of candles a breakout (breakdown) is emitted iff the close leaves the window of candles before it and did not at the previous candle |
| `CandleEvents.PumpsAreRisingEdges` | src/orvixa/analytics/events.py:116-155 | for every run of candles with positive closes a pump (dump) is emitted iff the threshold is met now and was not at the previous candle |
| `CandleEvents.SpikesAreRisingEdges` | src/orvixa/analytics/events.py:157-189 | for every run of candles and a positive multiplier a volatility spike is emitted iff the candle has a reading that is a rising edge among the run's readings |
| `EventTheorems.EventsTell` | src/orvixa/analytics/events.py:76-189 | every emitted event reports the close; breakouts the distance to the extreme of the window in percent of it, pumps and dumps the move since the window began, spikes the reading; severity 2 from 1.5 and 3 from 3 times the unit on |
| `EventTheorems.BreakMagnitude` | src/orvixa/analytics/events.py:87-110 | a breakout's (breakdown's) magnitude is its distance in percent from the highest high (lowest low) of the window, 0 when that is not positive |
| `CandleEvents.PctMeaning` | src/orvixa/analytics/events.py:126-130 | a move reaches a percentage iff 100 times the move reaches that percentage of the reference |
| `Engine.AnalyticsEngine.ResolveSymbolId` | src/orvixa/analytics/engine.py:202-210 | the cached id, else the repository's, which is then cached |
| `Engine.IndicatorBook.Fold` | src/orvixa/analytics/engine.py:147-153 | folding a candle touches only its symbol's calculators and returns the snapshot of that symbol's candles |
| `Engine.AnalyticsEngine.Judge` | src/orvixa/analytics/engine.py:153-184 | trend, then signals, then events are those of the symbol's history with this candle |
| `Engine.AnalyticsEngine.Record` | src/orvixa/analytics/engine.py:155-199 | signals and events are appended in order and counted |
| `Engine.AnalyticsEngine.HandleCandle` | src/orvixa/analytics/engine.py:137-199 | every row written for a closed, resolvable candle is a function of its own symbol's candles alone, and the counters count those rows; any other candle changes nothing |
| `Engine.RunPrefixes` | src/orvixa/analytics/engine.py:147-184 | snapshots and decisions of a prefix are a prefix of the snapshots and decisions |
| `MarketTheorems.PressureEmission` | src/orvixa/analytics/signals.py:61-103 | over whole candle runs a buy (sell) is emitted iff the candle is decisively one and the last decisive candle was not: low confidence never consumes a transition |
| `MarketTheorems.HighvolEmission` | src/orvixa/analytics/signals.py:112-144 | a highvol signal is emitted iff high volatility is newly decisive in the symbol's run |
| `MarketTheorems.NeutralBetweenSameSignals` | src/orvixa/analytics/signals.py:83-103 | between two successive pressure signals of the same type lies a neutral candle |
| `MarketTheorems.MonotoneMarketIsSilent` | src/orvixa/analytics/signals.py:61-103 | a run whose closes never fall, or with an RSI period of at least 2 never rise, emits no buy and no sell |
| `MarketTheorems.NarrowBandIsSilent` | src/orvixa/analytics/signals.py:83-110 | closes within [lo, hi], 100(hi - lo)/lo below (m - 40.5)/12, emit no buy and no sell; 1.625 for m = 60 |
| `MarketTheorems.RsiPeriodOneSells` | src/orvixa/analytics/indicators.py:53-80 | with an RSI period of 1 a concrete falling run of three candles emits a sell |
| `FallingMarkets.FallingSilenceIff` | src/orvixa/analytics/signals.py:61-110 | for all periods and windows, falling markets of positive closes are silent iff signals are off, the minimum confidence exceeds 100, the two periods are equal, or the fast one is shorter and the RSI period at least 2 |
| `FallingMarkets.FallingCanSell` | src/orvixa/analytics/indicators.py:20-80 | with signals on, a reachable confidence, the fast period shorter and an RSI period of 1, some falling run of positive closes emits a sell |
| `FallingMarkets.FallingCanBuy` | src/orvixa/analytics/indicators.py:20-80 | with signals on, a reachable confidence and the fast period longer, whatever the RSI period, some falling run of positive closes emits a buy |
| `RisingMarkets.RisingSilenceIff` | src/orvixa/analytics/signals.py:61-110 | for all periods and windows, rising markets of positive closes are silent iff signals are off, the minimum confidence exceeds 100, the fast period is not longer than the slow one, or the lag (fast - slow) / (fast + 1) is too small for a down trend (0.0005) or for the minimum confidence |
| `RisingMarkets.RisingCanSell` | src/orvixa/analytics/indicators.py:20-80 | for every other setting some rising run of positive closes emits a sell |
| `RisingMarkets.RisingLag` | src/orvixa/analytics/trend.py:33-55 | while prices never fall, the separation of the averages stays strictly above -100 (fast - slow) / (fast + 1) percent |
| `FallingMarkets.PowersSeparate` | src/orvixa/analytics/indicators.py:20-33 | the memories of the two averages drift apart by any tenth after enough candles |
| `Statistics.AutocorrBounded` | src/orvixa/backtest/signal_validation.py:160-170 | every autocorrelation at every lag lies in [-1, 1] |
| `Statistics.EffectiveSampleSizeBounds` | src/orvixa/backtest/signal_validation.py:173-189 | for n values at horizon h >= 1: n / (2h - 1) <= neff <= n and neff >= 1 |
| `SampleSize.SampleSizeCases` | src/orvixa/backtest/signal_validation.py:173-189 | with s the sum of autocorrelations up to the lag: n samples if s is not positive, one if 1 + 2s reaches n, and in between as many as make samples times (1 + 2s) equal to n |
| `SampleSize.DependenceShrinks` | src/orvixa/backtest/signal_validation.py:173-189 | if no counted lag has a negative autocorrelation and one a positive one, there are fewer effective samples than values |
| `SampleSize.MoreDependenceFewerSamples` | src/orvixa/backtest/signal_validation.py:187-189 | of equally many values, those with the larger sum of autocorrelations never have the larger sample size |
| `SampleSize.RepetitionCorrelates` | src/orvixa/backtest/signal_validation.py:160-170 | values that repeat after a lag are positively autocorrelated at it, unless only the mean repeats |
| `SampleSize.AlternationAnticorrelates` | src/orvixa/backtest/signal_validation.py:160-170 | values that swing to the other side of the mean after a lag are negatively autocorrelated at it |
| `SampleSize.AutocorrOfShape` | src/orvixa/backtest/signal_validation.py:160-170 | autocorrelation is unchanged by shifting and by scaling with anything but zero |
| `SampleSize.SampleSizeOfShape` | src/orvixa/backtest/signal_validation.py:173-189 | so is the effective sample size |
| `SampleSize.FourValues` | src/orvixa/backtest/signal_validation.py:160-189 | a concrete input: 1, 1, -1, -1 has lag-1 autocorrelation 1/4 and counts as 8/3 samples |
| `Statistics.PercentileMonotone` | src/orvixa/backtest/signal_validation.py:192-195 | a higher percentile of sorted values is not smaller |
| `SampleSize.PercentileMeaning` | src/orvixa/backtest/signal_validation.py:192-195 | at most the part p of the values lies below the p-percentile, and more than that part does not exceed it |
| `SampleSize.IntervalCovers` | src/orvixa/backtest/signal_validation.py:228-231 | at most 2.5 percent of the resamples fall short of an interval, and more than 97.5 percent do not exceed it; neither end could be further in |
| `Statistics.BootstrapCi` | src/orvixa/backtest/signal_validation.py:198-231 | the intervals are those of the means of the drawn resamples and of their differences; whatever is drawn, both are ordered and stay inside the range of the data (of the differences, for the edge) |
| `Sorting.SortOrders` | src/orvixa/symbols/ranking.py:28-35 | the sort is ordered by key and a permutation |
| `Sorting.SortIsStable` | src/orvixa/symbols/ranking.py:28-35 | equal keys keep their original order |
| `Sorting.SortCommutesWithFilter` | src/orvixa/symbols/ranking.py:28-35 | sorting stably and then filtering is filtering and then sorting |
| `Ranking.AltRankingIsFiltered` | src/orvixa/symbols/ranking.py:28-35 | ranking the statistics any filter keeps is the ranking of all, filtered |
| `Ranking.TopAltsRankHigher` | src/orvixa/symbols/ranking.py:28-35 | for any filter, what heads the filtered ranking has a strictly smaller position in the full one than whatever else the filter keeps, ties included |
| `RankTheorems.ScoreBounds` | src/orvixa/symbols/ranking.py:21-25 | for nonnegative volume and count the score lies between the volume and 1.65 times it, and reaches both |
| `RankTheorems.PremiumMonotone` | src/orvixa/symbols/ranking.py:21-25 | more trades and a larger absolute change never lower the score's premium over the volume |
| `TieringTheorems.AltStatsAreFiltered` | src/orvixa/symbols/manager.py:249-254 | selecting alt pairs and then looking up statistics is looking up all and keeping the alts |
| `TieringTheorems.TopNRanksHigher` | src/orvixa/symbols/manager.py:239-257 | in a refresh, every pair of the top list has a strictly smaller rank than every ranked alt outside it, ties included |
| `RankTheorems.RankedIff` | src/orvixa/symbols/manager.py:239-243 | a pair has a rank iff it is active and has statistics |
| `RankTheorems.RankFollowsScore` | src/orvixa/symbols/ranking.py:28-35 | a strictly better score is a strictly smaller rank |
| `RankTheorems.DominantRanksHigher` | src/orvixa/symbols/manager.py:239-243 | a pair with the larger, positive volume and no fewer trades and no smaller absolute change has the strictly smaller rank |
| `RankTheorems.VolumeDecides` | src/orvixa/symbols/manager.py:239-243 | a volume more than 65 percent larger outranks whatever the trades and price changes are |
| `RankTheorems.DominantIsInTop` | src/orvixa/symbols/manager.py:245-257 | no alt in the top list leaves out an active alt that has more volume and is nowhere else behind |
| `RankTheorems.TiesKeepExchangeOrder` | src/orvixa/symbols/ranking.py:34 | pairs of equal score are ranked in the order in which the exchange lists them |
| `ForwardReturns.FirstAtOrAfter` | src/orvixa/backtest/signal_validation.py:125-130 | the scan stops at the first candle from the entry on that is not before the target time |
| `ForwardReturns.ForwardReturnsAt` | src/orvixa/backtest/signal_validation.py:102-137 | every horizon gets exactly its forward return, or none |
| `ForwardReturns.TargetIsFirst` | src/orvixa/backtest/signal_validation.py:118-130 | on ascending timestamps the target is the first candle of the whole series at or after entry plus h intervals |
| `ForwardReturns.TargetMonotone` | src/orvixa/backtest/signal_validation.py:118-130 | a longer horizon never looks at an earlier candle |
| `ForwardReturns.GapFreeTarget` | src/orvixa/backtest/signal_validation.py:102-137 | without gaps the target is h candles after the entry |
| `ForwardReturns.ReadsFromEntryOnly` | src/orvixa/backtest/signal_validation.py:102-137 | a forward return depends on no candle before its entry |
| `ForwardReturns.ReturnIsGrowth` | src/orvixa/backtest/signal_validation.py:131-136 | a present return r leads from the entry's close to the target's: entry close times (1 + r) is the target's close |
| `ForwardReturns.ReturnSign` | src/orvixa/backtest/signal_validation.py:131-136 | for a positive entry close the return is positive (zero) iff the target closes higher (equal) |
| `ForwardReturns.ReturnPresentIff` | src/orvixa/backtest/signal_validation.py:112-137 | without gaps a return is present iff entry and target lie inside the series and the entry's close is not zero |
| `ForwardReturns.ReturnsCompound` | src/orvixa/backtest/signal_validation.py:102-137 | without gaps the growth over h candles times the growth over the next k is the growth over h + k |
| `ForwardReturns.BaselineReturns` | src/orvixa/backtest/signal_validation.py:140-157 | per horizon, the present forward returns of all candles in order |
| `ForwardReturns.RegimeConditionedBaselines` | src/orvixa/backtest/regime_validation.py:136-156 | per bucket and horizon, the present forward returns of exactly the candles tagged with it, in order |
| `ForwardReturns.PoolsPartitionBaseline` | src/orvixa/backtest/regime_validation.py:136-156 | the bucket pools together are the global baseline, as a multiset and in total |
| `ForwardReturns.WeightedBucketsMatchBaseline` | src/orvixa/backtest/regime_validation.py:136-156 | the count-weighted mean of the bucket baselines is the global baseline mean |
| `Replay.RegimeBaselines` | src/orvixa/backtest/regime_validation.py:222-224 | of what the tagging and the two baseline functions return for one symbol: at every horizon the regime pools are the global baseline as a multiset, and their count-weighted mean is its mean |
| `ForwardReturns.PoolsMakeBaseline` | src/orvixa/backtest/regime_validation.py:136-156 | the same for any tagging of the candles, in terms of the returned maps |
| `Replay.ReplaySymbol` | src/orvixa/backtest/signal_validation.py:234-283 | the captured entries are those of the fresh engine's signals at every candle, with their forward returns |
| `Replay.CapturedTrace` | src/orvixa/backtest/signal_validation.py:268-281 | the captured signals are the trace of signals, whatever the horizons |
| `ReplayTheorems.CapturedMeaning` | src/orvixa/backtest/signal_validation.py:268-281 | every captured entry belongs to a candle: its time and close, a decision of its kind, enough confidence, and per horizon the growth from that candle's entry on |
| `Replay.TraceIsStable` | src/orvixa/backtest/signal_validation.py:268-281 | appending candles never changes a captured signal |
| `Replay.ComputeRegimeTags` | src/orvixa/backtest/regime_validation.py:88-109 | the separate indicator fold tags every candle with the regime of the history up to it |
| `ReplayTheorems.TagMeaning` | src/orvixa/backtest/regime_validation.py:65-85 | with positive closes the trend regime follows from the 0.05 percent band around the slow average; volatility is high from the threshold on, low up to a third of it, normal in between, unknown without a reading |
| `Replay.TagsAreStable` | src/orvixa/backtest/regime_validation.py:88-109 | appending candles never changes a tag |
| `Replay.SignalsFitTag` | src/orvixa/backtest/regime_validation.py:65-85 | every signal of a candle fits the tag of that candle |
| `Replay.ReplaysAgree` | src/orvixa/backtest/regime_validation.py:226-234 | with distinct timestamps every captured buy is filed under trend=up, every sell under trend=down, every highvol under vol=high |
| `Replay.ComputeClusterTags` | src/orvixa/backtest/regime_validation.py:112-133 | clustered iff an earlier signal of the same type lies at most the window before it, and not at the same time |
| `Replay.ClusterEdges` | src/orvixa/backtest/regime_validation.py:124-132 | a signal of the same type exactly the window earlier clusters, one at the same time or a millisecond further back does not |
| `Replay.FileSignals` | src/orvixa/backtest/regime_validation.py:226-234 | per bucket and type exactly the signals of that bucket and type, in order, with their cluster tags; no empty lists |
| `Replay.CapturedSignalsAreFiled` | src/orvixa/backtest/regime_validation.py:226-234 | no captured signal is dropped, and none lands in a bucket that contradicts it |
| `BatchProtocol.RunInvariant` | src/orvixa/persistence/batch_writer.py:53-105 | every reachable state of every schedule keeps conservation, ownership of batches in flight, the counters and the drain bound |
| `BatchProtocol.Conservation` | src/orvixa/persistence/batch_writer.py:70-105 | items added are the batches taken, in order, followed by the buffer; delivered, failed and in flight are exact; a full buffer is always announced |
| `BatchProtocol.EventMeaning` | src/orvixa/persistence/batch_writer.py:59-92 | in every schedule the event is set iff a full buffer or a stop was announced and no loop was woken since |
| `BatchDrain.RunInOrder` | src/orvixa/persistence/batch_writer.py:86-105 | without a start during a stop at most the last batch is in flight, so batches land in order |
| `BatchDrain.StopDrains` | src/orvixa/persistence/batch_writer.py:59-68 | when stop has returned and nothing was added since its final drain began, the buffer is empty and no batch is in flight |
| `BatchDrain.DrainedDeliversEverything` | src/orvixa/persistence/batch_writer.py:59-105 | with no failed batch a drained writer has handed over everything added, in order |
| `BatchDrain.OverlappingStartReorders` | src/orvixa/persistence/batch_writer.py:53-68 | a start during a stop can deliver the second batch before the first |
| `BatchDiscipline.StartIsSafeIff` | src/orvixa/persistence/batch_writer.py:53-68 | in every state a disciplined caller reaches, a start keeps order and complete drains for good, whatever that caller does next, iff no stop is under way |
| `BatchDiscipline.BreaksOrder` | src/orvixa/persistence/batch_writer.py:53-93 | from every state with a stop under way, a start can be continued so that a later batch lands first |
| `BatchDiscipline.BreaksDrain` | src/orvixa/persistence/batch_writer.py:53-68 | from every state with a stop under way, a start can be continued so that a stop returns, with nothing added since, while a batch is in flight |
| `BatchWriting.BatchWriter.Start` | src/orvixa/persistence/batch_writer.py:53-57 | is the protocol's start step: nothing when running, else one new loop task |
| `BatchWriting.BatchWriter.Stop` | src/orvixa/persistence/batch_writer.py:59-66 | is the protocol's stop step, up to the wait for the loop task |
| `BatchWriting.BatchWriter.Add` | src/orvixa/persistence/batch_writer.py:70-75 | is the protocol's add of one item, announcing a full buffer |
| `BatchWriting.BatchWriter.AddMany` | src/orvixa/persistence/batch_writer.py:77-84 | is the protocol's add of several items; an empty list does nothing |
| `BatchWriting.BatchWriter.LoopTest` | src/orvixa/persistence/batch_writer.py:86-87 | is the loop's test step |
| `BatchWriting.BatchWriter.LoopWake` | src/orvixa/persistence/batch_writer.py:88-92 | is the loop's wake step: the event is cleared before the flush |
| `BatchWriting.BatchWriter.FlushTake` | src/orvixa/persistence/batch_writer.py:95-99 | is the protocol's take step: the whole buffer becomes one batch |
| `BatchWriting.BatchWriter.FlushDone` | src/orvixa/persistence/batch_writer.py:100-105 | is the protocol's completion step: delivered and counted, or failed and counted |
| `BatchWriting.BatchWriter.StopJoined` | src/orvixa/persistence/batch_writer.py:63-68 | is the protocol's step from joining the loop to the final drain |
| `CandleStore.CandleRepository.InsertBatch` | src/orvixa/db/repository.py:219-260 | one batch is the keyed upserts of its rows in order; returns their number |
| `CandleStore.LastWriterWins` | src/orvixa/db/repository.py:219-260 | per key the table holds the last row written for it, and the old row if there is none |
| `CandleStore.BatchesAreUpserts` | src/orvixa/persistence/batch_writer.py:95-105 | batch boundaries do not matter to the table |
| `CandleStore.RedeliveryIsIdempotent` | src/orvixa/db/repository.py:220-226 | redelivering rows the table shows, in any order and number, changes nothing |
| `CandleStore.ReplayIsIdempotent` | src/orvixa/db/repository.py:220-226 | delivering a whole stretch twice is delivering it once |
| `CandleStore.CacheIsTransparent` | src/orvixa/persistence/candles.py:71-78 | with ids that are handed out once, the cache never changes which row is written |
| `CandleStore.CandleSink.HandleCandle` | src/orvixa/persistence/candles.py:48-69 | only closed candles of known symbols reach the writer, as one row under their id |
| `CandleStore.CandleSink.ResolveSymbolId` | src/orvixa/persistence/candles.py:71-78 | cached id, else the registry's, which is then cached |
| `CandleStore.AddedAreArrivals` | src/orvixa/persistence/candles.py:48-69 | in every joint schedule of candle callbacks and writer steps, the writer has been given exactly the rows of the candles that arrived |
| `CandleStore.DrainedTableIsLastWriterWins` | src/orvixa/persistence/candles.py:48-78 | end to end: in every joint schedule of candle callbacks, flushes and stops without a failed batch, the drained table is the last-writer-wins fold over closed resolvable candles in arrival order |
| `CandleStore.TableShowsCandles` | src/orvixa/persistence/candles.py:48-69 | under the key of any arrival that is the last for it, the table shows open, high, low, close, volume, quote volume, trades and taker volume of that candle |
| `CandleStore.DrainedTableShowsLastCandles` | src/orvixa/persistence/candles.py:48-78 | in every such joint schedule the drained table shows, under each key a closed, resolvable candle arrived for, all fields of the last such candle, and is unchanged elsewhere |
| `FeedProtocol.StreamsTrackSymbols` | src/orvixa/feeds/binance.py:124-160 | in every run, a stored socket with its frames applied is wrong about a name iff that name has an odd number of unsent changes since its last sent one |
| `FeedProtocol.OnlyConnectWindowDrifts` | src/orvixa/feeds/binance.py:190-212 | if no control frame failed, the socket is wrong only about names changed between building its URL and storing it |
| `FeedProtocol.RunBacksOff` | src/orvixa/feeds/binance.py:163-212 | delays follow the schedule within 25 percent, the count restarts exactly at the first failure after a clean session, and the loop stops past the limit; sessions after the first are resubscriptions |
| `FeedProtocol.DelaysGrow` | src/orvixa/feeds/binance.py:170-188 | in every run the delays lie within 25 percent above 1, 2, 5, 10, 20, 30, 30, ... seconds by failures in a row, and grow strictly until the last step |
| `FeedProtocol.JitterCovers` | src/orvixa/feeds/binance.py:186-188 | every delay of that band is some random number's |
| `BinanceFeeds.BinanceFeed.Subscribe` | src/orvixa/feeds/binance.py:124-135 | is the protocol's subscribe step; the set grows even when the send raises |
| `BinanceFeeds.BinanceFeed.Unsubscribe` | src/orvixa/feeds/binance.py:137-143 | is the protocol's unsubscribe step; the set shrinks even when the send raises |
| `BinanceFeeds.UpperMeaning` | src/orvixa/feeds/binance.py:124-143 | upper-casing leaves no lower-case letter, changes nothing else, and is idempotent |
| `BinanceFeeds.BinanceFeed.SendSub` | src/orvixa/feeds/binance.py:237-249 | a frame is queued on the stored socket, if there is one and the send gets through |
| `BinanceFeeds.BinanceFeed.BuildUrl` | src/orvixa/feeds/binance.py:190-193 | the URL carries the set of this moment |
| `BinanceFeeds.BinanceFeed.StoreSocket` | src/orvixa/feeds/binance.py:194-206 | is the protocol's step from URL to session |
| `BinanceFeeds.BinanceFeed.Lost` | src/orvixa/feeds/binance.py:170-188 | is the protocol's failure step: delay recorded, given up past the limit |
| `BinanceFeeds.BinanceFeed.Closed` | src/orvixa/feeds/binance.py:166-168 | is the protocol's clean end: the backoff starts over |
| `SpikeHysteresis.PromotionRefinesHistory` | src/orvixa/symbols/manager.py:291-367 | after any run a symbol is spike-promoted iff a past spike (or the loaded tag) is sustained: never ranked since and fewer calm traded cycles than the grace, frozen cycles not counting |
| `SpikeHysteresis.TicksMeaning` | src/orvixa/symbols/manager.py:329-351 | the counter is the number of calm cycles since the last spike while promoted, so a stale count never shortens a later grace |
| `SpikeHysteresis.HistoryIsObserved` | src/orvixa/symbols/manager.py:320-367 | the observed history is the same for universes that differ only in tiers, classes, tags, promotions and calm counts, so promotion refines a history of inputs |
| `PromotionTheorems.PromotedIff` | src/orvixa/symbols/manager.py:276-367 | for an unranked symbol with one active pair and statistics: promoted after a refresh iff its volume or trades reached the multiple of the positive ones before, its change reached the threshold, or it was promoted with grace left; that is also what the history observes |
| `PromotionTheorems.StaleStatisticsRepeat` | src/orvixa/symbols/manager.py:276-289 | a cycle without new statistics repeats the last observation, spikes included |
| `TieringTheorems.TiersCharacterised` | src/orvixa/symbols/manager.py:291-351 | after every refresh tier, class and tags of a trading symbol follow from core, meme, top list and promotion |
| `TieringTheorems.RefreshedTradesUnderLast` | src/orvixa/symbols/manager.py:268-289 | a trading symbol's pair is the last active one with its base |
| `TieringTheorems.ListedMetrics` | src/orvixa/symbols/manager.py:268-289 | a symbol with one active pair trades under it with its rank; new statistics replace the last ones, which are kept for the spike comparison |
| `TieringTheorems.RankIsPosition` | src/orvixa/symbols/manager.py:242-243 | the rank of a pair is its place in the global ranking, counted from 1 |
| `TieringTheorems.UnlistedOnlyFreezes` | src/orvixa/symbols/manager.py:259-266 | a symbol the exchange no longer lists freezes and changes in nothing else, promotion included |
| `TieringTheorems.VolumeSlotsFilled` | src/orvixa/symbols/manager.py:249-257 | untagged tier-1 alts number at most min(tier1 size, ranked alts), and exactly that iff no top pair is shadowed by a later active pair of the same base |
| `TieringTheorems.ShadowedPair` | src/orvixa/symbols/manager.py:268-289 | two pairs of one base, the first with statistics and the second without, leave the only volume slot empty |
| `TieringTheorems.ShadowedPairLeavesSlotEmpty` | src/orvixa/symbols/manager.py:268-289 | a concrete input: PEPEUSDT with statistics and 1000PEPEUSDT without, one slot, nobody in it |
| `TieringTheorems.RelistingIsNotLogged` | src/orvixa/symbols/manager.py:276-278 | a frozen symbol enters a cycle's log iff its tier or class changes in it, whether it is relisted or not |
| `TieringTheorems.RelistedLog` | src/orvixa/symbols/manager.py:276-318 | a frozen symbol that is listed again trades after the cycle, and has no log entry iff the tier and class that core, meme, top list, spike or unexpired promotion give it are the ones it froze with |
| `TieringTheorems.SilentRelisting` | src/orvixa/symbols/manager.py:276-311 | a concrete input: a frozen REST symbol is listed again without statistics, trades, and is not logged |
| `TieringTheorems.LogIsFaithful` | src/orvixa/symbols/manager.py:259-318 | over whole runs each symbol's log entries start at its first tier, chain, and end at its current tier, delistings and pair renames included |
| `TieringTheorems.FaithfulIsChain` | src/orvixa/symbols/manager.py:303-318 | each entry's from-tier is the previous entry's to-tier |
| `PromotionTheorems.CycleLog` | src/orvixa/symbols/manager.py:259-318 | the whole log of one cycle for one symbol: a delisting under the old pair if that left the exchange, then one entry under the new pair if tier or class changed, naming a spike iff the symbol is promoted afterwards, a demotion iff it fell from tier 1 to tier 2 |
| `PromotionTheorems.DropoutLooksLikeSpike` | src/orvixa/symbols/manager.py:305-309 | a concrete input: an alt that was never promoted and leaves tier 1 is logged as a demoted spike |
| `TieringTheorems.RefreshKeepsTags` | src/orvixa/symbols/manager.py:301-304 | "spike" is in the tags iff the symbol is promoted, for every known symbol, frozen ones included |
| `TieringTheorems.RestartRoundTrip` | src/orvixa/symbols/manager.py:158-174 | loading the persisted rows rebuilds pair, tier, class, status, tags, rank and the promoted set exactly |
| `TieringTheorems.LoadedBases` | src/orvixa/symbols/manager.py:158-174 | a base is in the loaded universe iff some row has it |
| `TieringTheorems.LoadedAgrees` | src/orvixa/symbols/manager.py:158-174 | rows with one base each load as a universe whose tags and promoted set agree |
| `TieringTheorems.EveryRunRestarts` | src/orvixa/symbols/manager.py:370-389 | from the rows of any earlier run, every universe any run reaches can be persisted and loaded again with every persisted field and the promoted set intact |
| `Subscriptions.SetsAgree` | src/orvixa/symbols/manager.py:470-488 | while no call raises, the feed's set, the record and the watchlist are the same after every cycle |
| `Subscriptions.RunIsSubscribed` | src/orvixa/symbols/manager.py:204-237 | over any run of refreshes whose calls succeed, the feed's set and the record are exactly the watchlist, through delisting, relisting, pair change, promotion and demotion |
| `Subscriptions.SyncRepairsIff` | src/orvixa/symbols/manager.py:478-488 | after earlier failures, a sync that goes through restores agreement iff what leaked is wanted again and what was lost is not |
| `Subscriptions.LeaksAndLosses` | src/orvixa/symbols/manager.py:470-488 | over any sequence of cycles with failures: a name is subscribed without a record (recorded without a subscription) iff one raised call left it so and no completed sync since has settled it |
| `Subscriptions.RaisedSubscribeLeaks` | src/orvixa/symbols/manager.py:478-488 | a concrete input: a pair whose subscription raised and which is dropped in the next cycle is still subscribed after it |
| `SymbolManaging.SymbolState.List` | src/orvixa/symbols/manager.py:276-289 | a listed record trades under the new pair, keeps the previous statistics for comparison and takes over new ones |
| `SymbolManaging.SymbolManager.LoadExisting` | src/orvixa/symbols/manager.py:158-174 | the records and promoted set are those of the rows, whatever they hold, a later row of the same base winning; conforming rows give a valid manager |
| `SymbolManaging.SymbolManager.MarkDelistings` | src/orvixa/symbols/manager.py:259-266 | exactly the trading records whose pair left the exchange are frozen, and exactly those are logged |
| `SymbolManaging.SymbolManager.ListPair` | src/orvixa/symbols/manager.py:268-289 | one pair discovers, relists or renames the record of its base and touches no other |
| `SymbolManaging.SymbolManager.SyncListings` | src/orvixa/symbols/manager.py:268-289 | the universe is the fold of the listings over the active pairs in exchange order |
| `SymbolManaging.SymbolManager.ApplySpikeLogic` | src/orvixa/symbols/manager.py:329-351 | promotion, grace and demotion of one record, leaving the calm count alone on the ranked branch |
| `SymbolManaging.SymbolManager.AssignTier` | src/orvixa/symbols/manager.py:291-318 | tags, tier, class and the logged transition of one trading record |
| `SymbolManaging.SymbolManager.AssignTiers` | src/orvixa/symbols/manager.py:291-318 | every trading record is re-tiered from its own state before the pass, frozen ones are skipped, changes are logged in order |
| `SymbolManaging.SymbolManager.PersistAll` | src/orvixa/symbols/manager.py:370-389 | every known symbol's row is written and no other row changes |
| `SymbolManaging.SymbolManager.PersistTierChanges` | src/orvixa/symbols/manager.py:391-411 | transitions are appended in order, skipping symbols without a row |
| `SymbolManaging.RefreshLogsKnown` | src/orvixa/symbols/manager.py:220-227 | no transition of a cycle is skipped for want of a row |
| `SymbolManaging.RefreshedPairsActive` | src/orvixa/symbols/manager.py:472-476 | only pairs the exchange lists as active are on the watchlist after a refresh |
| `PromotionTheorems.WatchedIff` | src/orvixa/symbols/manager.py:470-476 | a pair is on the watchlist after a refresh iff it is the last active one of its base and that is core, meme or promoted, or the pair is in the top list |
| `SymbolManaging.SymbolManager.WatchlistIsView` | src/orvixa/symbols/manager.py:472-476 | the watchlist is that of the universe |
| `SymbolManaging.SymbolManager.SyncFeed` | src/orvixa/symbols/manager.py:470-488 | the feed and the record move by exactly the difference to the watchlist; a raised call leaves the record as it was |
| `SymbolManaging.SymbolManager.Retier` | src/orvixa/symbols/manager.py:214-222 | rank, delist, list and tier take the universe to the refreshed one and return all transitions |
| `SymbolManaging.Restart` | src/orvixa/symbols/manager.py:127-174 | a new process over the table of an old one restores its universe exactly, metrics and calm counts aside, and the table is again the rows of the universe |
| `SymbolManaging.SymbolManager.RefreshUniverse` | src/orvixa/symbols/manager.py:204-237 | one whole cycle: new universe, rows, log and counters, a table that is exactly the universe's rows, and, if the calls go through and the sets agreed, feed set = record = watchlist |

## Left out

- Database driver, SQL text and migrations, HTTP and WebSocket calls, JSON decoding, the web application, settings parsing, logging: I/O; tables are maps or append-only sequences.
- Rounding of real floating-point arithmetic, the values of logarithm and square root, conversion between datetimes and milliseconds.
- The random generator and its seeding: the draws are inputs of `BootstrapCi`, one resample per iteration.
- Display payloads and `components` dictionaries of signals and events: they only repeat rounded inputs.
- Non-positive lookbacks and zero thresholds: the code divides by them or sizes a deque with them, and the model asks for usable settings (`Settings.Usable`).
- `run_signal_validation`, `compute_signal_metrics` beyond its baselines, and the remaining per-bucket sums and labels of `compute_regime_metrics`: counts, sums and thresholds that would only add easy members.
- Health, market regime, breadth, policy validation, watchlist sorting, simulator, dataset and CSV loading: clamps, filters and one-pass counts.
- Timers, sleep durations and liveness: a loop may wake at any step, and nothing is said about when.
- Cancellation of coroutines: a schedule only starts, stops, adds and resumes. Candle callbacks run one at a time, as the feed awaits each.
- The lock of the batch writer: its bodies contain no suspension point, so each is one step; the same holds for the refresh lock, one refresh at a time.
- BatchDiscipline.StartIsSafeIff: the protocol also pauses a loop and a stop right before they take the buffer (`LoopFlushing`, `StopDraining`), where the source awaits a lock that is free and runs on. Every theorem over schedules therefore covers those of the source and more, and the states this one quantifies over include pauses the source does not make.
- `stop` of the feed, message handling, the fan-out to callbacks and gap-fill (its failures are swallowed by the source): between sessions the protocol knows only "lost" and "closed". The resubscription count is taken when the socket is stored, before the gap-fill.
- Lower-casing of stream names: a stream is identified with the upper-case pair. Upper-casing is modelled for ASCII letters.
- Metrics snapshots, the breadth snapshot and the numeric ids of the symbol table: written and never read back by the components here; symbol rows are keyed by their base.
- SymbolManaging.SymbolManager.RefreshUniverse: agreement of the three sets is stated for upper-case pairs, which `src/orvixa/symbols/client.py:74` and `src/orvixa/symbols/manager.py:111` guarantee.
- SymbolManaging.SymbolManager.LoadExisting: rows arrive in the order of their ids (`src/orvixa/db/repository.py:83-84`); that this is the order of discovery is the reading behind `Listing`.
- Engine.AnalyticsEngine.HandleCandle: inserts of signals and events always succeed. In the source a raised signal insert skips the rest of the candle, event evaluation included, so that the event history misses it from then on (`src/orvixa/analytics/engine.py:168-197`).
- Engine.AnalyticsEngine.Record: as for `HandleCandle`, a raised insert half way through the rows is not modelled.
- CandleStore.DrainedTableIsLastWriterWins: with a failed batch the rows of that batch are lost, as in the source; the theorem is about runs without one.
- CandleStore.CacheIsTransparent: assumes that the id of a base never changes once handed out, as the upsert on the base guarantees.
- TieringTheorems.VolumeSlotsFilled: a negative tier-1 size, which Python slices from the end, is modelled in `TakeFirst` but not counted.
- MarketTheorems.MonotoneMarketIsSilent: is about fast periods up to the slow one; longer ones are in `FallingSilenceIff` and `RisingSilenceIff`.
- Engine.IndicatorBook.Fold: the engine's `_indicators` dictionary is an object of its own here, so that the ownership of calculators is stated once.
