# Intraday predictor: a verified model of its decision logic

This project models the decision logic of a daily stock-prediction bot in Dafny. Each evening the bot runs `generate_predictions`:
- it scores every ticker from its daily bars (RSI, MACD, volume surge, trend, breakout proximity);
- it keeps the tickers scoring above 4.0;
- it sorts them by score, best first, and keeps the top five;
- for each of those it stores an entry, a stop-loss and a target derived from the ATR.

The next day `analyze_predictions` runs the post-mortem:
- it classifies each prediction against the day's high and low as NO ENTRY, STOP LOSS HIT, TARGET HIT or STAGNANT;
- it explains each outcome in a sentence built from volume, trend and intraday cues;
- it counts the outcomes and records the day's win rate;
- when the win rate is below 40%, it retrains the ATR multiplier and the risk-reward ratio by a grid search over simulated outcomes.

Each source file maps to one module:
- `numeric.dfy`: Option, maxima, sums and rounding to 2 or 4 decimals.
- `text.dfy`: Python's substring test on strings.
- `trading_days.dfy`: `trading_days.py`.
- `indicators.dfy`: the indicator helpers of `prediction_engine.py`.
- `storage.dfy`: an abstract store for the tables of `database.py`.
- `prediction_engine.dfy`: scoring, levels and selection.
- `why_generator.dfy`: the reason text.
- `performance_analyzer.dfy`: classification, simulation, retraining and the analysis loop.

Dates are day numbers, namely Python's proleptic Gregorian ordinals. A value pandas would leave NaN is `None`. The loops of the source are `while`/`for` loops proved against the functions that define their results. The database is a `Store` class whose methods update its maps and log.

Three consequences of the code are proved:
- **Retraining always writes the ratio 1.5** (`PerformanceAnalyzer.RetrainedPicksBest`). For a fixed multiplier, a larger ratio only moves the simulated target further away, so it never wins more rows. The search keeps the first pair with a strictly better rate. So the pair it settles on always has the first ratio of the grid, 1.5.
- **Retraining does not feed back into predictions.** It back-derives every row's ATR with the currently stored multiplier. Levels and selection, however, use the constants 1.5, 2.0, 4.0 and 5, never the stored parameters.
- **NO ENTRY results count in the denominator** of the win rate.

Where the description of the system and the code disagree, the model follows the code:
- `insert_predictions` stores only six columns. Score and ATR are returned but not persisted (`PredictionEngine.RowOf`).
- `get_all_model_params` lays the stored rows over the defaults, so `params.get` in retraining always finds both keys.

## Model

| member | source | states |
|---|---|---|
| Numeric.Max | intraday_predictor/prediction_engine.py:115 | the result is at least both arguments and equals one of them |
| Numeric.Abs | intraday_predictor/prediction_engine.py:24 | the result is non-negative, bounds x and -x, and is one of them |
| Numeric.Min | intraday_predictor/prediction_engine.py:138 | the result is at most both arguments and equals one of them |
| Numeric.SeqMax | intraday_predictor/prediction_engine.py:102 | the maximum of a non-empty series is one of its elements and bounds all of them |
| Numeric.SumNonNegative | intraday_predictor/prediction_engine.py:26 | a sum of non-negative values is non-negative |
| Numeric.SumZero | intraday_predictor/prediction_engine.py:30-31 | a sum of non-negative values is zero exactly when every value is zero |
| Numeric.Round2 | intraday_predictor/prediction_engine.py:115-118 | rounding to two decimals moves a value by at most half a cent |
| Numeric.Round4 | intraday_predictor/performance_analyzer.py:126 | rounding to four decimals moves a value by at most half of 0.0001 |
| Numeric.Round2Monotone | intraday_predictor/prediction_engine.py:115-118 | rounding to two decimals preserves <= |
| Numeric.Round2Idempotent | intraday_predictor/prediction_engine.py:115-116 | rounding an already rounded value changes nothing |
| Numeric.RoundOnCentGrid | intraday_predictor/prediction_engine.py:151 | a whole number of cents is left unchanged by rounding |
| Numeric.Round4Monotone | intraday_predictor/performance_analyzer.py:126 | rounding to four decimals preserves <= |
| Numeric.Round4Bounds | intraday_predictor/performance_analyzer.py:126 | a rate in [0, 1] stays in [0, 1] after rounding |
| TradingDays.Weekday | intraday_predictor/trading_days.py:8 | the weekday of a day number lies in 0..6 (Monday 0) |
| TradingDays.WeekdayStep | intraday_predictor/trading_days.py:7-9 | stepping k days forward advances the weekday by k modulo 7 |
| TradingDays.FirstTradingDayAfterIsFirst | intraday_predictor/trading_days.py:5-10 | the closed form is after d, a weekday, at most 3 days on, and every day between is a weekend day |
| TradingDays.LastTradingDayBeforeIsLast | intraday_predictor/trading_days.py:13-18 | the closed form is before d, a weekday, at most 3 days back, and every day between is a weekend day |
| TradingDays.NextTradingDay | intraday_predictor/trading_days.py:5-10 | the loop returns the first weekday strictly after d, at most 3 days on, after at most two extra steps |
| TradingDays.PrevTradingDay | intraday_predictor/trading_days.py:13-18 | the loop returns the last weekday strictly before d, at most 3 days back |
| TradingDays.PrevOfNext | intraday_predictor/trading_days.py:5-18 | for a weekday d, the previous trading day of its next trading day is d |
| TradingDays.NextOfPrev | intraday_predictor/trading_days.py:5-18 | for a weekday d, the next trading day of its previous trading day is d |
| Indicators.WindowMean | intraday_predictor/prediction_engine.py:26 | a rolling mean is defined exactly when the window is full and has no missing entry, and is then the window's mean |
| Indicators.RollingMeanOfDefined | intraday_predictor/prediction_engine.py:26 | over a series without gaps, the rolling mean is missing exactly for the first w - 1 entries |
| Indicators.WindowMeanNonNegative | intraday_predictor/prediction_engine.py:31-32 | the rolling mean of non-negative entries is non-negative |
| Indicators.TrueRange | intraday_predictor/prediction_engine.py:20-25 | the true range is at least high - low, and non-negative after the first bar |
| Indicators.TrueRangeMeanNonNegative | intraday_predictor/prediction_engine.py:26 | once the window no longer reaches the first bar, the mean true range is defined and non-negative |
| Indicators.Atr | intraday_predictor/prediction_engine.py:19-26 | the ATR is undefined exactly for the first 13 bars, and non-negative from the 15th bar on |
| Indicators.Gains | intraday_predictor/prediction_engine.py:31 | clipped gains are non-negative and missing exactly where the deltas are |
| Indicators.Losses | intraday_predictor/prediction_engine.py:32 | clipped losses are non-negative and missing exactly where the deltas are |
| Indicators.RsiOf | intraday_predictor/prediction_engine.py:33-34 | the RSI lies in [0, 100]; it is undefined exactly when gain and loss are both 0; it is 100 when only the loss is 0 |
| Indicators.Rsi | intraday_predictor/prediction_engine.py:29-34 | one RSI entry per close |
| Indicators.RsiDefinedness | intraday_predictor/prediction_engine.py:28-33 | the RSI is undefined for the first 14 closes and lies in [0, 100] wherever defined; from the 15th close on it is undefined exactly when the last 15 closes are all equal (0/0) |
| Indicators.RsiWindow | intraday_predictor/prediction_engine.py:29-31 | over a full window the mean gain and mean loss are defined, and both are 0 exactly when no close differs from the one before |
| Indicators.GainWindow | intraday_predictor/prediction_engine.py:29-30 | the mean gain of a full window is 0 exactly when no close rises |
| Indicators.LossWindow | intraday_predictor/prediction_engine.py:29-31 | the mean loss of a full window is 0 exactly when no close falls |
| Indicators.FlatWindow | intraday_predictor/prediction_engine.py:29 | neighbouring closes agree across a window exactly when all of them equal the last |
| Indicators.Alpha | intraday_predictor/prediction_engine.py:38 | the smoothing factor 2 / (span + 1) lies in (0, 1] |
| Indicators.Ema | intraday_predictor/prediction_engine.py:37-38 | y0 = x0 and yi = a xi + (1 - a) y(i-1), one entry per input |
| Indicators.EmaSpan | intraday_predictor/prediction_engine.py:37-38 | the EMA of a span has the input's length |
| Indicators.WeightShrinks | intraday_predictor/prediction_engine.py:38 | a weight in [0, 1] shrinks a non-negative difference |
| Indicators.ConvexStep | intraday_predictor/prediction_engine.py:38 | one EMA step of two values in [lo, hi] stays in [lo, hi] |
| Indicators.EmaWithinBounds | intraday_predictor/prediction_engine.py:37-38 | every EMA entry lies within the bounds of the inputs |
| Indicators.SignalLine | intraday_predictor/prediction_engine.py:45 | the signal line, the EMA9 of MACD, has the input's length |
| Indicators.MacdOfConstant | intraday_predictor/prediction_engine.py:40-45 | constant closes give a zero MACD line and a zero signal line, so a flat series has no positive MACD and no crossover |
| Indicators.VolumeSma | intraday_predictor/prediction_engine.py:49-50 | the 20-bar volume mean is undefined exactly for the first 19 bars |
| Storage.Overlay | intraday_predictor/database.py:376-384 | stored parameters win; every default not stored is kept; no other key appears |
| Storage.UpsertedKeys | intraday_predictor/database.py:189-230 | upserting adds exactly the rows' keys and leaves every other row alone |
| Storage.UpsertedLastWins | intraday_predictor/database.py:189-230 | the row kept under a key is the last row written with it |
| Storage.Store.AllParams | intraday_predictor/database.py:376-384 | the parameters read always include every default key |
| Storage.Store.SetParam | intraday_predictor/database.py:350-373 | one parameter is inserted or replaced; nothing else changes |
| Storage.Store.InsertPredictions | intraday_predictor/database.py:189-230 | each row replaces the row with its key, in order; nothing else changes |
| Storage.Store.UpdateOutcome | intraday_predictor/database.py:250-280 | the actuals, outcome and reason are written onto the stored prediction with the key, and nothing changes when no stored prediction has it; the other tables are unchanged |
| Storage.Store.InsertMetrics | intraday_predictor/database.py:283-319 | one metrics row is appended; nothing else changes |
| PredictionEngine.High20 | intraday_predictor/prediction_engine.py:102 | the highest high of the last (up to) 20 bars: it bounds them all and is one of them |
| PredictionEngine.LatestSignals | intraday_predictor/prediction_engine.py:53-72 | fewer than 30 bars are never scoreable |
| PredictionEngine.ScoreableWhen | intraday_predictor/prediction_engine.py:71-72 | with 30 bars or more, a stock is not scoreable exactly when the latest RSI is undefined or the latest ATR is 0 |
| PredictionEngine.LatestSignalsBounds | intraday_predictor/prediction_engine.py:63-72 | a scoreable stock has its latest RSI in [0, 100], a positive ATR, and the latest close and 20-bar high |
| PredictionEngine.RsiPoints | intraday_predictor/prediction_engine.py:77-80 | the RSI bands are exclusive: 2 exactly for 40-60, 1 exactly for above 60 up to 70, else 0 |
| PredictionEngine.VolumePoints | intraday_predictor/prediction_engine.py:89-94 | volume scores 2 exactly above 1.5x, 1 exactly in (1.2x, 1.5x], and only against a positive average |
| PredictionEngine.Points | intraday_predictor/prediction_engine.py:74-106 | the score lies in [0, 10.5] |
| PredictionEngine.TopScore | intraday_predictor/prediction_engine.py:74-106 | the score is 10.5 exactly when every condition holds |
| PredictionEngine.PointsRoundExact | intraday_predictor/prediction_engine.py:151 | every score is a whole number of cents, so rounding it changes nothing |
| PredictionEngine.Score | intraday_predictor/prediction_engine.py:53-106 | no score exactly when not scoreable, in particular under 30 bars; a score lies in [0, 10.5] |
| PredictionEngine.ScoreRoundExact | intraday_predictor/prediction_engine.py:151 | `round(score, 2)` returns the score unchanged |
| PredictionEngine.ScoreStock | intraday_predictor/prediction_engine.py:53-106 | the method returns the score the definition gives |
| PredictionEngine.AddPoints | intraday_predictor/prediction_engine.py:74-106 | the successive `+=` amount to the weighted sum of the conditions that hold |
| PredictionEngine.RawLevels | intraday_predictor/prediction_engine.py:113-118 | before rounding: entry is the larger of the 20-bar high and close + 0.3·ATR; sl is 1.5·ATR below; target - entry = 2·(entry - sl); with ATR > 0, sl < entry < target |
| PredictionEngine.CalculateLevels | intraday_predictor/prediction_engine.py:109-120 | after rounding, sl <= entry <= target (with more than 14 bars) |
| PredictionEngine.LevelsEntry | intraday_predictor/prediction_engine.py:113-115 | the rounded entry is within half a cent of the raw entry and not below the rounded 20-bar high |
| PredictionEngine.RoundedLevelsOrdered | intraday_predictor/prediction_engine.py:115-118 | with a non-negative ATR, rounding each level in turn keeps sl <= entry <= target |
| PredictionEngine.CandidateOf | intraday_predictor/prediction_engine.py:127-135 | a ticker is kept exactly when its fetch succeeded, its frame is non-empty and its score is above 4.0 |
| PredictionEngine.Scored | intraday_predictor/prediction_engine.py:124-135 | every scored entry is a listed ticker whose score is above 4.0 |
| PredictionEngine.ScoredComplete | intraday_predictor/prediction_engine.py:126-133 | every qualifying ticker is in the scored list |
| PredictionEngine.InsertDesc | intraday_predictor/prediction_engine.py:137 | inserting adds exactly c to the multiset |
| PredictionEngine.InsertDescSorted | intraday_predictor/prediction_engine.py:137 | inserting into a list sorted best first keeps it sorted |
| PredictionEngine.SortDesc | intraday_predictor/prediction_engine.py:137 | the sort is a permutation, non-increasing in score |
| PredictionEngine.InsertDescStable | intraday_predictor/prediction_engine.py:137 | inserting puts c after the entries with its score that came later in the input, so ties keep their order |
| PredictionEngine.SortDescStable | intraday_predictor/prediction_engine.py:137 | the sort is stable: entries sharing a score keep their input order |
| PredictionEngine.Top | intraday_predictor/prediction_engine.py:138 | the first min(5, n) entries, a prefix of the list |
| PredictionEngine.Selection | intraday_predictor/prediction_engine.py:126-138 | at most five entries, each a scored ticker whose score is above 4.0 |
| PredictionEngine.WithScorePrefix | intraday_predictor/prediction_engine.py:138 | a prefix keeps a prefix of each score's entries |
| PredictionEngine.SelectionOrdered | intraday_predictor/prediction_engine.py:137-138 | the selection is non-increasing in score |
| PredictionEngine.SelectionIsBest | intraday_predictor/prediction_engine.py:137-138 | no scored ticker left out scores above a chosen one |
| PredictionEngine.SelectionStable | intraday_predictor/prediction_engine.py:137-138 | among equal scores, the chosen tickers are the first in ticker-list order |
| PredictionEngine.RowOf | intraday_predictor/database.py:196 | the stored row keeps the stock and the target date, and so the key |
| PredictionEngine.PredictionFor | intraday_predictor/prediction_engine.py:141-154 | the prediction carries the candidate's stock, both dates, its score rounded to the cent, and sl <= entry <= target |
| PredictionEngine.PredictionKeepsScore | intraday_predictor/prediction_engine.py:132 | a selected candidate has 30 bars or more and keeps its exact score, which is above 4.0 |
| PredictionEngine.Predictions | intraday_predictor/prediction_engine.py:140-154 | one prediction per selected candidate |
| PredictionEngine.PredictionsAt | intraday_predictor/prediction_engine.py:140-154 | the k-th prediction is built for the k-th selected candidate |
| PredictionEngine.ScoreTickers | intraday_predictor/prediction_engine.py:124-135 | the loop builds exactly the scored list |
| PredictionEngine.BuildPredictions | intraday_predictor/prediction_engine.py:140-154 | the loop builds exactly the predictions of the selection |
| PredictionEngine.PredictionsStep | intraday_predictor/prediction_engine.py:140-154 | one more candidate appends its own prediction |
| PredictionEngine.BuildPrediction | intraday_predictor/prediction_engine.py:141-154 | the loop body builds that candidate's prediction |
| PredictionEngine.GeneratePredictions | intraday_predictor/prediction_engine.py:123-160 | it returns the predictions of the filter-sort-take selection; it stores their rows (predictions store only) when there are any, else changes nothing |
| WhyGenerator.VolumeBucket | intraday_predictor/why_generator.py:25-34 | the five buckets partition the ratio: >= 2, [1.3, 2), <= 0.5, (0.5, 0.8], else average |
| WhyGenerator.VolumeContext | intraday_predictor/why_generator.py:15-34 | "average volume" with fewer than 20 bars or a zero average; otherwise the bucket of today's volume over the 20-bar mean |
| WhyGenerator.TrendLabel | intraday_predictor/why_generator.py:46-57 | strong up iff both gaps are positive and widening; mild up for any other positive gap; the same for downtrends; flat iff the gap is 0 |
| WhyGenerator.TrendContext | intraday_predictor/why_generator.py:37-57 | "indeterminate trend" exactly with fewer than 21 closes, otherwise the label of the last two EMA9 - EMA21 gaps |
| WhyGenerator.ConstantClosesAreFlat | intraday_predictor/why_generator.py:43-57 | constant closes give equal EMAs, hence a flat market |
| WhyGenerator.IntradayPattern | intraday_predictor/why_generator.py:60-74 | "" with fewer than 4 bars; the opening spike is noted exactly when the first hour holds the day's high and the close is below the open; the late breakout exactly when that does not hold and the close is above the first-hour high |
| WhyGenerator.LateBreakoutPeaksLater | intraday_predictor/why_generator.py:67-73 | a late breakout means the day's high came after the first hour |
| WhyGenerator.LowVolumeCueMeansVeryLow | intraday_predictor/why_generator.py:97-98 | of the volume tags, exactly the very low one contains "low volume" |
| WhyGenerator.AverageVolumeCueMeansMiddle | intraday_predictor/why_generator.py:136 | every volume tag except the very high and very low ones contains "average volume" |
| WhyGenerator.HighVolumeCueMeansVeryHigh | intraday_predictor/why_generator.py:108 | of the volume tags, exactly the very high one contains "high volume" |
| WhyGenerator.RangingCueMeansFlat | intraday_predictor/why_generator.py:99 | of the trend tags, exactly the flat one contains "flat" or "ranging" |
| WhyGenerator.DowntrendCueMeansDown | intraday_predictor/why_generator.py:121 | of the trend tags, exactly the two downtrend ones contain "downtrend" |
| WhyGenerator.ContextOf | intraday_predictor/why_generator.py:86-88 | the three contexts are always a volume tag, a trend tag and an intraday note |
| WhyGenerator.NoEntryReason | intraday_predictor/why_generator.py:90-101 | the NO ENTRY reason ends with the intraday note |
| WhyGenerator.TargetHitReason | intraday_predictor/why_generator.py:103-110 | the TARGET HIT reason ends with the intraday note |
| WhyGenerator.StopLossReason | intraday_predictor/why_generator.py:112-124 | the STOP LOSS HIT reason ends with the intraday note |
| WhyGenerator.StagnantReason | intraday_predictor/why_generator.py:126-139 | the STAGNANT reason ends with the intraday note |
| WhyGenerator.EndsWithAppended | intraday_predictor/why_generator.py:101 | a text with the note appended ends with the note |
| WhyGenerator.Reason | intraday_predictor/why_generator.py:90-141 | every classified reason ends with the intraday note; an unknown outcome gets exactly "Outcome could not be classified." |
| WhyGenerator.NoEntryReasonSentences | intraday_predictor/why_generator.py:90-101 | NO ENTRY adds the participation sentence only for very low volume and the ranging sentence only for a flat trend |
| WhyGenerator.TargetHitReasonSentences | intraday_predictor/why_generator.py:103-110 | TARGET HIT adds the confirmation sentence only for very high volume |
| WhyGenerator.StopLossReasonSentences | intraday_predictor/why_generator.py:112-124 | STOP LOSS HIT adds the fakeout sentence only for very low volume and the selling sentence only for a downtrend; it always contains the retrain sentence |
| WhyGenerator.StagnantReasonSentences | intraday_predictor/why_generator.py:126-139 | STAGNANT adds the participation sentence for every volume tag except very high, then the closing sentence |
| WhyGenerator.GenerateReason | intraday_predictor/why_generator.py:77-141 | the method builds the reason the definition gives for the derived contexts |
| WhyGenerator.BuildNoEntry | intraday_predictor/why_generator.py:90-101 | the `+=` steps build the NO ENTRY reason |
| WhyGenerator.BuildTargetHit | intraday_predictor/why_generator.py:103-110 | the `+=` steps build the TARGET HIT reason |
| WhyGenerator.BuildStopLoss | intraday_predictor/why_generator.py:112-124 | the `+=` steps build the STOP LOSS HIT reason |
| WhyGenerator.BuildStagnant | intraday_predictor/why_generator.py:126-139 | the `+=` steps build the STAGNANT reason |
| Text.MatchAtIsSlice | intraday_predictor/why_generator.py:97 | a character-by-character match is a slice equality |
| Text.Found | intraday_predictor/why_generator.py:97 | a match at some index means `sub in s` |
| Text.Skip | intraday_predictor/why_generator.py:97 | no occurrence starts where the first character of the cue is absent |
| Text.SkipIn | intraday_predictor/why_generator.py:99 | the same over the second part of a text built from two parts |
| Text.Step | intraday_predictor/why_generator.py:97 | no occurrence starts at an index where the cue does not match |
| Text.PastEnd | intraday_predictor/why_generator.py:97 | no occurrence starts where too few characters are left |
| Text.ContainsMiddle | intraday_predictor/why_generator.py:97 | b is contained in a + b + c |
| PerformanceAnalyzer.Outcome.Label | intraday_predictor/performance_analyzer.py:46-55 | every outcome's label is one of the four labels, and STAGNANT is the stagnant one only |
| PerformanceAnalyzer.ClassifyOutcome | intraday_predictor/performance_analyzer.py:28-55 | NO ENTRY iff high < entry; STOP LOSS HIT iff entered and low <= sl, even when the target was reached; TARGET HIT iff entered, low > sl, high >= target; STAGNANT iff entered with sl < low and high < target |
| PerformanceAnalyzer.ImpliedAtr | intraday_predictor/performance_analyzer.py:184 | the implied ATR times the multiplier used is entry - sl, or 0 when that multiplier is not positive |
| PerformanceAnalyzer.SimulateOutcome | intraday_predictor/performance_analyzer.py:168-194 | NO ENTRY when high < entry or the implied ATR is not positive; otherwise the classification against the rebuilt stop and target; the stored target plays no part |
| PerformanceAnalyzer.SimulationReproducesClassification | intraday_predictor/performance_analyzer.py:184-194 | if the simulation is run with the multiplier and ratio the prediction was made with, it rebuilds the stored stop and reproduces the recorded outcome |
| PerformanceAnalyzer.SimulatedWinNeedsNoLargerRatio | intraday_predictor/performance_analyzer.py:187-193 | a simulated win under a larger ratio is a win under a smaller one |
| PerformanceAnalyzer.Wins | intraday_predictor/performance_analyzer.py:224-239 | the number of simulated wins is at most the number of rows |
| PerformanceAnalyzer.WinRate | intraday_predictor/performance_analyzer.py:240 | the simulated win rate (every row in the denominator, 0 for none) lies in [0, 1] |
| PerformanceAnalyzer.WinsNeedNoLargerRatio | intraday_predictor/performance_analyzer.py:226-239 | for a fixed multiplier, a larger ratio never wins more rows |
| PerformanceAnalyzer.WinRateNeedsNoLargerRatio | intraday_predictor/performance_analyzer.py:240 | for a fixed multiplier, the win rate never grows with the ratio |
| PerformanceAnalyzer.DivideMonotone | intraday_predictor/performance_analyzer.py:240 | division by a positive total preserves <= |
| PerformanceAnalyzer.GridValues | intraday_predictor/performance_analyzer.py:215-216 | six positive multipliers, five increasing ratios, thirty pairs |
| PerformanceAnalyzer.Visited | intraday_predictor/performance_analyzer.py:222-223 | the rates of the pairs visited before (i, j), multiplier-major |
| PerformanceAnalyzer.AllRates | intraday_predictor/performance_analyzer.py:222-244 | the rates of all thirty pairs |
| PerformanceAnalyzer.VisitedAt | intraday_predictor/performance_analyzer.py:222-223 | pair (a, b) is visited at position 5a + b |
| PerformanceAnalyzer.PairOf | intraday_predictor/performance_analyzer.py:222-223 | every position below 30 is the position of exactly one grid pair |
| PerformanceAnalyzer.PairOfFlat | intraday_predictor/performance_analyzer.py:222-223 | the position of pair (i, j) maps back to (i, j) |
| PerformanceAnalyzer.FirstBest | intraday_predictor/performance_analyzer.py:241-244 | the search keeps the first position with the highest rate: no rate beats it, every earlier rate is lower |
| PerformanceAnalyzer.FirstBestStep | intraday_predictor/performance_analyzer.py:241-244 | a new rate takes over only when strictly higher |
| PerformanceAnalyzer.FirstBestPrefix | intraday_predictor/performance_analyzer.py:241-244 | later rates do not change the choice among earlier ones |
| PerformanceAnalyzer.BestPair | intraday_predictor/performance_analyzer.py:215-244 | the chosen position is a grid pair |
| PerformanceAnalyzer.SmallestRatioLeads | intraday_predictor/performance_analyzer.py:216-240 | within one multiplier, no pair beats the one with ratio 1.5 |
| PerformanceAnalyzer.FirstBestStartsGroup | intraday_predictor/performance_analyzer.py:241-244 | when each group of five is led by its first rate, the first best position starts a group |
| PerformanceAnalyzer.BestPairHasSmallestRatio | intraday_predictor/performance_analyzer.py:215-244 | the search always settles on ratio 1.5 |
| PerformanceAnalyzer.GridSearch | intraday_predictor/performance_analyzer.py:215-244 | the nested loops return the first grid pair with the highest simulated win rate, and that rate |
| PerformanceAnalyzer.SearchRatios | intraday_predictor/performance_analyzer.py:223-244 | one pass over the ratios keeps the first best pair seen so far |
| PerformanceAnalyzer.BestSoFarStep | intraday_predictor/performance_analyzer.py:241-244 | visiting one more pair keeps the first best pair seen so far |
| PerformanceAnalyzer.SimulatedWinRate | intraday_predictor/performance_analyzer.py:224-240 | the innermost loop returns wins / total of the simulated outcomes |
| PerformanceAnalyzer.Retrained | intraday_predictor/performance_analyzer.py:203-247 | fewer than 10 rows leave the parameters unchanged; otherwise exactly the two retrained keys are written, every other parameter kept |
| PerformanceAnalyzer.RetrainedPicksBest | intraday_predictor/performance_analyzer.py:215-247 | the written multiplier is a grid member no pair beats, taken first among ties; the written ratio is always 1.5 |
| PerformanceAnalyzer.RetrainModel | intraday_predictor/performance_analyzer.py:197-247 | the stored parameters become the retrained ones; nothing else changes |
| PerformanceAnalyzer.CheckAndRetrain | intraday_predictor/performance_analyzer.py:149-165 | returns true and retrains exactly when the recent average is below 0.40 or today's rate is; otherwise nothing changes |
| PerformanceAnalyzer.ResultFor | intraday_predictor/performance_analyzer.py:86-120 | a result keeps its prediction and actuals, carries the classified outcome, and its reason ends with the intraday note |
| PerformanceAnalyzer.Explanation | intraday_predictor/performance_analyzer.py:93-101 | the reason chosen by outcome ends with the intraday note |
| PerformanceAnalyzer.ExplanationIsReason | intraday_predictor/performance_analyzer.py:93-101 | choosing the reason by outcome gives the text `generate_reason` builds from the outcome's label |
| PerformanceAnalyzer.Analyzed | intraday_predictor/performance_analyzer.py:77-120 | the results are at most one per prediction, each for one of the predictions |
| PerformanceAnalyzer.Fetched | intraday_predictor/performance_analyzer.py:81-84 | the number of predictions whose actuals were fetched is at most their number |
| PerformanceAnalyzer.AnalyzedCount | intraday_predictor/performance_analyzer.py:81-84 | exactly the predictions with actuals produce a result; the others are skipped and not counted |
| PerformanceAnalyzer.Count | intraday_predictor/performance_analyzer.py:104 | an outcome's count is at most the number of results |
| PerformanceAnalyzer.CountsAddUp | intraday_predictor/performance_analyzer.py:104-124 | the four counters add up to the number of results |
| PerformanceAnalyzer.CountStep | intraday_predictor/performance_analyzer.py:104 | a new result adds one to its own outcome's count only |
| PerformanceAnalyzer.AnalysisWinRate | intraday_predictor/performance_analyzer.py:126 | the day's win rate, TARGET HIT count over all results, lies in [0, 1] |
| PerformanceAnalyzer.MetricsOf | intraday_predictor/performance_analyzer.py:129-140 | the metrics row has the day and the retrain flag; its four counts add up to its total, the number of results; its rate lies in [0, 1] |
| PerformanceAnalyzer.RecordedStep | intraday_predictor/performance_analyzer.py:103 | recording one more result writes its outcome over earlier ones |
| PerformanceAnalyzer.RecordedHasEveryResult | intraday_predictor/performance_analyzer.py:103 | every analysed prediction ends up with its own outcome recorded |
| PerformanceAnalyzer.AnalyzePredictions | intraday_predictor/performance_analyzer.py:58-146 | for predictions read from the store, it returns the results of the predictions with actuals and writes each outcome back. With no result, it writes no metrics and changes no parameter. Otherwise it appends one metrics row, and retrains exactly when `ShouldRetrain` holds |
| PerformanceAnalyzer.AnalyzeAll | intraday_predictor/performance_analyzer.py:74-120 | the loop produces the results and counters that tally them, and records every outcome |
| PerformanceAnalyzer.AnalyzeNext | intraday_predictor/performance_analyzer.py:77-120 | one iteration skips a prediction without actuals and otherwise adds and records its result |
| PerformanceAnalyzer.AnalyzedStep | intraday_predictor/performance_analyzer.py:81-84 | one more prediction adds its result exactly when its actuals were fetched |
| PerformanceAnalyzer.AnalyzeOne | intraday_predictor/performance_analyzer.py:86-103 | classify, explain and write back one prediction: its result, and only its outcome columns change |
| PerformanceAnalyzer.Tally | intraday_predictor/performance_analyzer.py:104 | `counters[outcome] += 1` keeps each counter equal to its outcome's count |
| PerformanceAnalyzer.RecordMetrics | intraday_predictor/performance_analyzer.py:122-140 | computes the day's rate from the counters, tests the retraining trigger and appends the metrics row |

## Left out

- Network, SQL, e-mail, HTTP routes, the scheduler and logging are out of scope. Fetched data and query results are parameters: bars per ticker, each prediction's day summary and reason inputs, the recent average win rate, and the retraining history. The limit of 60 rows and the query orderings belong to those queries and are not modelled.
- The ticker list is a parameter. The list in `config.py` is not reproduced.
- Floating point: everything is exact reals. pandas NaN is `None`. Infinity appears only where the RSI's average loss is 0, and is resolved as pandas does.
- Numeric.Round2: models `round(x, 2)` on exact reals, rounding half up. Python rounds binary floats half to even, so results can differ on exact ties. The same holds for Numeric.Round4.
- Price formatting in reason texts (the f-string prints and `:+.2f`) is passed in as the functions `show` and `showSigned`. The model therefore fixes which sentences appear, but not how digits are printed.
- WhyGenerator.StagnantReason: requires a non-zero entry. The source would raise ZeroDivisionError, so PerformanceAnalyzer.AnalyzePredictions asks that every prediction ending stagnant have a non-zero entry (`Analysable`).
- WhyGenerator.VolumeContext: takes the fetched volume column as its input. The fetch of 25 days and its emptiness test are folded into "fewer than 20 bars". TrendContext and IntradayPattern take their fetched inputs in the same way.
- PredictionEngine.CalculateLevels: requires at least 14 bars, where the source would compute NaN levels. It is only ever called on scored stocks, which have 30 bars or more.
- PredictionEngine.PredictionFor: requires 30 bars or more, which every selected candidate has (PredictionEngine.PredictionKeepsScore).
- PredictionEngine.GeneratePredictions: only a failed fetch stands for an exception. Any other exception in scoring is not modelled; the scorer is a total function.
- The in-place `list.sort` is modelled by a stable insertion sort on a value (`SortDesc`). Timsort's concrete steps are not modelled, only its result.
- Storage.Store.UpdateOutcome: keyed by (target date, stock) instead of the row id the source uses. That key is unique in the predictions table. PerformanceAnalyzer.AnalyzePredictions takes its predictions as a parameter and requires each of them to be stored, since `get_predictions_for_date` reads them from that table.
- Storage.Store.InsertPredictions: does not distinguish SQLite's whole-row replace from Postgres' column update. Both leave the six written columns as written.
- The retraining history is the rows the outcome query returns. Their ids, dates and stored outcomes are not modelled, because the grid search does not read them.
- The parameters written by retraining are not read back by scoring or levels. The source does not read them either; it uses its constants.
