# Gold-trading edge functions, modelled in Dafny

The system trades gold (XAUUSD) through six server-side edge functions. This project models what they compute.

- **model-trainer** trains a small linear-logistic model on historical bars with stochastic gradient descent. It then summarises the run: accuracy, winrate, maximum drawdown, and the model and data hashes.
- **ai-signal-generator** turns features into a BUY/SELL/HOLD decision. The features are RSI, MACD, EMA, support/resistance and news sentiment. It then places entry, stop loss and take profit around the last close, sizes the position, and rates the scalping conditions. Without loaded model weights it falls back to the scalping analysis, which as written throws (see Findings).
- **risk-calculator** derives an account's risk metrics:
  - position risk, maximum loss per position and portfolio correlation;
  - historical trade statistics, drawdown and the risk limits;
  - a weighted 0–100 risk score and the risk violations it raises.
- **trade-executor** runs the pre-execution checks on a signal and computes the lot size. It builds the MT5 order and stores the opened position. It also closes and modifies positions and dispatches the three request actions; as written the close and modify actions read the position id from the consumed request body (see Findings).
- **news-scraper** turns calendar rows and article headlines into news events and classifies their impact. It reports how many events it found and how many are high-impact.
- **market-data-api** maps a Twelve Data interval name to an MT5 timeframe code. It stores candles and derives the stream tick from the newest candle.

The model is written as pure functions over immutable datatypes:

- Database rows arrive as sequences and come back as new sequences.
- Replies from the MT5 bridge are parameters.
- Clocks are parameters (`nowMs`).
- Parsed HTML is a sequence of optional cell texts.

JavaScript semantics are written out where they matter:

- `hash & hash` is the 32-bit truncation `JsHash.ToInt32`.
- `x || d` on a number is `Common.OrDefault`, and on a text `NewsScraper.TextOr`.
- `toFixed(2)` is `Common.RoundCents`.
- `NaN` is an `Option` (`TradeExecutor.Lots`) or the `RiskCalculator.Quotient` datatype.
- A plain object literal's inherited `Object.prototype` members are modelled explicitly in `MarketData`.

The files are:

- `common.dfy`: option/result types, bars, min/max, sums, cent rounding, ASCII lower-casing and substring search.
- `js_hash.dfy`: the string hash.
- `sorting.dfy`: the sort behind the support/resistance percentiles.
- One file per edge function.

## Model

| member | source | states |
|---|---|---|
| Trainer.TrainerRsi | supabase/functions/model-trainer/index.ts:228-237 | the trainer's RSI over the first 13 changes (the first 14 closes), both sums divided by 14, lies in [0, 100), and is 0 when no close rose |
| Trainer.EmaForwardBounds | supabase/functions/model-trainer/index.ts:268-275 | for a smoothing factor in [0, 1] the EMA stays between the smallest and largest value of the data |
| Trainer.EmaForwardWithin | supabase/functions/model-trainer/index.ts:268-275 | any band that contains every input value contains the EMA |
| Trainer.WindowFeatures | supabase/functions/model-trainer/index.ts:216-266 | the features of a 50-bar window have RSI in [0, 100); distance to support is non-negative exactly when the close is at or above the window's lowest low, and distance to resistance exactly when the highest high is at or above the close |
| Trainer.Score | supabase/functions/model-trainer/index.ts:277-291 | the prediction score is the linear score, lowered by 0.5 above the overbought threshold and raised by 0.5 below the oversold one |
| Trainer.ScoreIgnoresSmaSlow | supabase/functions/model-trainer/index.ts:277-291 | the slow-SMA weight has no influence on the score |
| Trainer.SgdStep | supabase/functions/model-trainer/index.ts:103-112 | one gradient step moves the bias by −lr·err, moves the overbought threshold up and the oversold one down by lr·err·0.1, and keeps the learning rate |
| Trainer.SgdStepFeatureWeights | supabase/functions/model-trainer/index.ts:103-109 | each feature weight moves by −lr·err times its paired feature; the slow-SMA weight is paired with the trend strength and so moves exactly as the trend weight does |
| Trainer.SgdStepBandGap | supabase/functions/model-trainer/index.ts:110-111 | one step widens the gap between the RSI thresholds by 0.2·lr·err |
| Trainer.SgdStepMovesScore | supabase/functions/model-trainer/index.ts:103-109 | a step lowers the linear score by lr·err·‖features‖², so with a positive learning rate a positive error lowers it and a negative error raises it |
| Trainer.Label | supabase/functions/model-trainer/index.ts:96 | an example's label is 1 exactly when the close ten bars later is higher, else 0 |
| Trainer.HistoryWindow | supabase/functions/model-trainer/index.ts:85-86 | the history window of bar i is exactly the 50 bars before it |
| Trainer.RunExamples | supabase/functions/model-trainer/index.ts:84-119 | an epoch visits the indices from 50 up to n−11 in order, each visit records that index's true label, and the learning rate is not changed inside the epoch |
| Trainer.EpochVisits | supabase/functions/model-trainer/index.ts:84-122 | an epoch makes n−60 predictions, all at indices whose 50-bar window and 10-bar horizon lie inside the data |
| Trainer.EpochEffect | supabase/functions/model-trainer/index.ts:80-131 | one epoch multiplies the learning rate by 0.995, adds n−60 predictions and leaves accuracy in [0, 1] |
| Trainer.RunEpochsEffect | supabase/functions/model-trainer/index.ts:80-132 | after k epochs the learning rate is the start rate times 0.995^k and k·(n−60) predictions are counted |
| Trainer.MaxDrawdownSpec | supabase/functions/model-trainer/index.ts:148-157 | the drawdown loop returns the largest fall of cumulative profit from an earlier point to a later one: no fall exceeds it, one fall attains it, and it is non-negative |
| Trainer.DrawdownLoopSpec | supabase/functions/model-trainer/index.ts:148-157 | the running peak/maximum loop, started in a consistent state, ends with the largest fall over the whole sequence |
| Trainer.MaxDrawdownNoLosses | supabase/functions/model-trainer/index.ts:148-157 | without a losing trade the maximum drawdown is 0 |
| Trainer.Winrate | supabase/functions/model-trainer/index.ts:135-141 | with no closed trades the winrate falls back to the training accuracy; otherwise it is the share of profitable trades, in [0, 1] |
| Trainer.Train | supabase/functions/model-trainer/index.ts:45-141 | fewer than 100 bars is an error naming the bar count and 100 or more is a report; zero epochs return the initial weights; no closed trades make the winrate equal the accuracy |
| Trainer.TrainMetrics | supabase/functions/model-trainer/index.ts:60-157 | a run of k epochs ends with learning rate 0.01·0.995^k and k·(n−60) predictions, with accuracy and winrate in [0, 1] and a non-negative drawdown |
| JsHash.ToInt32 | supabase/functions/model-trainer/index.ts:303 | `hash & hash` yields the unique signed 32-bit value congruent to its input modulo 2^32 |
| JsHash.StepIsTimes31 | supabase/functions/model-trainer/index.ts:301-303 | `(hash << 5) - hash + c` followed by the truncation equals 31·hash + c truncated to 32 bits |
| JsHash.Fold | supabase/functions/model-trainer/index.ts:299-304 | every intermediate and final hash of the loop is a signed 32-bit integer |
| JsHash.FoldIsPolyMod | supabase/functions/model-trainer/index.ts:299-304 | the loop's result is the polynomial Σ cᵢ·31^(n−1−i) over the code units, truncated to 32 bits |
| JsHash.ParseHexOfHex | supabase/functions/model-trainer/index.ts:305 | `toString(16)` is inverted by reading the digits back |
| JsHash.HexNoLeadingZero | supabase/functions/model-trainer/index.ts:305 | the hex text starts with '0' only for the number 0 |
| JsHash.HashCodeUnits | supabase/functions/model-trainer/index.ts:297-306 | the hash text of a code-unit sequence is "0" for none; otherwise it is at most 8 lower-case hex digits with no sign, and it reads back as the absolute value of the truncated polynomial hash |
| JsHash.Utf16 | supabase/functions/model-trainer/index.ts:300-302 | a string has at least as many UTF-16 code units as characters, and exactly as many when every character is in the basic plane |
| JsHash.ModelHash | supabase/functions/model-trainer/index.ts:297-306 | the model hash is 1 to 8 characters without a minus sign, and "0" for empty input |
| JsHash.DataHash | supabase/functions/model-trainer/index.ts:308-317 | the data hash is the hash of "count_first_last" over the timestamps, 1 to 8 hex digits without a sign |
| JsHash.DataHashKeyEmpty | supabase/functions/model-trainer/index.ts:309 | for no bars the hashed key is "0_undefined_undefined" |
| Sorting.Sort | supabase/functions/ai-signal-generator/index.ts:336-343 | the sort returns an ascending (or descending) permutation of its input |
| Sorting.SortedUnique | supabase/functions/ai-signal-generator/index.ts:336-343 | two sorted permutations of the same multiset are equal, so the sorted order does not depend on the input order |
| Sorting.OrderStatistic | supabase/functions/ai-signal-generator/index.ts:336-343 | the k-th sorted element has at most k elements strictly before it and at least k+1 at or before it |
| Sorting.CountSort | supabase/functions/ai-signal-generator/index.ts:336-343 | sorting keeps the number of elements with any property |
| SignalGenerator.Decide | supabase/functions/ai-signal-generator/index.ts:198-207 | BUY exactly above 0.6, SELL exactly below 0.4, HOLD in between; BUY/SELL confidence is twice the distance from 0.5 (above 0.2), HOLD's is 0.5 |
| SignalGenerator.DecideSymmetric | supabase/functions/ai-signal-generator/index.ts:198-207 | mirroring the prediction around 0.5 swaps BUY and SELL, keeps HOLD and keeps the confidence |
| SignalGenerator.PlaceLevels | supabase/functions/ai-signal-generator/index.ts:217-230 | a BUY enters 0.1·atr above the close, stops 2·atr below the entry and targets 3·atr above it; a SELL mirrors this; a HOLD has no stop or target |
| SignalGenerator.LevelsOrdered | supabase/functions/ai-signal-generator/index.ts:217-230 | with positive volatility the stop is on the losing side, the target on the winning side, and the target is 1.5 stop distances away |
| SignalGenerator.RawPositionSize | supabase/functions/ai-signal-generator/index.ts:232-236 | the raw size risks $20: size × stop distance is 20, and 0.01 when the stop distance is 0 |
| SignalGenerator.GenerateSignal | supabase/functions/ai-signal-generator/index.ts:113-244 | fewer bars than needed is the "Insufficient market data" error; otherwise the signal carries the decided side, a confidence in [0, 1], the levels around the last close, and the raw $20-risk size clamped into [0.01, 1] |
| SignalGenerator.GenerateSignalSize | supabase/functions/ai-signal-generator/index.ts:232-240 | for BUY/SELL with positive volatility the size is 10/atr clamped to [0.01, 1] |
| SignalGenerator.GenerateSignalHoldSize | supabase/functions/ai-signal-generator/index.ts:232-244 | a HOLD keeps its stop at 0, so its size is 20 over the absolute close, clamped into [0.01, 1] |
| SignalGenerator.GenerateTradingSignalAsWritten | supabase/functions/ai-signal-generator/index.ts:113-214 | as written: too few bars is the "Insufficient market data" error, weights give the model-path signal, and no weights give the TypeError the fallback raises |
| SignalGenerator.LoadedWeights | supabase/functions/ai-signal-generator/index.ts:128-141 | no model id, or an empty one, loads no weights; with a non-empty id the weights are whatever the lookup of that id returns |
| SignalGenerator.HandlerFallbackThrows | supabase/functions/ai-signal-generator/index.ts:47 | the handler's three-argument call leaves the model id undefined, so every request with at least 50 bars ends in the fallback's TypeError |
| SignalGenerator.GenerateTradingSignal | supabase/functions/ai-signal-generator/index.ts:113-214 | as intended: too few bars is the only error; weights give the model-path signal and no weights give the scalping verdict |
| SignalGenerator.GenerateTradingSignalAgrees | supabase/functions/ai-signal-generator/index.ts:113-214 | both versions agree when weights are loaded or data is short; without weights only the intended one returns a verdict |
| Common.OrDefault | supabase/functions/ai-signal-generator/index.ts:258-266 | `w \|\| d` keeps a non-zero number and replaces 0 by the default (also the requested-or-current levels of a modify) |
| SignalGenerator.PredictScore | supabase/functions/ai-signal-generator/index.ts:254-268 | the score is the weighted sum plus bias, adjusted by ±0.5 at the overbought/oversold thresholds with 70/30 standing in for a zero threshold |
| SignalGenerator.PredictScoreIgnores | supabase/functions/ai-signal-generator/index.ts:254-268 | the slow-SMA weight and the learning rate do not affect the score |
| SignalGenerator.PredictScoreZeroThreshold | supabase/functions/ai-signal-generator/index.ts:263-266 | a zero overbought threshold acts as 70 and a zero oversold threshold as 30 |
| SignalGenerator.PredictScoreIgnoresMacdWeight | supabase/functions/ai-signal-generator/index.ts:254-308 | since the MACD histogram is always 0, its weight never affects the score |
| SignalGenerator.GainsMinusLosses | supabase/functions/ai-signal-generator/index.ts:283-289 | gains minus losses over the changes telescope to the first close minus the last |
| SignalGenerator.GeneratorRsi | supabase/functions/ai-signal-generator/index.ts:280-294 | RSI is 50 with fewer than 14 bars, 100 with gains and no losses, in [0, 100) with losses, and NaN (None) exactly when the closes never change |
| SignalGenerator.GeneratorRsiShare | supabase/functions/ai-signal-generator/index.ts:290-293 | whenever closes move, RSI is 100 × gains / (gains + losses) |
| SignalGenerator.GeneratorRsiRising | supabase/functions/ai-signal-generator/index.ts:280-294 | if every close is below the one before it in the newest-first data, so the price only rose, RSI is 100 |
| SignalGenerator.EmaBackwardIsForward | supabase/functions/ai-signal-generator/index.ts:310-319 | the generator's EMA equals the trainer's EMA run over the reversed data |
| SignalGenerator.EmaBackwardBounds | supabase/functions/ai-signal-generator/index.ts:310-319 | the generator's EMA lies between the data's minimum and maximum |
| SignalGenerator.Macd | supabase/functions/ai-signal-generator/index.ts:296-308 | MACD is (0, 0) with fewer than 26 bars; otherwise the MACD line is at most the range (highest minus lowest) of the newest 26 closes in magnitude |
| SignalGenerator.MacdHistogramZero | supabase/functions/ai-signal-generator/index.ts:304-307 | the histogram, MACD minus a signal line set equal to MACD, is always 0 |
| SignalGenerator.FindSupport | supabase/functions/ai-signal-generator/index.ts:336-339 | support exists exactly when there are bars, and it is one of the lows |
| SignalGenerator.SupportPercentile | supabase/functions/ai-signal-generator/index.ts:336-339 | support is the 20th-percentile low: at most ⌊n/5⌋ lows lie strictly below it and more than ⌊n/5⌋ at or below it |
| SignalGenerator.FindResistance | supabase/functions/ai-signal-generator/index.ts:341-344 | resistance exists exactly when there are bars, and it is one of the highs |
| SignalGenerator.ResistancePercentile | supabase/functions/ai-signal-generator/index.ts:341-344 | resistance is the 20th-percentile high from the top: at most ⌊n/5⌋ highs lie strictly above it and more than ⌊n/5⌋ at or above it |
| SignalGenerator.SupportOrderIndependent | supabase/functions/ai-signal-generator/index.ts:336-339 | support depends only on the multiset of lows, not their order |
| SignalGenerator.Occurrences | supabase/functions/ai-signal-generator/index.ts:352-364 | a keyword regex counts zero matches exactly when no keyword occurs in the text |
| SignalGenerator.ItemSentimentSign | supabase/functions/ai-signal-generator/index.ts:350-366 | an item scores positive only if a bullish word occurs in it, and negative only if a bearish one does |
| SignalGenerator.NeutralItem | supabase/functions/ai-signal-generator/index.ts:350-366 | an item with neither kind of word scores 0 |
| SignalGenerator.ItemSentimentIgnoresCase | supabase/functions/ai-signal-generator/index.ts:351 | items whose texts differ only in ASCII case score the same |
| SignalGenerator.NewsSentiment | supabase/functions/ai-signal-generator/index.ts:346-370 | the sentiment is in [−1, 1], 0 without news, and has the sign of the summed item scores |
| SignalGenerator.NewsSentimentUniform | supabase/functions/ai-signal-generator/index.ts:346-370 | if every item scores k, the sentiment is k clamped to [−1, 1] |
| SignalGenerator.Scalping | supabase/functions/ai-signal-generator/index.ts:391-433 | bullish and bearish hold exactly under their conditions and never together; strength is 0.5 without a setup, otherwise 0.7, or 0.8 with agreeing news; the volatility and alignment flags follow their thresholds |
| RiskCalculator.StopRisk | supabase/functions/risk-calculator/index.ts:174-182 | a position without a stop loss adds no risk; one with a stop adds its stop-distance loss \|open − stop\| × 10 × volume; a non-negative volume never adds a negative risk |
| RiskCalculator.PositionRisk | supabase/functions/risk-calculator/index.ts:172-185 | with non-negative volumes the total position risk is non-negative |
| RiskCalculator.PositionRiskIsStoppedLosses | supabase/functions/risk-calculator/index.ts:172-185 | the total position risk is the sum of \|open − stop\| × 10 × volume over exactly the positions that have a stop loss |
| RiskCalculator.PositionRiskAppend | supabase/functions/risk-calculator/index.ts:172-185 | total position risk is additive over the positions |
| RiskCalculator.PositionRiskNoStops | supabase/functions/risk-calculator/index.ts:172-185 | positions without stop losses contribute no risk |
| RiskCalculator.MaxLossPerPosition | supabase/functions/risk-calculator/index.ts:187-201 | the maximum loss is 0 with no positions, otherwise it is one position's loss and no position's loss exceeds it |
| RiskCalculator.PositionLoss | supabase/functions/risk-calculator/index.ts:190-198 | a position with a stop can lose the stop distance times volume times $10, and one without a stop its whole value times $10 |
| RiskCalculator.SymbolCount | supabase/functions/risk-calculator/index.ts:203-214 | the distinct symbols are at most the positions, at least one when there are positions, and as many exactly when no symbol repeats |
| RiskCalculator.PortfolioCorrelation | supabase/functions/risk-calculator/index.ts:203-214 | correlation is 1 − distinct symbols / positions, 0 with no positions, always in [0, 1), and 0 exactly when no symbol repeats |
| RiskCalculator.TradesPartition | supabase/functions/risk-calculator/index.ts:231-232 | every closed trade is a win, a loss or break-even |
| RiskCalculator.Historical | supabase/functions/risk-calculator/index.ts:216-251 | no trades give the all-zero record; otherwise the counts are the wins and losses, the win rate is 100 exactly when every trade won and 0 exactly when none did, the average win is positive and at most the largest win, and the largest win and loss are the maximum and minimum profit |
| RiskCalculator.WinRate | supabase/functions/risk-calculator/index.ts:244 | the win rate is the percentage of winning trades |
| RiskCalculator.AverageWinBelow | supabase/functions/risk-calculator/index.ts:237 | the average win never exceeds a bound on every profit |
| RiskCalculator.ProfitFactor | supabase/functions/risk-calculator/index.ts:247 | the profit factor times the average loss is the average win, and it is 0 when there is no average loss |
| RiskCalculator.Contribution | supabase/functions/risk-calculator/index.ts:253-270 | no factor contributes more than its weight, and a factor of at most 1 contributes exactly factor × weight |
| RiskCalculator.RiskScore | supabase/functions/risk-calculator/index.ts:253-270 | the risk score is the weighted sum of the factors capped at 1 each, and it lies in [0, 100] |
| RiskCalculator.RiskScoreLinear | supabase/functions/risk-calculator/index.ts:253-270 | for factors in [0, 1] the score is exactly 25·margin + 20·concentration + 20·daily loss + 25·drawdown + 10·correlation |
| RiskCalculator.RiskScoreMonotone | supabase/functions/risk-calculator/index.ts:253-270 | higher margin utilisation never lowers the score |
| RiskCalculator.PeakBalance | supabase/functions/risk-calculator/index.ts:137 | the peak is the balance or one of the closed profits, and at least all of them |
| RiskCalculator.Drawdown | supabase/functions/risk-calculator/index.ts:137-138 | with a positive balance the drawdown percentage is in [0, 100), and it is 0 when no closed profit exceeds the balance |
| RiskCalculator.Limits | supabase/functions/risk-calculator/index.ts:163-168 | the daily-loss limit is one twentieth of the balance and the drawdown limit one fifth (four times the daily limit); margin usage is capped at 80% and positions per symbol at 3 |
| RiskCalculator.Factors | supabase/functions/risk-calculator/index.ts:141-147 | margin utilisation is in [0, 1] for non-negative margins, the daily-loss ratio times the balance is the absolute daily P&L, and drawdown enters as a fraction |
| RiskCalculator.CalculateRiskMetrics | supabase/functions/risk-calculator/index.ts:86-170 | the metrics carry the account's balance, equity and margins, the unguarded margin level, the position count, total position risk, largest single loss, correlation in [0, 1), today's summed profit, the peak drawdown, the weighted score of those factors in [0, 100], the limits and the historical record |
| RiskCalculator.Divide | supabase/functions/risk-calculator/index.ts:154 | JavaScript division: a non-zero divisor gives the exact quotient, a zero one +Infinity, −Infinity or NaN by the sign of the dividend |
| RiskCalculator.Percent | supabase/functions/risk-calculator/index.ts:154 | scaling by 100 keeps a finite quotient finite and leaves infinities and NaN as they are |
| RiskCalculator.MetricsMarginLevel | supabase/functions/risk-calculator/index.ts:154 | the metrics' margin level is Infinity with no used margin and positive equity, NaN with neither, and otherwise equals the guarded margin level |
| RiskCalculator.MarginUsageOf | supabase/functions/risk-calculator/index.ts:303-304 | margin usage is used / (used + free), and NaN when both are zero |
| RiskCalculator.RunChecks | supabase/functions/risk-calculator/index.ts:272-330 | running a list of checks yields at most one event per check, each the event of its own kind |
| RiskCalculator.RunChecksKinds | supabase/functions/risk-calculator/index.ts:272-330 | a violation of a kind is reported exactly when that check runs and its limit is breached |
| RiskCalculator.RunChecksOrdered | supabase/functions/risk-calculator/index.ts:272-330 | checks run in a fixed order, so the violations come out in that order |
| RiskCalculator.RiskViolations | supabase/functions/risk-calculator/index.ts:272-330 | at most four violations, in check order, one exactly for each breached limit, each with that kind's severity and values |
| RiskCalculator.RiskScoreBoundary | supabase/functions/risk-calculator/index.ts:317 | a score of exactly 80 raises no high-risk violation; anything above 80 does |
| RiskCalculator.EventFor | supabase/functions/risk-calculator/index.ts:280-327 | daily-loss and drawdown violations are HIGH severity, the others MEDIUM |
| RiskCalculator.MarginLevel | supabase/functions/risk-calculator/index.ts:332-335 | margin level is equity/used × 100, 0 without used margin, and at least 100 exactly when equity covers the used margin |
| TradeExecutor.UtcHour | supabase/functions/trade-executor/index.ts:221-222 | the UTC hour of a millisecond timestamp is in [0, 24) |
| TradeExecutor.CheckSignal | supabase/functions/trade-executor/index.ts:192-251 | a signal passes exactly when margin suffices, it is not expired, confidence is at least 0.7, the hour is 1–21 UTC and fewer than 3 positions are open on the symbol; a failure reports the first failing check's reason |
| TradeExecutor.CheckReasonIdentifies | supabase/functions/trade-executor/index.ts:192-251 | each reason is given exactly when its check is the first to fail, and the reason is empty exactly on a pass |
| TradeExecutor.CheckSignalMonotone | supabase/functions/trade-executor/index.ts:192-251 | more free margin, more confidence or fewer open positions never turn a pass into a failure |
| TradeExecutor.ConfidenceBoundary | supabase/functions/trade-executor/index.ts:214-218 | confidence exactly 0.7 is accepted; the confidence reason appears exactly below 0.7 |
| TradeExecutor.HoursBoundary | supabase/functions/trade-executor/index.ts:221-227 | trading is refused exactly in hours 0, 22 and 23 UTC |
| TradeExecutor.HoursExamples | supabase/functions/trade-executor/index.ts:221-227 | the last millisecond of hour 0 and the first of hour 22 are refused, while 01:00 and 21:59:59.999 are allowed |
| TradeExecutor.OpenPositionsBoundary | supabase/functions/trade-executor/index.ts:229-241 | three open positions on the symbol refuse the signal; two, or a failed count, let it pass |
| TradeExecutor.PositionSize | supabase/functions/trade-executor/index.ts:253-264 | the lot size is in [0.01, 0.1], and NaN only when the stop equals the entry and the balance is 0 |
| TradeExecutor.RiskLots | supabase/functions/trade-executor/index.ts:253-259 | the uncapped lot size risks exactly 1% of the balance over the stop distance in pips at $10 a pip |
| TradeExecutor.PositionSizeRiskRule | supabase/functions/trade-executor/index.ts:253-264 | with a real stop distance the lot size is the 1%-risk lots rounded to cents whenever neither cap nor floor binds, and never more than those lots plus the half-cent rounding unless the 0.01 floor lifts it |
| TradeExecutor.Floored | supabase/functions/trade-executor/index.ts:263 | rounding to cents and flooring at 0.01 keeps a size at most 0.1 within [0.01, 0.1] |
| TradeExecutor.PositionSizeBelowSignal | supabase/functions/trade-executor/index.ts:261-263 | the lot size never exceeds the signal's own size by more than the rounding half-cent, except for the 0.01 floor |
| TradeExecutor.PositionSizeExamples | supabase/functions/trade-executor/index.ts:253-264 | with a $1 stop, a $5000 balance gives 0.1 lots, $500 gives 0.05, and a non-positive balance gives 0.01 |
| TradeExecutor.SideOf | supabase/functions/trade-executor/index.ts:128 | the order is a buy exactly for signal type "BUY" |
| TradeExecutor.ExecuteSignal | supabase/functions/trade-executor/index.ts:110-180 | a failed check stops before any order; otherwise the order carries the symbol, side, computed lots, levels, magic number and signal comment, and the trade counts as executed exactly when the bridge fills it |
| TradeExecutor.ExecutedRow | supabase/functions/trade-executor/index.ts:137-156 | the stored position has the column's default status (taken to be open, as the insert names none), in the account, under the bridge's ticket at the fill price, with the signal's symbol, type and levels and a lot size in [0.01, 0.1] |
| TradeExecutor.ExecutionResult | supabase/functions/trade-executor/index.ts:113-180 | success exactly for an executed trade, which alone reports a price; each failure reports its check reason or bridge error |
| TradeExecutor.ExecuteSignalSuccess | supabase/functions/trade-executor/index.ts:110-180 | executing succeeds exactly when the checks pass and the bridge fills |
| TradeExecutor.FindPosition | supabase/functions/trade-executor/index.ts:296-305 | a position is found only if it is in the account with the given id, and not found whenever there is not exactly one such row |
| TradeExecutor.UpdateWhere | supabase/functions/trade-executor/index.ts:313-325 | an update touches exactly the rows with the position id, whatever their account, and keeps the row count |
| TradeExecutor.ClosePosition | supabase/functions/trade-executor/index.ts:293-340 | an unknown position gives "Close position error: Position not found"; a bridge failure reports failure and changes no row; rows of other positions never change |
| TradeExecutor.ClosedRow | supabase/functions/trade-executor/index.ts:315-325 | after a successful close each row of the position is marked closed with the bridge's price and profit at the given time, and nothing else in it changes |
| TradeExecutor.ModifyPosition | supabase/functions/trade-executor/index.ts:355-399 | an unknown position gives "Modify position error: Position not found"; a bridge failure changes no row; rows of other positions never change |
| TradeExecutor.ModifiedRow | supabase/functions/trade-executor/index.ts:378-386 | after a successful modify the row carries the requested levels, or its old ones where 0 was requested, and the update time |
| TradeExecutor.ModifyNothingRequested | supabase/functions/trade-executor/index.ts:372-386 | a modify requesting nothing keeps both levels and only refreshes the update time |
| TradeExecutor.ParseAction | supabase/functions/trade-executor/index.ts:49-61 | each of the three action names selects its own action and every other name none |
| TradeExecutor.Handle | supabase/functions/trade-executor/index.ts:15-98 | a missing signal or account is rejected with its message before dispatch, an unknown action is rejected by name, and otherwise the response reports the action's message as applied or rejected |
| TradeExecutor.HandleStatusAgrees | supabase/functions/trade-executor/index.ts:63-90 | the stored signal status is EXECUTED exactly when the response is applied, and FAILED only after a known action ran and failed |
| TradeExecutor.PerformAsWritten | supabase/functions/trade-executor/index.ts:48-61 | as written a close or modification looks up the position "undefined"; a modification that found one fails on the undefined modifications |
| TradeExecutor.HandleAsWrittenNeverFinds | supabase/functions/trade-executor/index.ts:52-56 | as written, with no stored position called "undefined", every close and modify request fails with "Position not found" and marks the signal FAILED, whatever position it names |
| TradeExecutor.NothingMatchesUndefined | supabase/functions/trade-executor/index.ts:295-302 | the lookup finds no position under an id that no stored row has |
| TradeExecutor.HandleRequestReachesPosition | supabase/functions/trade-executor/index.ts:52-56 | as intended, closing or modifying a stored position reports the bridge's outcome, applied exactly when the bridge succeeded |
| TradeExecutor.HandleRequestAgrees | supabase/functions/trade-executor/index.ts:48-61 | the as-written and intended handlers answer signal executions and unknown actions identically |
| TradeExecutor.UnknownActionRejected | supabase/functions/trade-executor/index.ts:58-60 | "CANCEL_ORDER" is rejected as an unknown action |
| NewsScraper.ImpactFromTitle | supabase/functions/news-scraper/index.ts:238-251 | HIGH exactly when a high-impact keyword occurs in the lower-cased title, MEDIUM exactly when none does but a medium one does, LOW otherwise |
| NewsScraper.ImpactKeywords | supabase/functions/news-scraper/index.ts:238-251 | the same classification stated keyword by keyword |
| NewsScraper.ImpactIgnoresCase | supabase/functions/news-scraper/index.ts:242 | titles differing only in ASCII case get the same impact |
| NewsScraper.ImpactHighWins | supabase/functions/news-scraper/index.ts:244-248 | a title mentioning both "fed" and "housing" is HIGH, since high keywords are checked first |
| NewsScraper.Collect | supabase/functions/news-scraper/index.ts:118-130 | the events built are exactly the images of the kept rows, and never more than there are rows |
| NewsScraper.Take | supabase/functions/news-scraper/index.ts:136 | `slice(0, n)` is the prefix of length min(n, length) |
| NewsScraper.IconImpact | supabase/functions/news-scraper/index.ts:115-116 | three or more impact icons mean HIGH, exactly two MEDIUM, otherwise (or none found) LOW |
| NewsScraper.KeepRowExamples | supabase/functions/news-scraper/index.ts:111-118 | USD rows with a title are kept, rows whose title mentions gold are kept in any currency, and rows with an empty or missing title are dropped |
| NewsScraper.CalendarEvent | supabase/functions/news-scraper/index.ts:119-128 | a calendar event is titled "[currency] title", comes from ForexFactory, takes its impact from the icons, and lists three symbols for USD and XAUUSD alone otherwise |
| NewsScraper.ScrapeForexFactory | supabase/functions/news-scraper/index.ts:90-141 | a failed page gives no events; otherwise the first 20 events of the kept rows, all from ForexFactory |
| NewsScraper.Truncate | supabase/functions/news-scraper/index.ts:170 | a stored title is the prefix of at most 200 characters, unchanged when already short enough |
| NewsScraper.InvestingEvent | supabase/functions/news-scraper/index.ts:164-174 | an Investing.com event keeps the full title in its content and takes its impact from the full title |
| NewsScraper.DailyFxEvent | supabase/functions/news-scraper/index.ts:213-222 | a DailyFX event is always MEDIUM impact technical analysis |
| NewsScraper.ScrapeInvesting | supabase/functions/news-scraper/index.ts:143-189 | only the first 15 headlines are examined and the relevant ones among them become events, with titles of at most 200 characters |
| NewsScraper.ScrapeDailyFx | supabase/functions/news-scraper/index.ts:191-236 | only the first 10 headlines are examined; every event is MEDIUM impact |
| NewsScraper.InvestingIgnoresLater | supabase/functions/news-scraper/index.ts:159 | headlines after the fifteenth never affect the Investing.com events |
| NewsScraper.HighImpactCount | supabase/functions/news-scraper/index.ts:71 | the high-impact count is 0 exactly when no event is HIGH |
| NewsScraper.HighImpactAppend | supabase/functions/news-scraper/index.ts:71 | the high-impact count is additive over sources |
| NewsScraper.Scrape | supabase/functions/news-scraper/index.ts:24-75 | the events are the three sources' events in order, the total is their number (at most 45), the high-impact count is among them, and the patch reports the total |
| NewsScraper.HighImpactSources | supabase/functions/news-scraper/index.ts:71 | DailyFX never contributes to the high-impact count |
| NewsScraper.AllSourcesFailed | supabase/functions/news-scraper/index.ts:30-60 | when every source fails the scrape reports no events and no high-impact events |
| MarketData.MapIntervalAsWritten | supabase/functions/market-data-api/index.ts:110-121 | the lookup as written returns an own entry, else an inherited Object.prototype member, else M1 |
| MarketData.MapIntervalAsWrittenNotACode | supabase/functions/market-data-api/index.ts:120 | the interval "toString" yields a function, not a timeframe code |
| MarketData.MapInterval | supabase/functions/market-data-api/index.ts:110-121 | the corrected lookup always gives one of the seven codes: the table's code for the seven names and M1 for every other name |
| MarketData.MapIntervalTable | supabase/functions/market-data-api/index.ts:111-119 | each of the seven interval names maps to its code; an unknown name and "toString" map to M1 |
| MarketData.MapIntervalOnto | supabase/functions/market-data-api/index.ts:111-119 | every timeframe code is reached by some interval name |
| MarketData.MapIntervalAgrees | supabase/functions/market-data-api/index.ts:110-121 | the corrected and as-written lookups agree on every name not inherited from Object.prototype |
| MarketData.StoreCandlesAsWritten | supabase/functions/market-data-api/index.ts:49-60 | as written every candle carries the as-written lookup's value for the interval, with its own close and timestamp |
| MarketData.StoreCandlesAgree | supabase/functions/market-data-api/index.ts:49-60 | off the inherited names the as-written candles carry the corrected codes; on an inherited name every candle carries the inherited member instead of a code |
| MarketData.StoreCandles | supabase/functions/market-data-api/index.ts:49-60 | with the corrected lookup every stored candle carries the interval's timeframe code and its own close and timestamp |
| MarketData.StreamTick | supabase/functions/market-data-api/index.ts:76-87 | no candles, no tick; otherwise the tick's last price is the newest close and bid and ask sit 0.10 either side of it |

## Left out

- Sigmoid and `Math.exp`, the binary cross-entropy loss, and every `Math.sqrt`: floating-point transcendental functions. The logistic squash is a parameter of the training loop. The loss only feeds a log line, and volatility, Sharpe ratio and standard deviation are not modelled.
- IEEE-754 rounding: all arithmetic is on exact reals.
- Text formatting of numbers:
  - `toFixed` in descriptions and log lines is left out.
  - The number in the executed-trade message is a parameter.
- The weights' `JSON.stringify` is not modelled: the model hash takes the serialised string.
- Unicode case mapping is not modelled: `toLowerCase` is modelled on ASCII letters only.
- Substrings count UTF-16 code units in the source and characters in the model.
- Every database read and write, HTTP, CORS, `serve`, JSON parsing and the journal inserts. Rows are sequences and replies are parameters. A failed count query becomes `None`.
- Clocks: `new Date()`, `Date.now()`, `published_at`, `open_time` and `close_time` are parameters or dropped.
- The MT5 bridge simulators in trade-executor (lines 266-291, 342-353 and 401-407) are random, and `generateRealisticGoldPrices` in market-data-api is a mock generator. They are replaced by reply parameters.
- `analyzeTrend`, `calculateSMA`, `calculateVolatility` and `calculateVolumeProfile` in ai-signal-generator are not modelled. They are the inputs of the scalping analysis, which takes them as given values.
- The signal generator's request glue (lines 47-97) and the feature assembly (lines 143-192) are not modelled: they call database lookups and helpers that are not part of this model. The model-weights lookup (lines 128-141) is a parameter of `LoadedWeights`, and the arrangement of the features into the shape the scalping analysis reads is a parameter of `GenerateTradingSignal`.
- The strategy, model and account lookups (lines 436-479) are database reads.
- `analyzeNewsImpact` (news-scraper lines 253-316) calls an external language-model API.
- HTML fetching and DOM parsing are not modelled: each page arrives as the optional cell texts the selectors would return.
- `trim` is not modelled.
- The init-system and market-data-sync functions are not part of this model.
- The Python MT5 connector and the web UI (components, pages and hooks) are not part of this model: they wrap the trading terminal or display results.
- Trainer.Train requires positive prices, because the features divide by closes and by moving averages. A zero price gives NaN in the source, which the model does not carry.
- RiskCalculator.Factors and RiskCalculator.CalculateRiskMetrics require non-zero balance, equity and margin sum. In the source a zero divisor gives NaN or Infinity in a factor. The model carries NaN and Infinity only for the margin usage of the violations (`MarginUsageOf`) and the metrics' margin level (`Divide`).
- TradeExecutor.ModifyPosition takes the modifications as a value; the undefined modifications of the as-written handler are modelled in `TradeExecutor.PerformAsWritten`.
- TradeExecutor.PositionSize covers the NaN of a zero stop distance with a zero balance. It does not model a NaN or missing `position_size` on the signal.
- RiskCalculator.RiskViolations compares the drawdown percentage with the money amount `balance * 0.20` as the source does, not with a percentage limit.

## Findings

| source | as written | input that shows it | evidently intended | confidence | as-written member | corrected member |
|---|---|---|---|---|---|---|
| supabase/functions/market-data-api/index.ts:110-121 | `map[interval] \|\| 'M1'` on a plain object literal also finds members inherited from `Object.prototype` | interval "toString" (also "constructor", "valueOf", …) yields a function instead of a timeframe code | every name outside the seven entries maps to 'M1' | not executed; low impact, since the upstream API is likely to reject such an interval before this line runs | MarketData.MapIntervalAsWrittenNotACode | MarketData.MapInterval |
| supabase/functions/ai-signal-generator/index.ts:47 | the handler calls `generateTradingSignal(marketData, newsData \|\| [], model)`, so `model` fills the `symbol` parameter and `modelId` is undefined; no weights load and the rule-based fallback `analyzeScalpingConditions(features)` (line 212) destructures `price_action` and `market_structure` from a features object that has neither | any request with at least 50 stored bars: reading `market_structure.trend_strength` (line 396) throws a TypeError and the handler answers 500 | without weights the fallback returns the scalping verdict on the features | not executed; high, read from the code | SignalGenerator.HandlerFallbackThrows | SignalGenerator.GenerateTradingSignal |
| supabase/functions/trade-executor/index.ts:52-56 | after `await req.json()` (line 21) the handler reads `req.body.positionId` and `req.body.modifications` from the consumed body stream, which has neither property | any CLOSE_POSITION or MODIFY_POSITION request: the lookup filters on the position id "undefined" and answers "Position not found" | the position id and modifications come from the parsed body, like `action` | not executed; high, read from the code | TradeExecutor.HandleAsWrittenNeverFinds | TradeExecutor.HandleRequestReachesPosition |
