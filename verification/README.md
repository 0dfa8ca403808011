# Forex analysis pipeline — a Dafny model

This project models the analysis core of the single-page forex trading
assistant in `src/App.tsx`: the technical indicators (SMA, EMA, MACD, RSI,
ATR, Bollinger bands, Ichimoku cloud, Pearson correlation), the trend
classifier, the five strategy blocks of `analyzeRealStrategies` and the
EUR/USD–EUR/JPY correlation rule, the recommendation ladder of
`generateProfessionalRecommendations`, and the walk-forward simulation of
`performProfessionalBacktest`.

Prices are exact reals. `Math.sqrt` is a parameter `sqrt: real -> real` of
the stages that use it. Properties that need it assume either `IsRoot`
(non-negative results) or `IsExactRoot` (a true square root).

Modules, one per part of the pipeline:

| module | file | models |
|---|---|---|
| `Common` | `common.dfy` | bars, the bar filter, `Math.abs/max/min`, sums, `Math.max(...s)` |
| `MovingAverages` | `moving_averages.dfy` | `calculateSMA`, `calculateEMA`, `calculateMACD` |
| `Rsi` | `rsi.dfy` | `calculateRSI` |
| `Atr` | `atr.dfy` | `calculateATR` |
| `Bollinger` | `bollinger.dfy` | `calculateBollingerBands` |
| `Ichimoku` | `ichimoku.dfy` | `calculateIchimoku` |
| `Correlation` | `correlation.dfy` | `calculateCorrelation` |
| `Trend` | `trend.dfy` | `detectTrend` |
| `Signals` | `signals.dfy` | the five strategy blocks and the correlation emission rule |
| `Recommendations` | `recommendations.dfy` | `generateProfessionalRecommendations` |
| `Backtest` | `backtest.dfy` | `performProfessionalBacktest` |
| `Analysis` | `analysis.dfy` | `analyzeRealStrategies` as one pass |

Every indicator follows the same pattern:

- a pure function gives the value at one bar, recursively where the source
  smooths (`EmaAt`, `AveragesAt`, `AtrAt`);
- a series function lays those values out;
- a method keeps the source's push loop, with the invariant that the array
  built so far equals a prefix of the series;
- its `ensures` ties the result to the series function;
- lemmas then state the series' shape, ranges and special cases.

The backtest works the same way:

- a method runs the source's loop and mutates the balance, peak, drawdown,
  trade list and return list;
- `Backtest.Replay` is the function that loop follows;
- the metrics are proved about the replayed ledger.

## Model

| member | source | states |
|---|---|---|
| `MovingAverages.CalculateSma` | src/App.tsx:966-974 | the SMA loop produces the window means: none below `period` values, otherwise one per full window |
| `MovingAverages.SmaWithinRange` | src/App.tsx:966-974 | every SMA value lies within any range holding all the data |
| `MovingAverages.Smoothing` | src/App.tsx:895 | the EMA factor `2 / (period + 1)` lies in (0, 1] |
| `MovingAverages.CalculateEma` | src/App.tsx:893-901 | the EMA loop yields the recursive EMA: empty below `period` values, otherwise `n - period + 1` values seeded with `data[period - 1]` |
| `MovingAverages.EmaAtPrefix` | src/App.tsx:893-901 | an EMA value depends only on the data up to its bar (what the backtest relies on when it recomputes on `data.slice(0, i)`) |
| `MovingAverages.EmaAtWithinRange` | src/App.tsx:893-901 | every EMA value stays within any range holding the data seen so far |
| `MovingAverages.Macd` | src/App.tsx:936-947 | no lines below 26 closes; otherwise `n - 25` MACD values, each EMA12 minus the aligned EMA26, and the signal line is the 9-period EMA of the MACD line |
| `Rsi.Gain` | src/App.tsx:911-913 | a change splits into a non-negative gain and loss whose difference is the change |
| `Rsi.SeedTotals` | src/App.tsx:910-914 | the seed sums of gains and losses are non-negative |
| `Rsi.AveragesAt` | src/App.tsx:915-928 | the Wilder-smoothed average gain and loss stay non-negative |
| `Rsi.RsiOf` | src/App.tsx:918-919 | with the `avgLoss \|\| 0.0001` guard the RSI lies in [0, 100), and it is 0 exactly when the average gain is 0 |
| `Rsi.CalculateRsi` | src/App.tsx:903-934 | the two loops produce the RSI series |
| `Rsi.RsiShape` | src/App.tsx:903-934 | empty below `period + 1` values, otherwise `n - period` values, each in [0, 100) |
| `Rsi.NonRisingRsiIsZero` | src/App.tsx:910-931 | on closes that never rise every RSI value is 0 |
| `Rsi.AverageGainZero` | src/App.tsx:910-928 | no rise up to a bar means a zero average gain at that bar |
| `Atr.TrueRange` | src/App.tsx:1018-1022 | the true range is non-negative and bounds the bar's range and both gaps to the previous close |
| `Atr.AtrAt` | src/App.tsx:1025-1034 | every ATR value is non-negative |
| `Atr.CalculateAtr` | src/App.tsx:1012-1038 | the loop produces the seed mean of the first `period` true ranges followed by Wilder smoothing |
| `Atr.AtrShape` | src/App.tsx:1012-1038 | empty below `period + 1` closes, otherwise `n - period` non-negative values |
| `Bollinger.Variance` | src/App.tsx:958 | the population variance of a window is non-negative |
| `Bollinger.CalculateBollingerBands` | src/App.tsx:949-964 | the loop produces SMA ± 2 standard deviations per window |
| `Bollinger.BandsEncloseSma` | src/App.tsx:949-964 | with a non-negative root, lower ≤ SMA ≤ upper at every bar |
| `Bollinger.FlatSeriesBands` | src/App.tsx:949-964 | a constant series collapses all three lines onto the constant |
| `Ichimoku.CalculateIchimoku` | src/App.tsx:976-1010 | the loop produces the tenkan, kijun and both spans |
| `Ichimoku.CloudShape` | src/App.tsx:976-1010 | empty below 52 bars; otherwise `n - 26` tenkan/kijun and `n - 51` span values, each Senkou A the mean of the aligned tenkan and kijun |
| `Ichimoku.MidpointWithinRange` | src/App.tsx:986-994 | a high/low midpoint lies within any range holding the window |
| `Ichimoku.CloudWithinRange` | src/App.tsx:976-1010 | every line of the cloud stays within the price range of the bars |
| `Correlation.CalculateCorrelation` | src/App.tsx:1040-1061 | the loop yields the Pearson quotient over the leading `min(n1, n2)` samples, 0 below 2 samples or when the denominator is 0 |
| `Correlation.AccumulateMoments` | src/App.tsx:1047-1057 | the accumulation loop produces the running co-moment and both squared spreads |
| `Correlation.CorrelationSymmetric` | src/App.tsx:1040-1061 | swapping the two series gives the same correlation |
| `Correlation.SelfCorrelationIsOne` | src/App.tsx:1040-1061 | a non-constant series correlates with itself at exactly 1 (exact root) |
| `Correlation.AntiCorrelationIsMinusOne` | src/App.tsx:1040-1061 | a non-constant series correlates with its mirror image about its mean at exactly -1 (exact root) |
| `Correlation.ConstantSeriesHasZeroCorrelation` | src/App.tsx:1059-1060 | a constant series has correlation 0 (the zero-denominator guard) |
| `Correlation.NoSpreadMeansAtMean` | src/App.tsx:1047-1057 | zero spread means every sample equals the mean |
| `Correlation.AtMeanMeansNoSpread` | src/App.tsx:1047-1057 | samples all at the mean give zero spread |
| `Correlation.MomentsCauchySchwarz` | src/App.tsx:1047-1057 | the running sums satisfy `cov² ≤ var1 · var2` |
| `Correlation.CorrelationBounded` | src/App.tsx:1040-1061 | with an exact root the correlation lies in [-1, 1] |
| `Trend.WindowSizes` | src/App.tsx:874-879 | from 20 closes on, both windows are non-empty, the recent one is 4–10 bars and the older one ends within the series |
| `Trend.Classify` | src/App.tsx:884-889 | never 'Indéterminé'; 'Haussier' only on a higher recent mean, 'Baissier' only on one no higher; always 'Latéral' for a negative older mean, never for a zero one |
| `Trend.DetectTrend` | src/App.tsx:871-890 | the trend is 'Indéterminé' exactly below 20 closes |
| `Trend.ClassifyPositive` | src/App.tsx:886-889 | for a positive older mean: sideways under 0.5 % relative change, otherwise rising or falling by the sign of the change |
| `Trend.ConstantSeriesTrend` | src/App.tsx:871-890 | a flat series is sideways (a flat zero series reads as falling) |
| `Signals.EmaCrossoverSignal` | src/App.tsx:386-421 | strategy 1 as a function of the indicators; its rule is the contract of `Signals.EmaCrossoverRule` |
| `Signals.EmaCrossoverRule` | src/App.tsx:386-421 | at most one signal; BUY exactly on an upward crossover with 1.5× volume, SELL exactly on a downward one; confidence in [0.75, 0.95]; strong exactly when the gap exceeds 2 ATR |
| `Signals.RsiSignals` | src/App.tsx:423-456 | strategy 2 as a function of the RSI and closes; its rule is the contract of `Signals.RsiRule` |
| `Signals.RsiRule` | src/App.tsx:423-456 | at most one signal, none with 20 or fewer RSI values; BUY exactly when the RSI is under 35 or a divergence meets an RSI under 50 and a falling price, SELL exactly in the mirrored case; confidence 0.88 exactly on a divergence, 0.85 exactly beyond 25 / 75 without one, else 0.72; 'FORT' exactly on a divergence or beyond 25 / 75 |
| `Signals.MacdSignal` | src/App.tsx:458-491 | strategy 3 as a function of the MACD lines; its rule is the contract of `Signals.MacdRule` |
| `Signals.MacdRule` | src/App.tsx:458-491 | at most one signal; BUY exactly on an upward crossover with a growing histogram, SELL exactly on a downward one with a shrinking histogram; confidence in [0.80, 0.93]; strong exactly above 1.5 ATR |
| `Signals.BollingerSignals` | src/App.tsx:493-530 | strategy 4 as a function of the bands and the close; its rule is the contract of `Signals.BollingerRule` |
| `Signals.BollingerRule` | src/App.tsx:493-530 | at most one signal, none when the position is undefined; BUY exactly when the position is above 0.8, or above 0.7 in a squeeze; SELL exactly below 0.2, or below 0.3 in a squeeze; confidence 0.82 exactly in a squeeze; 'FORT' exactly in a squeeze beyond 0.9 / 0.1; never a squeeze with fewer than 20 band values |
| `Signals.IchimokuSignal` | src/App.tsx:532-571 | strategy 5 as a function of the cloud and the close; its rule is the contract of `Signals.IchimokuRule` |
| `Signals.IchimokuRule` | src/App.tsx:532-571 | at most one signal; BUY exactly above the cloud with tenkan over kijun and close over kijun, SELL exactly in the mirrored case; confidence at most 0.95, BUY confidence above 0.85 |
| `Signals.IchimokuSellConfidenceCanBeNegative` | src/App.tsx:561-569 | a close far below the cloud yields a SELL with negative confidence |
| `Signals.CorrelationSignal` | src/App.tsx:625-636 | the correlation anomaly as a function of the correlation; its rule is the contract of `Signals.CorrelationRule` |
| `Signals.CorrelationRule` | src/App.tsx:626-636 | a signal exactly beyond ±0.75: BUY for a negative correlation, SELL for a positive one; confidence in (0.6375, 0.85] for a correlation in [-1, 1] |
| `Signals.CountOfConcat` | src/App.tsx:374 | counting signals of one strategy distributes over concatenation |
| `Signals.CountOfOneStrategy` | src/App.tsx:374 | a block emitting only its own strategy contributes only to that count |
| `Recommendations.GenerateRecommendations` | src/App.tsx:645-771 | exactly one recommendation comes out |
| `Recommendations.OfDirectionSplits` | src/App.tsx:646-647 | a signal is in the buy (sell) list exactly when it is in the input with that direction, and the two lists together are the input as a multiset |
| `Recommendations.MeanConfidenceBounds` | src/App.tsx:653-654 | the mean confidence of a side lies within the bounds of its signals |
| `Recommendations.LadderOrder` | src/App.tsx:670-769 | strong BUY before strong SELL before weak BUY before weak SELL before ATTENDRE, each exactly when its tier's condition holds and no earlier one does |
| `Recommendations.StrongRecommendation` | src/App.tsx:670-715 | the strong BUY or SELL recommendation; what it holds is the contract of `Recommendations.StrongTier` |
| `Recommendations.StrongTier` | src/App.tsx:670-715 | confidence in [65, 95], position in (0, 10 %], 'FAIBLE' exactly above 80, 'ÉLEVÉ' only at 65, stop 2 ATR against, target 3 ATR towards, the side's strategies listed |
| `Recommendations.WeakRecommendation` | src/App.tsx:717-751 | the weak BUY or SELL recommendation; what it holds is the contract of `Recommendations.WeakTier` |
| `Recommendations.WeakTier` | src/App.tsx:717-751 | confidence at most 75, position in (0, 5 %], risk 'MOYEN', stop 1.5 ATR against, target 2 ATR towards |
| `Recommendations.PositionSizePositive` | src/App.tsx:660-661 | the 2 %-risk position size is positive |
| `Recommendations.StopsBracketClose` | src/App.tsx:670-751 | an entering recommendation puts the stop and the target on opposite sides of the close and lists at least one strategy |
| `Recommendations.WaitWhenNothingQualifies` | src/App.tsx:752-768 | ATTENDRE reports the number of buy and of sell signals (together all signals), with confidence 100, risk 'FAIBLE', no position, no stop or target; no signals always gives ATTENDRE reporting 0 and 0 |
| `Backtest.BacktestWindow` | src/App.tsx:784-787 | from 60 bars on, the loop starts at bar 30 or later, runs at least 10 steps and stops at `n - 5` |
| `Backtest.Decision` | src/App.tsx:794-810 | the entry rule as a function of the history; `Backtest.DecideTrade` computes it |
| `Backtest.DecideTrade` | src/App.tsx:794-810 | the entry rule on the history so far: EMA crossover filtered by RSI below 70 (BUY) or above 30 (SELL) |
| `Backtest.BacktestIteration` | src/App.tsx:788-838 | one pass of the loop body on the mutable state equals one `Backtest.Step` |
| `Backtest.TakeTrade` | src/App.tsx:812-838 | one trade updates the balance by 2 % of it times the return, raises the peak and the drawdown as recorded, and appends the trade and its return |
| `Backtest.Record` | src/App.tsx:812-838 | one trade applied to the ledger; its properties are the contracts of `Backtest.RecordKeepsInvariant`, `Backtest.RecordTracksTrades` and `Backtest.BalanceFollowsReturn` |
| `Backtest.RecordKeepsInvariant` | src/App.tsx:812-838 | recording a trade keeps the ledger invariant (peak at least the initial balance and every recorded balance, maximum drawdown non-negative and at least the current drawdown, one return per trade), never lowers peak or drawdown, and appends exactly that trade |
| `Backtest.Step` | src/App.tsx:787-840 | one loop iteration: no change unless the entry rule fires, else that trade; its properties are the contracts of `Backtest.StepKeepsInvariant` and `Backtest.StepIgnoresLaterBars` |
| `Backtest.StepKeepsInvariant` | src/App.tsx:787-840 | an iteration keeps the invariant and adds at most one trade |
| `Backtest.Replay` | src/App.tsx:787-840 | the replayed ledger satisfies the invariant (peak at least the initial balance and every recorded balance, maximum drawdown non-negative and at least the current drawdown, one return per trade) and holds at most one trade per iteration |
| `Backtest.RecordTracksTrades` | src/App.tsx:812-838 | after a trade, the balance is the last recorded one, the peak the running maximum of the balances and the maximum drawdown the running maximum of the drawdowns |
| `Backtest.StepTracksTrades` | src/App.tsx:787-840 | an iteration keeps balance, peak and maximum drawdown equal to what the recorded trades determine |
| `Backtest.ReplayTracksTrades` | src/App.tsx:787-840 | after every iteration, balance, peak and maximum drawdown are exactly those the recorded trades determine |
| `Backtest.PeakIsMaximum` | src/App.tsx:831-833 | the peak bounds every recorded balance and is either the initial balance or one of them |
| `Backtest.MaxDrawdownIsMaximum` | src/App.tsx:834-837 | the maximum drawdown bounds the drawdown after every trade and is either 0 or one of them |
| `Backtest.ReplayStep` | src/App.tsx:787-840 | the replay to `i + 1` is one more iteration on the replay to `i` |
| `Backtest.ReturnSign` | src/App.tsx:814-816 | a trade gains exactly when the price moved its way and loses exactly when it moved against it |
| `Backtest.BalanceFollowsReturn` | src/App.tsx:813-819 | with a positive balance, the balance rises exactly on a positive return and falls exactly on a negative one |
| `Backtest.ReplayIgnoresLaterBars` | src/App.tsx:787-791 | iterations before `i` read no bar from `i + 5` on |
| `Backtest.StepIgnoresLaterBars` | src/App.tsx:787-791 | iteration `i` reads no bar from `i + 6` on |
| `Backtest.WinningExactly` | src/App.tsx:842 | the winning trades are exactly those with a positive return |
| `Backtest.LosingExactly` | src/App.tsx:843 | the losing trades are exactly those with a negative return |
| `Backtest.WinRate` | src/App.tsx:844 | the win rate lies in [0, 100] and is positive exactly when some trade won |
| `Backtest.ProfitFactor` | src/App.tsx:846-851 | the profit factor is non-negative, 0 without a gain, 2 with gains and no loss |
| `Backtest.MeanGain` | src/App.tsx:846-847 | the mean gain of the winning trades is non-negative, and positive exactly when some trade won |
| `Backtest.MeanLoss` | src/App.tsx:848-849 | the mean loss is non-negative, and 0 without losing trades |
| `Backtest.AverageReturn` | src/App.tsx:854 | 0 without returns, positive when all returns are, non-negative when none is negative |
| `Backtest.SharpeRatio` | src/App.tsx:855-858 | 0 with fewer than two returns; with a non-negative root its sign follows the average return |
| `Backtest.Metrics` | src/App.tsx:842-858 | trade count, win rate in [0, 100], non-negative profit factor, all zero without trades |
| `Backtest.BacktestDrawdown` | src/App.tsx:834-858 | the reported maximum drawdown is the largest drawdown after any trade of the run, in percent |
| `Backtest.ProfessionalBacktest` | src/App.tsx:774-858 | no result below 60 bars; otherwise at most one trade per iteration, non-negative drawdown, win rate in [0, 100] |
| `Backtest.PerformProfessionalBacktest` | src/App.tsx:774-858 | the loop's mutable state follows `Replay`, so the result is `ProfessionalBacktest` |
| `Analysis.LastAtr` | src/App.tsx:378 | `atr[last] \|\| 0.0001` is never 0, is positive on non-negative ATR, and is the fallback on an empty series |
| `Analysis.RecentCloses` | src/App.tsx:619 | `slice(-k)` keeps the last `min(k, n)` closes for a positive `k`, and every close for `k = 0` |
| `Analysis.CorrelationSignals` | src/App.tsx:573-636 | at most one correlation signal, none without more than 20 EUR/JPY closes |
| `Analysis.BollingerMeansPositive` | src/App.tsx:493-499 | on positive closes the band lines align and every SMA is positive, so the bandwidth division is defined |
| `Analysis.ComputeIndicators` | src/App.tsx:377-533 | the indicators meet what the strategy blocks rely on: non-negative ATR, aligned band lines with non-zero SMA, aligned cloud spans |
| `Analysis.ComputeAll` | src/App.tsx:377-533 | running the indicator methods gives `ComputeIndicators` |
| `Analysis.EmitSignals` | src/App.tsx:386-579 | pushing the blocks' signals in order gives the six-block concatenation |
| `Analysis.Analyze` | src/App.tsx:360-590 | an error exactly below 30 bars, carrying the bar count; otherwise one recommendation and a positive volatility |
| `Analysis.AnalyzeRealStrategies` | src/App.tsx:360-590 | the imperative pass computes `Analyze` |
| `Analysis.SixBlocks` | src/App.tsx:386-636 | six blocks of at most one signal each, of distinct strategies, hold at most one signal per strategy |
| `Analysis.AtMostOneSignalPerStrategy` | src/App.tsx:386-636 | a pass's signals hold at most one signal per strategy |
| `Analysis.PassHasAtMostOneSignalPerStrategy` | src/App.tsx:360-590 | every successful analysis holds at most one signal per strategy |
| `Analysis.NonRisingMarketBuysOnRsi` | src/App.tsx:423-445 | from 35 bars on, closes that never rise always produce the strong RSI BUY at confidence 0.85 |
| `Analysis.RsiOnZeroes` | src/App.tsx:425-445 | an RSI series of more than 20 zeroes gives exactly the strong oversold BUY |

## Behaviour the model makes explicit

These follow from the code and differ from what the strategy descriptions suggest:

- The RSI of a series that never rises is 0, not undefined. The `avgLoss || 0.0001` guard gives `RS = 0`. A flat or falling market of at least 35 bars therefore always triggers the strong oversold BUY (`Analysis.NonRisingMarketBuysOnRsi`).
- The Ichimoku SELL confidence measures the distance to the cloud top, not the bottom. It can fall below zero (`Signals.IchimokuSellConfidenceCanBeNegative`).
- Senkou Span B takes highs and lows over 26 bars (`slice(i - 51, i - 25)`), not 52.
- The correlation uses the leading `min(n1, n2)` samples of each argument. The EUR/USD argument is already the trailing `min(50, m)` closes.
- The backtest enters at `data[i - 1]` and exits at `data[i + 5]`. Below 60 bars it produces no performance at all.
- The risk level 'ÉLEVÉ' of the strong tier is reachable only at a confidence of exactly 65.

JavaScript `NaN` and `undefined` comparisons are false both ways. The model writes out what that amounts to:

- MACD with fewer than two signal values emits no signal;
- a Bollinger position with a zero band width emits no signal;
- an average bandwidth over fewer than 20 band values means no squeeze; the position thresholds of 0.8 and 0.2 still apply.

## Left out

- Network access, API keys, retries over symbols and the rate-limit handling of `fetchRealForexData` are not modelled. The bar filter of `src/App.tsx:241-245` is kept as the precondition `AllValid`.
- The EUR/JPY request of `analyzeRealCorrelation` becomes the parameter `eurJpyCloses`. `None` stands for another pair, a failed request or a rate-limited one. `Some` holds the parsed trailing closes. The "more than 20 keys" check is implied by "more than 20 parsed closes".
- `generateDemoData` uses `Math.random` and is not modelled.
- The chart update, React state setters, status messages, logging and the UI components are not modelled.
- `Recommendations.WaitRecommendation`: of the three explanatory lines of 'ATTENDRE', only the counts in the first are carried, as `Wait(buyCount, sellCount)`. The rest is fixed French text, and the model keeps no strings for it.
- Timestamps and sorting by timestamp are not modelled; bars arrive in order.
- `Math.sqrt` is an uninterpreted parameter. Floating-point rounding, overflow and `NaN` propagation are not modelled beyond the explicit cases listed above.
- The RSI moving average `rsiMA` / `rsiTrend` (src/App.tsx:427-428) is computed but never used. It is not modelled.
- `performProfessionalBacktest` receives the pass's signals but never reads them. The model passes only the bars.
- `Analysis.Analyze`: its report holds trend, volatility, signals and recommendations. It omits the backtest result, which reads only the bars and stands as `Backtest.ProfessionalBacktest`.
- `Analysis.CorrelationSignals`: the source runs the correlation only for the EUR/USD pair. The model leaves that choice to the caller, through `None`.
- `Backtest.SharpeRatio`: only its sign and the short-series case are stated. Its magnitude depends on `Math.sqrt`.
- `Backtest.ProfessionalBacktest`: profit factor and Sharpe ratio are bounded only through `Backtest.Metrics` and `Backtest.SharpeRatio`, not in its own contract.
