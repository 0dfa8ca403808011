/** `analyzeRealStrategies`: the pass that turns a series of bars into a market
    condition, the strategy signals, one recommendation and a backtest. */
module Analysis {
  import opened Common
  import opened MovingAverages
  import Rsi
  import Atr
  import Bollinger
  import Ichimoku
  import Correlation
  import Trend
  import opened Signals
  import Recommendations

  /** The pass refuses to run on fewer bars than this. */
  const MinAnalysisBars: nat := 30

  /** The ATR used when the series is empty or its last value is 0. */
  const AtrFallback: real := 0.0001

  /** The error thrown for a short series, with the number of bars received. */
  datatype AnalysisError = InsufficientData(count: nat)

  /** What the pass hands to the display: the market condition (trend and
      relative volatility), the signals in emission order and the
      recommendations. The backtest the pass ends with reads only the bars,
      so it stands on its own as `Backtest.ProfessionalBacktest`. */
  datatype Report = Report(trend: Trend.Trend, volatility: real, signals: seq<Signal>,
                           recommendations: seq<Recommendations.Recommendation>)

  /** `atr[atr.length - 1] || 0.0001` */
  function LastAtr(atr: seq<real>): (r: real)
    ensures r != 0.0
    ensures (forall j :: 0 <= j < |atr| ==> atr[j] >= 0.0) ==> r > 0.0
    ensures |atr| == 0 ==> r == AtrFallback
  {
    if |atr| > 0 && Last(atr) != 0.0 then Last(atr) else AtrFallback
  }

  /** `eurusdCloses.slice(-Math.min(50, eurJpyCloses.length))`: the last
      `count` closes, or all of them when there are fewer; `slice(-0)` is
      `slice(0)`, which keeps every close. */
  function RecentCloses(closes: seq<real>, count: nat): (r: seq<real>)
    ensures count > 0 ==> |r| == MinInt(count, |closes|)
    ensures count == 0 ==> r == closes
    ensures r == closes[|closes| - |r|..]
  {
    if count == 0 then closes
    else if |closes| >= count then closes[|closes| - count..] else closes
  }

  /** The correlation strategy: only when EUR/JPY closes could be obtained
      (`None` otherwise: another pair, a rate-limited or failed request) and
      more than 20 of them parse. */
  function CorrelationSignals(closes: seq<real>, eurJpyCloses: Option<seq<real>>, sqrt: real -> real)
    : (r: seq<Signal>)
    ensures |r| <= 1
    ensures (eurJpyCloses.None? || |eurJpyCloses.value| <= 20) ==> r == []
    ensures forall s :: s in r ==> s.strategy == CorrelationAnalysis
  {
    if eurJpyCloses.Some? && |eurJpyCloses.value| > 20 then
      var recent := RecentCloses(closes, MinInt(50, |eurJpyCloses.value|));
      var correlation := Correlation.Correlation(recent, eurJpyCloses.value, sqrt);
      CorrelationRule(correlation);
      CorrelationSignal(correlation)
    else []
  }

  /** Bollinger's bandwidth divides by the SMA: on positive closes every SMA
      value is positive. */
  lemma BollingerMeansPositive(closes: seq<real>, sqrt: real -> real)
    requires forall i :: 0 <= i < |closes| ==> closes[i] > 0.0
    ensures var b := Bollinger.BollingerBands(closes, 20, sqrt);
      && |b.upper| == |b.lower| == |b.sma|
      && forall j :: 0 <= j < |b.sma| ==> b.sma[j] > 0.0
  {
    if |closes| >= 20 {
      MinOfIsMinimum(closes);
      MaxOfIsMaximum(closes);
      SmaWithinRange(closes, 20, MinOf(closes), MaxOf(closes));
    }
  }

  /** The indicator series one pass computes from the closes, highs, lows and
      volumes. */
  datatype Indicators = Indicators(atr: seq<real>, emaShort: seq<real>, emaLong: seq<real>,
                                   volumeMa: seq<real>, rsi: seq<real>, macd: MacdLines,
                                   bands: Bollinger.Bands, cloud: Ichimoku.Cloud)

  /** What the strategy blocks rely on: ATR values are non-negative, the RSI
      is at most ten shorter than the closes, the three band lines align and
      their SMA is never 0, and the two spans of the cloud align. */
  ghost predicate WellShaped(ind: Indicators, closes: seq<real>)
  {
    && (forall j :: 0 <= j < |ind.atr| ==> ind.atr[j] >= 0.0)
    && (|ind.rsi| > 20 ==> |closes| >= 10)
    && |ind.bands.upper| == |ind.bands.lower| == |ind.bands.sma|
    && (forall j :: 0 <= j < |ind.bands.sma| ==> ind.bands.sma[j] != 0.0)
    && |ind.cloud.senkouA| == |ind.cloud.senkouB|
  }

  /** `calculateATR(highs, lows, closes, 14)`, `calculateEMA(closes, 12)` and
      `(closes, 26)`, `calculateSMA(volumes, 20)`, `calculateRSI(closes, 14)`,
      `calculateMACD(closes)`, `calculateBollingerBands(closes, 20)` and
      `calculateIchimoku(highs, lows, closes)`. */
  function ComputeIndicators(data: seq<Bar>, sqrt: real -> real): (ind: Indicators)
    requires AllValid(data)
    ensures WellShaped(ind, Closes(data))
  {
    var closes := Closes(data);
    var highs := Highs(data);
    var lows := Lows(data);
    Atr.AtrShape(highs, lows, closes, 14);
    Rsi.RsiShape(closes, 14);
    BollingerMeansPositive(closes, sqrt);
    Ichimoku.CloudShape(highs, lows, closes);
    Indicators(Atr.Atr(highs, lows, closes, 14), Ema(closes, 12), Ema(closes, 26), Sma(Volumes(data), 20),
               Rsi.Rsi(closes, 14), Macd(closes), Bollinger.BollingerBands(closes, 20, sqrt),
               Ichimoku.IchimokuCloud(highs, lows, closes))
  }

  /** The signals of one pass, in the order the strategies run: EMA
      crossover, RSI, MACD, Bollinger, Ichimoku, then the correlation
      signals. */
  function SignalPass(ind: Indicators, closes: seq<real>, volumes: seq<real>, lastAtr: real,
                      correlation: seq<Signal>): seq<Signal>
    requires WellShaped(ind, closes) && |closes| > 0 && Last(closes) > 0.0 && |volumes| > 0 && lastAtr > 0.0
  {
    var lastClose := Last(closes);
    EmaCrossoverSignal(ind.emaShort, ind.emaLong, ind.volumeMa, volumes, lastAtr, lastClose)
    + RsiSignals(ind.rsi, closes)
    + MacdSignal(ind.macd, lastAtr)
    + BollingerSignals(ind.bands, lastClose)
    + IchimokuSignal(ind.cloud, lastClose)
    + correlation
  }

  /** The whole pass: fewer than 30 bars is an error; otherwise the trend, the
      volatility `lastATR / lastClose`, the signals and exactly one
      recommendation. */
  function Analyze(data: seq<Bar>, timeframe: string, eurJpyCloses: Option<seq<real>>, sqrt: real -> real)
    : (r: Result<Report, AnalysisError>)
    requires AllValid(data)
    ensures r.Failure? <==> |data| < MinAnalysisBars
    ensures r.Failure? ==> r.error == InsufficientData(|data|)
    ensures r.Success? ==> |r.value.recommendations| == 1 && r.value.volatility > 0.0
  {
    if |data| < MinAnalysisBars then Failure(InsufficientData(|data|))
    else
      var closes := Closes(data);
      var ind := ComputeIndicators(data, sqrt);
      var lastAtr := LastAtr(ind.atr);
      var lastClose := Last(closes);
      DivPositive(lastAtr, lastClose);
      var signals := SignalPass(ind, closes, Volumes(data), lastAtr, CorrelationSignals(closes, eurJpyCloses, sqrt));
      Success(Report(Trend.DetectTrend(closes), lastAtr / lastClose, signals,
                     Recommendations.GenerateRecommendations(signals, lastClose, lastAtr, timeframe)))
  }

  /** `analyzeRealStrategies` itself: the indicators are computed by their
      loops and each strategy pushes its signals onto one array. */
  method AnalyzeRealStrategies(data: seq<Bar>, timeframe: string, eurJpyCloses: Option<seq<real>>,
                               sqrt: real -> real)
    returns (r: Result<Report, AnalysisError>)
    requires AllValid(data)
    ensures r == Analyze(data, timeframe, eurJpyCloses, sqrt)
  {
    if |data| < MinAnalysisBars {
      return Failure(InsufficientData(|data|));
    }
    var closes := Closes(data);
    var volumes := Volumes(data);
    var ind := ComputeAll(data, sqrt);

    var lastAtr := LastAtr(ind.atr);
    var lastClose := closes[|closes| - 1];
    var volatility := lastAtr / lastClose;
    var trend := Trend.DetectTrend(closes);

    var signals := EmitSignals(ind, closes, volumes, lastAtr, eurJpyCloses, sqrt);

    var recommendations := Recommendations.GenerateRecommendations(signals, lastClose, lastAtr, timeframe);
    r := Success(Report(trend, volatility, signals, recommendations));
  }

  /** The strategy blocks: each pushes its signals onto the array in turn;
      the correlation block only runs when EUR/JPY closes are at hand. */
  method EmitSignals(ind: Indicators, closes: seq<real>, volumes: seq<real>, lastAtr: real,
                     eurJpyCloses: Option<seq<real>>, sqrt: real -> real)
    returns (signals: seq<Signal>)
    requires WellShaped(ind, closes) && |closes| > 0 && Last(closes) > 0.0 && |volumes| > 0 && lastAtr > 0.0
    ensures signals == SignalPass(ind, closes, volumes, lastAtr, CorrelationSignals(closes, eurJpyCloses, sqrt))
  {
    var lastClose := closes[|closes| - 1];
    signals := EmaCrossoverSignal(ind.emaShort, ind.emaLong, ind.volumeMa, volumes, lastAtr, lastClose);
    signals := signals + RsiSignals(ind.rsi, closes);
    signals := signals + MacdSignal(ind.macd, lastAtr);
    signals := signals + BollingerSignals(ind.bands, lastClose);
    signals := signals + IchimokuSignal(ind.cloud, lastClose);
    var correlation: seq<Signal> := [];
    if eurJpyCloses.Some? && |eurJpyCloses.value| > 20 {
      var recent := RecentCloses(closes, MinInt(50, |eurJpyCloses.value|));
      var coefficient := Correlation.CalculateCorrelation(recent, eurJpyCloses.value, sqrt);
      correlation := CorrelationSignal(coefficient);
    }
    signals := signals + correlation;
  }

  /** The indicator loops of one pass, run one after another. */
  method ComputeAll(data: seq<Bar>, sqrt: real -> real) returns (ind: Indicators)
    requires AllValid(data)
    ensures ind == ComputeIndicators(data, sqrt)
  {
    var closes := Closes(data);
    var highs := Highs(data);
    var lows := Lows(data);
    var atr := Atr.CalculateAtr(highs, lows, closes, 14);
    var emaShort := CalculateEma(closes, 12);
    var emaLong := CalculateEma(closes, 26);
    var volumeMa := CalculateSma(Volumes(data), 20);
    var rsi := Rsi.CalculateRsi(closes, 14);
    var bands := Bollinger.CalculateBollingerBands(closes, 20, sqrt);
    var cloud := Ichimoku.CalculateIchimoku(highs, lows, closes);
    ind := Indicators(atr, emaShort, emaLong, volumeMa, rsi, Macd(closes), bands, cloud);
  }

  // ---------------------------------------------------------------------------
  // Properties of one pass
  // ---------------------------------------------------------------------------

  /** Six blocks of at most one signal each, every block naming its own
      strategy, give at most one signal per strategy. */
  lemma SixBlocks(e: seq<Signal>, r: seq<Signal>, m: seq<Signal>, b: seq<Signal>, i: seq<Signal>,
                  c: seq<Signal>, strategy: Strategy)
    requires |e| <= 1 && |r| <= 1 && |m| <= 1 && |b| <= 1 && |i| <= 1 && |c| <= 1
    requires forall s :: s in e ==> s.strategy == EmaCrossover
    requires forall s :: s in r ==> s.strategy == RsiDivergence
    requires forall s :: s in m ==> s.strategy == MacdCrossover
    requires forall s :: s in b ==> s.strategy == BollingerBreakout
    requires forall s :: s in i ==> s.strategy == IchimokuCloud
    requires forall s :: s in c ==> s.strategy == CorrelationAnalysis
    ensures CountOf(e + r + m + b + i + c, strategy) <= 1
  {
    CountOfOneStrategy(e, EmaCrossover, strategy);
    CountOfOneStrategy(r, RsiDivergence, strategy);
    CountOfOneStrategy(m, MacdCrossover, strategy);
    CountOfOneStrategy(b, BollingerBreakout, strategy);
    CountOfOneStrategy(i, IchimokuCloud, strategy);
    CountOfOneStrategy(c, CorrelationAnalysis, strategy);
    CountOfConcat(e, r, strategy);
    CountOfConcat(e + r, m, strategy);
    CountOfConcat(e + r + m, b, strategy);
    CountOfConcat(e + r + m + b, i, strategy);
    CountOfConcat(e + r + m + b + i, c, strategy);
  }

  /** Every strategy contributes at most one signal to a pass, so no strategy
      ever says both BUY and SELL. */
  lemma AtMostOneSignalPerStrategy(ind: Indicators, closes: seq<real>, volumes: seq<real>, lastAtr: real,
                                   eurJpyCloses: Option<seq<real>>, sqrt: real -> real, strategy: Strategy)
    requires WellShaped(ind, closes) && |closes| > 0 && Last(closes) > 0.0 && |volumes| > 0 && lastAtr > 0.0
    ensures CountOf(SignalPass(ind, closes, volumes, lastAtr, CorrelationSignals(closes, eurJpyCloses, sqrt)),
                    strategy) <= 1
  {
    var lastClose := Last(closes);
    EmaCrossoverRule(ind.emaShort, ind.emaLong, ind.volumeMa, volumes, lastAtr, lastClose);
    RsiRule(ind.rsi, closes);
    MacdRule(ind.macd, lastAtr);
    BollingerRule(ind.bands, lastClose);
    IchimokuRule(ind.cloud, lastClose);
    SixBlocks(EmaCrossoverSignal(ind.emaShort, ind.emaLong, ind.volumeMa, volumes, lastAtr, lastClose),
              RsiSignals(ind.rsi, closes), MacdSignal(ind.macd, lastAtr), BollingerSignals(ind.bands, lastClose),
              IchimokuSignal(ind.cloud, lastClose), CorrelationSignals(closes, eurJpyCloses, sqrt), strategy);
  }

  /** Over a whole pass, no strategy appears twice among the signals. */
  lemma PassHasAtMostOneSignalPerStrategy(data: seq<Bar>, timeframe: string, eurJpyCloses: Option<seq<real>>,
                                          sqrt: real -> real, strategy: Strategy)
    requires AllValid(data)
    ensures var r := Analyze(data, timeframe, eurJpyCloses, sqrt);
      r.Success? ==> CountOf(r.value.signals, strategy) <= 1
  {
    if |data| >= MinAnalysisBars {
      var closes := Closes(data);
      var ind := ComputeIndicators(data, sqrt);
      AtMostOneSignalPerStrategy(ind, closes, Volumes(data), LastAtr(ind.atr), eurJpyCloses, sqrt, strategy);
    }
  }

  /** On closes that never rise the RSI is 0 throughout, so a pass over 35 or
      more bars always carries a strong RSI BUY at confidence 0.85. */
  lemma NonRisingMarketBuysOnRsi(data: seq<Bar>, timeframe: string, eurJpyCloses: Option<seq<real>>,
                                 sqrt: real -> real)
    requires AllValid(data) && |data| >= 35
    requires forall j :: 1 <= j < |data| ==> data[j].close <= data[j - 1].close
    ensures var r := Analyze(data, timeframe, eurJpyCloses, sqrt);
      r.Success? && Signal(RsiDivergence, Buy, 0.85, Strong, 0.0, 30.0) in r.value.signals
  {
    var closes := Closes(data);
    var ind := ComputeIndicators(data, sqrt);
    assert ind.rsi == Rsi.Rsi(closes, 14);
    Rsi.RsiShape(closes, 14);
    Rsi.NonRisingRsiIsZero(closes, 14);
    RsiOnZeroes(ind.rsi, closes);
  }

  /** An RSI series of more than 20 zeroes gives the strong oversold BUY. */
  lemma RsiOnZeroes(rsi: seq<real>, closes: seq<real>)
    requires |rsi| > 20 && |closes| >= 10
    requires forall j :: 0 <= j < |rsi| ==> rsi[j] == 0.0
    ensures RsiSignals(rsi, closes) == [Signal(RsiDivergence, Buy, 0.85, Strong, 0.0, 30.0)]
  {
    assert Last(rsi) == 0.0 && rsi[|rsi| - 10] == 0.0;
  }
}
