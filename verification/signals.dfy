/** The per-strategy signal rules of `analyzeRealStrategies` and the emission
    rule of `analyzeRealCorrelation`. Each rule reads the indicator series
    computed for the current bars and emits at most one signal. */
module Signals {
  import opened Common
  import opened MovingAverages
  import Bollinger
  import Ichimoku

  /** 'ACHETER' | 'VENDRE' */
  datatype Direction = Buy | Sell

  /** 'FORT' | 'MOYEN' | 'FAIBLE' (the rules never emit 'FAIBLE') */
  datatype Strength = Strong | Medium | Weak

  /** The six strategy names a signal can carry. */
  datatype Strategy = EmaCrossover | RsiDivergence | MacdCrossover | BollingerBreakout
                    | IchimokuCloud | CorrelationAnalysis

  datatype Signal = Signal(strategy: Strategy, direction: Direction, confidence: real,
                           strength: Strength, technicalValue: real, threshold: real)

  /** The fast line was at or below the slow one on the previous value and is
      above it on the last. */
  predicate CrossedAbove(fast: seq<real>, slow: seq<real>)
  {
    |fast| > 1 && |slow| > 1 && Prev(fast) <= Prev(slow) && Last(fast) > Last(slow)
  }

  /** The fast line was at or above the slow one and is now below it. */
  predicate CrossedBelow(fast: seq<real>, slow: seq<real>)
  {
    |fast| > 1 && |slow| > 1 && Prev(fast) >= Prev(slow) && Last(fast) < Last(slow)
  }

  // ---------------------------------------------------------------------------
  // Strategy 1: EMA crossover confirmed by volume
  // ---------------------------------------------------------------------------

  /** The last volume exceeds one and a half times its 20-bar average. */
  predicate VolumeConfirmed(volumes: seq<real>, volumeMa: seq<real>)
    requires |volumes| > 0 && |volumeMa| > 0
  {
    Last(volumes) > Last(volumeMa) * 1.5
  }

  function EmaCrossoverSignal(emaShort: seq<real>, emaLong: seq<real>, volumeMa: seq<real>,
                              volumes: seq<real>, lastAtr: real, lastClose: real): seq<Signal>
    requires |volumes| > 0 && lastAtr > 0.0 && lastClose > 0.0
  {
    if |emaShort| > 2 && |emaLong| > 2 && |volumeMa| > 0 then
      var lastShort, lastLong := Last(emaShort), Last(emaLong);
      var volumeConfirmation := VolumeConfirmed(volumes, volumeMa);
      var crossoverStrength := Abs(lastShort - lastLong) / lastAtr;
      var confidence := Min(0.95, 0.75 + crossoverStrength * 0.1);
      var strength := if crossoverStrength > 2.0 then Strong else Medium;
      if CrossedAbove(emaShort, emaLong) && volumeConfirmation then
        [Signal(EmaCrossover, Buy, confidence, strength, (lastShort - lastLong) / lastClose, 0.001)]
      else if CrossedBelow(emaShort, emaLong) && volumeConfirmation then
        [Signal(EmaCrossover, Sell, confidence, strength, (lastLong - lastShort) / lastClose, 0.001)]
      else []
    else []
  }

  /** The EMA rule emits at most one signal: a buy exactly on an upward cross
      with volume confirmation, a sell exactly on a downward one; its confidence
      lies in [0.75, 0.95], its technical value (the gap relative to the close)
      is positive, and it is strong exactly when the gap exceeds two ATRs. */
  lemma EmaCrossoverRule(emaShort: seq<real>, emaLong: seq<real>, volumeMa: seq<real>,
                         volumes: seq<real>, lastAtr: real, lastClose: real)
    requires |volumes| > 0 && lastAtr > 0.0 && lastClose > 0.0
    ensures var r := EmaCrossoverSignal(emaShort, emaLong, volumeMa, volumes, lastAtr, lastClose);
      var enabled := |emaShort| > 2 && |emaLong| > 2 && |volumeMa| > 0;
      && |r| <= 1
      && (|r| == 1 && r[0].direction == Buy <==>
            enabled && CrossedAbove(emaShort, emaLong) && VolumeConfirmed(volumes, volumeMa))
      && (|r| == 1 && r[0].direction == Sell <==>
            enabled && CrossedBelow(emaShort, emaLong) && VolumeConfirmed(volumes, volumeMa))
      && (forall s :: s in r ==>
            && s.strategy == EmaCrossover
            && 0.75 <= s.confidence <= 0.95
            && s.technicalValue > 0.0
            && (s.strength == Strong <==> Abs(Last(emaShort) - Last(emaLong)) > 2.0 * lastAtr))
  {
    if |emaShort| > 2 && |emaLong| > 2 && |volumeMa| > 0 {
      var gap := Abs(Last(emaShort) - Last(emaLong));
      DivNonNegative(gap, lastAtr);
      DivBelowIff(gap, lastAtr, 2.0);
      if Last(emaShort) > Last(emaLong) {
        DivPositive(Last(emaShort) - Last(emaLong), lastClose);
      } else if Last(emaShort) < Last(emaLong) {
        DivPositive(Last(emaLong) - Last(emaShort), lastClose);
      }
    }
  }

  // ---------------------------------------------------------------------------
  // Strategy 2: RSI levels and divergence
  // ---------------------------------------------------------------------------

  /** Price and RSI moved in opposite directions over the last ten values. */
  predicate Divergence(priceTrend: real, rsiTrendLong: real)
  {
    (priceTrend > 0.0 && rsiTrendLong < 0.0) || (priceTrend < 0.0 && rsiTrendLong > 0.0)
  }

  /** The buy and the sell test are two separate `if`s; the model keeps both. */
  function RsiSignals(rsi: seq<real>, closes: seq<real>): seq<Signal>
    requires |rsi| > 20 ==> |closes| >= 10
  {
    if |rsi| > 20 then
      var lastRsi := Last(rsi);
      var priceTrend := Last(closes) - closes[|closes| - 10];
      var rsiTrendLong := Last(rsi) - rsi[|rsi| - 10];
      var divergence := Divergence(priceTrend, rsiTrendLong);
      var buy :=
        if lastRsi < 35.0 || (divergence && lastRsi < 50.0 && priceTrend < 0.0) then
          [Signal(RsiDivergence, Buy, if divergence then 0.88 else if lastRsi < 25.0 then 0.85 else 0.72,
                  if divergence || lastRsi < 25.0 then Strong else Medium, lastRsi, 30.0)]
        else [];
      var sell :=
        if lastRsi > 65.0 || (divergence && lastRsi > 50.0 && priceTrend > 0.0) then
          [Signal(RsiDivergence, Sell, if divergence then 0.88 else if lastRsi > 75.0 then 0.85 else 0.72,
                  if divergence || lastRsi > 75.0 then Strong else Medium, lastRsi, 70.0)]
        else [];
      buy + sell
    else []
  }

  /** The two RSI tests exclude each other, so at most one signal comes out: a
      buy needs the last RSI below 50 and a sell above 50; below 35 a buy and
      above 65 a sell is certain. A buy comes out exactly when the RSI is under
      35 or a divergence meets an RSI under 50 and a falling price (a sell in
      the mirrored case); confidence is 0.88 exactly on a divergence, and the
      signal is 'FORT' on a divergence or beyond 25 / 75. */
  lemma RsiRule(rsi: seq<real>, closes: seq<real>)
    requires |rsi| > 20 ==> |closes| >= 10
    ensures var r := RsiSignals(rsi, closes);
      && |r| <= 1
      && (|rsi| <= 20 ==> r == [])
      && (|r| == 1 && r[0].direction == Buy ==> Last(rsi) < 50.0)
      && (|r| == 1 && r[0].direction == Sell ==> Last(rsi) > 50.0)
      && (|rsi| > 20 && Last(rsi) < 35.0 ==> |r| == 1 && r[0].direction == Buy)
      && (|rsi| > 20 && Last(rsi) > 65.0 ==> |r| == 1 && r[0].direction == Sell)
      && (forall s :: s in r ==>
            s.strategy == RsiDivergence && (s.confidence == 0.72 || s.confidence == 0.85 || s.confidence == 0.88))
      && (|rsi| > 20 ==>
            var lastRsi := Last(rsi);
            var priceTrend := Last(closes) - closes[|closes| - 10];
            var divergence := Divergence(priceTrend, lastRsi - rsi[|rsi| - 10]);
            && (|r| == 1 && r[0].direction == Buy <==>
                  lastRsi < 35.0 || (divergence && lastRsi < 50.0 && priceTrend < 0.0))
            && (|r| == 1 && r[0].direction == Sell <==>
                  lastRsi > 65.0 || (divergence && lastRsi > 50.0 && priceTrend > 0.0))
            && (forall s :: s in r ==>
                  && (s.confidence == 0.88 <==> divergence)
                  && (s.confidence == 0.85 <==>
                        !divergence && (if s.direction == Buy then lastRsi < 25.0 else lastRsi > 75.0))
                  && (s.strength == Strong <==>
                        divergence || (if s.direction == Buy then lastRsi < 25.0 else lastRsi > 75.0))))
  {
  }

  // ---------------------------------------------------------------------------
  // Strategy 3: MACD crossover with histogram momentum
  // ---------------------------------------------------------------------------

  /** With fewer than two signal values the source compares against
      `undefined`, which is false both ways, so no signal is emitted. */
  function MacdSignal(macd: MacdLines, lastAtr: real): seq<Signal>
    requires lastAtr > 0.0
  {
    if |macd.macdLine| > 5 && |macd.signalLine| > 1 then
      var histogram := Last(macd.macdLine) - Last(macd.signalLine);
      var prevHistogram := Prev(macd.macdLine) - Prev(macd.signalLine);
      var histogramMomentum := histogram - prevHistogram;
      var macdStrength := Abs(histogram) / lastAtr;
      var confidence := Min(0.93, 0.80 + macdStrength * 0.05);
      var strength := if macdStrength > 1.5 then Strong else Medium;
      if CrossedAbove(macd.macdLine, macd.signalLine) && histogramMomentum > 0.0 then
        [Signal(MacdCrossover, Buy, confidence, strength, histogram, 0.0)]
      else if CrossedBelow(macd.macdLine, macd.signalLine) && histogramMomentum < 0.0 then
        [Signal(MacdCrossover, Sell, confidence, strength, -histogram, 0.0)]
      else []
    else []
  }

  /** The MACD rule emits at most one signal: a buy exactly when the MACD line
      crosses above its signal line with a growing histogram, a sell on the
      mirror image; confidence lies in [0.80, 0.93], the technical value (the
      histogram, sign-adjusted) is positive, and the signal is strong exactly
      when the histogram exceeds 1.5 ATRs. */
  lemma MacdRule(macd: MacdLines, lastAtr: real)
    requires lastAtr > 0.0
    ensures var r := MacdSignal(macd, lastAtr);
      var enabled := |macd.macdLine| > 5 && |macd.signalLine| > 1;
      && |r| <= 1
      && (|r| == 1 && r[0].direction == Buy <==>
            enabled && CrossedAbove(macd.macdLine, macd.signalLine)
            && Last(macd.macdLine) - Last(macd.signalLine) > Prev(macd.macdLine) - Prev(macd.signalLine))
      && (|r| == 1 && r[0].direction == Sell <==>
            enabled && CrossedBelow(macd.macdLine, macd.signalLine)
            && Last(macd.macdLine) - Last(macd.signalLine) < Prev(macd.macdLine) - Prev(macd.signalLine))
      && (forall s :: s in r ==>
            && s.strategy == MacdCrossover
            && 0.80 <= s.confidence <= 0.93
            && s.technicalValue > 0.0
            && (s.strength == Strong <==> Abs(Last(macd.macdLine) - Last(macd.signalLine)) > 1.5 * lastAtr))
  {
    if |macd.macdLine| > 5 && |macd.signalLine| > 1 {
      var histogram := Abs(Last(macd.macdLine) - Last(macd.signalLine));
      DivNonNegative(histogram, lastAtr);
      DivBelowIff(histogram, lastAtr, 1.5);
    }
  }

  // ---------------------------------------------------------------------------
  // Strategy 4: Bollinger squeeze and breakout
  // ---------------------------------------------------------------------------

  /** Band width relative to the SMA for window `j`. */
  function Bandwidth(b: Bollinger.Bands, j: nat): real
    requires |b.upper| == |b.lower| == |b.sma| && j < |b.sma| && b.sma[j] != 0.0
  {
    (b.upper[j] - b.lower[j]) / b.sma[j]
  }

  /** The mean band width of the last 20 windows, defined only when there are
      20 of them (with fewer the source indexes before the start of the lower
      band and the SMA and the mean is NaN). */
  function AverageBandwidth(b: Bollinger.Bands): real
    requires |b.upper| == |b.lower| == |b.sma| >= 20
    requires forall j :: 0 <= j < |b.sma| ==> b.sma[j] != 0.0
  {
    var m := |b.upper|;
    Sum(seq(20, i requires 0 <= i < 20 => Bandwidth(b, m - 20 + i))) / 20.0
  }

  /** The last band width is below 90 % of the average one. */
  predicate Squeeze(b: Bollinger.Bands)
    requires |b.upper| == |b.lower| == |b.sma| > 0
    requires forall j :: 0 <= j < |b.sma| ==> b.sma[j] != 0.0
  {
    |b.upper| >= 20 && Bandwidth(b, |b.sma| - 1) < AverageBandwidth(b) * 0.9
  }

  /** Where the close sits relative to the SMA, in units of the upper half-band.
      When the upper band equals the SMA the source divides by zero; the
      position is then `None`. */
  function PricePosition(b: Bollinger.Bands, lastClose: real): Option<real>
    requires |b.upper| == |b.sma| > 0
  {
    var width := Last(b.upper) - Last(b.sma);
    if width == 0.0 then None else Some((lastClose - Last(b.sma)) / width)
  }

  function BollingerSignals(b: Bollinger.Bands, lastClose: real): seq<Signal>
    requires |b.upper| == |b.lower| == |b.sma|
    requires forall j :: 0 <= j < |b.sma| ==> b.sma[j] != 0.0
  {
    if |b.upper| > 0 then
      var isSqueeze := Squeeze(b);
      match PricePosition(b, lastClose)
      case None => []
      case Some(position) =>
        var buy :=
          if position > 0.8 || (isSqueeze && position > 0.7) then
            [Signal(BollingerBreakout, Buy, if isSqueeze then 0.82 else 0.75,
                    if isSqueeze && position > 0.9 then Strong else Medium, position, 0.8)]
          else [];
        var sell :=
          if position < 0.2 || (isSqueeze && position < 0.3) then
            [Signal(BollingerBreakout, Sell, if isSqueeze then 0.82 else 0.75,
                    if isSqueeze && position < 0.1 then Strong else Medium, 1.0 - position, 0.2)]
          else [];
        buy + sell
    else []
  }

  /** The two Bollinger tests exclude each other: a buy needs the price position
      above 0.7 and a sell below 0.3, so at most one signal comes out. Above 0.8
      a buy and below 0.2 a sell is certain; in a squeeze the thresholds widen
      to 0.7 and 0.3. Confidence is 0.82 in a squeeze and 0.75 otherwise, a
      signal is 'FORT' only in a squeeze beyond 0.9 / 0.1, and there is never
      a squeeze with fewer than 20 bands. */
  lemma BollingerRule(b: Bollinger.Bands, lastClose: real)
    requires |b.upper| == |b.lower| == |b.sma|
    requires forall j :: 0 <= j < |b.sma| ==> b.sma[j] != 0.0
    ensures var r := BollingerSignals(b, lastClose);
      && |r| <= 1
      && (|r| == 1 ==> |b.sma| > 0 && PricePosition(b, lastClose).Some?)
      && (|r| == 1 && r[0].direction == Buy ==> PricePosition(b, lastClose).value > 0.7)
      && (|r| == 1 && r[0].direction == Sell ==> PricePosition(b, lastClose).value < 0.3)
      && (|b.sma| > 0 && PricePosition(b, lastClose).Some? && PricePosition(b, lastClose).value > 0.8 ==>
            |r| == 1 && r[0].direction == Buy)
      && (|b.sma| > 0 && PricePosition(b, lastClose).Some? && PricePosition(b, lastClose).value < 0.2 ==>
            |r| == 1 && r[0].direction == Sell)
      && (forall s :: s in r ==>
            && s.strategy == BollingerBreakout
            && (s.confidence == 0.82 <==> Squeeze(b))
            && (s.confidence == 0.75 <==> !Squeeze(b)))
      && (0 < |b.sma| < 20 ==> !Squeeze(b))
      && (|b.sma| > 0 && PricePosition(b, lastClose).Some? ==>
            var position := PricePosition(b, lastClose).value;
            && (|r| == 1 && r[0].direction == Buy <==> position > 0.8 || (Squeeze(b) && position > 0.7))
            && (|r| == 1 && r[0].direction == Sell <==> position < 0.2 || (Squeeze(b) && position < 0.3))
            && (forall s :: s in r ==>
                  (s.strength == Strong <==>
                     Squeeze(b) && (if s.direction == Buy then position > 0.9 else position < 0.1))))
  {
  }

  // ---------------------------------------------------------------------------
  // Strategy 5: Ichimoku cloud
  // ---------------------------------------------------------------------------

  function IchimokuSignal(cloud: Ichimoku.Cloud, lastClose: real): seq<Signal>
    requires |cloud.senkouA| == |cloud.senkouB| && lastClose > 0.0
  {
    if |cloud.tenkan| > 0 && |cloud.kijun| > 0 && |cloud.senkouA| > 0 then
      var lastTenkan, lastKijun := Last(cloud.tenkan), Last(cloud.kijun);
      var cloudTop := Max(Last(cloud.senkouA), Last(cloud.senkouB));
      var cloudBottom := Min(Last(cloud.senkouA), Last(cloud.senkouB));
      var cloudThickness := (cloudTop - cloudBottom) / lastClose;
      var priceCloudDistance := Abs(lastClose - cloudTop) / lastClose;
      var confidence := Min(0.96, 0.85 + (1.0 - priceCloudDistance) * 0.1);
      var strength := if cloudThickness > 0.01 then Strong else Medium;
      if lastClose > cloudTop && lastTenkan > lastKijun && lastClose > lastKijun then
        [Signal(IchimokuCloud, Buy, confidence, strength, (lastClose - cloudTop) / lastClose, 0.001)]
      else if lastClose < cloudBottom && lastTenkan < lastKijun && lastClose < lastKijun then
        [Signal(IchimokuCloud, Sell, confidence, strength, (cloudBottom - lastClose) / lastClose, 0.001)]
      else []
    else []
  }

  /** The Ichimoku rule emits at most one signal: a buy exactly when the close
      is above the cloud and the Kijun with the Tenkan above the Kijun, a sell
      on the mirror image. The technical value is positive; a buy's confidence
      lies in (0.85, 0.95] when the cloud top is positive (the close is then
      within one close of it), and no confidence exceeds 0.95. */
  lemma IchimokuRule(cloud: Ichimoku.Cloud, lastClose: real)
    requires |cloud.senkouA| == |cloud.senkouB| && lastClose > 0.0
    ensures var r := IchimokuSignal(cloud, lastClose);
      var enabled := |cloud.tenkan| > 0 && |cloud.kijun| > 0 && |cloud.senkouA| > 0;
      && |r| <= 1
      && (|r| == 1 && r[0].direction == Buy <==>
            enabled && lastClose > Max(Last(cloud.senkouA), Last(cloud.senkouB))
            && Last(cloud.tenkan) > Last(cloud.kijun) && lastClose > Last(cloud.kijun))
      && (|r| == 1 && r[0].direction == Sell <==>
            enabled && !(lastClose > Max(Last(cloud.senkouA), Last(cloud.senkouB))
                         && Last(cloud.tenkan) > Last(cloud.kijun) && lastClose > Last(cloud.kijun))
            && lastClose < Min(Last(cloud.senkouA), Last(cloud.senkouB))
            && Last(cloud.tenkan) < Last(cloud.kijun) && lastClose < Last(cloud.kijun))
      && (forall s :: s in r ==> s.strategy == IchimokuCloud && s.technicalValue > 0.0 && s.confidence <= 0.95)
      && (|r| == 1 && r[0].direction == Buy && Max(Last(cloud.senkouA), Last(cloud.senkouB)) > 0.0 ==>
            0.85 < r[0].confidence)
  {
    if |cloud.tenkan| > 0 && |cloud.kijun| > 0 && |cloud.senkouA| > 0 {
      var cloudTop := Max(Last(cloud.senkouA), Last(cloud.senkouB));
      var cloudBottom := Min(Last(cloud.senkouA), Last(cloud.senkouB));
      var distance := Abs(lastClose - cloudTop) / lastClose;
      if lastClose > cloudTop > 0.0 {
        DivPositive(lastClose - cloudTop, lastClose);
        DivBelowIff(lastClose - cloudTop, lastClose, 1.0);
        assert distance < 1.0;
      }
      if lastClose < cloudBottom {
        DivPositive(cloudBottom - lastClose, lastClose);
      }
      DivNonNegative(Abs(lastClose - cloudTop), lastClose);
    }
  }

  /** A sell signal's confidence has no lower bound: the distance term is
      measured to the cloud top, so a close far below the cloud drives the
      confidence below zero. Here the close is 1 and the cloud top 20. */
  lemma IchimokuSellConfidenceCanBeNegative()
    ensures var cloud := Ichimoku.Cloud([1.5], [2.0], [20.0], [10.0]);
      var r := IchimokuSignal(cloud, 1.0);
      |r| == 1 && r[0].direction == Sell && r[0].confidence < 0.0
  {
    var cloud := Ichimoku.Cloud([1.5], [2.0], [20.0], [10.0]);
    assert Last(cloud.senkouA) == 20.0 && Last(cloud.senkouB) == 10.0;
    assert Last(cloud.tenkan) == 1.5 && Last(cloud.kijun) == 2.0;
    assert Abs(1.0 - 20.0) / 1.0 == 19.0;
  }

  // ---------------------------------------------------------------------------
  // Correlation anomaly
  // ---------------------------------------------------------------------------

  /** The emission rule of `analyzeRealCorrelation`, given the correlation. */
  function CorrelationSignal(correlation: real): seq<Signal>
  {
    if Abs(correlation) > 0.75 then
      var anomalyStrength := Abs(correlation);
      [Signal(CorrelationAnalysis, if correlation < -0.75 then Buy else Sell, anomalyStrength * 0.85,
              if anomalyStrength > 0.85 then Strong else Medium, Abs(correlation), 0.75)]
    else []
  }

  /** A signal comes out exactly when the correlation is beyond ±0.75: a buy
      for a strong negative correlation, a sell for a strong positive one. For
      a correlation in [-1, 1] its confidence lies in (0.6375, 0.85]. */
  lemma CorrelationRule(correlation: real)
    ensures var r := CorrelationSignal(correlation);
      && |r| <= 1
      && (|r| == 1 && r[0].direction == Buy <==> correlation < -0.75)
      && (|r| == 1 && r[0].direction == Sell <==> correlation > 0.75)
      && (forall s :: s in r ==> s.strategy == CorrelationAnalysis && s.confidence > 0.6375)
      && (-1.0 <= correlation <= 1.0 ==> forall s :: s in r ==> s.confidence <= 0.85)
  {
  }

  // ---------------------------------------------------------------------------
  // Counting signals per strategy
  // ---------------------------------------------------------------------------

  /** The number of signals carrying `strategy`. */
  function CountOf(signals: seq<Signal>, strategy: Strategy): nat
    decreases |signals|
  {
    if |signals| == 0 then 0
    else CountOf(signals[..|signals| - 1], strategy) + (if signals[|signals| - 1].strategy == strategy then 1 else 0)
  }

  /** Counting distributes over concatenation. */
  lemma {:induction false} CountOfConcat(a: seq<Signal>, b: seq<Signal>, strategy: Strategy)
    ensures CountOf(a + b, strategy) == CountOf(a, strategy) + CountOf(b, strategy)
    decreases |b|
  {
    if |b| > 0 {
      var b' := b[..|b| - 1];
      assert (a + b)[..|a + b| - 1] == a + b';
      assert (a + b)[|a + b| - 1] == b[|b| - 1];
      CountOfConcat(a, b', strategy);
    } else {
      assert a + b == a;
    }
  }

  /** The output of one rule counts only towards its own strategy. */
  lemma {:induction false} CountOfOneStrategy(signals: seq<Signal>, own: Strategy, strategy: Strategy)
    requires forall s :: s in signals ==> s.strategy == own
    ensures CountOf(signals, strategy) == if strategy == own then |signals| else 0
    decreases |signals|
  {
    if |signals| > 0 {
      CountOfOneStrategy(signals[..|signals| - 1], own, strategy);
    }
  }
}
