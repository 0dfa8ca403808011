/** The recommendation ladder (`generateProfessionalRecommendations`): the
    signals are split by direction, and the first matching tier of five yields
    the single recommendation. */
module Recommendations {
  import opened Common
  import opened Signals

  /** 'ACHETER' / 'VENDRE' (enter in a direction) or 'ATTENDRE', which reports
      how many buy and sell signals were detected
      (`Signaux détectés: <buys> ACHETER, <sells> VENDRE`). */
  datatype Action = Enter(direction: Direction) | Wait(buyCount: nat, sellCount: nat)

  /** 'FAIBLE' | 'MOYEN' | 'ÉLEVÉ' */
  datatype RiskLevel = Low | Moderate | High

  datatype Recommendation = Recommendation(
    action: Action,
    confidence: real,
    stopLoss: Option<real>,
    takeProfit: Option<real>,
    strategies: seq<Strategy>,
    riskLevel: RiskLevel,
    expectedReturn: real,
    positionSize: real,
    timeframe: string)

  /** Two percent of the capital is risked per trade. */
  const RiskPerTrade: real := 0.02
  const MinSignalsRequired: nat := 2
  const MinConfidenceRequired: real := 0.65

  /** `signals.filter(s => s.signal === direction)` */
  function OfDirection(signals: seq<Signal>, direction: Direction): seq<Signal>
    decreases |signals|
  {
    if |signals| == 0 then []
    else
      var last := signals[|signals| - 1];
      OfDirection(signals[..|signals| - 1], direction) + (if last.direction == direction then [last] else [])
  }

  /** The sum of the confidences. */
  function ConfidenceSum(signals: seq<Signal>): real
    decreases |signals|
  {
    if |signals| == 0 then 0.0 else ConfidenceSum(signals[..|signals| - 1]) + signals[|signals| - 1].confidence
  }

  /** The mean confidence, 0 for no signals. */
  function MeanConfidence(signals: seq<Signal>): real
  {
    if |signals| > 0 then ConfidenceSum(signals) / |signals| as real else 0.0
  }

  /** The number of 'FORT' signals. */
  function StrongCount(signals: seq<Signal>): nat
    decreases |signals|
  {
    if |signals| == 0 then 0
    else StrongCount(signals[..|signals| - 1]) + (if signals[|signals| - 1].strength == Strong then 1 else 0)
  }

  /** `signals.map(s => s.strategy)` */
  function StrategyNames(signals: seq<Signal>): seq<Strategy>
  {
    seq(|signals|, i requires 0 <= i < |signals| => signals[i].strategy)
  }

  /** A side qualifies for the strong tier with two signals of mean confidence 0.65. */
  predicate Qualifies(side: seq<Signal>)
  {
    |side| >= MinSignalsRequired && MeanConfidence(side) >= MinConfidenceRequired
  }

  /** A side qualifies for the weak tier with one 'FORT' signal. */
  predicate HasStrong(side: seq<Signal>)
  {
    |side| >= 1 && StrongCount(side) >= 1
  }

  function RiskOf(confidence: real): RiskLevel
  {
    if confidence > 80.0 then Low else if confidence > 65.0 then Moderate else High
  }

  /** A price `distance` away from the close, on the side of `direction` (up
      for a buy) or against it. */
  function Towards(direction: Direction, lastClose: real, distance: real): real
  {
    if direction == Buy then lastClose + distance else lastClose - distance
  }

  function Against(direction: Direction, lastClose: real, distance: real): real
  {
    if direction == Buy then lastClose - distance else lastClose + distance
  }

  /** The strong tier: confidence with bonuses for 'FORT' signals and for the
      lead over the other side, capped at 95; stop at 2 ATR, target at 3 ATR. */
  function StrongRecommendation(direction: Direction, side: seq<Signal>, other: seq<Signal>,
                                lastClose: real, lastAtr: real, positionSize: real, timeframe: string): Recommendation
    requires lastClose > 0.0
  {
    var signalAdvantage := MaxInt(0, |side| - |other|);
    var baseConfidence := MeanConfidence(side) * 100.0;
    var bonusConfidence := (StrongCount(side) * 5 + signalAdvantage * 3) as real;
    var confidence := Min(95.0, baseConfidence + bonusConfidence);
    Recommendation(Enter(direction), confidence,
                   Some(Against(direction, lastClose, lastAtr * 2.0)),
                   Some(Towards(direction, lastClose, lastAtr * 3.0)),
                   StrategyNames(side), RiskOf(confidence),
                   (lastAtr * 3.0 / lastClose) * 100.0, Min(positionSize, 0.1), timeframe)
  }

  /** The weak tier: confidence capped at 75, stop at 1.5 ATR, target at 2 ATR,
      half the position capped at 5 %. */
  function WeakRecommendation(direction: Direction, side: seq<Signal>,
                              lastClose: real, lastAtr: real, positionSize: real, timeframe: string): Recommendation
    requires lastClose > 0.0
  {
    var confidence := Min(75.0, MeanConfidence(side) * 100.0 + (StrongCount(side) * 8) as real);
    Recommendation(Enter(direction), confidence,
                   Some(Against(direction, lastClose, lastAtr * 1.5)),
                   Some(Towards(direction, lastClose, lastAtr * 2.0)),
                   StrategyNames(side), Moderate,
                   (lastAtr * 2.0 / lastClose) * 100.0, Min(positionSize * 0.5, 0.05), timeframe)
  }

  /** 'ATTENDRE' with confidence 100, risk 'FAIBLE', no position and no stop
      or target; it names no strategy and reports the signal counts. */
  function WaitRecommendation(buyCount: nat, sellCount: nat, timeframe: string): Recommendation
  {
    Recommendation(Wait(buyCount, sellCount), 100.0, None, None, [], Low, 0.0, 0.0, timeframe)
  }

  /** `generateProfessionalRecommendations`: always exactly one recommendation. */
  function GenerateRecommendations(signals: seq<Signal>, lastClose: real, lastAtr: real, timeframe: string)
    : (r: seq<Recommendation>)
    requires lastClose > 0.0 && lastAtr > 0.0
    ensures |r| == 1
  {
    var buySignals := OfDirection(signals, Buy);
    var sellSignals := OfDirection(signals, Sell);
    var positionSize := RiskPerTrade / (lastAtr * 2.0 / lastClose);
    if Qualifies(buySignals) then
      [StrongRecommendation(Buy, buySignals, sellSignals, lastClose, lastAtr, positionSize, timeframe)]
    else if Qualifies(sellSignals) then
      [StrongRecommendation(Sell, sellSignals, buySignals, lastClose, lastAtr, positionSize, timeframe)]
    else if HasStrong(buySignals) then
      [WeakRecommendation(Buy, buySignals, lastClose, lastAtr, positionSize, timeframe)]
    else if HasStrong(sellSignals) then
      [WeakRecommendation(Sell, sellSignals, lastClose, lastAtr, positionSize, timeframe)]
    else
      [WaitRecommendation(|buySignals|, |sellSignals|, timeframe)]
  }

  // ---------------------------------------------------------------------------
  // Properties
  // ---------------------------------------------------------------------------

  /** The filter keeps exactly the signals of its direction, so the buy and the
      sell signals split the input between them. */
  lemma OfDirectionSplits(signals: seq<Signal>)
    ensures forall s :: s in OfDirection(signals, Buy) <==> s in signals && s.direction == Buy
    ensures forall s :: s in OfDirection(signals, Sell) <==> s in signals && s.direction == Sell
    ensures multiset(OfDirection(signals, Buy)) + multiset(OfDirection(signals, Sell)) == multiset(signals)
    ensures |OfDirection(signals, Buy)| + |OfDirection(signals, Sell)| == |signals|
  {
    OfDirectionExactly(signals, Buy);
    OfDirectionExactly(signals, Sell);
    OfDirectionPartition(signals);
    assert |multiset(OfDirection(signals, Buy)) + multiset(OfDirection(signals, Sell))| == |multiset(signals)|;
  }

  /** A signal is kept exactly when it has the filter's direction. */
  lemma {:induction false} OfDirectionExactly(signals: seq<Signal>, direction: Direction)
    ensures forall s :: s in OfDirection(signals, direction) <==> s in signals && s.direction == direction
    decreases |signals|
  {
    if |signals| > 0 {
      var init := signals[..|signals| - 1];
      OfDirectionExactly(init, direction);
      assert signals == init + [signals[|signals| - 1]];
    }
  }

  /** Together the buy and the sell signals are the input, as a multiset. */
  lemma {:induction false} OfDirectionPartition(signals: seq<Signal>)
    ensures multiset(OfDirection(signals, Buy)) + multiset(OfDirection(signals, Sell)) == multiset(signals)
    decreases |signals|, 1
  {
    if |signals| > 0 {
      var init := signals[..|signals| - 1];
      assert signals == init + [signals[|signals| - 1]];
      PartitionSnoc(init, signals[|signals| - 1]);
    }
  }

  /** Appending one signal puts it on its own side. */
  lemma {:induction false} PartitionSnoc(init: seq<Signal>, last: Signal)
    ensures multiset(OfDirection(init + [last], Buy)) + multiset(OfDirection(init + [last], Sell)) == multiset(init + [last])
    decreases |init| + 1, 0
  {
    OfDirectionPartition(init);
    assert (init + [last])[..|init|] == init;
  }

  /** The mean of confidences that all lie in [lo, hi] lies there too. */
  lemma MeanConfidenceBounds(signals: seq<Signal>, lo: real, hi: real)
    requires |signals| > 0
    requires forall i :: 0 <= i < |signals| ==> lo <= signals[i].confidence <= hi
    ensures lo <= MeanConfidence(signals) <= hi
  {
    ConfidenceSumBounds(signals, lo, hi);
    var n := |signals| as real;
    DivBelowIff(ConfidenceSum(signals), n, lo);
    DivBelowIff(ConfidenceSum(signals), n, hi);
  }

  lemma {:induction false} ConfidenceSumBounds(signals: seq<Signal>, lo: real, hi: real)
    requires forall i :: 0 <= i < |signals| ==> lo <= signals[i].confidence <= hi
    ensures |signals| as real * lo <= ConfidenceSum(signals) <= |signals| as real * hi
    decreases |signals|
  {
    if |signals| > 0 {
      ConfidenceSumBounds(signals[..|signals| - 1], lo, hi);
    }
  }

  /** The ladder is first-match-wins: a qualifying buy side wins over a
      qualifying sell side, the strong tiers over the weak ones, and 'ATTENDRE'
      comes out exactly when no tier matches. */
  lemma LadderOrder(signals: seq<Signal>, lastClose: real, lastAtr: real, timeframe: string)
    requires lastClose > 0.0 && lastAtr > 0.0
    ensures var r := GenerateRecommendations(signals, lastClose, lastAtr, timeframe)[0];
      var buys, sells := OfDirection(signals, Buy), OfDirection(signals, Sell);
      && (r.action == Enter(Buy) <==> Qualifies(buys) || (!Qualifies(sells) && HasStrong(buys)))
      && (r.action == Enter(Sell) <==>
            !Qualifies(buys) && (Qualifies(sells) || (!HasStrong(buys) && HasStrong(sells))))
      && (r.action.Wait? <==>
            !Qualifies(buys) && !Qualifies(sells) && !HasStrong(buys) && !HasStrong(sells))
  {
    LadderCases(signals, lastClose, lastAtr, timeframe);
  }

  /** Which tier builds the recommendation, case by case. */
  lemma LadderCases(signals: seq<Signal>, lastClose: real, lastAtr: real, timeframe: string)
    requires lastClose > 0.0 && lastAtr > 0.0
    ensures var r := GenerateRecommendations(signals, lastClose, lastAtr, timeframe)[0];
      var buys, sells := OfDirection(signals, Buy), OfDirection(signals, Sell);
      var positionSize := RiskPerTrade / (lastAtr * 2.0 / lastClose);
      && (Qualifies(buys) ==>
            r == StrongRecommendation(Buy, buys, sells, lastClose, lastAtr, positionSize, timeframe))
      && (!Qualifies(buys) && Qualifies(sells) ==>
            r == StrongRecommendation(Sell, sells, buys, lastClose, lastAtr, positionSize, timeframe))
      && (!Qualifies(buys) && !Qualifies(sells) && HasStrong(buys) ==>
            r == WeakRecommendation(Buy, buys, lastClose, lastAtr, positionSize, timeframe))
      && (!Qualifies(buys) && !Qualifies(sells) && !HasStrong(buys) && HasStrong(sells) ==>
            r == WeakRecommendation(Sell, sells, lastClose, lastAtr, positionSize, timeframe))
      && (!Qualifies(buys) && !Qualifies(sells) && !HasStrong(buys) && !HasStrong(sells) ==>
            r == WaitRecommendation(|buys|, |sells|, timeframe))
  {
  }

  /** The strong tier: confidence between 65 and 95, a position of at most
      10 % of the capital, the risk level read off the confidence (so 'ÉLEVÉ'
      only at exactly 65), stop 2 ATR against and target 3 ATR in the trade's
      direction, and only the winning side's strategies listed. */
  lemma StrongTier(signals: seq<Signal>, lastClose: real, lastAtr: real, timeframe: string)
    requires lastClose > 0.0 && lastAtr > 0.0
    requires Qualifies(OfDirection(signals, Buy)) || Qualifies(OfDirection(signals, Sell))
    ensures var r := GenerateRecommendations(signals, lastClose, lastAtr, timeframe)[0];
      && r.action.Enter?
      && 65.0 <= r.confidence <= 95.0
      && 0.0 < r.positionSize <= 0.1
      && (r.riskLevel == High ==> r.confidence == 65.0)
      && (r.riskLevel == Low <==> r.confidence > 80.0)
      && r.stopLoss == Some(Against(r.action.direction, lastClose, 2.0 * lastAtr))
      && r.takeProfit == Some(Towards(r.action.direction, lastClose, 3.0 * lastAtr))
      && r.strategies == StrategyNames(OfDirection(signals, r.action.direction))
  {
    var buys, sells := OfDirection(signals, Buy), OfDirection(signals, Sell);
    var side := if Qualifies(buys) then buys else sells;
    var other := if Qualifies(buys) then sells else buys;
    var positionSize := RiskPerTrade / (lastAtr * 2.0 / lastClose);
    PositionSizePositive(lastClose, lastAtr);
    var bonus := (StrongCount(side) * 5 + MaxInt(0, |side| - |other|) * 3) as real;
    assert 0.0 <= bonus;
    assert MeanConfidence(side) * 100.0 >= 65.0;
  }

  /** The weak tier: confidence at most 75, a position of at most 5 %, risk
      level 'MOYEN', stop 1.5 ATR against and target 2 ATR in the trade's
      direction. */
  lemma WeakTier(signals: seq<Signal>, lastClose: real, lastAtr: real, timeframe: string)
    requires lastClose > 0.0 && lastAtr > 0.0
    requires !Qualifies(OfDirection(signals, Buy)) && !Qualifies(OfDirection(signals, Sell))
    requires HasStrong(OfDirection(signals, Buy)) || HasStrong(OfDirection(signals, Sell))
    ensures var r := GenerateRecommendations(signals, lastClose, lastAtr, timeframe)[0];
      && r.action.Enter?
      && r.confidence <= 75.0
      && 0.0 < r.positionSize <= 0.05
      && r.riskLevel == Moderate
      && r.stopLoss == Some(Against(r.action.direction, lastClose, 1.5 * lastAtr))
      && r.takeProfit == Some(Towards(r.action.direction, lastClose, 2.0 * lastAtr))
      && r.strategies == StrategyNames(OfDirection(signals, r.action.direction))
  {
    PositionSizePositive(lastClose, lastAtr);
  }

  lemma PositionSizePositive(lastClose: real, lastAtr: real)
    requires lastClose > 0.0 && lastAtr > 0.0
    ensures RiskPerTrade / (lastAtr * 2.0 / lastClose) > 0.0
  {
    DivPositive(lastAtr * 2.0, lastClose);
    DivPositive(RiskPerTrade, lastAtr * 2.0 / lastClose);
  }

  /** Every entering recommendation brackets the close: below it the stop and
      above it the target for a buy, the other way round for a sell; and it
      lists at least one strategy, all of the entered direction. */
  lemma StopsBracketClose(signals: seq<Signal>, lastClose: real, lastAtr: real, timeframe: string)
    requires lastClose > 0.0 && lastAtr > 0.0
    ensures var r := GenerateRecommendations(signals, lastClose, lastAtr, timeframe)[0];
      && (r.action == Enter(Buy) ==>
            r.stopLoss.Some? && r.takeProfit.Some? && r.stopLoss.value < lastClose < r.takeProfit.value)
      && (r.action == Enter(Sell) ==>
            r.stopLoss.Some? && r.takeProfit.Some? && r.takeProfit.value < lastClose < r.stopLoss.value)
      && (r.action.Enter? ==> |r.strategies| >= 1)
  {
    LadderCases(signals, lastClose, lastAtr, timeframe);
  }

  /** Without a tier to enter, the recommendation is 'ATTENDRE' with confidence
      100, risk 'FAIBLE', no position and neither stop nor target, and it
      reports the number of buy and of sell signals; no signals at all is such
      a case, reporting 0 and 0. */
  lemma WaitWhenNothingQualifies(signals: seq<Signal>, lastClose: real, lastAtr: real, timeframe: string)
    requires lastClose > 0.0 && lastAtr > 0.0
    ensures var r := GenerateRecommendations(signals, lastClose, lastAtr, timeframe)[0];
      && (r.action.Wait? ==>
            && r.action.buyCount == |OfDirection(signals, Buy)|
            && r.action.sellCount == |OfDirection(signals, Sell)|
            && r.action.buyCount + r.action.sellCount == |signals|
            && r.confidence == 100.0 && r.riskLevel == Low && r.positionSize == 0.0
            && r.stopLoss.None? && r.takeProfit.None? && r.expectedReturn == 0.0)
      && (signals == [] ==> r.action == Wait(0, 0))
  {
    LadderCases(signals, lastClose, lastAtr, timeframe);
    OfDirectionSplits(signals);
  }
}
