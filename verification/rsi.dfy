/** Wilder's Relative Strength Index (`calculateRSI`). */
module Rsi {
  import opened Common

  /** Running average gain and average loss (both kept non-negative). */
  datatype GainLoss = GainLoss(gain: real, loss: real)

  /** The upward part of a price change. */
  function Gain(change: real): (g: real)
    ensures 0.0 <= g && g - Loss(change) == change
  {
    if change > 0.0 then change else 0.0
  }

  /** The downward part of a price change, as a non-negative amount. */
  function Loss(change: real): real
  {
    if change < 0.0 then -change else 0.0
  }

  /** Totals of gains and losses over the changes at bars `1..m`: the seed
      loop of `calculateRSI` before it divides by the period. */
  function SeedTotals(data: seq<real>, m: nat): (t: GainLoss)
    requires m < |data|
    ensures 0.0 <= t.gain && 0.0 <= t.loss
    decreases m
  {
    if m == 0 then GainLoss(0.0, 0.0)
    else
      var t := SeedTotals(data, m - 1);
      var change := data[m] - data[m - 1];
      GainLoss(t.gain + Gain(change), t.loss + Loss(change))
  }

  /** Wilder averages after the change at bar `m`: the seed averages at
      `m == period`, then `(previous * (period - 1) + current) / period`. */
  function AveragesAt(data: seq<real>, period: nat, m: nat): (a: GainLoss)
    requires 1 <= period <= m < |data|
    ensures 0.0 <= a.gain && 0.0 <= a.loss
    decreases m
  {
    if m == period then
      var t := SeedTotals(data, period);
      DivNonNegative(t.gain, period as real);
      DivNonNegative(t.loss, period as real);
      GainLoss(t.gain / period as real, t.loss / period as real)
    else
      var prev := AveragesAt(data, period, m - 1);
      var change := data[m] - data[m - 1];
      GainLoss(Wilder(prev.gain, Gain(change), period), Wilder(prev.loss, Loss(change), period))
  }

  /** `RS = avgGain / (avgLoss || 0.0001)`, `RSI = 100 - 100 / (1 + RS)`. The
      guard replaces a zero average loss, so the value always lies in [0, 100). */
  function RsiOf(a: GainLoss): (r: real)
    requires 0.0 <= a.gain && 0.0 <= a.loss
    ensures 0.0 <= r < 100.0
    ensures r == 0.0 <==> a.gain == 0.0
  {
    var rs := a.gain / (if a.loss == 0.0 then 0.0001 else a.loss);
    RsBounds(a.gain, if a.loss == 0.0 then 0.0001 else a.loss);
    100.0 - 100.0 / (1.0 + rs)
  }

  lemma RsBounds(g: real, d: real)
    requires 0.0 <= g && 0.0 < d
    ensures 0.0 <= g / d
    ensures 0.0 < 100.0 / (1.0 + g / d) <= 100.0
    ensures 100.0 / (1.0 + g / d) == 100.0 <==> g == 0.0
  {
    var rs := g / d;
    assert rs * d == g;
    DivNonNegative(g, d);
    var q := 100.0 / (1.0 + rs);
    assert q * (1.0 + rs) == 100.0;
    DivPositive(100.0, 1.0 + rs);
    MulNonNegative(q, rs);
    assert q + q * rs == 100.0;
    if rs > 0.0 {
      MulPositive(q, rs);
    }
  }

  /** The first `k` RSI values, value `j` belonging to bar `period + j`. */
  function RsiLine(data: seq<real>, period: nat, k: nat): seq<real>
    requires 1 <= period && period + k <= |data|
  {
    seq(k, j requires 0 <= j < k => RsiOf(AveragesAt(data, period, period + j)))
  }

  /** The RSI series; empty when fewer than `period + 1` bars are given. */
  function Rsi(data: seq<real>, period: nat): seq<real>
    requires 1 <= period
  {
    if |data| < period + 1 then [] else RsiLine(data, period, |data| - period)
  }

  /** One seed step adds the gain or the loss of the change at bar `i`. */
  lemma SeedStep(data: seq<real>, i: nat)
    requires 1 <= i < |data|
    ensures var change := data[i] - data[i - 1];
      var t := SeedTotals(data, i - 1);
      SeedTotals(data, i) == if change > 0.0 then GainLoss(t.gain + change, t.loss)
                              else GainLoss(t.gain, t.loss + Abs(change))
  {
  }

  /** One smoothing step past the seed. */
  lemma AveragesStep(data: seq<real>, period: nat, i: nat)
    requires 1 <= period < i < |data|
    ensures var prev := AveragesAt(data, period, i - 1);
      var change := data[i] - data[i - 1];
      AveragesAt(data, period, i) == GainLoss(Wilder(prev.gain, Gain(change), period), Wilder(prev.loss, Loss(change), period))
  {
  }

  lemma RsiLineStep(data: seq<real>, period: nat, k: nat)
    requires 1 <= period && period + k < |data|
    ensures RsiLine(data, period, k + 1) == RsiLine(data, period, k) + [RsiOf(AveragesAt(data, period, period + k))]
  {
  }

  /** `calculateRSI`: a seed loop accumulating gains and losses, then a
      smoothing loop updating `avgGain` and `avgLoss` and pushing one value per bar. */
  method CalculateRsi(data: seq<real>, period: nat) returns (rsi: seq<real>)
    requires 1 <= period
    ensures rsi == Rsi(data, period)
  {
    if |data| < period + 1 {
      return [];
    }
    var avgGain, avgLoss := 0.0, 0.0;
    var i := 1;
    while i <= period
      invariant 1 <= i <= period + 1
      invariant GainLoss(avgGain, avgLoss) == SeedTotals(data, i - 1)
    {
      SeedStep(data, i);
      var change := data[i] - data[i - 1];
      if change > 0.0 {
        avgGain := avgGain + change;
      } else {
        avgLoss := avgLoss + Abs(change);
      }
      i := i + 1;
    }
    avgGain := avgGain / period as real;
    avgLoss := avgLoss / period as real;
    assert GainLoss(avgGain, avgLoss) == AveragesAt(data, period, period);
    RsiLineStep(data, period, 0);
    rsi := [RsiOf(GainLoss(avgGain, avgLoss))];
    i := period + 1;
    while i < |data|
      invariant period + 1 <= i <= |data|
      invariant GainLoss(avgGain, avgLoss) == AveragesAt(data, period, i - 1)
      invariant rsi == RsiLine(data, period, i - period)
    {
      AveragesStep(data, period, i);
      RsiLineStep(data, period, i - period);
      var change := data[i] - data[i - 1];
      var gain := if change > 0.0 then change else 0.0;
      var loss := if change < 0.0 then Abs(change) else 0.0;
      assert gain == Gain(change) && loss == Loss(change);
      avgGain := Wilder(avgGain, gain, period);
      avgLoss := Wilder(avgLoss, loss, period);
      rsi := rsi + [RsiOf(GainLoss(avgGain, avgLoss))];
      i := i + 1;
    }
  }

  /** The RSI series has one value per bar from bar `period` on, each in [0, 100). */
  lemma RsiShape(data: seq<real>, period: nat)
    requires 1 <= period
    ensures |data| < period + 1 ==> Rsi(data, period) == []
    ensures |data| >= period + 1 ==> |Rsi(data, period)| == |data| - period
    ensures forall j :: 0 <= j < |Rsi(data, period)| ==> 0.0 <= Rsi(data, period)[j] < 100.0
  {
    var rsi := Rsi(data, period);
    forall j | 0 <= j < |rsi|
      ensures 0.0 <= rsi[j] < 100.0
    {
      assert rsi[j] == RsiOf(AveragesAt(data, period, period + j));
    }
  }

  /** No rise in the seed window leaves the seed gain total at zero. */
  lemma {:induction false} SeedGainZero(data: seq<real>, m: nat)
    requires m < |data|
    requires forall i :: 1 <= i <= m ==> data[i] <= data[i - 1]
    ensures SeedTotals(data, m).gain == 0.0
    decreases m
  {
    if m > 0 {
      SeedGainZero(data, m - 1);
    }
  }

  /** No rise up to bar `m` leaves the average gain at zero. */
  lemma {:induction false} AverageGainZero(data: seq<real>, period: nat, m: nat)
    requires 1 <= period <= m < |data|
    requires forall i :: 1 <= i <= m ==> data[i] <= data[i - 1]
    ensures AveragesAt(data, period, m).gain == 0.0
    decreases m
  {
    if m == period {
      SeedGainZero(data, period);
    } else {
      AverageGainZero(data, period, m - 1);
    }
  }

  /** A series that never rises (a flat one included) has RSI 0 at every bar:
      with no gains the guard makes `RS` zero, not undefined. */
  lemma NonRisingRsiIsZero(data: seq<real>, period: nat)
    requires 1 <= period
    requires forall i :: 1 <= i < |data| ==> data[i] <= data[i - 1]
    ensures forall j :: 0 <= j < |Rsi(data, period)| ==> Rsi(data, period)[j] == 0.0
  {
    var rsi := Rsi(data, period);
    forall j | 0 <= j < |rsi|
      ensures rsi[j] == 0.0
    {
      AverageGainZero(data, period, period + j);
      assert rsi[j] == RsiOf(AveragesAt(data, period, period + j));
    }
  }
}
