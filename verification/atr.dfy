/** Average True Range with Wilder smoothing (`calculateATR`). */
module Atr {
  import opened Common

  /** The true range at bar `i >= 1`: the largest of the bar's own range and
      its two gaps to the previous close. */
  function TrueRange(highs: seq<real>, lows: seq<real>, closes: seq<real>, i: nat): (tr: real)
    requires |highs| == |lows| == |closes| && 1 <= i < |closes|
    ensures 0.0 <= tr
    ensures highs[i] - lows[i] <= tr
    ensures Abs(highs[i] - closes[i - 1]) <= tr && Abs(lows[i] - closes[i - 1]) <= tr
  {
    Max(Max(highs[i] - lows[i], Abs(highs[i] - closes[i - 1])), Abs(lows[i] - closes[i - 1]))
  }

  /** The first `k` true ranges, those of bars `1..k`. */
  function TrueRanges(highs: seq<real>, lows: seq<real>, closes: seq<real>, k: nat): seq<real>
    requires |highs| == |lows| == |closes| && k < |closes|
  {
    seq(k, j requires 0 <= j < k => TrueRange(highs, lows, closes, j + 1))
  }

  /** The ATR at bar `m`: the mean of the first `period` true ranges at
      `m == period`, then Wilder smoothing with the true range of bar `m`. */
  function AtrAt(highs: seq<real>, lows: seq<real>, closes: seq<real>, period: nat, m: nat): (a: real)
    requires |highs| == |lows| == |closes| && 1 <= period <= m < |closes|
    ensures 0.0 <= a
    decreases m
  {
    if m == period then
      var seed := TrueRanges(highs, lows, closes, period);
      SumNonNegative(seed);
      DivNonNegative(Sum(seed), period as real);
      Sum(seed) / period as real
    else
      Wilder(AtrAt(highs, lows, closes, period, m - 1), TrueRange(highs, lows, closes, m), period)
  }

  /** The first `k` ATR values, value `j` belonging to bar `period + j`. */
  function AtrLine(highs: seq<real>, lows: seq<real>, closes: seq<real>, period: nat, k: nat): seq<real>
    requires |highs| == |lows| == |closes| && 1 <= period && period + k <= |closes|
  {
    seq(k, j requires 0 <= j < k => AtrAt(highs, lows, closes, period, period + j))
  }

  /** The ATR series; empty when fewer than `period + 1` closes are given. */
  function Atr(highs: seq<real>, lows: seq<real>, closes: seq<real>, period: nat): seq<real>
    requires |highs| == |lows| == |closes| && 1 <= period
  {
    if |closes| < period + 1 then [] else AtrLine(highs, lows, closes, period, |closes| - period)
  }

  lemma TrueRangesStep(highs: seq<real>, lows: seq<real>, closes: seq<real>, i: nat)
    requires |highs| == |lows| == |closes| && 1 <= i < |closes|
    ensures TrueRanges(highs, lows, closes, i) == TrueRanges(highs, lows, closes, i - 1) + [TrueRange(highs, lows, closes, i)]
  {
  }

  /** The first ATR is the mean of the first `period` true ranges. */
  lemma AtrFirst(highs: seq<real>, lows: seq<real>, closes: seq<real>, period: nat)
    requires |highs| == |lows| == |closes| && 1 <= period < |closes|
    ensures AtrLine(highs, lows, closes, period, 1)
         == [Sum(TrueRanges(highs, lows, closes, period)) / period as real]
  {
    assert AtrLine(highs, lows, closes, period, 1)[0] == AtrAt(highs, lows, closes, period, period);
  }

  /** Every later ATR smooths the previous one with the bar's true range. */
  lemma AtrStep(highs: seq<real>, lows: seq<real>, closes: seq<real>, period: nat, k: nat)
    requires |highs| == |lows| == |closes| && 1 <= period && 1 <= k && period + k < |closes|
    ensures var line := AtrLine(highs, lows, closes, period, k);
      AtrLine(highs, lows, closes, period, k + 1)
        == line + [Wilder(line[k - 1], TrueRange(highs, lows, closes, period + k), period)]
  {
    var line := AtrLine(highs, lows, closes, period, k);
    assert line[k - 1] == AtrAt(highs, lows, closes, period, period + k - 1);
    assert AtrLine(highs, lows, closes, period, k + 1)[k] == AtrAt(highs, lows, closes, period, period + k);
  }

  /** `calculateATR`: one loop pushing every true range and, from bar `period`
      on, either the first ATR (mean of the last `period` true ranges) or the
      smoothed one. */
  method CalculateAtr(highs: seq<real>, lows: seq<real>, closes: seq<real>, period: nat)
    returns (atr: seq<real>)
    requires |highs| == |lows| == |closes| && 1 <= period
    ensures atr == Atr(highs, lows, closes, period)
  {
    if |closes| < period + 1 {
      return [];
    }
    atr := [];
    var trueRanges: seq<real> := [];
    var i := 1;
    while i < |closes|
      invariant 1 <= i <= |closes|
      invariant trueRanges == TrueRanges(highs, lows, closes, i - 1)
      invariant atr == AtrLine(highs, lows, closes, period, if i <= period then 0 else i - period)
    {
      var tr := TrueRange(highs, lows, closes, i);
      TrueRangesStep(highs, lows, closes, i);
      trueRanges := trueRanges + [tr];
      if i >= period {
        if |atr| == 0 {
          AtrFirst(highs, lows, closes, period);
          var window := trueRanges[|trueRanges| - period..];
          assert window == trueRanges;
          atr := atr + [Sum(window) / period as real];
        } else {
          AtrStep(highs, lows, closes, period, i - period);
          atr := atr + [Wilder(atr[|atr| - 1], tr, period)];
        }
      }
      i := i + 1;
    }
  }

  /** The ATR series has one value per bar from bar `period` on, and every
      value is non-negative. */
  lemma AtrShape(highs: seq<real>, lows: seq<real>, closes: seq<real>, period: nat)
    requires |highs| == |lows| == |closes| && 1 <= period
    ensures var atr := Atr(highs, lows, closes, period);
      && (|closes| < period + 1 ==> atr == [])
      && (|closes| >= period + 1 ==> |atr| == |closes| - period)
      && (forall j :: 0 <= j < |atr| ==> 0.0 <= atr[j])
  {
    var atr := Atr(highs, lows, closes, period);
    forall j | 0 <= j < |atr|
      ensures 0.0 <= atr[j]
    {
      assert atr[j] == AtrAt(highs, lows, closes, period, period + j);
    }
  }
}
