/** Simple and exponential moving averages and the MACD built on them
    (`calculateSMA`, `calculateEMA`, `calculateMACD`).

    An indicator series is aligned to a suffix of its input: value `j` of a
    series with warm-up `p` belongs to input bar `j + p - 1`. */
module MovingAverages {
  import opened Common

  // ---------------------------------------------------------------------------
  // SMA
  // ---------------------------------------------------------------------------

  /** The mean of the `period`-wide window starting at bar `j`. */
  function WindowMean(data: seq<real>, period: nat, j: nat): real
    requires 1 <= period && j + period <= |data|
  {
    Sum(data[j..j + period]) / period as real
  }

  /** The SMA series: the mean of every `period`-wide trailing window, or
      empty when the input is shorter than one window. */
  function Sma(data: seq<real>, period: nat): seq<real>
    requires 1 <= period
  {
    if |data| < period then []
    else seq(|data| - period + 1, j requires 0 <= j < |data| - period + 1 => WindowMean(data, period, j))
  }

  /** `calculateSMA`: pushes one window mean per bar from `period - 1` on. */
  method CalculateSma(data: seq<real>, period: nat) returns (sma: seq<real>)
    requires 1 <= period
    ensures sma == Sma(data, period)
    ensures |data| < period ==> sma == []
    ensures |data| >= period ==> |sma| == |data| - period + 1
  {
    if |data| < period {
      return [];
    }
    sma := [];
    var i := period - 1;
    while i < |data|
      invariant period - 1 <= i <= |data|
      invariant |sma| == i - period + 1
      invariant forall j :: 0 <= j < |sma| ==> sma[j] == WindowMean(data, period, j)
    {
      var sum := Sum(data[i - period + 1..i + 1]);
      assert sum / period as real == WindowMean(data, period, i - period + 1);
      sma := sma + [sum / period as real];
      i := i + 1;
    }
  }

  /** Every SMA value lies between the smallest and the largest input value of
      its window; in particular a constant input gives a constant SMA. */
  lemma SmaWithinRange(data: seq<real>, period: nat, lo: real, hi: real)
    requires 1 <= period
    requires forall i :: 0 <= i < |data| ==> lo <= data[i] <= hi
    ensures forall j :: 0 <= j < |Sma(data, period)| ==> lo <= Sma(data, period)[j] <= hi
  {
    var sma := Sma(data, period);
    forall j | 0 <= j < |sma|
      ensures lo <= sma[j] <= hi
    {
      var w := data[j..j + period];
      SumBounds(w, lo, hi);
      var p := period as real;
      assert sma[j] == WindowMean(data, period, j) == Sum(w) / p;
      assert p * lo <= Sum(w) <= p * hi;
      DivBounds(Sum(w), p, lo, hi);
    }
  }

  lemma DivBounds(s: real, p: real, lo: real, hi: real)
    requires p > 0.0 && p * lo <= s <= p * hi
    ensures lo <= s / p <= hi
  {
    var q := s / p;
    assert q * p == s;
    assert (q - lo) * p >= 0.0 && (hi - q) * p >= 0.0;
  }

  // ---------------------------------------------------------------------------
  // EMA
  // ---------------------------------------------------------------------------

  /** The smoothing factor `k = 2 / (period + 1)`. */
  function Smoothing(period: nat): (k: real)
    requires 1 <= period
    ensures 0.0 < k <= 1.0
  {
    2.0 / (period as real + 1.0)
  }

  /** The EMA value at input bar `m`: seeded with the raw sample at bar
      `period - 1` (not an SMA), then `x * k + previous * (1 - k)`. */
  function EmaAt(data: seq<real>, period: nat, m: nat): real
    requires 1 <= period <= m + 1 && m < |data|
    decreases m
  {
    if m == period - 1 then data[m]
    else data[m] * Smoothing(period) + EmaAt(data, period, m - 1) * (1.0 - Smoothing(period))
  }

  /** The EMA series, aligned so that value `j` is the EMA at bar `period - 1 + j`. */
  function Ema(data: seq<real>, period: nat): seq<real>
    requires 1 <= period
  {
    if |data| < period then []
    else seq(|data| - period + 1, j requires 0 <= j < |data| - period + 1 =>
               EmaAt(data, period, period - 1 + j))
  }

  /** `calculateEMA`: the running `ema` accumulator is extended one bar at a time. */
  method CalculateEma(data: seq<real>, period: nat) returns (ema: seq<real>)
    requires 1 <= period
    ensures ema == Ema(data, period)
    ensures |data| < period ==> ema == []
    ensures |data| >= period ==> |ema| == |data| - period + 1 && ema[0] == data[period - 1]
  {
    if |data| < period {
      return [];
    }
    var k := Smoothing(period);
    ema := [data[period - 1]];
    var i := period;
    while i < |data|
      invariant period <= i <= |data|
      invariant |ema| == i - period + 1
      invariant forall j :: 0 <= j < |ema| ==> ema[j] == EmaAt(data, period, period - 1 + j)
    {
      ema := ema + [data[i] * k + ema[|ema| - 1] * (1.0 - k)];
      i := i + 1;
    }
  }

  /** The EMA at bar `m` depends only on the bars up to `m`. */
  lemma {:induction false} EmaAtPrefix(data: seq<real>, period: nat, m: nat, n: nat)
    requires 1 <= period <= m + 1 && m < n <= |data|
    ensures EmaAt(data[..n], period, m) == EmaAt(data, period, m)
    decreases m
  {
    if m > period - 1 {
      EmaAtPrefix(data, period, m - 1, n);
    }
  }

  /** A convex combination stays between the bounds of its two parts. */
  lemma MixWithinRange(x: real, y: real, k: real, lo: real, hi: real)
    requires 0.0 < k <= 1.0
    requires lo <= x <= hi && lo <= y <= hi
    ensures lo <= x * k + y * (1.0 - k) <= hi
  {
    var j := 1.0 - k;
    MulNonNegative(x - lo, k);
    MulNonNegative(y - lo, j);
    MulNonNegative(hi - x, k);
    MulNonNegative(hi - y, j);
  }

  /** Every EMA value lies within the range of the samples it has seen. */
  lemma {:induction false} EmaAtWithinRange(data: seq<real>, period: nat, m: nat, lo: real, hi: real)
    requires 1 <= period <= m + 1 && m < |data|
    requires forall i :: 0 <= i <= m ==> lo <= data[i] <= hi
    ensures lo <= EmaAt(data, period, m) <= hi
    decreases m
  {
    if m > period - 1 {
      EmaAtWithinRange(data, period, m - 1, lo, hi);
      MixWithinRange(data[m], EmaAt(data, period, m - 1), Smoothing(period), lo, hi);
    }
  }

  // ---------------------------------------------------------------------------
  // MACD
  // ---------------------------------------------------------------------------

  datatype MacdLines = MacdLines(macdLine: seq<real>, signalLine: seq<real>)

  /** `calculateMACD`: the 12-EMA with its first `26 - 12` values dropped, minus
      the 26-EMA, and the 9-EMA of that difference as signal line. */
  function Macd(data: seq<real>): (r: MacdLines)
    ensures |data| < 26 ==> r == MacdLines([], [])
    ensures |data| >= 26 ==> |r.macdLine| == |data| - 25
    ensures forall i :: 0 <= i < |r.macdLine| ==>
              r.macdLine[i] == EmaAt(data, 12, i + 25) - EmaAt(data, 26, i + 25)
    ensures r.signalLine == Ema(r.macdLine, 9)
  {
    var ema12 := Ema(data, 12);
    var ema26 := Ema(data, 26);
    if |ema12| == 0 || |ema26| == 0 then MacdLines([], [])
    else
      var startIndex := 26 - 12;
      var line := seq(|ema12| - startIndex, i requires 0 <= i < |ema12| - startIndex =>
                        ema12[startIndex + i] - ema26[i]);
      MacdLines(line, Ema(line, 9))
  }
}
