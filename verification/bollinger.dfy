/** Bollinger bands (`calculateBollingerBands`): the SMA plus and minus two
    population standard deviations of the same trailing window. */
module Bollinger {
  import opened Common
  import opened MovingAverages

  datatype Bands = Bands(sma: seq<real>, upper: seq<real>, lower: seq<real>)

  /** The population variance of a window around its SMA value. */
  function Variance(window: seq<real>, mean: real, period: nat): (v: real)
    requires 1 <= period
    ensures 0.0 <= v
  {
    var squares := SquaredDeviations(window, mean);
    SumNonNegative(squares);
    DivNonNegative(Sum(squares), period as real);
    Sum(squares) / period as real
  }

  /** The band half-width of one window: two standard deviations. */
  function Width(window: seq<real>, mean: real, period: nat, sqrt: real -> real): real
    requires 1 <= period
  {
    2.0 * sqrt(Variance(window, mean, period))
  }

  /** The upper band of one window. */
  function Upper(window: seq<real>, mean: real, period: nat, sqrt: real -> real): real
    requires 1 <= period
  {
    mean + Width(window, mean, period, sqrt)
  }

  /** The lower band of one window. */
  function Lower(window: seq<real>, mean: real, period: nat, sqrt: real -> real): real
    requires 1 <= period
  {
    mean - Width(window, mean, period, sqrt)
  }

  /** The upper band of window `j`, the window `data[j..j + period]` around `sma[j]`. */
  function UpperAt(data: seq<real>, sma: seq<real>, period: nat, sqrt: real -> real, j: nat): real
    requires 1 <= period && j < |sma| && j + period <= |data|
  {
    Upper(data[j..j + period], sma[j], period, sqrt)
  }

  /** The lower band of window `j`. */
  function LowerAt(data: seq<real>, sma: seq<real>, period: nat, sqrt: real -> real, j: nat): real
    requires 1 <= period && j < |sma| && j + period <= |data|
  {
    Lower(data[j..j + period], sma[j], period, sqrt)
  }

  /** The upper bands of the first `k` windows. */
  function UpperBands(data: seq<real>, sma: seq<real>, period: nat, sqrt: real -> real, k: nat): seq<real>
    requires 1 <= period && k <= |sma| && k + period <= |data| + 1
  {
    seq(k, j requires 0 <= j < k => UpperAt(data, sma, period, sqrt, j))
  }

  /** The lower bands of the first `k` windows. */
  function LowerBands(data: seq<real>, sma: seq<real>, period: nat, sqrt: real -> real, k: nat): seq<real>
    requires 1 <= period && k <= |sma| && k + period <= |data| + 1
  {
    seq(k, j requires 0 <= j < k => LowerAt(data, sma, period, sqrt, j))
  }

  function BollingerBands(data: seq<real>, period: nat, sqrt: real -> real): Bands
    requires 1 <= period
  {
    if |data| < period then Bands([], [], [])
    else
      var sma := Sma(data, period);
      Bands(sma, UpperBands(data, sma, period, sqrt, |sma|), LowerBands(data, sma, period, sqrt, |sma|))
  }

  /** Pushing `mean + 2 * stdDev` and `mean - 2 * stdDev` for window `k`
      extends the band lines by one window. */
  lemma BandsStep(data: seq<real>, sma: seq<real>, period: nat, sqrt: real -> real, k: nat,
                  mean: real, stdDev: real)
    requires 1 <= period && k < |sma| && k + period <= |data|
    requires mean == sma[k] && stdDev == sqrt(Variance(data[k..k + period], mean, period))
    ensures UpperBands(data, sma, period, sqrt, k + 1) == UpperBands(data, sma, period, sqrt, k) + [mean + 2.0 * stdDev]
    ensures LowerBands(data, sma, period, sqrt, k + 1) == LowerBands(data, sma, period, sqrt, k) + [mean - 2.0 * stdDev]
  {
    assert UpperAt(data, sma, period, sqrt, k) == mean + 2.0 * stdDev;
    assert LowerAt(data, sma, period, sqrt, k) == mean - 2.0 * stdDev;
  }

  /** `calculateBollingerBands`: computes the SMA, then walks the same windows
      pushing `mean + 2 * stdDev` and `mean - 2 * stdDev`. */
  method CalculateBollingerBands(data: seq<real>, period: nat, sqrt: real -> real) returns (b: Bands)
    requires 1 <= period
    ensures b == BollingerBands(data, period, sqrt)
  {
    if |data| < period {
      return Bands([], [], []);
    }
    var sma := CalculateSma(data, period);
    var upper: seq<real> := [];
    var lower: seq<real> := [];
    var i := period - 1;
    while i < |data|
      invariant period - 1 <= i <= |data|
      invariant upper == UpperBands(data, sma, period, sqrt, i - period + 1)
      invariant lower == LowerBands(data, sma, period, sqrt, i - period + 1)
    {
      var start := i - period + 1;
      var slice := data[start..start + period];
      var mean := sma[start];
      var variance := Variance(slice, mean, period);
      var stdDev := sqrt(variance);
      BandsStep(data, sma, period, sqrt, start, mean, stdDev);
      upper := upper + [mean + 2.0 * stdDev];
      lower := lower + [mean - 2.0 * stdDev];
      i := i + 1;
    }
    b := Bands(sma, upper, lower);
  }

  /** With a non-negative square root the SMA lies inside its bands. */
  lemma BandsEncloseSma(data: seq<real>, period: nat, sqrt: real -> real)
    requires 1 <= period && IsRoot(sqrt)
    ensures var b := BollingerBands(data, period, sqrt);
      forall j :: 0 <= j < |b.sma| ==> b.lower[j] <= b.sma[j] <= b.upper[j]
  {
    var b := BollingerBands(data, period, sqrt);
    forall j | 0 <= j < |b.sma|
      ensures b.lower[j] <= b.sma[j] <= b.upper[j]
    {
      var v := Variance(data[j..j + period], b.sma[j], period);
      assert 0.0 <= sqrt(v);
      assert b.upper[j] == UpperAt(data, b.sma, period, sqrt, j);
      assert b.lower[j] == LowerAt(data, b.sma, period, sqrt, j);
    }
  }

  /** On a constant series the bands collapse onto the SMA, which is the
      constant itself (given `sqrt(0) == 0`). */
  lemma FlatSeriesBands(data: seq<real>, period: nat, c: real, sqrt: real -> real)
    requires 1 <= period && sqrt(0.0) == 0.0
    requires forall i :: 0 <= i < |data| ==> data[i] == c
    ensures var b := BollingerBands(data, period, sqrt);
      forall j :: 0 <= j < |b.sma| ==> b.sma[j] == c && b.upper[j] == c && b.lower[j] == c
  {
    var b := BollingerBands(data, period, sqrt);
    SmaWithinRange(data, period, c, c);
    forall j | 0 <= j < |b.sma|
      ensures b.sma[j] == c && b.upper[j] == c && b.lower[j] == c
    {
      var window := data[j..j + period];
      FlatWindowVariance(window, c, period);
      assert Width(window, c, period, sqrt) == 0.0;
      assert b.sma[j] == c;
      assert b.upper[j] == UpperAt(data, b.sma, period, sqrt, j) == Upper(window, c, period, sqrt);
      assert b.lower[j] == LowerAt(data, b.sma, period, sqrt, j) == Lower(window, c, period, sqrt);
    }
  }

  /** A window equal to its mean everywhere has zero variance. */
  lemma FlatWindowVariance(window: seq<real>, c: real, period: nat)
    requires 1 <= period
    requires forall i :: 0 <= i < |window| ==> window[i] == c
    ensures Variance(window, c, period) == 0.0
  {
    var squares := SquaredDeviations(window, c);
    forall i | 0 <= i < |squares|
      ensures squares[i] == 0.0
    {
      assert window[i] == c;
    }
    SumOfConstant(squares, 0.0);
  }
}
