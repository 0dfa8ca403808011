/** Values and arithmetic shared by every stage of the analysis pipeline.
    Prices are exact reals; `Math.sqrt` is a parameter of the stages that need it. */
module Common {

  datatype Option<T> = None | Some(value: T)

  datatype Result<T, E> = Success(value: T) | Failure(error: E)

  /** One bar of market data (`ForexData`); its timestamp plays no part in the analysis. */
  datatype Bar = Bar(open: real, high: real, low: real, close: real, volume: real)

  /** The filter every bar passes before analysis: positive prices and a high
      no lower than the low. */
  predicate ValidBar(b: Bar)
  {
    b.open > 0.0 && b.high > 0.0 && b.low > 0.0 && b.close > 0.0 && b.high >= b.low
  }

  /** Every bar passed the filter. */
  predicate AllValid(data: seq<Bar>)
  {
    forall j :: 0 <= j < |data| ==> ValidBar(data[j])
  }

  function Closes(data: seq<Bar>): seq<real>
  {
    seq(|data|, i requires 0 <= i < |data| => data[i].close)
  }

  function Highs(data: seq<Bar>): seq<real>
  {
    seq(|data|, i requires 0 <= i < |data| => data[i].high)
  }

  function Lows(data: seq<Bar>): seq<real>
  {
    seq(|data|, i requires 0 <= i < |data| => data[i].low)
  }

  function Volumes(data: seq<Bar>): seq<real>
  {
    seq(|data|, i requires 0 <= i < |data| => data[i].volume)
  }

  /** `s[s.length - 1]` */
  function Last(s: seq<real>): real
    requires |s| > 0
  {
    s[|s| - 1]
  }

  /** `s[s.length - 2]` */
  function Prev(s: seq<real>): real
    requires |s| > 1
  {
    s[|s| - 2]
  }

  /** `Math.abs` */
  function Abs(x: real): (r: real)
    ensures 0.0 <= r && (r == x || r == -x)
  {
    if x < 0.0 then -x else x
  }

  /** `Math.max` of two values */
  function Max(a: real, b: real): (r: real)
    ensures a <= r && b <= r && (r == a || r == b)
  {
    if a < b then b else a
  }

  /** `Math.min` of two values */
  function Min(a: real, b: real): (r: real)
    ensures r <= a && r <= b && (r == a || r == b)
  {
    if a < b then a else b
  }

  function MaxInt(a: int, b: int): (r: int)
    ensures a <= r && b <= r && (r == a || r == b)
  {
    if a < b then b else a
  }

  function MinInt(a: int, b: int): (r: int)
    ensures r <= a && r <= b && (r == a || r == b)
  {
    if a < b then a else b
  }

  lemma MulNonNegative(a: real, b: real)
    requires 0.0 <= a && 0.0 <= b
    ensures 0.0 <= a * b
  {
  }

  lemma MulPositive(a: real, b: real)
    requires 0.0 < a && 0.0 < b
    ensures 0.0 < a * b
  {
  }

  lemma DivNonNegative(a: real, b: real)
    requires 0.0 <= a && 0.0 < b
    ensures 0.0 <= a / b
  {
    assert a / b * b == a;
    if a > 0.0 {
      DivPositive(a, b);
    }
  }

  lemma DivPositive(a: real, b: real)
    requires 0.0 < a && 0.0 < b
    ensures 0.0 < a / b
  {
    assert a / b * b == a;
  }

  /** Comparing a quotient with a threshold is comparing the dividend with the scaled threshold. */
  lemma DivBelowIff(x: real, d: real, t: real)
    requires d > 0.0
    ensures x / d < t <==> x < t * d
    ensures x / d > t <==> x > t * d
  {
    var q := x / d;
    assert q * d == x;
    if q < t {
      MulPositive(t - q, d);
    } else if q > t {
      MulPositive(q - t, d);
    }
  }

  /** `x * x`, never negative. */
  function Square(x: real): (r: real)
    ensures 0.0 <= r
  {
    assert 0.0 <= x * x;
    x * x
  }

  /** Only zero squares to zero. */
  lemma SquareZero(x: real)
    ensures Square(x) == 0.0 <==> x == 0.0
  {
    if x != 0.0 {
      var y := Square(x);
      assert y == x * x;
      DivideSquare(y, x);
    }
  }

  lemma DivideSquare(y: real, x: real)
    requires x != 0.0 && y == x * x
    ensures y / x == x
  {
  }

  lemma DivSelf(x: real)
    requires x != 0.0
    ensures x / x == 1.0
  {
  }

  /** Wilder smoothing: `(previous * (period - 1) + current) / period`. */
  function Wilder(previous: real, current: real, period: nat): (r: real)
    requires 1 <= period
    ensures 0.0 <= previous && 0.0 <= current ==> 0.0 <= r
  {
    var p := period as real;
    WilderNonNegative(previous, current, p);
    (previous * (p - 1.0) + current) / p
  }

  lemma WilderNonNegative(previous: real, current: real, p: real)
    requires 1.0 <= p
    ensures 0.0 <= previous && 0.0 <= current ==> 0.0 <= (previous * (p - 1.0) + current) / p
  {
    if 0.0 <= previous && 0.0 <= current {
      MulNonNegative(previous, p - 1.0);
      DivNonNegative(previous * (p - 1.0) + current, p);
    }
  }

  /** `s.reduce((a, b) => a + b, 0)`: a left fold from 0. */
  function Sum(s: seq<real>): real
    decreases |s|
  {
    if |s| == 0 then 0.0 else Sum(s[..|s| - 1]) + s[|s| - 1]
  }

  /** Each element between lo and hi bounds the sum between |s|*lo and |s|*hi. */
  lemma {:induction false} SumBounds(s: seq<real>, lo: real, hi: real)
    requires forall i :: 0 <= i < |s| ==> lo <= s[i] <= hi
    ensures |s| as real * lo <= Sum(s) <= |s| as real * hi
  {
    if |s| > 0 {
      SumBounds(s[..|s| - 1], lo, hi);
    }
  }

  /** A sum of non-negative values is non-negative. */
  lemma {:induction false} SumNonNegative(s: seq<real>)
    requires forall i :: 0 <= i < |s| ==> 0.0 <= s[i]
    ensures 0.0 <= Sum(s)
  {
    if |s| > 0 {
      SumNonNegative(s[..|s| - 1]);
    }
  }

  /** A sum of positive values over a non-empty sequence is positive. */
  lemma {:induction false} SumPositive(s: seq<real>)
    requires |s| > 0
    requires forall i :: 0 <= i < |s| ==> s[i] > 0.0
    ensures Sum(s) > 0.0
  {
    if |s| > 1 {
      SumPositive(s[..|s| - 1]);
    }
  }

  /** The sum of a constant sequence. */
  lemma {:induction false} SumOfConstant(s: seq<real>, c: real)
    requires forall i :: 0 <= i < |s| ==> s[i] == c
    ensures Sum(s) == |s| as real * c
  {
    if |s| > 0 {
      SumOfConstant(s[..|s| - 1], c);
    }
  }

  /** `Math.max(...s)` for a non-empty `s` */
  function MaxOf(s: seq<real>): real
    requires |s| > 0
    decreases |s|
  {
    if |s| == 1 then s[0] else Max(MaxOf(s[..|s| - 1]), s[|s| - 1])
  }

  /** `Math.min(...s)` for a non-empty `s` */
  function MinOf(s: seq<real>): real
    requires |s| > 0
    decreases |s|
  {
    if |s| == 1 then s[0] else Min(MinOf(s[..|s| - 1]), s[|s| - 1])
  }

  /** `MaxOf` is an element of its argument and bounds every element. */
  lemma {:induction false} MaxOfIsMaximum(s: seq<real>)
    requires |s| > 0
    ensures MaxOf(s) in s
    ensures forall i :: 0 <= i < |s| ==> s[i] <= MaxOf(s)
  {
    if |s| > 1 {
      MaxOfIsMaximum(s[..|s| - 1]);
      assert s == s[..|s| - 1] + [s[|s| - 1]];
    }
  }

  /** `MinOf` is an element of its argument and is bounded by every element. */
  lemma {:induction false} MinOfIsMinimum(s: seq<real>)
    requires |s| > 0
    ensures MinOf(s) in s
    ensures forall i :: 0 <= i < |s| ==> MinOf(s) <= s[i]
  {
    if |s| > 1 {
      MinOfIsMinimum(s[..|s| - 1]);
      assert s == s[..|s| - 1] + [s[|s| - 1]];
    }
  }

  /** The squared deviations of a window from a mean. */
  function SquaredDeviations(window: seq<real>, mean: real): (r: seq<real>)
    ensures |r| == |window|
    ensures forall i :: 0 <= i < |r| ==> 0.0 <= r[i]
  {
    seq(|window|, i requires 0 <= i < |window| => Square(window[i] - mean))
  }

  /** What the pipeline relies on from `Math.sqrt`: a non-negative result. */
  ghost predicate IsRoot(sqrt: real -> real)
  {
    forall x :: 0.0 <= x ==> 0.0 <= sqrt(x)
  }

  /** A square root proper: non-negative and squaring back to its argument. */
  ghost predicate IsExactRoot(sqrt: real -> real)
  {
    forall x :: 0.0 <= x ==> 0.0 <= sqrt(x) && sqrt(x) * sqrt(x) == x
  }
}
