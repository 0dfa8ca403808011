/** Pearson correlation of two price series (`calculateCorrelation`). */
module Correlation {
  import opened Common

  /** The running sums of the correlation loop: the co-deviation and the two
      squared deviations. */
  datatype Moments = Moments(cov: real, var1: real, var2: real)

  /** The sums after the first `i` samples of both series. */
  function MomentsUpTo(a: seq<real>, b: seq<real>, mean1: real, mean2: real, i: nat): (m: Moments)
    requires i <= |a| && i <= |b|
    ensures 0.0 <= m.var1 && 0.0 <= m.var2
    decreases i
  {
    if i == 0 then Moments(0.0, 0.0, 0.0)
    else Accumulate(MomentsUpTo(a, b, mean1, mean2, i - 1), a[i - 1] - mean1, b[i - 1] - mean2)
  }

  /** One step of the loop: add the deviations of one pair of samples. */
  function Accumulate(m: Moments, diff1: real, diff2: real): (r: Moments)
    ensures 0.0 <= m.var1 && 0.0 <= m.var2 ==> 0.0 <= r.var1 && 0.0 <= r.var2
  {
    Moments(m.cov + diff1 * diff2, m.var1 + Square(diff1), m.var2 + Square(diff2))
  }

  /** `cov / (sqrt(std1) * sqrt(std2))`, or 0 when that denominator is 0. */
  function Quotient(m: Moments, sqrt: real -> real): real
  {
    var denominator := sqrt(m.var1) * sqrt(m.var2);
    if denominator == 0.0 then 0.0 else m.cov / denominator
  }

  /** The mean of the first `n` samples. */
  function MeanOf(s: seq<real>, n: nat): real
    requires 1 <= n <= |s|
  {
    Sum(s[..n]) / n as real
  }

  /** The sums over the common length `n` of both series, around their means. */
  function MomentsOf(a: seq<real>, b: seq<real>, n: nat): (m: Moments)
    requires 1 <= n <= |a| && n <= |b|
    ensures 0.0 <= m.var1 && 0.0 <= m.var2
  {
    MomentsUpTo(a, b, MeanOf(a, n), MeanOf(b, n), n)
  }

  /** The correlation over the leading `min(|a|, |b|)` samples; 0 with fewer
      than two samples, and 0 when either series has no spread. */
  function Correlation(a: seq<real>, b: seq<real>, sqrt: real -> real): real
  {
    var n := MinInt(|a|, |b|);
    if n < 2 then 0.0
    else
      Quotient(MomentsOf(a, b, n), sqrt)
  }

  lemma QuotientUnfold(m: Moments, sqrt: real -> real, denominator: real)
    requires denominator == sqrt(m.var1) * sqrt(m.var2)
    ensures Quotient(m, sqrt) == if denominator == 0.0 then 0.0 else m.cov / denominator
  {
  }

  /** One more sample adds its products of deviations to the three sums. */
  lemma MomentsStep(a: seq<real>, b: seq<real>, mean1: real, mean2: real, i: nat,
                    m: Moments, diff1: real, diff2: real)
    requires i < |a| && i < |b| && m == MomentsUpTo(a, b, mean1, mean2, i)
    requires diff1 == a[i] - mean1 && diff2 == b[i] - mean2
    ensures MomentsUpTo(a, b, mean1, mean2, i + 1) == Moments(m.cov + diff1 * diff2, m.var1 + diff1 * diff1, m.var2 + diff2 * diff2)
  {
    assert MomentsUpTo(a, b, mean1, mean2, i + 1) == Accumulate(m, diff1, diff2);
    assert Square(diff1) == diff1 * diff1 && Square(diff2) == diff2 * diff2;
  }

  /** The accumulation loop of `calculateCorrelation`, around given means. */
  method AccumulateMoments(a: seq<real>, b: seq<real>, mean1: real, mean2: real, n: nat)
    returns (cov: real, std1: real, std2: real)
    requires n <= |a| && n <= |b|
    ensures Moments(cov, std1, std2) == MomentsUpTo(a, b, mean1, mean2, n)
  {
    cov, std1, std2 := 0.0, 0.0, 0.0;
    var i := 0;
    while i < n
      invariant 0 <= i <= n
      invariant Moments(cov, std1, std2) == MomentsUpTo(a, b, mean1, mean2, i)
    {
      var diff1 := a[i] - mean1;
      var diff2 := b[i] - mean2;
      MomentsStep(a, b, mean1, mean2, i, Moments(cov, std1, std2), diff1, diff2);
      cov := cov + diff1 * diff2;
      std1 := std1 + diff1 * diff1;
      std2 := std2 + diff2 * diff2;
      i := i + 1;
    }
  }

  /** `calculateCorrelation`: the two means, then one loop accumulating the
      three sums, then the guarded quotient. */
  method CalculateCorrelation(a: seq<real>, b: seq<real>, sqrt: real -> real) returns (r: real)
    ensures r == Correlation(a, b, sqrt)
  {
    var n := MinInt(|a|, |b|);
    if n < 2 {
      return 0.0;
    }
    var mean1 := Sum(a[..n]) / n as real;
    var mean2 := Sum(b[..n]) / n as real;
    var cov, std1, std2 := AccumulateMoments(a, b, mean1, mean2, n);
    assert Moments(cov, std1, std2) == MomentsOf(a, b, n);
    var denominator := sqrt(std1) * sqrt(std2);
    QuotientUnfold(Moments(cov, std1, std2), sqrt, denominator);
    r := if denominator == 0.0 then 0.0 else cov / denominator;
    assert Correlation(a, b, sqrt) == Quotient(MomentsOf(a, b, n), sqrt);
  }

  // ---------------------------------------------------------------------------
  // Properties
  // ---------------------------------------------------------------------------

  /** Swapping the series swaps the two squared-deviation sums and keeps the
      co-deviation. */
  lemma {:induction false} MomentsSwap(a: seq<real>, b: seq<real>, mean1: real, mean2: real, i: nat)
    requires i <= |a| && i <= |b|
    ensures var m := MomentsUpTo(a, b, mean1, mean2, i);
            MomentsUpTo(b, a, mean2, mean1, i) == Moments(m.cov, m.var2, m.var1)
    decreases i
  {
    if i > 0 {
      MomentsSwap(a, b, mean1, mean2, i - 1);
    }
  }

  /** The correlation is symmetric. */
  lemma CorrelationSymmetric(a: seq<real>, b: seq<real>, sqrt: real -> real)
    ensures Correlation(a, b, sqrt) == Correlation(b, a, sqrt)
  {
    var n := MinInt(|a|, |b|);
    assert MinInt(|b|, |a|) == n;
    if n >= 2 {
      MomentsSwap(a, b, MeanOf(a, n), MeanOf(b, n), n);
      var m1 := MomentsOf(a, b, n);
      var m2 := MomentsOf(b, a, n);
      assert m2 == Moments(m1.cov, m1.var2, m1.var1);
      var s1, s2 := sqrt(m1.var1), sqrt(m1.var2);
      var d := s1 * s2;
      assert d == s2 * s1;
      QuotientUnfold(m1, sqrt, d);
      QuotientUnfold(m2, sqrt, d);
      assert Correlation(a, b, sqrt) == Quotient(m1, sqrt);
      assert Correlation(b, a, sqrt) == Quotient(m2, sqrt);
    }
  }

  /** Against itself, every sum is the same sum of squares. */
  lemma {:induction false} MomentsSelf(a: seq<real>, mean: real, i: nat)
    requires i <= |a|
    ensures var m := MomentsUpTo(a, a, mean, mean, i);
            m.cov == m.var1 == m.var2
    decreases i
  {
    if i > 0 {
      MomentsSelf(a, mean, i - 1);
    }
  }

  /** A zero squared-deviation sum means every sample equals the mean. */
  lemma {:induction false} NoSpreadMeansAtMean(a: seq<real>, b: seq<real>, mean1: real, mean2: real, i: nat)
    requires i <= |a| && i <= |b|
    requires MomentsUpTo(a, b, mean1, mean2, i).var1 == 0.0
    ensures forall k :: 0 <= k < i ==> a[k] == mean1
    decreases i
  {
    if i > 0 {
      var m := MomentsUpTo(a, b, mean1, mean2, i - 1);
      assert m.var1 + Square(a[i - 1] - mean1) == 0.0;
      SquareZero(a[i - 1] - mean1);
      NoSpreadMeansAtMean(a, b, mean1, mean2, i - 1);
    }
  }

  /** Samples all equal to the mean leave the squared-deviation sum at zero. */
  lemma {:induction false} AtMeanMeansNoSpread(a: seq<real>, b: seq<real>, mean1: real, mean2: real, i: nat)
    requires i <= |a| && i <= |b|
    requires forall k :: 0 <= k < i ==> a[k] == mean1
    ensures MomentsUpTo(a, b, mean1, mean2, i).var1 == 0.0
    decreases i
  {
    if i > 0 {
      AtMeanMeansNoSpread(a, b, mean1, mean2, i - 1);
    }
  }

  /** A series that varies within the common length correlates perfectly with itself. */
  lemma SelfCorrelationIsOne(a: seq<real>, sqrt: real -> real)
    requires IsExactRoot(sqrt)
    requires exists j, k :: 0 <= j < k < |a| && a[j] != a[k]
    ensures Correlation(a, a, sqrt) == 1.0
  {
    var n := |a|;
    var j, k :| 0 <= j < k < n && a[j] != a[k];
    var mean := MeanOf(a, n);
    var m := MomentsOf(a, a, n);
    MomentsSelf(a, mean, n);
    if m.var1 == 0.0 {
      NoSpreadMeansAtMean(a, a, mean, mean, n);
      assert false;
    }
    var root := sqrt(m.var1);
    assert root * root == m.var1;
    QuotientUnfold(m, sqrt, root * root);
    DivSelf(m.var1);
    assert Quotient(m, sqrt) == 1.0;
    assert Correlation(a, a, sqrt) == Quotient(m, sqrt);
  }

  /** Mirroring a series about `c / 2` mirrors its sum. */
  lemma {:induction false} SumMirror(a: seq<real>, b: seq<real>, c: real, k: nat)
    requires k <= |a| && k <= |b|
    requires forall i :: 0 <= i < k ==> b[i] == c - a[i]
    ensures Sum(b[..k]) == k as real * c - Sum(a[..k])
  {
    if k > 0 {
      SumMirror(a, b, c, k - 1);
      assert b[..k][..k - 1] == b[..k - 1];
      assert a[..k][..k - 1] == a[..k - 1];
    }
  }

  /** Against its mirror image about the mean, every co-deviation is the
      negated squared deviation. */
  lemma {:induction false} MomentsMirror(a: seq<real>, b: seq<real>, mean: real, i: nat)
    requires i <= |a| && i <= |b|
    requires forall k :: 0 <= k < i ==> b[k] - mean == -(a[k] - mean)
    ensures var m := MomentsUpTo(a, b, mean, mean, i);
            m.cov == -m.var1 && m.var2 == m.var1
    decreases i
  {
    if i > 0 {
      MomentsMirror(a, b, mean, i - 1);
      var d := a[i - 1] - mean;
      assert b[i - 1] - mean == -d;
      AccumulateMirror(MomentsUpTo(a, b, mean, mean, i - 1), d);
    }
  }

  /** One mirrored pair of deviations keeps the covariance at minus the
      variance and the two variances equal. */
  lemma AccumulateMirror(m: Moments, d: real)
    requires m.cov == -m.var1 && m.var2 == m.var1
    ensures var r := Accumulate(m, d, -d);
      r.cov == -r.var1 && r.var2 == r.var1
  {
    assert d * -d == -Square(d) && Square(-d) == Square(d);
  }

  /** A varying series correlates at exactly -1 with its mirror image about
      its mean. */
  lemma AntiCorrelationIsMinusOne(a: seq<real>, b: seq<real>, sqrt: real -> real)
    requires IsExactRoot(sqrt)
    requires |a| >= 2 && |b| == |a|
    requires exists j, k :: 0 <= j < k < |a| && a[j] != a[k]
    requires forall i :: 0 <= i < |b| ==> b[i] == 2.0 * MeanOf(a, |a|) - a[i]
    ensures Correlation(a, b, sqrt) == -1.0
  {
    var n := |a|;
    var j, k :| 0 <= j < k < n && a[j] != a[k];
    var mean := MeanOf(a, n);
    MirrorMean(a, b);
    var m := MomentsUpTo(a, b, mean, mean, n);
    MomentsMirror(a, b, mean, n);
    if m.var1 == 0.0 {
      NoSpreadMeansAtMean(a, b, mean, mean, n);
      assert false;
    }
    MirrorQuotient(m, sqrt);
    assert Correlation(a, b, sqrt) == Quotient(MomentsOf(a, b, n), sqrt);
  }

  /** The mirror image of a series about its mean has the same mean. */
  lemma MirrorMean(a: seq<real>, b: seq<real>)
    requires |a| >= 1 && |b| == |a|
    requires forall i :: 0 <= i < |b| ==> b[i] == 2.0 * MeanOf(a, |a|) - a[i]
    ensures MeanOf(b, |b|) == MeanOf(a, |a|)
  {
    var n := |a|;
    var mean := MeanOf(a, n);
    assert Sum(a[..n]) == mean * n as real;
    SumMirror(a, b, 2.0 * mean, n);
  }

  /** Sums of a series against its mirror give the quotient -1. */
  lemma MirrorQuotient(m: Moments, sqrt: real -> real)
    requires IsExactRoot(sqrt)
    requires m.var1 > 0.0 && m.cov == -m.var1 && m.var2 == m.var1
    ensures Quotient(m, sqrt) == -1.0
  {
    var root := sqrt(m.var1);
    assert root * root == m.var1;
    QuotientUnfold(m, sqrt, root * root);
    DivSelf(m.var1);
    assert (-m.var1) / m.var1 == -(m.var1 / m.var1);
  }

  /** A series that is constant over the common length has correlation 0 with
      any other (its spread is zero, so the guard applies). */
  lemma ConstantSeriesHasZeroCorrelation(a: seq<real>, b: seq<real>, c: real, sqrt: real -> real)
    requires sqrt(0.0) == 0.0
    requires forall k :: 0 <= k < |a| ==> a[k] == c
    ensures Correlation(a, b, sqrt) == 0.0
  {
    var n := MinInt(|a|, |b|);
    if n >= 2 {
      SumOfConstant(a[..n], c);
      assert MeanOf(a, n) == c;
      AtMeanMeansNoSpread(a, b, c, MeanOf(b, n), n);
    }
  }

  // ---------------------------------------------------------------------------
  // The correlation lies in [-1, 1] (Cauchy-Schwarz)
  // ---------------------------------------------------------------------------

  /** `2Cxy <= Ay^2 + Bx^2` whenever `C^2 <= AB` (and `C` vanishes with `A`). */
  lemma CrossTermBound(A: real, B: real, C: real, x: real, y: real)
    requires 0.0 <= A && 0.0 <= B && C * C <= A * B && (A == 0.0 ==> C == 0.0)
    ensures 2.0 * C * x * y <= A * y * y + B * x * x
  {
    var t := A * y * y + B * x * x - 2.0 * C * x * y;
    if A == 0.0 {
      MulNonNegative(B, x * x);
      assert B * (x * x) == B * x * x;
    } else {
      var u := A * y - C * x;
      assert A * t == u * u + (A * B - C * C) * (x * x);
      MulNonNegative(A * B - C * C, x * x);
      if t < 0.0 {
        MulPositive(A, -t);
        assert false;
      }
    }
  }

  /** Adding one pair of deviations keeps `cov^2 <= var1 * var2`. */
  lemma StepBound(A: real, B: real, C: real, x: real, y: real)
    requires 0.0 <= A && 0.0 <= B && C * C <= A * B && (A == 0.0 ==> C == 0.0)
    ensures (C + x * y) * (C + x * y) <= (A + x * x) * (B + y * y)
  {
    CrossTermBound(A, B, C, x, y);
    assert (C + x * y) * (C + x * y) == C * C + 2.0 * C * x * y + (x * y) * (x * y);
    assert (A + x * x) * (B + y * y) == A * B + A * y * y + B * x * x + (x * y) * (x * y);
  }

  /** While `var1` is zero, so is `cov`. */
  lemma {:induction false} NoSpreadNoCovariance(a: seq<real>, b: seq<real>, mean1: real, mean2: real, i: nat)
    requires i <= |a| && i <= |b|
    ensures var m := MomentsUpTo(a, b, mean1, mean2, i);
            m.var1 == 0.0 ==> m.cov == 0.0
    decreases i
  {
    if i > 0 {
      var prev := MomentsUpTo(a, b, mean1, mean2, i - 1);
      var x, y := a[i - 1] - mean1, b[i - 1] - mean2;
      var m := Accumulate(prev, x, y);
      assert MomentsUpTo(a, b, mean1, mean2, i) == m;
      if m.var1 == 0.0 {
        NoSpreadNoCovariance(a, b, mean1, mean2, i - 1);
        SquareZero(x);
        assert prev.var1 == 0.0 && x == 0.0;
        assert m.cov == prev.cov + 0.0 * y;
      }
    }
  }

  /** `cov^2 <= var1 * var2` */
  predicate CauchySchwarz(m: Moments)
  {
    m.cov * m.cov <= m.var1 * m.var2
  }

  /** The running sums satisfy the Cauchy-Schwarz inequality `cov^2 <= var1 * var2`. */
  lemma {:induction false} MomentsCauchySchwarz(a: seq<real>, b: seq<real>, mean1: real, mean2: real, i: nat)
    requires i <= |a| && i <= |b|
    ensures CauchySchwarz(MomentsUpTo(a, b, mean1, mean2, i))
    decreases i
  {
    if i > 0 {
      MomentsCauchySchwarz(a, b, mean1, mean2, i - 1);
      NoSpreadNoCovariance(a, b, mean1, mean2, i - 1);
      var prev := MomentsUpTo(a, b, mean1, mean2, i - 1);
      var x, y := a[i - 1] - mean1, b[i - 1] - mean2;
      AccumulateKeepsBound(prev, x, y);
      assert MomentsUpTo(a, b, mean1, mean2, i) == Accumulate(prev, x, y);
    }
  }

  /** One step of the loop keeps `cov^2 <= var1 * var2`. */
  lemma AccumulateKeepsBound(m: Moments, x: real, y: real)
    requires 0.0 <= m.var1 && 0.0 <= m.var2
    requires CauchySchwarz(m) && (m.var1 == 0.0 ==> m.cov == 0.0)
    ensures CauchySchwarz(Accumulate(m, x, y))
  {
    StepBound(m.var1, m.var2, m.cov, x, y);
    assert Square(x) == x * x && Square(y) == y * y;
  }

  /** A quotient `C / d` with `C^2 <= d^2` lies in [-1, 1]. */
  lemma QuotientBound(C: real, d: real)
    requires 0.0 < d && C * C <= d * d
    ensures -1.0 <= C / d <= 1.0
  {
    var q := C / d;
    assert q * d == C;
    assert (C - d) * (C + d) == C * C - d * d;
    if q > 1.0 {
      MulPositive(q - 1.0, d);
      MulPositive(C - d, C + d);
      assert false;
    }
    if q < -1.0 {
      MulPositive(-1.0 - q, d);
      MulPositive(d - C, -d - C);
      assert false;
    }
  }

  /** With a true square root the correlation is a value in [-1, 1]. */
  lemma CorrelationBounded(a: seq<real>, b: seq<real>, sqrt: real -> real)
    requires IsExactRoot(sqrt)
    ensures -1.0 <= Correlation(a, b, sqrt) <= 1.0
  {
    var n := MinInt(|a|, |b|);
    if n >= 2 {
      MomentsCauchySchwarz(a, b, MeanOf(a, n), MeanOf(b, n), n);
      QuotientWithinOne(MomentsOf(a, b, n), sqrt);
    }
  }

  /** Sums obeying Cauchy-Schwarz give a guarded quotient in [-1, 1]. */
  lemma QuotientWithinOne(m: Moments, sqrt: real -> real)
    requires IsExactRoot(sqrt) && 0.0 <= m.var1 && 0.0 <= m.var2 && CauchySchwarz(m)
    ensures -1.0 <= Quotient(m, sqrt) <= 1.0
  {
    var s1, s2 := sqrt(m.var1), sqrt(m.var2);
    var d := s1 * s2;
    QuotientUnfold(m, sqrt, d);
    if d != 0.0 {
      assert 0.0 <= s1 && s1 * s1 == m.var1;
      assert 0.0 <= s2 && s2 * s2 == m.var2;
      MulNonNegative(s1, s2);
      ProductSquare(s1, s2);
      MulCongruence(s1 * s1, s2 * s2, m.var1, m.var2);
      assert d * d == m.var1 * m.var2;
      QuotientBound(m.cov, d);
    }
  }

  lemma MulCongruence(x1: real, x2: real, y1: real, y2: real)
    requires x1 == y1 && x2 == y2
    ensures x1 * x2 == y1 * y2
  {
  }

  lemma ProductSquare(x: real, y: real)
    ensures (x * y) * (x * y) == (x * x) * (y * y)
  {
  }
}
