/** Trend detection over the closing prices (`detectTrend`). */
module Trend {
  import opened Common

  datatype Trend = Undetermined | Rising | Falling | Sideways

  /** `Math.min(10, Math.floor(n * 0.2))`: the floating-point product rounds to
      the exact integer at every multiple of 5, so the floor is `n / 5`. */
  function RecentLength(n: nat): nat
  {
    MinInt(10, n / 5)
  }

  /** `Math.min(20, Math.floor(n * 0.4))`, i.e. `min(20, 2n / 5)`. */
  function OlderLength(n: nat): nat
  {
    MinInt(20, 2 * n / 5)
  }

  function Mean(s: seq<real>): real
    requires |s| > 0
  {
    Sum(s) / |s| as real
  }

  /** The comparison of the two window means. The relative difference
      `|recent - older| / older` is below 0.005 for a sideways market; when
      `older` is 0 that quotient is infinite or NaN and never below the
      threshold, so only the direction test remains; when `older` is negative
      the quotient is negative and the market always reads as sideways. The
      result is always a trend, rising only on a higher recent mean and falling
      only on one no higher. */
  function Classify(recentAvg: real, olderAvg: real): (t: Trend)
    ensures t != Undetermined
    ensures t == Rising ==> recentAvg > olderAvg
    ensures t == Falling ==> recentAvg <= olderAvg
    ensures olderAvg < 0.0 ==> t == Sideways
    ensures olderAvg == 0.0 ==> t != Sideways
  {
    assert olderAvg != 0.0 ==> Abs(recentAvg - olderAvg) / olderAvg * olderAvg == Abs(recentAvg - olderAvg);
    if olderAvg != 0.0 && Abs(recentAvg - olderAvg) / olderAvg < 0.005 then Sideways
    else if recentAvg > olderAvg then Rising
    else Falling
  }

  /** `detectTrend`: the mean of the last `RecentLength` closes against the mean
      of the `OlderLength - RecentLength` closes before them. The trend is
      undetermined exactly when fewer than 20 closes are given: the
      empty-window guard of the source never fires. */
  function DetectTrend(closes: seq<real>): (t: Trend)
    ensures t == Undetermined <==> |closes| < 20
  {
    var n := |closes|;
    if n < 20 then Undetermined
    else
      var recentLength := RecentLength(n);
      var olderLength := OlderLength(n);
      var recent := closes[n - recentLength..];
      var older := closes[n - olderLength..n - recentLength];
      WindowSizes(n);
      if |recent| == 0 || |older| == 0 then Undetermined
      else Classify(Mean(recent), Mean(older))
  }

  // ---------------------------------------------------------------------------
  // Properties
  // ---------------------------------------------------------------------------

  /** From 20 closes on, the recent window holds 4 to 10 bars and the older
      window 4 to 10 bars before it. */
  lemma WindowSizes(n: nat)
    requires n >= 20
    ensures 4 <= RecentLength(n) <= 10
    ensures RecentLength(n) + 4 <= OlderLength(n) <= 20
    ensures OlderLength(n) - RecentLength(n) <= 10
    ensures OlderLength(n) <= n
  {
  }

  /** With a positive older mean the three outcomes partition the relative
      change: sideways below 0.5 %, otherwise rising or falling by its sign. */
  lemma ClassifyPositive(recentAvg: real, olderAvg: real)
    requires olderAvg > 0.0
    ensures Classify(recentAvg, olderAvg) == Sideways <==> Abs(recentAvg - olderAvg) < 0.005 * olderAvg
    ensures Classify(recentAvg, olderAvg) == Rising <==> recentAvg - olderAvg >= 0.005 * olderAvg
    ensures Classify(recentAvg, olderAvg) == Falling <==> olderAvg - recentAvg >= 0.005 * olderAvg
  {
    DivBelowIff(Abs(recentAvg - olderAvg), olderAvg, 0.005);
  }

  lemma MeanOfConstant(s: seq<real>, c: real)
    requires |s| > 0
    requires forall i :: 0 <= i < |s| ==> s[i] == c
    ensures Mean(s) == c
  {
    SumOfConstant(s, c);
  }

  /** A constant series of at least 20 closes is sideways, except an all-zero
      one: there the relative change is NaN and the series counts as falling. */
  lemma ConstantSeriesTrend(closes: seq<real>, c: real)
    requires |closes| >= 20
    requires forall i :: 0 <= i < |closes| ==> closes[i] == c
    ensures DetectTrend(closes) == if c == 0.0 then Falling else Sideways
  {
    var n := |closes|;
    WindowSizes(n);
    var recent := closes[n - RecentLength(n)..];
    var older := closes[n - OlderLength(n)..n - RecentLength(n)];
    MeanOfConstant(recent, c);
    MeanOfConstant(older, c);
    if c != 0.0 {
      assert Abs(c - c) / c == 0.0;
    }
  }
}
