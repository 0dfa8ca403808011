/** Ichimoku cloud lines (`calculateIchimoku`). Line values are aligned as
    follows: `tenkan[j]` and `kijun[j]` belong to bar `j + 26`, `senkouA[j]`
    and `senkouB[j]` to bar `j + 51`. */
module Ichimoku {
  import opened Common

  datatype Cloud = Cloud(tenkan: seq<real>, kijun: seq<real>, senkouA: seq<real>, senkouB: seq<real>)

  /** Midpoint of the highest high and the lowest low over bars `from..to-1`. */
  function Midpoint(highs: seq<real>, lows: seq<real>, from: nat, to: nat): real
    requires |highs| == |lows| && from < to <= |highs|
  {
    (MaxOf(highs[from..to]) + MinOf(lows[from..to])) / 2.0
  }

  /** Tenkan-sen at bar `i`: the 9-bar midpoint ending at `i`. */
  function TenkanAt(highs: seq<real>, lows: seq<real>, i: nat): real
    requires |highs| == |lows| && i < |highs|
  {
    Midpoint(highs, lows, MaxInt(0, i - 8), i + 1)
  }

  /** Kijun-sen at bar `i`: the 26-bar midpoint ending at `i`. */
  function KijunAt(highs: seq<real>, lows: seq<real>, i: nat): real
    requires |highs| == |lows| && i < |highs|
  {
    Midpoint(highs, lows, MaxInt(0, i - 25), i + 1)
  }

  /** Senkou span B at bar `i >= 51`: the midpoint of bars `i - 51 .. i - 26`. */
  function SenkouBAt(highs: seq<real>, lows: seq<real>, i: nat): real
    requires |highs| == |lows| && 51 <= i < |highs|
  {
    Midpoint(highs, lows, MaxInt(0, i - 51), MaxInt(1, i - 25))
  }

  /** Senkou span A at bar `i >= 51`: the mean of Tenkan and Kijun at bar `i - 25`. */
  function SenkouAAt(highs: seq<real>, lows: seq<real>, i: nat): real
    requires |highs| == |lows| && 51 <= i < |highs|
  {
    (TenkanAt(highs, lows, i - 25) + KijunAt(highs, lows, i - 25)) / 2.0
  }

  /** The first `k` Tenkan values, from bar 26 on. */
  function TenkanLine(highs: seq<real>, lows: seq<real>, k: nat): seq<real>
    requires |highs| == |lows| && k + 26 <= |highs|
  {
    seq(k, j requires 0 <= j < k => TenkanAt(highs, lows, j + 26))
  }

  /** The first `k` Kijun values, from bar 26 on. */
  function KijunLine(highs: seq<real>, lows: seq<real>, k: nat): seq<real>
    requires |highs| == |lows| && k + 26 <= |highs|
  {
    seq(k, j requires 0 <= j < k => KijunAt(highs, lows, j + 26))
  }

  /** The first `k` Senkou A values, from bar 51 on. */
  function SenkouALine(highs: seq<real>, lows: seq<real>, k: nat): seq<real>
    requires |highs| == |lows| && k + 51 <= |highs|
  {
    seq(k, j requires 0 <= j < k => SenkouAAt(highs, lows, j + 51))
  }

  /** The first `k` Senkou B values, from bar 51 on. */
  function SenkouBLine(highs: seq<real>, lows: seq<real>, k: nat): seq<real>
    requires |highs| == |lows| && k + 51 <= |highs|
  {
    seq(k, j requires 0 <= j < k => SenkouBAt(highs, lows, j + 51))
  }

  /** All four lines; empty when fewer than 52 closes are given. */
  function IchimokuCloud(highs: seq<real>, lows: seq<real>, closes: seq<real>): Cloud
    requires |highs| == |lows| == |closes|
  {
    var n := |closes|;
    if n < 52 then Cloud([], [], [], [])
    else Cloud(TenkanLine(highs, lows, n - 26), KijunLine(highs, lows, n - 26),
               SenkouALine(highs, lows, n - 51), SenkouBLine(highs, lows, n - 51))
  }

  /** One bar more extends Tenkan and Kijun by that bar's values. */
  lemma LinesStep(highs: seq<real>, lows: seq<real>, i: nat)
    requires |highs| == |lows| && 26 <= i < |highs|
    ensures TenkanLine(highs, lows, i - 25) == TenkanLine(highs, lows, i - 26) + [TenkanAt(highs, lows, i)]
    ensures KijunLine(highs, lows, i - 25) == KijunLine(highs, lows, i - 26) + [KijunAt(highs, lows, i)]
  {
  }

  /** One bar more extends the two spans by that bar's values. */
  lemma SpansStep(highs: seq<real>, lows: seq<real>, i: nat)
    requires |highs| == |lows| && 51 <= i < |highs|
    ensures SenkouALine(highs, lows, i - 50) == SenkouALine(highs, lows, i - 51) + [SenkouAAt(highs, lows, i)]
    ensures SenkouBLine(highs, lows, i - 50) == SenkouBLine(highs, lows, i - 51) + [SenkouBAt(highs, lows, i)]
  {
  }

  /** `calculateIchimoku`: one loop from bar 26 pushing Tenkan and Kijun, and
      from bar 51 on also Senkou A (from the Tenkan and Kijun pushed 25 bars
      earlier) and Senkou B. */
  method CalculateIchimoku(highs: seq<real>, lows: seq<real>, closes: seq<real>) returns (cloud: Cloud)
    requires |highs| == |lows| == |closes|
    ensures cloud == IchimokuCloud(highs, lows, closes)
  {
    if |closes| < 52 {
      return Cloud([], [], [], []);
    }
    var tenkan: seq<real> := [];
    var kijun: seq<real> := [];
    var senkouA: seq<real> := [];
    var senkouB: seq<real> := [];
    var i := 26;
    while i < |closes|
      invariant 26 <= i <= |closes|
      invariant tenkan == TenkanLine(highs, lows, i - 26)
      invariant kijun == KijunLine(highs, lows, i - 26)
      invariant senkouA == SenkouALine(highs, lows, if i <= 51 then 0 else i - 51)
      invariant senkouB == SenkouBLine(highs, lows, if i <= 51 then 0 else i - 51)
    {
      LinesStep(highs, lows, i);
      tenkan := tenkan + [TenkanAt(highs, lows, i)];
      kijun := kijun + [KijunAt(highs, lows, i)];
      if i >= 51 {
        SpansStep(highs, lows, i);
        var tenkanIndex := MaxInt(0, |tenkan| - 26);
        var kijunIndex := MaxInt(0, |kijun| - 26);
        assert tenkanIndex == kijunIndex == i - 51;
        assert tenkan[i - 51] == TenkanAt(highs, lows, i - 25);
        assert kijun[i - 51] == KijunAt(highs, lows, i - 25);
        senkouA := senkouA + [(tenkan[tenkanIndex] + kijun[kijunIndex]) / 2.0];
        senkouB := senkouB + [SenkouBAt(highs, lows, i)];
      }
      i := i + 1;
    }
    cloud := Cloud(tenkan, kijun, senkouA, senkouB);
  }

  /** The shape of the cloud: Tenkan and Kijun start at bar 26, the spans at
      bar 51, and span A at bar `j + 51` averages the Tenkan and Kijun values
      plotted 25 bars earlier (the same index `j` in their own lines). */
  lemma CloudShape(highs: seq<real>, lows: seq<real>, closes: seq<real>)
    requires |highs| == |lows| == |closes|
    ensures var c := IchimokuCloud(highs, lows, closes);
      && (|closes| < 52 ==> c == Cloud([], [], [], []))
      && (|closes| >= 52 ==> |c.tenkan| == |c.kijun| == |closes| - 26)
      && (|closes| >= 52 ==> |c.senkouA| == |c.senkouB| == |closes| - 51)
      && (forall j :: 0 <= j < |c.senkouA| ==>
            j < |c.tenkan| && j < |c.kijun| && c.senkouA[j] == (c.tenkan[j] + c.kijun[j]) / 2.0)
  {
  }

  /** A midpoint lies within any range that holds every high and low of its window. */
  lemma MidpointWithinRange(highs: seq<real>, lows: seq<real>, from: nat, to: nat, lo: real, hi: real)
    requires |highs| == |lows| && from < to <= |highs|
    requires forall k :: from <= k < to ==> lo <= lows[k] && highs[k] <= hi
    requires forall k :: from <= k < to ==> lows[k] <= highs[k]
    ensures lo <= Midpoint(highs, lows, from, to) <= hi
  {
    MaxOfIsMaximum(highs[from..to]);
    MinOfIsMinimum(lows[from..to]);
    var h := MaxOf(highs[from..to]);
    var l := MinOf(lows[from..to]);
    assert highs[from] <= h && l <= lows[from];
    assert exists k :: from <= k < to && h == highs[k];
    assert exists k :: from <= k < to && l == lows[k];
  }

  /** Every value of the four lines lies between the lowest low and the
      highest high of the bars, when every bar has its low below its high. */
  lemma CloudWithinRange(highs: seq<real>, lows: seq<real>, closes: seq<real>, lo: real, hi: real)
    requires |highs| == |lows| == |closes|
    requires forall k :: 0 <= k < |highs| ==> lo <= lows[k] <= highs[k] <= hi
    ensures var c := IchimokuCloud(highs, lows, closes);
      && (forall j :: 0 <= j < |c.tenkan| ==> lo <= c.tenkan[j] <= hi)
      && (forall j :: 0 <= j < |c.kijun| ==> lo <= c.kijun[j] <= hi)
      && (forall j :: 0 <= j < |c.senkouA| ==> lo <= c.senkouA[j] <= hi)
      && (forall j :: 0 <= j < |c.senkouB| ==> lo <= c.senkouB[j] <= hi)
  {
    var c := IchimokuCloud(highs, lows, closes);
    forall i | 26 <= i < |highs|
      ensures lo <= TenkanAt(highs, lows, i) <= hi && lo <= KijunAt(highs, lows, i) <= hi
    {
      MidpointWithinRange(highs, lows, MaxInt(0, i - 8), i + 1, lo, hi);
      MidpointWithinRange(highs, lows, MaxInt(0, i - 25), i + 1, lo, hi);
    }
    forall i | 51 <= i < |highs|
      ensures lo <= SenkouBAt(highs, lows, i) <= hi
    {
      MidpointWithinRange(highs, lows, MaxInt(0, i - 51), MaxInt(1, i - 25), lo, hi);
    }
    if |closes| >= 52 {
      forall j | 0 <= j < |c.senkouA|
        ensures lo <= c.senkouA[j] <= hi
      {
        assert c.senkouA[j] == SenkouAAt(highs, lows, j + 51);
      }
      assert forall j :: 0 <= j < |c.tenkan| ==> c.tenkan[j] == TenkanAt(highs, lows, j + 26);
      assert forall j :: 0 <= j < |c.kijun| ==> c.kijun[j] == KijunAt(highs, lows, j + 26);
      assert forall j :: 0 <= j < |c.senkouB| ==> c.senkouB[j] == SenkouBAt(highs, lows, j + 51);
    }
  }
}
