/** The backtest simulator (`performProfessionalBacktest`): an EMA-crossover
    rule filtered by the RSI is replayed over a window of past bars, each trade
    risking 2 % of a compounding balance and being closed five bars after the
    decision bar. */
module Backtest {
  import opened Common
  import opened MovingAverages
  import opened Rsi
  import opened Signals

  const InitialBalance: real := 10000.0

  /** The backtest does nothing below this many bars. */
  const MinBars: nat := 60

  /** `Math.max(30, Math.floor(n * 0.3))`; the floating-point product rounds to
      the exact integer at every multiple of 10, so the floor is `3n / 10`. */
  function StartIndex(n: nat): nat
  {
    MaxInt(30, 3 * n / 10)
  }

  /** `Math.max(n - 5, startIndex + 10)` */
  function EndIndex(n: nat): int
  {
    MaxInt(n - 5, StartIndex(n) + 10)
  }

  /** The trade the rule takes on the closes seen so far: long on an upward
      12/26 EMA cross unless the RSI is 70 or more, short on a downward cross
      unless the RSI is 30 or less. */
  function Decision(history: seq<real>): Option<Direction>
  {
    var emaShort := Ema(history, 12);
    var emaLong := Ema(history, 26);
    var rsi := Rsi.Rsi(history, 14);
    if |emaShort| > 1 && |emaLong| > 1 && |rsi| > 0 then
      if CrossedAbove(emaShort, emaLong) && Last(rsi) < 70.0 then Some(Buy)
      else if CrossedBelow(emaShort, emaLong) && Last(rsi) > 30.0 then Some(Sell)
      else None
    else None
  }

  /** The relative gain of a trade from `currentPrice` to `futurePrice`. */
  function ReturnPct(direction: Direction, currentPrice: real, futurePrice: real): real
    requires currentPrice > 0.0
  {
    if direction == Buy then (futurePrice - currentPrice) / currentPrice
    else (currentPrice - futurePrice) / currentPrice
  }

  datatype Trade = Trade(direction: Direction, entry: real, exit: real, ret: real, balance: real)

  /** The state the simulation loop mutates. */
  datatype Ledger = Ledger(balance: real, peak: real, maxDrawdown: real, trades: seq<Trade>, retPcts: seq<real>)

  const Opening: Ledger := Ledger(InitialBalance, InitialBalance, 0.0, [], [])

  /** The balance after the recorded trades: the last trade's, or the initial
      balance before any trade. */
  function FinalBalance(trades: seq<Trade>): real
  {
    if |trades| == 0 then InitialBalance else trades[|trades| - 1].balance
  }

  /** The highest balance reached over the recorded trades, starting from the
      initial balance. */
  function PeakOf(trades: seq<Trade>): (p: real)
    ensures p >= InitialBalance
    decreases |trades|
  {
    if |trades| == 0 then InitialBalance
    else
      var previous := PeakOf(trades[..|trades| - 1]);
      var balance := trades[|trades| - 1].balance;
      if balance > previous then balance else previous
  }

  /** The drawdown measured right after trade `j`: how far its balance lies
      below the peak reached so far, relative to that peak. */
  function DrawdownAt(trades: seq<Trade>, j: nat): real
    requires j < |trades|
  {
    var peak := PeakOf(trades[..j + 1]);
    (peak - trades[j].balance) / peak
  }

  /** The largest drawdown measured after any recorded trade, or 0 before any. */
  function MaxDrawdownOf(trades: seq<Trade>): real
    decreases |trades|
  {
    if |trades| == 0 then 0.0
    else
      var previous := MaxDrawdownOf(trades[..|trades| - 1]);
      var drawdown := DrawdownAt(trades, |trades| - 1);
      if drawdown > previous then drawdown else previous
  }

  /** The balance, the peak and the maximum drawdown are exactly those the
      recorded trades determine. */
  predicate TracksTrades(l: Ledger)
  {
    && l.balance == FinalBalance(l.trades)
    && l.peak == PeakOf(l.trades)
    && l.maxDrawdown == MaxDrawdownOf(l.trades)
  }

  /** What holds between trades: the peak never falls below the initial balance
      nor below the balance or any balance recorded by a trade, the maximum
      drawdown is non-negative and at least the current drawdown, and each
      trade's return is the matching entry of `retPcts` (the source's `returns`). */
  ghost predicate LedgerInvariant(l: Ledger)
  {
    && l.peak >= InitialBalance
    && l.peak >= l.balance
    && l.maxDrawdown >= 0.0
    && l.maxDrawdown >= (l.peak - l.balance) / l.peak
    && (forall j :: 0 <= j < |l.trades| ==> l.trades[j].balance <= l.peak)
    && |l.trades| == |l.retPcts|
    && (forall j :: 0 <= j < |l.trades| ==> l.trades[j].ret == l.retPcts[j])
  }

  /** One trade: the balance moves by 2 % of itself times the return, then
      the peak and the maximum drawdown are updated. */
  function Record(l: Ledger, direction: Direction, currentPrice: real, futurePrice: real): Ledger
    requires currentPrice > 0.0 && l.peak > 0.0
  {
    var positionSize := l.balance * 0.02;
    var returnPct := ReturnPct(direction, currentPrice, futurePrice);
    var balance := l.balance + positionSize * returnPct;
    var peak := if balance > l.peak then balance else l.peak;
    var drawdown := (peak - balance) / peak;
    Ledger(balance, peak, if drawdown > l.maxDrawdown then drawdown else l.maxDrawdown,
           l.trades + [Trade(direction, currentPrice, futurePrice, returnPct, balance)],
           l.retPcts + [returnPct])
  }

  /** Iteration `i` of the loop: decide on the closes before bar `i`, enter at
      the close of bar `i - 1` and exit at the close of bar `i + 5`. */
  function Step(l: Ledger, data: seq<Bar>, i: nat): Ledger
    requires 1 <= i && i + 5 < |data| && AllValid(data) && l.peak > 0.0
  {
    var closes := Closes(data[..i]);
    match Decision(closes)
    case None => l
    case Some(direction) => Record(l, direction, closes[|closes| - 1], data[i + 5].close)
  }

  /** The ledger after iterations `start .. i - 1`: the invariant holds after
      every iteration, and each iteration adds at most one trade. */
  function Replay(data: seq<Bar>, start: nat, i: nat): (l: Ledger)
    requires 1 <= start <= i && i + 4 < |data| && AllValid(data)
    ensures LedgerInvariant(l)
    ensures |l.trades| <= i - start
    decreases i - start
  {
    if i == start then Opening
    else
      var prev := Replay(data, start, i - 1);
      StepKeepsInvariant(prev, data, i - 1);
      Step(prev, data, i - 1)
  }

  /** The performance figures shown after a run. */
  datatype Performance = Performance(winRate: real, totalSignals: nat, profitFactor: real,
                                     maxDrawdown: real, sharpeRatio: real, avgReturn: real)

  /** `trades.filter(t => t.return > 0)` */
  function Winning(trades: seq<Trade>): seq<Trade>
    decreases |trades|
  {
    if |trades| == 0 then []
    else Winning(trades[..|trades| - 1]) + (if trades[|trades| - 1].ret > 0.0 then [trades[|trades| - 1]] else [])
  }

  /** `trades.filter(t => t.return < 0)` */
  function Losing(trades: seq<Trade>): seq<Trade>
    decreases |trades|
  {
    if |trades| == 0 then []
    else Losing(trades[..|trades| - 1]) + (if trades[|trades| - 1].ret < 0.0 then [trades[|trades| - 1]] else [])
  }

  /** The sum of the trades' returns. */
  function ReturnSum(trades: seq<Trade>): real
    decreases |trades|
  {
    if |trades| == 0 then 0.0 else ReturnSum(trades[..|trades| - 1]) + trades[|trades| - 1].ret
  }

  /** `winning.length / trades.length * 100`, or 0 without trades. */
  function WinRate(trades: seq<Trade>): (r: real)
    ensures 0.0 <= r <= 100.0
    ensures r > 0.0 <==> exists t :: t in trades && t.ret > 0.0
  {
    var winning := Winning(trades);
    WinningExactly(trades);
    assert |winning| > 0 ==> winning[0] in winning;
    if |trades| > 0 then
      WinRateBounds(|winning|, |trades|);
      (|winning| as real / |trades| as real) * 100.0
    else 0.0
  }

  /** The mean gain of the winning trades over the mean size of the losing
      ones; 2 when there are gains but no losses, 0 when there are no gains. */
  function ProfitFactor(trades: seq<Trade>): (r: real)
    ensures r >= 0.0
    ensures (forall t :: t in trades ==> t.ret <= 0.0) ==> r == 0.0
    ensures (exists t :: t in trades && t.ret > 0.0) && (forall t :: t in trades ==> t.ret >= 0.0) ==> r == 2.0
  {
    var winning := Winning(trades);
    var losing := Losing(trades);
    WinsAndLosses(trades);
    var avgWin := MeanGain(winning);
    var avgLoss := MeanLoss(losing);
    if avgLoss > 0.0 then DivNonNegative(avgWin, avgLoss); avgWin / avgLoss
    else if avgWin > 0.0 then 2.0 else 0.0
  }

  /** `avgWin`: the mean return of the winning trades, or 0 without any; it is
      positive exactly when there is a winning trade. */
  function MeanGain(winning: seq<Trade>): (r: real)
    requires forall t :: t in winning ==> t.ret > 0.0
    ensures r >= 0.0
    ensures r > 0.0 <==> |winning| > 0
  {
    if |winning| > 0 then
      ReturnSumOfGains(winning);
      DivPositive(ReturnSum(winning), |winning| as real);
      ReturnSum(winning) / |winning| as real
    else 0.0
  }

  /** `avgLoss`: the size of the mean return of the losing trades, or 0 without any. */
  function MeanLoss(losing: seq<Trade>): (r: real)
    ensures r >= 0.0
    ensures |losing| == 0 ==> r == 0.0
  {
    if |losing| > 0 then Abs(ReturnSum(losing) / |losing| as real) else 0.0
  }

  /** The mean return, or 0 without trades. */
  function AverageReturn(retPcts: seq<real>): (r: real)
    ensures |retPcts| == 0 ==> r == 0.0
    ensures |retPcts| > 0 && (forall i :: 0 <= i < |retPcts| ==> retPcts[i] > 0.0) ==> r > 0.0
    ensures (forall i :: 0 <= i < |retPcts| ==> retPcts[i] >= 0.0) ==> r >= 0.0
  {
    if |retPcts| > 0 then
      MeanSign(retPcts);
      Sum(retPcts) / |retPcts| as real
    else 0.0
  }

  /** The mean return over the sample standard deviation, annualised by
      `sqrt(252)`; 0 with fewer than two trades or no spread. Its sign is the
      sign of the mean return. */
  function SharpeRatio(retPcts: seq<real>, sqrt: real -> real): (r: real)
    ensures |retPcts| <= 1 ==> r == 0.0
    ensures IsRoot(sqrt) ==> (r > 0.0 ==> AverageReturn(retPcts) > 0.0) && (r < 0.0 ==> AverageReturn(retPcts) < 0.0)
  {
    var avgReturn := AverageReturn(retPcts);
    var stdDev := if |retPcts| > 1 then sqrt(Sum(SquaredDeviations(retPcts, avgReturn)) / (|retPcts| - 1) as real) else 0.0;
    if stdDev > 0.0 then
      SharpeSign(avgReturn, stdDev, sqrt(252.0));
      (avgReturn / stdDev) * sqrt(252.0)
    else 0.0
  }

  /** Win rate, profit factor, the Sharpe ratio (sample standard deviation,
      annualised by `sqrt(252)`) and the mean return, from the final ledger. */
  function Metrics(l: Ledger, sqrt: real -> real): (p: Performance)
    requires LedgerInvariant(l)
    ensures p.totalSignals == |l.trades|
    ensures 0.0 <= p.winRate <= 100.0 && p.profitFactor >= 0.0 && p.maxDrawdown >= 0.0
    ensures |l.trades| == 0 ==>
      p.winRate == 0.0 && p.profitFactor == 0.0 && p.sharpeRatio == 0.0 && p.avgReturn == 0.0
  {
    Performance(WinRate(l.trades), |l.trades|, ProfitFactor(l.trades), l.maxDrawdown * 100.0,
                SharpeRatio(l.retPcts, sqrt), AverageReturn(l.retPcts) * 100.0)
  }

  /** The whole backtest: nothing below 60 bars, otherwise the metrics of the
      replay over `StartIndex .. EndIndex - 1`. */
  function ProfessionalBacktest(data: seq<Bar>, sqrt: real -> real): (r: Option<Performance>)
    requires AllValid(data)
    ensures r.None? <==> |data| < MinBars
    ensures r.Some? ==>
      && r.value.totalSignals <= EndIndex(|data|) - StartIndex(|data|)
      && r.value.maxDrawdown >= 0.0
      && 0.0 <= r.value.winRate <= 100.0
  {
    var n := |data|;
    if n < MinBars then None
    else
      BacktestWindow(n);
      Some(Metrics(Replay(data, StartIndex(n), EndIndex(n)), sqrt))
  }

  // ---------------------------------------------------------------------------
  // The simulation loop
  // ---------------------------------------------------------------------------

  lemma ReplayStep(data: seq<Bar>, start: nat, i: nat)
    requires 1 <= start <= i && i + 5 < |data| && AllValid(data)
    ensures Replay(data, start, i + 1) == Step(Replay(data, start, i), data, i)
  {
  }

  /** The rule evaluated in the loop: both EMAs and the RSI are recomputed on
      the history and the crossing is read off their last two values. */
  method DecideTrade(closes: seq<real>) returns (trade: Option<Direction>)
    ensures trade == Decision(closes)
  {
    var emaShort := CalculateEma(closes, 12);
    var emaLong := CalculateEma(closes, 26);
    var rsi := CalculateRsi(closes, 14);
    trade := None;
    if |emaShort| > 1 && |emaLong| > 1 && |rsi| > 0 {
      var lastShort := emaShort[|emaShort| - 1];
      var lastLong := emaLong[|emaLong| - 1];
      var prevShort := emaShort[|emaShort| - 2];
      var prevLong := emaLong[|emaLong| - 2];
      var lastRsi := rsi[|rsi| - 1];
      if prevShort <= prevLong && lastShort > lastLong && lastRsi < 70.0 {
        trade := Some(Buy);
      } else if prevShort >= prevLong && lastShort < lastLong && lastRsi > 30.0 {
        trade := Some(Sell);
      }
    }
  }

  /** The body of the loop once the rule has fired: 2 % of the balance is put
      at risk, the balance moves by that times the return, the trade is
      logged, and the peak and the maximum drawdown follow the new balance. */
  method TakeTrade(balance: real, peak: real, maxDrawdown: real, trades: seq<Trade>, retPcts: seq<real>,
                   direction: Direction, currentPrice: real, futurePrice: real)
    returns (balance': real, peak': real, maxDrawdown': real, trades': seq<Trade>, retPcts': seq<real>)
    requires currentPrice > 0.0 && peak > 0.0
    ensures Ledger(balance', peak', maxDrawdown', trades', retPcts')
         == Record(Ledger(balance, peak, maxDrawdown, trades, retPcts), direction, currentPrice, futurePrice)
  {
    ghost var r := Record(Ledger(balance, peak, maxDrawdown, trades, retPcts), direction, currentPrice, futurePrice);
    var positionSize := balance * 0.02;
    var returnPct := if direction == Buy then (futurePrice - currentPrice) / currentPrice
                     else (currentPrice - futurePrice) / currentPrice;
    assert returnPct == ReturnPct(direction, currentPrice, futurePrice);
    var tradeReturn := positionSize * returnPct;
    balance' := balance + tradeReturn;
    assert balance' == r.balance;
    retPcts' := retPcts + [returnPct];
    trades' := trades + [Trade(direction, currentPrice, futurePrice, returnPct, balance')];
    peak' := peak;
    if balance' > peak' {
      peak' := balance';
    }
    assert peak' == r.peak;
    var drawdown := (peak' - balance') / peak';
    maxDrawdown' := maxDrawdown;
    if drawdown > maxDrawdown' {
      maxDrawdown' := drawdown;
    }
  }

  /** `performProfessionalBacktest` without the state update it ends with: the
      loop recomputes both EMAs and the RSI on the history before each bar and
      records a trade when the rule fires. */
  method PerformProfessionalBacktest(data: seq<Bar>, sqrt: real -> real) returns (performance: Option<Performance>)
    requires AllValid(data)
    ensures performance == ProfessionalBacktest(data, sqrt)
  {
    if |data| < 60 {
      return None;
    }
    var trades: seq<Trade> := [];
    var balance := InitialBalance;
    var peak := balance;
    var maxDrawdown := 0.0;
    var retPcts: seq<real> := [];
    var startIndex := MaxInt(30, 3 * |data| / 10);
    var endIndex := MaxInt(|data| - 5, startIndex + 10);
    BacktestWindow(|data|);
    var i := startIndex;
    while i < endIndex
      invariant startIndex <= i <= endIndex
      invariant Ledger(balance, peak, maxDrawdown, trades, retPcts) == Replay(data, startIndex, i)
    {
      ReplayStep(data, startIndex, i);
      balance, peak, maxDrawdown, trades, retPcts := BacktestIteration(data, i, balance, peak, maxDrawdown, trades, retPcts);
      i := i + 1;
    }
    assert startIndex == StartIndex(|data|) && endIndex == EndIndex(|data|);
    performance := Some(Metrics(Ledger(balance, peak, maxDrawdown, trades, retPcts), sqrt));
  }

  /** One pass of the loop body at bar `i`: enter at the previous close when
      the rule fires on the history before bar `i`, exit at the close of bar
      `i + 5`. */
  method BacktestIteration(data: seq<Bar>, i: nat, balance: real, peak: real, maxDrawdown: real,
                           trades: seq<Trade>, retPcts: seq<real>)
    returns (balance': real, peak': real, maxDrawdown': real, trades': seq<Trade>, retPcts': seq<real>)
    requires 1 <= i && i + 5 < |data| && AllValid(data) && peak > 0.0
    ensures Ledger(balance', peak', maxDrawdown', trades', retPcts')
         == Step(Ledger(balance, peak, maxDrawdown, trades, retPcts), data, i)
  {
    var closes := Closes(data[..i]);
    var currentPrice := closes[|closes| - 1];
    assert currentPrice == data[i - 1].close && ValidBar(data[i - 1]);
    var futurePrice := data[i + 5].close;
    var trade := DecideTrade(closes);
    balance', peak', maxDrawdown', trades', retPcts' := balance, peak, maxDrawdown, trades, retPcts;
    if trade.Some? {
      balance', peak', maxDrawdown', trades', retPcts' :=
        TakeTrade(balance, peak, maxDrawdown, trades, retPcts, trade.value, currentPrice, futurePrice);
    }
  }

  // ---------------------------------------------------------------------------
  // Properties
  // ---------------------------------------------------------------------------

  /** From 60 bars on the loop runs from bar 30 or later to `n - 5`, so the
      history before each bar is non-empty and the exit bar `i + 5` exists. */
  lemma BacktestWindow(n: nat)
    requires n >= MinBars
    ensures 30 <= StartIndex(n) && StartIndex(n) + 10 <= EndIndex(n) == n - 5
  {
  }

  /** Recording a trade keeps the ledger invariant, extends the trade list by
      exactly that trade and never lowers the peak or the maximum drawdown. */
  lemma RecordKeepsInvariant(l: Ledger, direction: Direction, currentPrice: real, futurePrice: real)
    requires currentPrice > 0.0 && LedgerInvariant(l)
    ensures var r := Record(l, direction, currentPrice, futurePrice);
      && LedgerInvariant(r)
      && r.peak >= l.peak && r.maxDrawdown >= l.maxDrawdown
      && r.trades == l.trades + [Trade(direction, currentPrice, futurePrice, ReturnPct(direction, currentPrice, futurePrice), r.balance)]
  {
    var r := Record(l, direction, currentPrice, futurePrice);
    assert forall j :: 0 <= j < |l.trades| ==> r.trades[j] == l.trades[j];
  }

  /** Recording a trade keeps balance, peak and maximum drawdown equal to
      what the trades determine. */
  lemma RecordTracksTrades(l: Ledger, direction: Direction, currentPrice: real, futurePrice: real)
    requires currentPrice > 0.0 && l.peak > 0.0 && TracksTrades(l)
    ensures TracksTrades(Record(l, direction, currentPrice, futurePrice))
  {
    var r := Record(l, direction, currentPrice, futurePrice);
    var t := r.trades[|l.trades|];
    assert r.trades == l.trades + [t];
    PeakOfSnoc(l.trades, t);
    MaxDrawdownOfSnoc(l.trades, t);
  }

  /** Appending a trade raises the peak to its balance when that is higher. */
  lemma PeakOfSnoc(trades: seq<Trade>, t: Trade)
    ensures PeakOf(trades + [t]) == if t.balance > PeakOf(trades) then t.balance else PeakOf(trades)
  {
    assert (trades + [t])[..|trades|] == trades;
  }

  /** Appending a trade raises the maximum drawdown to the drawdown measured
      right after it when that is higher. */
  lemma MaxDrawdownOfSnoc(trades: seq<Trade>, t: Trade)
    ensures var peak := PeakOf(trades + [t]);
      var drawdown := (peak - t.balance) / peak;
      MaxDrawdownOf(trades + [t]) == if drawdown > MaxDrawdownOf(trades) then drawdown else MaxDrawdownOf(trades)
  {
    assert (trades + [t])[..|trades|] == trades;
    assert (trades + [t])[..|trades| + 1] == trades + [t];
  }

  /** A loop iteration keeps balance, peak and maximum drawdown equal to what
      the trades determine. */
  lemma StepTracksTrades(l: Ledger, data: seq<Bar>, i: nat)
    requires 1 <= i && i + 5 < |data| && AllValid(data) && l.peak > 0.0 && TracksTrades(l)
    ensures TracksTrades(Step(l, data, i))
  {
    var closes := Closes(data[..i]);
    match Decision(closes)
    case None =>
    case Some(direction) =>
      RecordTracksTrades(l, direction, closes[|closes| - 1], data[i + 5].close);
  }

  /** Over the whole replay, the balance is the last recorded one, the peak the
      highest balance reached and the maximum drawdown the largest drawdown
      measured after a trade. */
  lemma {:induction false} ReplayTracksTrades(data: seq<Bar>, start: nat, i: nat)
    requires 1 <= start <= i && i + 4 < |data| && AllValid(data)
    ensures TracksTrades(Replay(data, start, i))
    decreases i - start
  {
    if i > start {
      ReplayTracksTrades(data, start, i - 1);
      ReplayStep(data, start, i - 1);
      StepTracksTrades(Replay(data, start, i - 1), data, i - 1);
    }
  }

  /** The reported maximum drawdown is the run's largest drawdown, in percent. */
  lemma BacktestDrawdown(data: seq<Bar>, sqrt: real -> real)
    requires AllValid(data) && |data| >= MinBars
    ensures 1 <= StartIndex(|data|) <= EndIndex(|data|) == |data| - 5
    ensures var r := ProfessionalBacktest(data, sqrt);
      r.Some? && r.value.maxDrawdown == MaxDrawdownOf(Replay(data, StartIndex(|data|), EndIndex(|data|)).trades) * 100.0
  {
    var n := |data|;
    BacktestWindow(n);
    ReplayTracksTrades(data, StartIndex(n), EndIndex(n));
  }

  /** Keeping only the first `k` trades leaves the drawdown after each of them unchanged. */
  lemma DrawdownOfPrefix(trades: seq<Trade>, k: nat, j: nat)
    requires j < k <= |trades|
    ensures DrawdownAt(trades[..k], j) == DrawdownAt(trades, j)
  {
    assert trades[..k][..j + 1] == trades[..j + 1];
  }

  /** The peak is the largest of the initial balance and the recorded balances. */
  lemma {:induction false} PeakIsMaximum(trades: seq<Trade>)
    ensures forall j :: 0 <= j < |trades| ==> trades[j].balance <= PeakOf(trades)
    ensures PeakOf(trades) == InitialBalance || exists j :: 0 <= j < |trades| && PeakOf(trades) == trades[j].balance
    decreases |trades|
  {
    if |trades| > 0 {
      var prefix := trades[..|trades| - 1];
      PeakIsMaximum(prefix);
      assert forall j :: 0 <= j < |prefix| ==> prefix[j] == trades[j];
    }
  }

  /** The maximum drawdown is the largest drawdown measured after a trade, and
      0 before any trade. */
  lemma {:induction false} MaxDrawdownIsMaximum(trades: seq<Trade>)
    ensures forall j :: 0 <= j < |trades| ==> DrawdownAt(trades, j) <= MaxDrawdownOf(trades)
    ensures MaxDrawdownOf(trades) == 0.0 || exists j :: 0 <= j < |trades| && MaxDrawdownOf(trades) == DrawdownAt(trades, j)
    decreases |trades|
  {
    if |trades| > 0 {
      var n := |trades|;
      var prefix := trades[..n - 1];
      MaxDrawdownIsMaximum(prefix);
      forall j | 0 <= j < n - 1
        ensures DrawdownAt(prefix, j) == DrawdownAt(trades, j)
      {
        DrawdownOfPrefix(trades, n - 1, j);
      }
    }
  }

  /** A loop iteration keeps the ledger invariant and adds at most one trade. */
  lemma StepKeepsInvariant(l: Ledger, data: seq<Bar>, i: nat)
    requires 1 <= i && i + 5 < |data| && AllValid(data) && LedgerInvariant(l)
    ensures var r := Step(l, data, i);
      LedgerInvariant(r) && |l.trades| <= |r.trades| <= |l.trades| + 1
  {
    var closes := Closes(data[..i]);
    match Decision(closes)
    case None =>
    case Some(direction) =>
      RecordKeepsInvariant(l, direction, closes[|closes| - 1], data[i + 5].close);
  }

  /** A trade gains exactly when the price moved its way. */
  lemma ReturnSign(direction: Direction, currentPrice: real, futurePrice: real)
    requires currentPrice > 0.0
    ensures ReturnPct(direction, currentPrice, futurePrice) > 0.0 <==>
      (if direction == Buy then futurePrice > currentPrice else futurePrice < currentPrice)
    ensures ReturnPct(direction, currentPrice, futurePrice) < 0.0 <==>
      (if direction == Buy then futurePrice < currentPrice else futurePrice > currentPrice)
  {
    DivBelowIff(futurePrice - currentPrice, currentPrice, 0.0);
    DivBelowIff(currentPrice - futurePrice, currentPrice, 0.0);
  }

  /** With a positive balance, a trade raises the balance exactly when its
      return is positive and lowers it exactly when its return is negative. */
  lemma BalanceFollowsReturn(l: Ledger, direction: Direction, currentPrice: real, futurePrice: real)
    requires currentPrice > 0.0 && l.peak > 0.0 && l.balance > 0.0
    ensures var r := Record(l, direction, currentPrice, futurePrice);
      var ret := ReturnPct(direction, currentPrice, futurePrice);
      && (r.balance > l.balance <==> ret > 0.0)
      && (r.balance < l.balance <==> ret < 0.0)
  {
    var ret := ReturnPct(direction, currentPrice, futurePrice);
    var positionSize := l.balance * 0.02;
    if ret > 0.0 {
      MulPositive(positionSize, ret);
    } else if ret < 0.0 {
      MulPositive(positionSize, -ret);
    }
  }

  /** The iterations before `i` read no bar from `i + 5` on: the replay is the
      same on any two series that agree up to there. */
  lemma {:induction false} ReplayIgnoresLaterBars(data: seq<Bar>, other: seq<Bar>, start: nat, i: nat)
    requires 1 <= start <= i && i + 4 < |data| && i + 4 < |other| && AllValid(data) && AllValid(other)
    requires data[..i + 5] == other[..i + 5]
    ensures Replay(data, start, i) == Replay(other, start, i)
    decreases i - start
  {
    if i > start {
      assert data[..i + 4] == other[..i + 4] by {
        assert data[..i + 4] == data[..i + 5][..i + 4];
        assert other[..i + 4] == other[..i + 5][..i + 4];
      }
      ReplayIgnoresLaterBars(data, other, start, i - 1);
      var l := Replay(data, start, i - 1);
      ReplayStep(data, start, i - 1);
      ReplayStep(other, start, i - 1);
      StepIgnoresLaterBars(l, data, other, i - 1);
    }
  }

  /** Iteration `i` reads the bars before `i` and bar `i + 5` only. */
  lemma StepIgnoresLaterBars(l: Ledger, data: seq<Bar>, other: seq<Bar>, i: nat)
    requires 1 <= i && i + 5 < |data| && i + 5 < |other| && AllValid(data) && AllValid(other) && l.peak > 0.0
    requires data[..i + 6] == other[..i + 6]
    ensures Step(l, data, i) == Step(l, other, i)
  {
    assert data[..i] == other[..i] by {
      assert data[..i] == data[..i + 6][..i];
      assert other[..i] == other[..i + 6][..i];
    }
    assert data[i + 5] == data[..i + 6][i + 5];
    assert other[i + 5] == other[..i + 6][i + 5];
  }

  /** `winning` is exactly the trades with a positive return. */
  lemma {:induction false} WinningExactly(trades: seq<Trade>)
    ensures |Winning(trades)| <= |trades|
    ensures forall t :: t in Winning(trades) <==> t in trades && t.ret > 0.0
    decreases |trades|
  {
    if |trades| > 0 {
      var init := trades[..|trades| - 1];
      WinningExactly(init);
      assert trades == init + [trades[|trades| - 1]];
    }
  }

  /** What the profit factor needs of the two filters: every winning trade
      gained, there is a winning trade exactly when some trade gained, and
      there is a losing trade exactly when some trade lost. */
  lemma WinsAndLosses(trades: seq<Trade>)
    ensures forall t :: t in Winning(trades) ==> t.ret > 0.0
    ensures |Winning(trades)| > 0 <==> exists t :: t in trades && t.ret > 0.0
    ensures |Losing(trades)| > 0 <==> exists t :: t in trades && t.ret < 0.0
  {
    WinningExactly(trades);
    LosingExactly(trades);
    var winning := Winning(trades);
    var losing := Losing(trades);
    assert |winning| > 0 ==> winning[0] in winning;
    assert |losing| > 0 ==> losing[0] in losing;
  }

  /** `losing` is exactly the trades with a negative return. */
  lemma {:induction false} LosingExactly(trades: seq<Trade>)
    ensures |Losing(trades)| <= |trades|
    ensures forall t :: t in Losing(trades) <==> t in trades && t.ret < 0.0
    decreases |trades|
  {
    if |trades| > 0 {
      var init := trades[..|trades| - 1];
      LosingExactly(init);
      assert trades == init + [trades[|trades| - 1]];
    }
  }

  /** Returns that are all gains sum to a gain. */
  lemma {:induction false} ReturnSumOfGains(trades: seq<Trade>)
    requires forall t :: t in trades ==> t.ret > 0.0
    ensures ReturnSum(trades) >= 0.0
    ensures |trades| > 0 ==> ReturnSum(trades) > 0.0
    decreases |trades|
  {
    if |trades| > 0 {
      var init := trades[..|trades| - 1];
      assert forall t :: t in init ==> t in trades;
      ReturnSumOfGains(init);
      assert trades[|trades| - 1] in trades;
    }
  }

  /** `winning.length / trades.length * 100` lies in [0, 100] and is positive
      exactly when some trade won. */
  lemma WinRateBounds(wins: nat, total: nat)
    requires 0 < total && wins <= total
    ensures 0.0 <= (wins as real / total as real) * 100.0 <= 100.0
    ensures (wins as real / total as real) * 100.0 > 0.0 <==> wins > 0
  {
    DivBelowIff(wins as real, total as real, 1.0);
    DivBelowIff(wins as real, total as real, 0.0);
  }

  /** `(mean / stdDev) * root` with a positive `stdDev` and a non-negative
      `root` has the sign of the mean, or is 0. */
  lemma SharpeSign(mean: real, stdDev: real, root: real)
    requires stdDev > 0.0
    ensures root >= 0.0 ==> ((mean / stdDev) * root > 0.0 ==> mean > 0.0)
    ensures root >= 0.0 ==> ((mean / stdDev) * root < 0.0 ==> mean < 0.0)
  {
    var q := mean / stdDev;
    DivBelowIff(mean, stdDev, 0.0);
    if root >= 0.0 {
      if q <= 0.0 {
        MulNonNegative(-q, root);
      }
      if q >= 0.0 {
        MulNonNegative(q, root);
      }
    }
  }

  /** The mean of non-negative values is non-negative, that of positive values
      positive. */
  lemma MeanSign(s: seq<real>)
    requires |s| > 0
    ensures (forall i :: 0 <= i < |s| ==> s[i] >= 0.0) ==> Sum(s) / |s| as real >= 0.0
    ensures (forall i :: 0 <= i < |s| ==> s[i] > 0.0) ==> Sum(s) / |s| as real > 0.0
  {
    if forall i :: 0 <= i < |s| ==> s[i] >= 0.0 {
      SumNonNegative(s);
      DivNonNegative(Sum(s), |s| as real);
    }
    if forall i :: 0 <= i < |s| ==> s[i] > 0.0 {
      SumPositive(s);
      DivPositive(Sum(s), |s| as real);
    }
  }
}
