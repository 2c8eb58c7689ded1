/**
 * The RSI strategy: the relative strength index of the last 14 price
 * changes, BUY at or below 30, SELL at or above 70.
 */
module RsiStrategy {
  import opened Models
  import opened Series

  const Period: nat := 14
  const Oversold: real := 30.0
  const Overbought: real := 70.0

  /**
   * `calculateRSI(data, n)`: 50 without `n + 1` values; otherwise the average
   * gain and loss of the last `n` changes, 100 when the average loss is 0 and
   * 100 - 100 / (1 + gain / loss) otherwise.
   */
  function Rsi(data: seq<real>, n: nat): real
    requires n >= 1
  {
    if |data| < n + 1 then 50.0
    else
      MoveSums(data, |data| - n, |data|);
      var avgGain := UpSum(data, |data| - n, |data|) / n as real;
      var avgLoss := DownSum(data, |data| - n, |data|) / n as real;
      if avgLoss == 0.0 then 100.0 else 100.0 - 100.0 / (1.0 + avgGain / avgLoss)
  }

  /** The loop of `calculateRSI`, accumulating total gain and loss over the last `n` changes. */
  method CalculateRsi(data: seq<real>, n: nat) returns (r: real)
    requires n >= 1
    ensures r == Rsi(data, n)
  {
    if |data| < n + 1 {
      return 50.0;
    }
    var totalGain := 0.0;
    var totalLoss := 0.0;
    var i := |data| - n;
    while i < |data|
      invariant |data| - n <= i <= |data|
      invariant totalGain == UpSum(data, |data| - n, i)
      invariant totalLoss == DownSum(data, |data| - n, i)
    {
      UpSumAppend(data, |data| - n, i);
      DownSumAppend(data, |data| - n, i);
      var change := data[i] - data[i - 1];
      if change > 0.0 {
        totalGain := totalGain + change;
      } else {
        totalLoss := totalLoss + Abs(change);
      }
      i := i + 1;
    }
    var avgGain := totalGain / n as real;
    var avgLoss := totalLoss / n as real;
    if avgLoss == 0.0 {
      return 100.0;
    }
    MoveSums(data, |data| - n, |data|);
    var rs := avgGain / avgLoss;
    r := 100.0 - 100.0 / (1.0 + rs);
  }

  /**
   * The index is 50 on too little data and always lies in [0, 100]; with
   * enough data it is 100 exactly when the window has no loss, and otherwise
   * strictly below 100.
   */
  lemma RsiRange(data: seq<real>, n: nat)
    requires n >= 1
    ensures |data| < n + 1 ==> Rsi(data, n) == 50.0
    ensures 0.0 <= Rsi(data, n) <= 100.0
    ensures |data| >= n + 1 ==> (Rsi(data, n) == 100.0 <==> DownSum(data, |data| - n, |data|) == 0.0)
  {
    if |data| >= n + 1 {
      var lo := |data| - n;
      MoveSums(data, lo, |data|);
      var g := UpSum(data, lo, |data|) / n as real;
      var l := DownSum(data, lo, |data|) / n as real;
      if l != 0.0 {
        assert l > 0.0;
        assert g >= 0.0;
        var rs := g / l;
        assert rs >= 0.0;
        DivBounds(100.0, 1.0 + rs);
      }
    }
  }

  /** `generateSignal`: inclusive thresholds. */
  function GenerateSignal(prices: seq<real>): Signal
  {
    if |prices| < Period + 1 then Hold
    else
      var rsi := Rsi(prices, Period);
      if rsi <= Oversold then Buy
      else if rsi >= Overbought then Sell
      else Hold
  }

  /** BUY iff the index is at most 30, SELL iff at least 70, HOLD strictly between or on too little data. */
  lemma SignalThresholds(prices: seq<real>)
    ensures |prices| < 15 ==> GenerateSignal(prices) == Hold
    ensures |prices| >= 15 ==>
      && (GenerateSignal(prices) == Buy <==> Rsi(prices, 14) <= 30.0)
      && (GenerateSignal(prices) == Sell <==> Rsi(prices, 14) >= 70.0)
      && (GenerateSignal(prices) == Hold <==> 30.0 < Rsi(prices, 14) < 70.0)
  {
  }

  /** Only the last 15 prices matter: two lists ending in the same 15 prices get the same signal. */
  lemma OnlyLastFifteen(a: seq<real>, b: seq<real>)
    requires |a| >= 15 && |b| >= 15
    requires a[|a| - 15..] == b[|b| - 15..]
    ensures Rsi(a, 14) == Rsi(b, 14)
    ensures GenerateSignal(a) == GenerateSignal(b)
  {
    if |a| <= |b| {
      SameLastWindow(a, b);
    } else {
      SameLastWindow(b, a);
    }
  }

  lemma SameLastWindow(s: seq<real>, t: seq<real>)
    requires 15 <= |s| <= |t|
    requires s[|s| - 15..] == t[|t| - 15..]
    ensures UpSum(s, |s| - 14, |s|) == UpSum(t, |t| - 14, |t|)
    ensures DownSum(s, |s| - 14, |s|) == DownSum(t, |t| - 14, |t|)
  {
    var d := |t| - |s|;
    forall i | |s| - 15 <= i < |s|
      ensures s[i] == t[i + d]
    {
      assert s[i] == s[|s| - 15..][i - (|s| - 15)];
      assert t[i + d] == t[|t| - 15..][i - (|s| - 15)];
    }
    SumsOfSameWindow(s, t, |s| - 14, |s|, d);
  }

  /** Last 15 prices that never fall give an index of 100 and hence SELL (a flat series included). */
  lemma RisingWindowSells(prices: seq<real>)
    requires |prices| >= 15
    requires forall i :: |prices| - 14 <= i < |prices| ==> prices[i - 1] <= prices[i]
    ensures Rsi(prices, 14) == 100.0
    ensures GenerateSignal(prices) == Sell
  {
    DownSumOfRising(prices, |prices| - 14, |prices|);
  }
}
