/**
 * The SMA crossover strategy: BUY when the short moving average crosses
 * above the long one between the previous bar and this one, SELL when it
 * crosses below.
 */
module SmaCrossover {
  import opened Models
  import opened Series

  /** A moving-average window; the source's callers always pass positive sizes (5 and 10). */
  type Window = w: nat | w >= 1 witness 1

  /** `calculateSma`: 0 for a list shorter than the window, otherwise the mean of its last `window` values. */
  function Sma(prices: seq<real>, window: Window): real
  {
    if |prices| < window then 0.0 else Sum(prices[|prices| - window..]) / window as real
  }

  /** The loop of `calculateSma`, summing the last `window` values from the newest back. */
  method CalculateSma(prices: seq<real>, window: Window) returns (r: real)
    ensures r == Sma(prices, window)
  {
    if |prices| < window {
      return 0.0;
    }
    var sum := 0.0;
    var i := 0;
    while i < window
      invariant 0 <= i <= window
      invariant sum == Sum(prices[|prices| - i..])
    {
      assert prices[|prices| - 1 - i..][1..] == prices[|prices| - i..];
      sum := sum + prices[|prices| - 1 - i];
      i := i + 1;
    }
    r := sum / window as real;
  }

  /** The four averages the rule compares; the previous ones are taken on the list without its last element. */
  datatype Averages = Averages(short: real, long: real, prevShort: real, prevLong: real)

  function AveragesOf(prices: seq<real>, shortWindow: Window, longWindow: Window): Averages
    requires prices != []
  {
    var prev := prices[..|prices| - 1];
    Averages(Sma(prices, shortWindow), Sma(prices, longWindow), Sma(prev, shortWindow), Sma(prev, longWindow))
  }

  predicate GoldenCross(a: Averages)
  {
    a.prevShort <= a.prevLong && a.short > a.long
  }

  predicate DeathCross(a: Averages)
  {
    a.prevShort >= a.prevLong && a.short < a.long
  }

  /** `generateSignal`. */
  function GenerateSignal(prices: seq<real>, shortWindow: Window, longWindow: Window): Signal
  {
    if |prices| < longWindow then Hold
    else
      var a := AveragesOf(prices, shortWindow, longWindow);
      if GoldenCross(a) then Buy
      else if DeathCross(a) then Sell
      else Hold
  }

  /** BUY exactly on a golden cross, SELL exactly on a death cross, HOLD otherwise; the two crosses exclude each other. */
  lemma SignalRule(prices: seq<real>, shortWindow: Window, longWindow: Window)
    ensures |prices| < longWindow ==> GenerateSignal(prices, shortWindow, longWindow) == Hold
    ensures |prices| >= longWindow ==>
      var a := AveragesOf(prices, shortWindow, longWindow);
      && !(GoldenCross(a) && DeathCross(a))
      && (GenerateSignal(prices, shortWindow, longWindow) == Buy <==> GoldenCross(a))
      && (GenerateSignal(prices, shortWindow, longWindow) == Sell <==> DeathCross(a))
    ensures GenerateSignal(prices, shortWindow, longWindow) in {Buy, Sell, Hold}
  {
  }

  /** The average of a constant series is that constant. */
  lemma SmaOfConstant(prices: seq<real>, window: Window, c: real)
    requires |prices| >= window
    requires forall i :: 0 <= i < |prices| ==> prices[i] == c
    ensures Sma(prices, window) == c
  {
    var w := prices[|prices| - window..];
    SumConstant(w, c);
  }

  /** With the short window no longer than the long one, a constant price series never crosses. */
  lemma ConstantSeriesHolds(prices: seq<real>, shortWindow: Window, longWindow: Window, c: real)
    requires shortWindow <= longWindow
    requires forall i :: 0 <= i < |prices| ==> prices[i] == c
    ensures GenerateSignal(prices, shortWindow, longWindow) == Hold
  {
    if |prices| >= longWindow {
      SmaOfConstant(prices, shortWindow, c);
      SmaOfConstant(prices, longWindow, c);
    }
  }

  /**
   * At exactly `longWindow` prices the previous long average is the 0
   * sentinel, so with positive prices no BUY can fire on that bar, and a SELL
   * fires exactly when the short average is below the long one.
   */
  lemma FirstFullBar(prices: seq<real>, shortWindow: Window, longWindow: Window)
    requires shortWindow < longWindow && |prices| == longWindow
    requires forall i :: 0 <= i < |prices| ==> prices[i] > 0.0
    ensures AveragesOf(prices, shortWindow, longWindow).prevLong == 0.0
    ensures GenerateSignal(prices, shortWindow, longWindow) != Buy
    ensures GenerateSignal(prices, shortWindow, longWindow) == Sell <==>
      Sma(prices, shortWindow) < Sma(prices, longWindow)
  {
    var prev := prices[..|prices| - 1];
    var w := prev[|prev| - shortWindow..];
    assert forall i :: 0 <= i < |w| ==> w[i] == prices[|prev| - shortWindow + i];
    SumPositive(w);
    assert Sma(prev, shortWindow) > 0.0;
  }
}
