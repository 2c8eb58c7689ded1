/**
 * The MACD strategy: MACD line = EMA(12) - EMA(26), with the signal line
 * approximated as the plain average of the MACD line at the last (at most) 9
 * points; BUY on a bullish cross, SELL on a bearish cross.
 */
module MacdStrategy {
  import opened Models
  import opened Series

  const ShortPeriod: nat := 12
  const LongPeriod: nat := 26
  const SignalPeriod: nat := 9

  /** The smoothing constant k = 2 / (period + 1). */
  function Smoothing(period: nat): real
  {
    2.0 / (period + 1) as real
  }

  /** The seed index max(0, index - 4 * period). */
  function SeedIndex(period: nat, index: nat): nat
  {
    if index - period * 4 > 0 then index - period * 4 else 0
  }

  /** The EMA recurrence from the seed `s[start]` up to `index`. */
  function EmaFrom(s: seq<real>, k: real, start: nat, index: nat): real
    requires start <= index < |s|
    decreases index - start
  {
    if index == start then s[start] else s[index] * k + EmaFrom(s, k, start, index - 1) * (1.0 - k)
  }

  /** `calculateEMA`: 0 for an index outside the list, otherwise the recurrence from the seed. */
  function Ema(s: seq<real>, period: nat, index: int): real
  {
    if index < 0 || index >= |s| then 0.0
    else EmaFrom(s, Smoothing(period), SeedIndex(period, index), index)
  }

  /** The loop of `calculateEMA`. */
  method CalculateEma(s: seq<real>, period: nat, index: int) returns (r: real)
    ensures r == Ema(s, period, index)
  {
    if index < 0 || index >= |s| {
      return 0.0;
    }
    var k := 2.0 / (period + 1) as real;
    var start := if index - period * 4 > 0 then index - period * 4 else 0;
    var ema := s[start];
    var i := start + 1;
    while i <= index
      invariant start + 1 <= i <= index + 1
      invariant ema == EmaFrom(s, k, start, i - 1)
    {
      ema := s[i] * k + ema * (1.0 - k);
      i := i + 1;
    }
    r := ema;
  }

  /** Out of range the EMA is 0; at the seed it is the seed value; for a positive period 0 < k <= 1. */
  lemma EmaBasics(s: seq<real>, period: nat, index: int)
    ensures (index < 0 || index >= |s|) ==> Ema(s, period, index) == 0.0
    ensures 0 <= index < |s| && SeedIndex(period, index) == index ==> Ema(s, period, index) == s[index]
    ensures period >= 1 ==> 0.0 < Smoothing(period) <= 1.0
  {
  }

  /**
   * The EMA is a convex combination of the values from the seed to the index:
   * any bounds on those values bound it too.
   */
  lemma {:induction false} EmaFromBounds(s: seq<real>, k: real, start: nat, index: nat, lo: real, hi: real)
    requires start <= index < |s|
    requires 0.0 <= k <= 1.0
    requires forall j :: start <= j <= index ==> lo <= s[j] <= hi
    ensures lo <= EmaFrom(s, k, start, index) <= hi
    decreases index - start
  {
    if index > start {
      EmaFromBounds(s, k, start, index - 1, lo, hi);
      var e := EmaFrom(s, k, start, index - 1);
      var x := s[index];
      MulNonneg(x - lo, k);
      MulNonneg(e - lo, 1.0 - k);
      MulNonneg(hi - x, k);
      MulNonneg(hi - e, 1.0 - k);
      assert x * k + e * (1.0 - k) - lo == (x - lo) * k + (e - lo) * (1.0 - k);
      assert hi - (x * k + e * (1.0 - k)) == (hi - x) * k + (hi - e) * (1.0 - k);
    }
  }

  /** `calculateEMA` lies between any bounds of the values from its seed up to its index. */
  lemma EmaBetween(s: seq<real>, period: nat, index: nat, lo: real, hi: real)
    requires period >= 1 && index < |s|
    requires forall j :: SeedIndex(period, index) <= j <= index ==> lo <= s[j] <= hi
    ensures lo <= Ema(s, period, index) <= hi
  {
    EmaFromBounds(s, Smoothing(period), SeedIndex(period, index), index, lo, hi);
  }

  /** The recurrence reads only the values from `start` to `index`. */
  lemma {:induction false} EmaFromLocal(s: seq<real>, t: seq<real>, k: real, start: nat, index: nat)
    requires start <= index < |s| && index < |t|
    requires forall j :: start <= j <= index ==> s[j] == t[j]
    ensures EmaFrom(s, k, start, index) == EmaFrom(t, k, start, index)
    decreases index - start
  {
    if index > start {
      EmaFromLocal(s, t, k, start, index - 1);
    }
  }

  /**
   * `calculateEMA` is seeded with the value at max(0, index - 4 * period) and
   * reads nothing before it: two series that agree from the seed up to the
   * index have the same EMA there.
   */
  lemma EmaSeedWindow(s: seq<real>, t: seq<real>, period: nat, index: nat)
    requires index < |s| && index < |t|
    requires forall j :: SeedIndex(period, index) <= j <= index ==> s[j] == t[j]
    ensures SeedIndex(period, index) == if index >= period * 4 then index - period * 4 else 0
    ensures Ema(s, period, index) == Ema(t, period, index)
  {
    EmaFromLocal(s, t, Smoothing(period), SeedIndex(period, index), index);
  }

  /** On a constant series the EMA is that constant. */
  lemma EmaOfConstant(s: seq<real>, period: nat, index: nat, c: real)
    requires period >= 1 && index < |s|
    requires forall j :: 0 <= j < |s| ==> s[j] == c
    ensures Ema(s, period, index) == c
  {
    EmaBetween(s, period, index, c, c);
  }

  /** The MACD line at an index. */
  function MacdLine(s: seq<real>, index: int): real
  {
    Ema(s, ShortPeriod, index) - Ema(s, LongPeriod, index)
  }

  /** How many of endIndex, endIndex - 1, ... (at most 9) stay at or above index 26. */
  function SignalPoints(endIndex: int): nat
  {
    if endIndex < LongPeriod then 0
    else if endIndex - LongPeriod + 1 >= SignalPeriod then SignalPeriod
    else endIndex - LongPeriod + 1
  }

  /** The MACD line summed over endIndex, endIndex - 1, ..., endIndex - count + 1. */
  function SignalSum(s: seq<real>, endIndex: int, count: nat): real
  {
    if count == 0 then 0.0 else SignalSum(s, endIndex, count - 1) + MacdLine(s, endIndex - (count - 1))
  }

  /** The signal line: the mean of the qualifying MACD values, 0 when none qualify. */
  function SignalLine(s: seq<real>, endIndex: int): real
  {
    var n := SignalPoints(endIndex);
    if n > 0 then SignalSum(s, endIndex, n) / n as real else 0.0
  }

  datatype MacdValues = MacdValues(macd: real, signal: real)

  function MacdAt(s: seq<real>, endIndex: int): MacdValues
  {
    MacdValues(MacdLine(s, endIndex), SignalLine(s, endIndex))
  }

  /** `calculateMacdValues`: the MACD line and the averaged signal line at `endIndex`. */
  method CalculateMacdValues(s: seq<real>, endIndex: int) returns (v: MacdValues)
    ensures v == MacdAt(s, endIndex)
  {
    var emaShort := CalculateEma(s, ShortPeriod, endIndex);
    var emaLong := CalculateEma(s, LongPeriod, endIndex);
    var macdLine := emaShort - emaLong;
    var signalLine := 0.0;
    var distinctPoints := 0;
    var i := 0;
    while i < SignalPeriod
      invariant 0 <= i <= SignalPeriod
      invariant i <= SignalPoints(endIndex)
      invariant distinctPoints == i
      invariant signalLine == SignalSum(s, endIndex, i)
    {
      if endIndex - i < LongPeriod {
        break;
      }
      var eShort := CalculateEma(s, ShortPeriod, endIndex - i);
      var eLong := CalculateEma(s, LongPeriod, endIndex - i);
      signalLine := signalLine + (eShort - eLong);
      distinctPoints := distinctPoints + 1;
      i := i + 1;
    }
    if distinctPoints > 0 {
      signalLine := signalLine / distinctPoints as real;
    }
    v := MacdValues(macdLine, signalLine);
  }

  predicate BullishCross(prev: MacdValues, cur: MacdValues)
  {
    prev.macd <= prev.signal && cur.macd > cur.signal
  }

  predicate BearishCross(prev: MacdValues, cur: MacdValues)
  {
    prev.macd >= prev.signal && cur.macd < cur.signal
  }

  /** `generateSignal`: needs 26 + 9 prices, then compares this bar's and the previous bar's MACD values. */
  function GenerateSignal(s: seq<real>): Signal
  {
    if |s| < LongPeriod + SignalPeriod then Hold
    else
      var cur := MacdAt(s, |s| - 1);
      var prev := MacdAt(s, |s| - 2);
      if BullishCross(prev, cur) then Buy
      else if BearishCross(prev, cur) then Sell
      else Hold
  }

  /** BUY exactly on a bullish cross, SELL exactly on a bearish one; they exclude each other. */
  lemma SignalRule(s: seq<real>)
    ensures |s| < 35 ==> GenerateSignal(s) == Hold
    ensures |s| >= 35 ==>
      var cur := MacdAt(s, |s| - 1);
      var prev := MacdAt(s, |s| - 2);
      && !(BullishCross(prev, cur) && BearishCross(prev, cur))
      && (GenerateSignal(s) == Buy <==> BullishCross(prev, cur))
      && (GenerateSignal(s) == Sell <==> BearishCross(prev, cur))
  {
  }

  /**
   * With at least 35 prices the current bar's signal line averages exactly 9
   * MACD values; the previous bar's does too, except at exactly 35 prices,
   * where only 8 indices reach 26.
   */
  lemma SignalWindowSizes(s: seq<real>)
    requires |s| >= 35
    ensures SignalPoints(|s| - 1) == 9
    ensures SignalPoints(|s| - 2) == if |s| == 35 then 8 else 9
  {
  }

  lemma {:induction false} SignalSumOfFlat(s: seq<real>, endIndex: int, count: nat)
    requires forall j :: endIndex - count < j <= endIndex ==> MacdLine(s, j) == 0.0
    ensures SignalSum(s, endIndex, count) == 0.0
  {
    if count > 0 {
      SignalSumOfFlat(s, endIndex, count - 1);
    }
  }

  /** A constant series has MACD 0 and signal 0 at every bar, hence HOLD. */
  lemma ConstantSeriesHolds(s: seq<real>, c: real)
    requires forall j :: 0 <= j < |s| ==> s[j] == c
    ensures forall j :: 0 <= j < |s| ==> MacdAt(s, j) == MacdValues(0.0, 0.0)
    ensures GenerateSignal(s) == Hold
  {
    forall j | 0 <= j < |s|
      ensures MacdLine(s, j) == 0.0
    {
      EmaOfConstant(s, ShortPeriod, j, c);
      EmaOfConstant(s, LongPeriod, j, c);
    }
    forall j | 0 <= j < |s|
      ensures MacdAt(s, j) == MacdValues(0.0, 0.0)
    {
      SignalSumOfFlat(s, j, SignalPoints(j));
    }
  }
}
