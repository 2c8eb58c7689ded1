/**
 * The crash-protection decorator: with at least 15 candles, a fall of the
 * last close below the close four bars earlier by more than the threshold
 * overrides the wrapped strategy, with SELL, or with HOLD when the 14-bar
 * RSI already says the market is oversold.
 */
module CrashProtection {
  import opened Models
  import opened Series
  import RsiStrategy

  const MinCandles: nat := 15
  const Lookback: nat := 5
  /** Below this RSI a drop is not sold into. */
  const PanicRsi: real := 25.0

  /** `calculateRSI`'s loop over the last `period` changes of the closes; the result is the RSI strategy's index. */
  method CalculateRsi(data: seq<Candle>, period: nat) returns (r: real)
    requires period >= 1
    ensures r == RsiStrategy.Rsi(Closes(data), period)
  {
    if |data| <= period {
      return 50.0;
    }
    ghost var c := Closes(data);
    ghost var lo := |data| - period;
    var avgGain, avgLoss := 0.0, 0.0;
    var i := 1;
    while i <= period
      invariant 1 <= i <= period + 1
      invariant avgGain == UpSum(c, lo, lo + i - 1)
      invariant avgLoss == DownSum(c, lo, lo + i - 1)
    {
      var idx := |data| - 1 - period + i;
      UpSumAppend(c, lo, idx);
      DownSumAppend(c, lo, idx);
      var change := data[idx].close - data[idx - 1].close;
      if change > 0.0 {
        avgGain := avgGain + change;
      } else {
        avgLoss := avgLoss + Abs(change);
      }
      i := i + 1;
    }
    avgGain := avgGain / period as real;
    avgLoss := avgLoss / period as real;
    if avgLoss == 0.0 {
      return 100.0;
    }
    MoveSums(c, lo, |data|);
    var rs := avgGain / avgLoss;
    r := 100.0 - 100.0 / (1.0 + rs);
  }

  /**
   * `change < -dropThreshold` with `change = (current - previous) / previous`.
   * For a previous close of 0 the Java division gives -Infinity (below every finite
   * threshold) for a negative current close, and NaN or +Infinity, which
   * compare false, otherwise.
   */
  predicate DropsBelow(current: real, previous: real, dropThreshold: real)
  {
    if previous == 0.0 then current < 0.0
    else (current - previous) / previous < -dropThreshold
  }

  /** A drop is detected on the last close against the close four bars earlier. */
  predicate DropDetected(candles: seq<Candle>, dropThreshold: real)
    requires |candles| >= MinCandles
  {
    DropsBelow(candles[|candles| - 1].close, candles[|candles| - Lookback].close, dropThreshold)
  }

  /**
   * `generateSignal`, given the signal the wrapped strategy returns on the
   * same candles (consulted only when the override does not fire).
   */
  function Protect(candles: seq<Candle>, dropThreshold: real, wrapped: Signal): Signal
  {
    if |candles| < MinCandles then wrapped
    else if DropDetected(candles, dropThreshold) then
      if RsiStrategy.Rsi(Closes(candles), 14) < PanicRsi then Hold else Sell
    else wrapped
  }

  /**
   * Short lists and lists without a drop pass the wrapped signal through; on
   * a drop the result is HOLD or SELL according to the RSI, whatever the
   * wrapped strategy says.
   */
  lemma OverrideRule(candles: seq<Candle>, dropThreshold: real, wrapped: Signal, other: Signal)
    ensures |candles| < 15 ==> Protect(candles, dropThreshold, wrapped) == wrapped
    ensures |candles| >= 15 && !DropDetected(candles, dropThreshold) ==>
      Protect(candles, dropThreshold, wrapped) == wrapped
    ensures |candles| >= 15 && DropDetected(candles, dropThreshold) ==>
      && Protect(candles, dropThreshold, wrapped) == Protect(candles, dropThreshold, other)
      && (Protect(candles, dropThreshold, wrapped) == Hold <==> RsiStrategy.Rsi(Closes(candles), 14) < 25.0)
      && (Protect(candles, dropThreshold, wrapped) == Sell <==> RsiStrategy.Rsi(Closes(candles), 14) >= 25.0)
    ensures Protect(candles, dropThreshold, wrapped) in {wrapped, Hold, Sell}
  {
  }

  /** A fall of exactly the threshold is not a drop: the wrapped signal passes through. */
  lemma ExactThresholdPassesThrough(candles: seq<Candle>, dropThreshold: real, wrapped: Signal)
    requires |candles| >= 15
    requires candles[|candles| - 5].close > 0.0
    requires candles[|candles| - 1].close == candles[|candles| - 5].close * (1.0 - dropThreshold)
    ensures Protect(candles, dropThreshold, wrapped) == wrapped
  {
    var previous := candles[|candles| - 5].close;
    var cur := candles[|candles| - 1].close;
    assert cur - previous == previous * -dropThreshold;
    assert (cur - previous) / previous == -dropThreshold;
  }

  /**
   * In a steady slide, every one of the last 14 closes below the one previous,
   * the RSI is 0: a drop then holds instead of selling, so the decorator
   * never sells unless the wrapped strategy does.
   */
  lemma SteadySlideNeverSells(candles: seq<Candle>, dropThreshold: real, wrapped: Signal)
    requires |candles| >= 15
    requires forall i :: |candles| - 14 <= i < |candles| ==> candles[i - 1].close > candles[i].close
    ensures RsiStrategy.Rsi(Closes(candles), 14) == 0.0
    ensures Protect(candles, dropThreshold, wrapped) in {wrapped, Hold}
  {
    var c := Closes(candles);
    var lo := |c| - 14;
    UpSumOfFalling(c, lo, |c|);
    MoveSums(c, lo, |c|);
    if DownSum(c, lo, |c|) == 0.0 {
      FlatOfZeroAbsSum(c, lo, |c|);
      assert false;
    }
  }
}
