/**
 * The regime selector: a two-field state machine that picks the trend
 * strategy (MACD), the mean-reversion strategy (RSI) or the risk-management
 * strategy (the default) from a simplified DX over highs, lows and closes,
 * and then keeps its choice for a cooldown of five calls.
 */
module StrategySelector {
  import opened Models
  import opened Series
  import AdxStrategy
  import StrategyDecorator

  const CooldownPeriod: nat := 5
  const MinCandles: nat := 30
  const AdxPeriod: nat := 14

  /** The three strategy objects the selector holds; the source compares them by identity. */
  datatype Regime = TrendRegime | MeanReversion | RiskManagement

  function StrategyOf(r: Regime): (s: StrategyDecorator.Strategy)
    ensures s in {StrategyDecorator.Macd, StrategyDecorator.Rsi, StrategyDecorator.Default}
  {
    match r
    case TrendRegime => StrategyDecorator.Macd
    case MeanReversion => StrategyDecorator.Rsi
    case RiskManagement => StrategyDecorator.Default
  }

  // ---------------------------------------------------------------
  // The high/low DX of `calculateADX`
  // ---------------------------------------------------------------

  /** The true range of a bar: the largest of its own range and its high's and low's distance from the previous close. */
  function TrueRange(curr: Candle, prev: Candle): (r: real)
    ensures r >= 0.0
    ensures r >= curr.high - curr.low && r >= Abs(curr.high - prev.close) && r >= Abs(curr.low - prev.close)
    ensures r == curr.high - curr.low || r == Abs(curr.high - prev.close) || r == Abs(curr.low - prev.close)
  {
    Max(curr.high - curr.low, Max(Abs(curr.high - prev.close), Abs(curr.low - prev.close)))
  }

  /** +DM: the rise of the high, when it is positive and beats the fall of the low. */
  function PlusDM(curr: Candle, prev: Candle): real
  {
    var upMove := curr.high - prev.high;
    var downMove := prev.low - curr.low;
    if upMove > downMove && upMove > 0.0 then upMove else 0.0
  }

  /** -DM: the fall of the low, when it is positive and beats the rise of the high. */
  function MinusDM(curr: Candle, prev: Candle): real
  {
    var upMove := curr.high - prev.high;
    var downMove := prev.low - curr.low;
    if downMove > upMove && downMove > 0.0 then downMove else 0.0
  }

  /** Both directional moves are non-negative and at most one of them is positive. */
  lemma DirectionalMoves(curr: Candle, prev: Candle)
    ensures PlusDM(curr, prev) >= 0.0 && MinusDM(curr, prev) >= 0.0
    ensures PlusDM(curr, prev) == 0.0 || MinusDM(curr, prev) == 0.0
    ensures PlusDM(curr, prev) > 0.0 ==> PlusDM(curr, prev) == curr.high - prev.high
    ensures MinusDM(curr, prev) > 0.0 ==> MinusDM(curr, prev) == prev.low - curr.low
  {
  }

  function TRSum(c: seq<Candle>, lo: nat, hi: nat): real
    requires 1 <= lo <= hi <= |c|
    decreases hi - lo
  {
    if lo == hi then 0.0 else TrueRange(c[lo], c[lo - 1]) + TRSum(c, lo + 1, hi)
  }

  function PlusDMSum(c: seq<Candle>, lo: nat, hi: nat): real
    requires 1 <= lo <= hi <= |c|
    decreases hi - lo
  {
    if lo == hi then 0.0 else PlusDM(c[lo], c[lo - 1]) + PlusDMSum(c, lo + 1, hi)
  }

  function MinusDMSum(c: seq<Candle>, lo: nat, hi: nat): real
    requires 1 <= lo <= hi <= |c|
    decreases hi - lo
  {
    if lo == hi then 0.0 else MinusDM(c[lo], c[lo - 1]) + MinusDMSum(c, lo + 1, hi)
  }

  lemma {:induction false} SumsNonneg(c: seq<Candle>, lo: nat, hi: nat)
    requires 1 <= lo <= hi <= |c|
    ensures TRSum(c, lo, hi) >= 0.0 && PlusDMSum(c, lo, hi) >= 0.0 && MinusDMSum(c, lo, hi) >= 0.0
    decreases hi - lo
  {
    if lo < hi {
      DirectionalMoves(c[lo], c[lo - 1]);
      SumsNonneg(c, lo + 1, hi);
    }
  }

  /** `calculateADX(data, endIndex, 14)`: the DX of the window of at most 14 bars ending at `endIndex`. */
  function AdxAt(c: seq<Candle>, endIndex: nat): real
    requires endIndex < |c|
  {
    var lo := AdxStrategy.WindowStart(endIndex);
    SumsNonneg(c, lo, endIndex + 1);
    AdxStrategy.Dx(TRSum(c, lo, endIndex + 1), PlusDMSum(c, lo, endIndex + 1), MinusDMSum(c, lo, endIndex + 1)).adx
  }

  /** The loop of `calculateADX`, walking back from `endIndex`. */
  method CalculateAdx(c: seq<Candle>, endIndex: nat) returns (dx: real)
    requires endIndex < |c|
    ensures dx == AdxAt(c, endIndex)
  {
    var sumTR, sumPlusDM, sumMinusDM := 0.0, 0.0, 0.0;
    var i := 0;
    while i < AdxPeriod
      invariant 0 <= i <= AdxPeriod && i <= endIndex
      invariant sumTR == TRSum(c, endIndex - i + 1, endIndex + 1)
      invariant sumPlusDM == PlusDMSum(c, endIndex - i + 1, endIndex + 1)
      invariant sumMinusDM == MinusDMSum(c, endIndex - i + 1, endIndex + 1)
    {
      var idx := endIndex - i;
      if idx <= 0 {
        break;
      }
      var curr := c[idx];
      var prev := c[idx - 1];
      var trueRange := Max(curr.high - curr.low, Max(Abs(curr.high - prev.close), Abs(curr.low - prev.close)));
      var upMove := curr.high - prev.high;
      var downMove := prev.low - curr.low;
      var pdm, mdm := 0.0, 0.0;
      if upMove > downMove && upMove > 0.0 {
        pdm := upMove;
      }
      if downMove > upMove && downMove > 0.0 {
        mdm := downMove;
      }
      sumTR := trueRange + sumTR;
      sumPlusDM := pdm + sumPlusDM;
      sumMinusDM := mdm + sumMinusDM;
      i := i + 1;
    }
    SumsNonneg(c, AdxStrategy.WindowStart(endIndex), endIndex + 1);
    dx := AdxStrategy.Dx(sumTR, sumPlusDM, sumMinusDM).adx;
  }

  /** `calculateAdxValue`: 0 with fewer than 28 candles, else the DX ending at the newest candle. */
  function AdxValue(c: seq<Candle>): real
  {
    if |c| < AdxPeriod * 2 then 0.0 else AdxAt(c, |c| - 1)
  }

  method CalculateAdxValue(c: seq<Candle>) returns (adx: real)
    ensures adx == AdxValue(c)
  {
    if |c| < AdxPeriod * 2 {
      return 0.0;
    }
    adx := CalculateAdx(c, |c| - 1);
  }

  /** The selector's DX lies in [0, 100), and is 0 below 28 candles. */
  lemma AdxValueRange(c: seq<Candle>)
    ensures 0.0 <= AdxValue(c) < 100.0
    ensures |c| < 28 ==> AdxValue(c) == 0.0
  {
    if |c| >= 28 {
      var lo := AdxStrategy.WindowStart(|c| - 1);
      SumsNonneg(c, lo, |c|);
      AdxStrategy.DxBounds(TRSum(c, lo, |c|), PlusDMSum(c, lo, |c|), MinusDMSum(c, lo, |c|));
    }
  }

  // ---------------------------------------------------------------
  // The cooldown state machine of `determineStrategy`
  // ---------------------------------------------------------------

  /** The regime a DX value calls for: above 25 trend, below 20 mean reversion, otherwise risk management. */
  function Target(adx: real): (r: Regime)
    ensures r == TrendRegime <==> adx > 25.0
    ensures r == MeanReversion <==> adx < 20.0
    ensures r == RiskManagement <==> 20.0 <= adx <= 25.0
  {
    if adx > 25.0 then TrendRegime
    else if adx < 20.0 then MeanReversion
    else RiskManagement
  }

  datatype SelectorState = SelectorState(current: Regime, cooldown: nat)

  /** The state after construction. */
  const Initial: SelectorState := SelectorState(RiskManagement, 0)

  predicate ValidState(st: SelectorState)
  {
    st.cooldown <= CooldownPeriod
  }

  /** The strategy one call returns and the state it leaves. */
  datatype Selection = Selection(chosen: Regime, next: SelectorState)

  /** One call of `determineStrategy` on a state. */
  function Select(st: SelectorState, candles: seq<Candle>): Selection
  {
    if |candles| < MinCandles then Selection(RiskManagement, st)
    else if st.cooldown > 0 then Selection(st.current, SelectorState(st.current, st.cooldown - 1))
    else
      var t := Target(AdxValue(candles));
      if t != st.current then Selection(t, SelectorState(t, CooldownPeriod))
      else Selection(st.current, st)
  }

  /**
   * The rules of one call: too few candles return the default and change
   * nothing; a running cooldown returns the current strategy and counts down
   * by one; otherwise the DX target is chosen, a switch restarting the
   * cooldown at 5 and a repeat leaving it at 0.  The cooldown stays in [0, 5].
   */
  lemma SelectRules(st: SelectorState, candles: seq<Candle>)
    requires ValidState(st)
    ensures var r := Select(st, candles);
      && ValidState(r.next)
      && (r.chosen == r.next.current || |candles| < 30)
    ensures |candles| < 30 ==> Select(st, candles) == Selection(RiskManagement, st)
    ensures |candles| >= 30 && st.cooldown > 0 ==>
      Select(st, candles) == Selection(st.current, SelectorState(st.current, st.cooldown - 1))
    ensures |candles| >= 30 && st.cooldown == 0 ==>
      var t := Target(AdxValue(candles));
      && Select(st, candles).chosen == t
      && Select(st, candles).next == SelectorState(t, if t == st.current then 0 else 5)
  {
  }

  /** The strategies a sequence of calls returns, one per candle list. */
  function Run(st: SelectorState, inputs: seq<seq<Candle>>): (r: seq<Regime>)
    ensures |r| == |inputs|
    decreases |inputs|
  {
    if inputs == [] then []
    else
      var sel := Select(st, inputs[0]);
      [sel.chosen] + Run(sel.next, inputs[1..])
  }

  /** The state a sequence of calls leaves. */
  function After(st: SelectorState, inputs: seq<seq<Candle>>): SelectorState
    decreases |inputs|
  {
    if inputs == [] then st else After(Select(st, inputs[0]).next, inputs[1..])
  }

  /** Every state reachable from a valid one is valid. */
  lemma {:induction false} AfterValid(st: SelectorState, inputs: seq<seq<Candle>>)
    requires ValidState(st)
    ensures ValidState(After(st, inputs))
    decreases |inputs|
  {
    if inputs != [] {
      SelectRules(st, inputs[0]);
      AfterValid(Select(st, inputs[0]).next, inputs[1..]);
    }
  }

  /**
   * Hysteresis: with a cooldown of `k`, the next `k` calls on at least 30
   * candles return the current strategy whatever the candles are, and leave
   * the cooldown at 0 with the strategy unchanged.
   */
  lemma {:induction false} CooldownHolds(st: SelectorState, inputs: seq<seq<Candle>>)
    requires |inputs| == st.cooldown
    requires forall j :: 0 <= j < |inputs| ==> |inputs[j]| >= MinCandles
    ensures forall j :: 0 <= j < |inputs| ==> Run(st, inputs)[j] == st.current
    ensures After(st, inputs) == SelectorState(st.current, 0)
    decreases |inputs|
  {
    if inputs != [] {
      var next := SelectorState(st.current, st.cooldown - 1);
      assert Select(st, inputs[0]).next == next;
      CooldownHolds(next, inputs[1..]);
      assert forall j :: 1 <= j < |inputs| ==> inputs[1..][j - 1] == inputs[j];
    }
  }

  /**
   * After a switch, the five following calls on at least 30 candles return
   * the new strategy, and the sixth re-evaluates the DX.
   */
  lemma SwitchThenFiveHolds(st: SelectorState, candles: seq<Candle>, inputs: seq<seq<Candle>>, sixth: seq<Candle>)
    requires ValidState(st) && st.cooldown == 0 && |candles| >= 30
    requires Target(AdxValue(candles)) != st.current
    requires |inputs| == 5 && forall j :: 0 <= j < 5 ==> |inputs[j]| >= MinCandles
    requires |sixth| >= MinCandles
    ensures var switched := Select(st, candles).next;
      && switched == SelectorState(Target(AdxValue(candles)), 5)
      && (forall j :: 0 <= j < 5 ==> Run(switched, inputs)[j] == Target(AdxValue(candles)))
      && Select(After(switched, inputs), sixth).chosen == Target(AdxValue(sixth))
  {
    CooldownHolds(Select(st, candles).next, inputs);
  }

  /** The object: the strategy it currently holds and the remaining cooldown. */
  class StrategySelector {
    var currentStrategy: Regime
    var cooldown: nat

    predicate Valid()
      reads this
    {
      cooldown <= CooldownPeriod
    }

    function State(): SelectorState
      reads this
    {
      SelectorState(currentStrategy, cooldown)
    }

    /** Starts with the default strategy and no cooldown. */
    constructor()
      ensures Valid() && State() == Initial
    {
      currentStrategy := RiskManagement;
      cooldown := 0;
    }

    /** `determineStrategy`: one step of the state machine. */
    method DetermineStrategy(candles: seq<Candle>) returns (chosen: StrategyDecorator.Strategy)
      requires Valid()
      modifies this
      ensures Valid()
      ensures chosen == StrategyOf(Select(old(State()), candles).chosen)
      ensures State() == Select(old(State()), candles).next
    {
      if |candles| < MinCandles {
        return StrategyOf(RiskManagement);
      }
      if cooldown > 0 {
        cooldown := cooldown - 1;
        return StrategyOf(currentStrategy);
      }
      var adxValue := CalculateAdxValue(candles);
      var newStrategy := currentStrategy;
      if adxValue > 25.0 {
        newStrategy := TrendRegime;
      } else if adxValue < 20.0 {
        newStrategy := MeanReversion;
      } else {
        newStrategy := RiskManagement;
      }
      if newStrategy != currentStrategy {
        currentStrategy := newStrategy;
        cooldown := CooldownPeriod;
      }
      return StrategyOf(currentStrategy);
    }
  }
}
