/**
 * Strategies as values: the six base strategies and the three decorators
 * as tagged variants wrapping another strategy.  The base decorator only
 * delegates to its wrapped strategy; HighRisk and LowRisk add nothing to
 * that, so only CrashProtection changes a signal.
 */
module StrategyDecorator {
  import opened Models
  import SmaCrossover
  import RsiStrategy
  import MacdStrategy
  import AdxStrategy
  import TrendFollowing
  import DefaultStrategy
  import CrashProtection

  datatype Strategy =
    | Sma(shortWindow: SmaCrossover.Window, longWindow: SmaCrossover.Window)
    | Rsi
    | Macd
    | Adx
    | Trend
    | Default
    | Crash(wrapped: Strategy, dropThreshold: real)
    | HighRisk(wrapped: Strategy)
    | LowRisk(wrapped: Strategy)

  /** `generateSignal` of each strategy on a candle list; the price-based ones read the closes. */
  function Generate(s: Strategy, candles: seq<Candle>): Signal
    decreases s
  {
    match s
    case Sma(sw, lw) => SmaCrossover.GenerateSignal(Closes(candles), sw, lw)
    case Rsi => RsiStrategy.GenerateSignal(Closes(candles))
    case Macd => MacdStrategy.GenerateSignal(Closes(candles))
    case Adx => AdxStrategy.GenerateSignal(Closes(candles))
    case Trend => TrendFollowing.GenerateSignal(Closes(candles))
    case Default => DefaultStrategy.GenerateSignal(candles)
    case Crash(w, t) => CrashProtection.Protect(candles, t, Generate(w, candles))
    case HighRisk(w) => Generate(w, candles)
    case LowRisk(w) => Generate(w, candles)
  }

  /**
   * `getName`.  SmaCrossover and the decorators do not define one, so they
   * have no name here.
   */
  function Name(s: Strategy): (r: Option<string>)
    ensures r.Some? <==> s in {Rsi, Macd, Adx, Trend, Default}
  {
    match s
    case Rsi => Some("RSI Strategy (14)")
    case Macd => Some("MACD (12, 26, 9)")
    case Adx => Some("ADX Strategy (Simplified)")
    case Trend => Some(TrendFollowing.Name)
    case Default => Some(DefaultStrategy.Name)
    case _ => None
  }

  /** The strategy with every HighRisk and LowRisk wrapper removed, at every depth. */
  function StripRisk(s: Strategy): (r: Strategy)
    ensures !r.HighRisk? && !r.LowRisk?
    decreases s
  {
    match s
    case Crash(w, t) => Crash(StripRisk(w), t)
    case HighRisk(w) => StripRisk(w)
    case LowRisk(w) => StripRisk(w)
    case _ => s
  }

  /** No HighRisk or LowRisk wrapper anywhere in `s`. */
  predicate RiskFree(s: Strategy)
    decreases s
  {
    match s
    case Crash(w, _) => RiskFree(w)
    case HighRisk(_) => false
    case LowRisk(_) => false
    case _ => true
  }

  /**
   * HighRisk and LowRisk are identity wrappers at any depth: removing all of
   * them gives a risk-free strategy with the same signal on every list.
   */
  lemma {:induction false} StripRiskEquivalent(s: Strategy, candles: seq<Candle>)
    ensures RiskFree(StripRisk(s))
    ensures Generate(StripRisk(s), candles) == Generate(s, candles)
    decreases s
  {
    match s
    case Crash(w, t) =>
      StripRiskEquivalent(w, candles);
    case HighRisk(w) =>
      StripRiskEquivalent(w, candles);
    case LowRisk(w) =>
      StripRiskEquivalent(w, candles);
    case _ =>
  }

  /** The innermost base strategy under a chain of decorators. */
  function Innermost(s: Strategy): (r: Strategy)
    ensures !r.Crash? && !r.HighRisk? && !r.LowRisk?
    decreases s
  {
    match s
    case Crash(w, _) => Innermost(w)
    case HighRisk(w) => Innermost(w)
    case LowRisk(w) => Innermost(w)
    case _ => s
  }

  /** No CrashProtection anywhere in `s`. */
  predicate CrashFree(s: Strategy)
    decreases s
  {
    match s
    case Crash(_, _) => false
    case HighRisk(w) => CrashFree(w)
    case LowRisk(w) => CrashFree(w)
    case _ => true
  }

  /** A chain of HighRisk and LowRisk wrappers is equivalent to the strategy innermost in it. */
  lemma {:induction false} ChainIsInnermost(s: Strategy, candles: seq<Candle>)
    requires CrashFree(s)
    ensures Generate(s, candles) == Generate(Innermost(s), candles)
    decreases s
  {
    match s
    case HighRisk(w) =>
      ChainIsInnermost(w, candles);
    case LowRisk(w) =>
      ChainIsInnermost(w, candles);
    case _ =>
  }

  /** HighRisk(S), LowRisk(S), HighRisk(LowRisk(S)) and LowRisk(LowRisk(S)) all give S's signal; HighRisk under crash protection changes nothing. */
  lemma RiskWrappersIdentity(s: Strategy, t: real, candles: seq<Candle>)
    ensures Generate(HighRisk(s), candles) == Generate(s, candles)
    ensures Generate(LowRisk(s), candles) == Generate(s, candles)
    ensures Generate(HighRisk(LowRisk(s)), candles) == Generate(s, candles)
    ensures Generate(LowRisk(LowRisk(s)), candles) == Generate(s, candles)
    ensures Generate(Crash(HighRisk(s), t), candles) == Generate(Crash(s, t), candles)
  {
  }

  /** On a detected drop the crash-protection result does not depend on the wrapped strategy at all. */
  lemma CrashOverrideIgnoresWrapped(a: Strategy, b: Strategy, t: real, candles: seq<Candle>)
    requires |candles| >= 15 && CrashProtection.DropDetected(candles, t)
    ensures Generate(Crash(a, t), candles) == Generate(Crash(b, t), candles)
    ensures Generate(Crash(a, t), candles) in {Hold, Sell}
  {
    CrashProtection.OverrideRule(candles, t, Generate(a, candles), Generate(b, candles));
  }

  /** No strategy, however decorated, ever produces STRONG_BUY or STRONG_SELL. */
  lemma {:induction false} NeverStrong(s: Strategy, candles: seq<Candle>)
    ensures Generate(s, candles) in {Buy, Hold, Sell}
    decreases s
  {
    match s
    case Crash(w, t) =>
      NeverStrong(w, candles);
      CrashProtection.OverrideRule(candles, t, Generate(w, candles), Generate(w, candles));
    case HighRisk(w) =>
      NeverStrong(w, candles);
    case LowRisk(w) =>
      NeverStrong(w, candles);
    case _ =>
  }
}
