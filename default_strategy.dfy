/** The fallback strategy: it never trades. */
module DefaultStrategy {
  import opened Models

  const Name: string := "Default (Hold)"

  /** `generateSignal` ignores its input and holds. */
  function GenerateSignal(candles: seq<Candle>): (r: Signal)
    ensures r == Hold
  {
    Hold
  }

  /** The result does not depend on the candle list, the empty one included. */
  lemma Constant(a: seq<Candle>, b: seq<Candle>)
    ensures GenerateSignal(a) == GenerateSignal(b) == GenerateSignal([])
  {
  }
}
