/**
 * The "trend following" strategy.  Its check loops four times but never
 * uses the loop index, so every pass compares the same pair: the oldest and
 * the second oldest of the last five prices.
 */
module TrendFollowing {
  import opened Models

  const LastXPrice: nat := 5

  const Name: string := "TrendFollowing (Last: 5)"

  /** What `isTrendFollowing` decides: the oldest of the last five prices is not above the next one. */
  predicate FirstPairRises(prices: seq<real>)
    requires |prices| >= LastXPrice
  {
    prices[|prices| - 5] <= prices[|prices| - 4]
  }

  /** `isTrendFollowing`: the loop with its early return. */
  method IsTrendFollowing(prices: seq<real>) returns (b: bool)
    requires |prices| >= LastXPrice
    ensures b <==> FirstPairRises(prices)
  {
    var last := |prices| - LastXPrice;
    var i := 0;
    while i < LastXPrice - 1
      invariant 0 <= i <= LastXPrice - 1
      invariant i > 0 ==> prices[last] <= prices[last + 1]
    {
      if prices[last] > prices[last + 1] {
        return false;
      }
      i := i + 1;
    }
    return true;
  }

  /** `generateSignal`: HOLD on fewer than five prices, else BUY when the first pair rises. */
  function GenerateSignal(prices: seq<real>): Signal
  {
    if |prices| < LastXPrice then Hold
    else if FirstPairRises(prices) then Buy
    else Hold
  }

  /**
   * The strategy never sells; it buys exactly when there are at least five
   * prices and the first pair of the last five does not fall.
   */
  lemma SignalRule(prices: seq<real>)
    ensures GenerateSignal(prices) != Sell
    ensures GenerateSignal(prices) == Buy <==>
      |prices| >= 5 && prices[|prices| - 5] <= prices[|prices| - 4]
    ensures |prices| < 5 ==> GenerateSignal(prices) == Hold
  {
  }

  /** The newest three prices do not influence the signal: replacing them changes nothing. */
  lemma NewestThreeIgnored(prices: seq<real>, newest: seq<real>)
    requires |prices| >= 5 && |newest| == 3
    ensures GenerateSignal(prices[..|prices| - 3] + newest) == GenerateSignal(prices)
  {
    var q := prices[..|prices| - 3] + newest;
    assert q[|q| - 5] == prices[|prices| - 5];
    assert q[|q| - 4] == prices[|prices| - 4];
  }

  /** Prices that fall after the first pair rises still give BUY: the check never looks past that pair. */
  lemma FallingTailBuys()
    ensures GenerateSignal([1.0, 2.0, 3.0, 2.0, 1.0]) == Buy
  {
  }
}
