/**
 * The receiver of buy and sell orders.  Without API keys it trades on the
 * simulated wallet: a buy pays quantity * price USDT for the quantity in
 * BTC when the USDT balance covers it, a sell gives up the quantity in BTC
 * for quantity * price USDT when the BTC balance covers it, and otherwise
 * nothing changes.  With API keys it sends a market order instead.
 */
module OrderReceiver {
  import opened Models
  import opened Wallet
  import Series

  /** A market order sent to the exchange in live mode. */
  datatype LiveOrder = LiveOrder(symbol: string, side: string, quantity: real)

  /** The simulated buy on a pair of balances. */
  function SimulateBuy(b: Balances, quantity: real, price: real): Balances
  {
    var cost := quantity * price;
    if b.usdt >= cost then CreditBtc(DebitUsdt(b, cost), quantity) else b
  }

  /** The simulated sell on a pair of balances. */
  function SimulateSell(b: Balances, quantity: real, price: real): Balances
  {
    var cost := quantity * price;
    if b.btc >= quantity then CreditUsdt(DebitBtc(b, quantity), cost) else b
  }

  /** The wallet's worth in USDT at a price. */
  function Value(b: Balances, price: real): real
  {
    b.usdt + b.btc * price
  }

  /**
   * A covered buy moves exactly quantity * price USDT into the quantity in
   * BTC; an uncovered one changes nothing.
   */
  lemma BuyRule(b: Balances, quantity: real, price: real)
    ensures b.usdt >= quantity * price ==>
      SimulateBuy(b, quantity, price) == Balances(b.usdt - quantity * price, b.btc + quantity)
    ensures b.usdt < quantity * price ==> SimulateBuy(b, quantity, price) == b
  {
  }

  /**
   * A covered sell moves exactly the quantity in BTC into quantity * price
   * USDT; an uncovered one changes nothing.
   */
  lemma SellRule(b: Balances, quantity: real, price: real)
    ensures b.btc >= quantity ==>
      SimulateSell(b, quantity, price) == Balances(b.usdt + quantity * price, b.btc - quantity)
    ensures b.btc < quantity ==> SimulateSell(b, quantity, price) == b
  {
  }

  /** Simulated trades exchange at the given price, so the wallet's worth at that price is unchanged. */
  lemma ValuePreserved(b: Balances, quantity: real, price: real)
    ensures Value(SimulateBuy(b, quantity, price), price) == Value(b, price)
    ensures Value(SimulateSell(b, quantity, price), price) == Value(b, price)
  {
    assert (b.btc + quantity) * price == b.btc * price + quantity * price;
    assert (b.btc - quantity) * price == b.btc * price - quantity * price;
  }

  /** From non-negative balances, with a non-negative quantity and price, both balances stay non-negative. */
  lemma StaysNonnegative(b: Balances, quantity: real, price: real)
    requires b.usdt >= 0.0 && b.btc >= 0.0 && quantity >= 0.0 && price >= 0.0
    ensures var r := SimulateBuy(b, quantity, price); r.usdt >= 0.0 && r.btc >= 0.0
    ensures var r := SimulateSell(b, quantity, price); r.usdt >= 0.0 && r.btc >= 0.0
  {
    Series.MulNonneg(quantity, price);
  }

  /** Selling what a covered buy just bought, at the same price, gives back the balances. */
  lemma BuyThenSellRestores(b: Balances, quantity: real, price: real)
    requires b.usdt >= quantity * price && b.btc >= 0.0
    ensures SimulateSell(SimulateBuy(b, quantity, price), quantity, price) == b
  {
  }

  /**
   * `placeBuyOrder`: in simulation the wallet takes the simulated buy; in
   * live mode the wallet is untouched and a market BUY goes out.
   */
  method PlaceBuyOrder(wallet: Wallet, configured: bool, order: Order, currentPrice: real)
      returns (sent: Option<LiveOrder>)
    modifies wallet
    ensures configured ==> wallet.Contents() == old(wallet.Contents())
    ensures configured ==> sent == Some(LiveOrder(order.symbol, "BUY", order.quantity))
    ensures !configured ==> sent == None
    ensures !configured ==> wallet.Contents() == SimulateBuy(old(wallet.Contents()), order.quantity, currentPrice)
  {
    if !configured {
      var cost := order.quantity * currentPrice;
      if wallet.usdtBalance >= cost {
        wallet.WithdrawUsdt(cost);
        wallet.DepositBtc(order.quantity);
      }
      sent := None;
    } else {
      sent := Some(LiveOrder(order.symbol, "BUY", order.quantity));
    }
  }

  /**
   * `placeSellOrder`: in simulation the wallet takes the simulated sell; in
   * live mode the wallet is untouched and a market SELL goes out.
   */
  method PlaceSellOrder(wallet: Wallet, configured: bool, order: Order, currentPrice: real)
      returns (sent: Option<LiveOrder>)
    modifies wallet
    ensures configured ==> wallet.Contents() == old(wallet.Contents())
    ensures configured ==> sent == Some(LiveOrder(order.symbol, "SELL", order.quantity))
    ensures !configured ==> sent == None
    ensures !configured ==> wallet.Contents() == SimulateSell(old(wallet.Contents()), order.quantity, currentPrice)
  {
    if !configured {
      var cost := order.quantity * currentPrice;
      if wallet.btcBalance >= order.quantity {
        wallet.WithdrawBtc(order.quantity);
        wallet.DepositUsdt(cost);
      }
      sent := None;
    } else {
      sent := Some(LiveOrder(order.symbol, "SELL", order.quantity));
    }
  }
}
