/**
 * The bot: the template's fixed sequence of hooks (fetch the data, evaluate
 * it, create an order, execute it, log it) over the one candle store, with
 * the hooks the Bot class supplies.  The store keeps the newest 500 candles;
 * the selector's choice becomes the configured strategy; signals are sized
 * into orders from cached balances with a 5 USDT minimum; orders go to the
 * order receiver.
 *
 * The exchange's live balances are parameters: one snapshot read when the
 * order is sized and one after it is executed.  The CSV line of `logResult`
 * is kept as a record without its timestamp.
 */
module Bot {
  import opened Models
  import opened Wallet
  import OrderReceiver
  import StrategyDecorator
  import StrategySelector

  const MaxCandles: nat := 500
  const Symbol: string := "BTCUSDT"
  const MinNotional: real := 5.0

  // ---------------------------------------------------------------
  // The candle store
  // ---------------------------------------------------------------

  /** `fetchData` on the store: the candle goes at the end, and past 500 entries the oldest is dropped. */
  function Window(data: seq<Candle>, candle: Candle): seq<Candle>
  {
    var d := data + [candle];
    if |d| > MaxCandles then d[1..] else d
  }

  /** The store stays within 500 entries, ends with the new candle, and only drops its oldest entry when full. */
  lemma WindowRule(data: seq<Candle>, candle: Candle)
    requires |data| <= MaxCandles
    ensures |Window(data, candle)| <= 500
    ensures Window(data, candle) != [] && Window(data, candle)[|Window(data, candle)| - 1] == candle
    ensures |data| < 500 ==> Window(data, candle) == data + [candle]
    ensures |data| == 500 ==> Window(data, candle) == data[1..] + [candle]
  {
  }

  /** The store after feeding `candles` one by one into an empty one. */
  function Fed(candles: seq<Candle>): seq<Candle>
  {
    if candles == [] then []
    else Window(Fed(candles[..|candles| - 1]), candles[|candles| - 1])
  }

  /** After any number of ticks the store holds exactly the newest 500 candles seen (or all of them). */
  lemma {:induction false} FedIsNewest(candles: seq<Candle>)
    ensures |candles| <= 500 ==> Fed(candles) == candles
    ensures |candles| > 500 ==> Fed(candles) == candles[|candles| - 500..]
  {
    if candles != [] {
      var prefix := candles[..|candles| - 1];
      FedIsNewest(prefix);
      assert prefix + [candles[|candles| - 1]] == candles;
      if |candles| > 501 {
        assert prefix[|prefix| - 500..][1..] + [candles[|candles| - 1]] == candles[|candles| - 500..];
      }
    }
  }

  /** The last close in the store, or 0 when it is empty. */
  function CurrentPrice(data: seq<Candle>): real
  {
    if data == [] then 0.0 else data[|data| - 1].close
  }

  // ---------------------------------------------------------------
  // Order sizing
  // ---------------------------------------------------------------

  function HoldOrder(): Order
  {
    Order(Symbol, "HOLD", 0.0)
  }

  /**
   * `createOrder` once the balances are known: HOLD, or a last close of 0,
   * gives the HOLD order; STRONG_BUY spends 98% and BUY 40% of the USDT,
   * STRONG_SELL sells all and SELL half of the BTC; an order worth less
   * than 5 USDT becomes the HOLD order.
   */
  function SizeOrder(signal: Signal, usdt: real, btc: real, price: real): Order
  {
    if signal == Hold || price == 0.0 then HoldOrder()
    else
      var side := if signal == StrongBuy || signal == Buy then "BUY" else "SELL";
      var quantity := match signal
        case StrongBuy => (usdt * 0.98) / price
        case Buy => (usdt * 0.40) / price
        case StrongSell => btc
        case _ => btc * 0.50;
      if quantity * price < MinNotional then HoldOrder() else Order(Symbol, side, quantity)
  }

  /**
   * Every order is for BTCUSDT; a HOLD order has quantity 0; every BUY or
   * SELL order is worth at least 5 USDT at the last close; BUY comes only
   * from the buy signals and SELL only from the sell signals; and each
   * signal commits the share of the balance the source names.
   */
  lemma SizingRules(signal: Signal, usdt: real, btc: real, price: real)
    ensures var r := SizeOrder(signal, usdt, btc, price);
      && r.symbol == "BTCUSDT"
      && r.side in {"BUY", "SELL", "HOLD"}
      && (r.side == "HOLD" ==> r.quantity == 0.0)
      && (r.side != "HOLD" ==> price != 0.0 && r.quantity * price >= 5.0)
      && (r.side == "BUY" ==> signal in {StrongBuy, Buy})
      && (r.side == "SELL" ==> signal in {StrongSell, Sell})
    ensures signal == Hold || price == 0.0 ==> SizeOrder(signal, usdt, btc, price) == HoldOrder()
    ensures price != 0.0 && signal == StrongBuy ==>
      SizeOrder(signal, usdt, btc, price) == (if usdt * 0.98 < 5.0 then HoldOrder() else Order("BTCUSDT", "BUY", usdt * 0.98 / price))
    ensures price != 0.0 && signal == Buy ==>
      SizeOrder(signal, usdt, btc, price) == (if usdt * 0.40 < 5.0 then HoldOrder() else Order("BTCUSDT", "BUY", usdt * 0.40 / price))
    ensures price != 0.0 && signal == StrongSell ==>
      SizeOrder(signal, usdt, btc, price) == (if btc * price < 5.0 then HoldOrder() else Order("BTCUSDT", "SELL", btc))
    ensures price != 0.0 && signal == Sell ==>
      SizeOrder(signal, usdt, btc, price) == (if btc * 0.50 * price < 5.0 then HoldOrder() else Order("BTCUSDT", "SELL", btc * 0.50))
  {
    if price != 0.0 {
      assert (usdt * 0.98) / price * price == usdt * 0.98;
      assert (usdt * 0.40) / price * price == usdt * 0.40;
      var r := SizeOrder(signal, usdt, btc, price);
      if signal == StrongSell {
        assert btc * price >= 5.0 ==> r.side == "SELL" && r.quantity == btc;
      } else if signal == Sell {
        assert btc * 0.50 * price >= 5.0 ==> r.side == "SELL" && r.quantity == btc * 0.50;
      }
    }
  }

  /**
   * Sized from the wallet's own balances at a positive price, a BUY order
   * never costs more than the USDT held and a SELL order never sells more
   * than the BTC held, so the simulated trade always goes through.
   */
  lemma SizedOrdersAreCovered(signal: Signal, b: Balances, price: real)
    requires b.usdt >= 0.0 && b.btc >= 0.0 && price > 0.0
    ensures var r := SizeOrder(signal, b.usdt, b.btc, price);
      r.side == "BUY" ==>
        && b.usdt >= r.quantity * price
        && OrderReceiver.SimulateBuy(b, r.quantity, price) == Balances(b.usdt - r.quantity * price, b.btc + r.quantity)
    ensures var r := SizeOrder(signal, b.usdt, b.btc, price);
      r.side == "SELL" ==>
        && b.btc >= r.quantity
        && OrderReceiver.SimulateSell(b, r.quantity, price) == Balances(b.usdt + r.quantity * price, b.btc - r.quantity)
  {
    SizingRules(signal, b.usdt, b.btc, price);
  }

  // ---------------------------------------------------------------
  // Execution and the balance cache
  // ---------------------------------------------------------------

  /** Where `updateBalance` reads the balances: the exchange when configured, else the wallet. */
  function BalanceSource(configured: bool, live: Balances, wallet: Balances): Balances
  {
    if configured then live else wallet
  }

  /** What executing an order does to the wallet. */
  function ExecutionEffect(b: Balances, configured: bool, order: Order, price: real): Balances
  {
    if configured then b
    else if order.side == "BUY" then OrderReceiver.SimulateBuy(b, order.quantity, price)
    else if order.side == "SELL" then OrderReceiver.SimulateSell(b, order.quantity, price)
    else b
  }

  /** A HOLD order and any order in live mode leave the wallet alone; a simulated trade keeps its worth at the price. */
  lemma ExecutionRule(b: Balances, configured: bool, order: Order, price: real)
    ensures order.side == "HOLD" || configured ==> ExecutionEffect(b, configured, order, price) == b
    ensures OrderReceiver.Value(ExecutionEffect(b, configured, order, price), price) == OrderReceiver.Value(b, price)
  {
    OrderReceiver.ValuePreserved(b, order.quantity, price);
  }

  /** The hooks of the template, with what each receives. */
  datatype Hook =
    | Fetched(candle: Candle)
    | Evaluated(candles: seq<Candle>)
    | Created(signal: Signal)
    | Executed(order: Order)
    | Logged(order: Order)

  /** What `logResult` appends to the trade log (the timestamp is left out). */
  datatype TradeRecord = TradeRecord(order: Order, price: real, usdt: real, btc: real)

  /** The single strategy reference of the configuration; null until someone sets it. */
  class BotConfig {
    var strategy: Option<StrategyDecorator.Strategy>

    constructor()
      ensures strategy == None
    {
      strategy := None;
    }
  }

  class Bot {
    var data: seq<Candle>
    const config: BotConfig
    const selector: StrategySelector.StrategySelector
    const wallet: Wallet
    /** Whether API keys are present (`BinanceConfig.isConfigured`). */
    const configured: bool
    var lastUsdtBalance: real
    var lastBtcBalance: real
    var isBalanceInitialized: bool
    var trades: seq<TradeRecord>
    ghost var hooks: seq<Hook>

    predicate Valid()
      reads this, selector
    {
      |data| <= MaxCandles && selector.Valid()
    }

    function Cached(): Balances
      reads this
    {
      Balances(lastUsdtBalance, lastBtcBalance)
    }

    constructor(config: BotConfig, wallet: Wallet, configured: bool)
      ensures Valid()
      ensures this.config == config && this.wallet == wallet && this.configured == configured
      ensures fresh(selector) && selector.State() == StrategySelector.Initial
      ensures data == [] && trades == [] && hooks == []
      ensures Cached() == Balances(0.0, 0.0) && !isBalanceInitialized
    {
      this.config := config;
      this.wallet := wallet;
      this.configured := configured;
      selector := new StrategySelector.StrategySelector();
      data := [];
      lastUsdtBalance, lastBtcBalance := 0.0, 0.0;
      isBalanceInitialized := false;
      trades := [];
      hooks := [];
    }

    /** `fetchData`: appends in place, evicts the oldest past 500, and hands on the store itself. */
    method FetchData(candle: Candle) returns (candles: seq<Candle>)
      modifies this`data, this`hooks
      ensures data == Window(old(data), candle) && candles == data
      ensures hooks == old(hooks) + [Fetched(candle)]
    {
      hooks := hooks + [Fetched(candle)];
      data := data + [candle];
      if |data| > MaxCandles {
        data := data[1..];
      }
      candles := data;
    }

    /**
     * `evaluateData`: HOLD on an empty list; otherwise the selector steps,
     * its choice becomes the configured strategy, and that strategy's signal
     * is returned.
     */
    method EvaluateData(candles: seq<Candle>) returns (signal: Signal)
      requires selector.Valid()
      modifies config, selector, this`hooks
      ensures selector.Valid()
      ensures hooks == old(hooks) + [Evaluated(candles)]
      ensures candles == [] ==>
        signal == Hold && selector.State() == old(selector.State()) && config.strategy == old(config.strategy)
      ensures candles != [] ==>
        var sel := StrategySelector.Select(old(selector.State()), candles);
        var chosen := StrategySelector.StrategyOf(sel.chosen);
        && selector.State() == sel.next
        && config.strategy == Some(chosen)
        && signal == StrategyDecorator.Generate(chosen, candles)
    {
      hooks := hooks + [Evaluated(candles)];
      if candles == [] {
        return Hold;
      }
      var best := selector.DetermineStrategy(candles);
      if config.strategy != Some(best) {
        config.strategy := Some(best);
      }
      signal := StrategyDecorator.Generate(config.strategy.value, candles);
    }

    /** `updateBalance`: refreshes the cache from the exchange or the wallet and marks it initialised. */
    method UpdateBalance(live: Balances)
      modifies this`lastUsdtBalance, this`lastBtcBalance, this`isBalanceInitialized
      ensures isBalanceInitialized
      ensures Cached() == BalanceSource(configured, live, wallet.Contents())
    {
      if configured {
        lastUsdtBalance := live.usdt;
        lastBtcBalance := live.btc;
      } else {
        lastUsdtBalance := wallet.usdtBalance;
        lastBtcBalance := wallet.btcBalance;
      }
      isBalanceInitialized := true;
    }

    /**
     * `createOrder`: a HOLD signal refreshes the cache only if it was never
     * filled, any other signal always refreshes it; the order is sized from
     * the cache and the last close.
     */
    method CreateOrder(signal: Signal, live: Balances) returns (order: Order)
      modifies this`lastUsdtBalance, this`lastBtcBalance, this`isBalanceInitialized, this`hooks
      ensures hooks == old(hooks) + [Created(signal)]
      ensures isBalanceInitialized
      ensures Cached() ==
        if signal == Hold && old(isBalanceInitialized) then old(Cached())
        else BalanceSource(configured, live, wallet.Contents())
      ensures order == SizeOrder(signal, lastUsdtBalance, lastBtcBalance, CurrentPrice(data))
    {
      hooks := hooks + [Created(signal)];
      if signal == Hold {
        if !isBalanceInitialized {
          UpdateBalance(live);
        }
        return HoldOrder();
      }
      UpdateBalance(live);
      var currentPrice := if data == [] then 0.0 else data[|data| - 1].close;
      if currentPrice == 0.0 {
        return HoldOrder();
      }
      var side := "HOLD";
      var quantity := 0.0;
      match signal {
        case StrongBuy =>
          side := "BUY";
          quantity := (lastUsdtBalance * 0.98) / currentPrice;
        case Buy =>
          side := "BUY";
          quantity := (lastUsdtBalance * 0.40) / currentPrice;
        case StrongSell =>
          side := "SELL";
          quantity := lastBtcBalance;
        case Sell =>
          side := "SELL";
          quantity := lastBtcBalance * 0.50;
      }
      if side != "HOLD" && quantity * currentPrice < MinNotional {
        return HoldOrder();
      }
      order := Order(Symbol, side, quantity);
    }

    /**
     * `executeOrder`: a HOLD order does nothing; a BUY or SELL order goes to
     * the receiver at the last close, and then the cache is refreshed.
     */
    method ExecuteOrder(order: Order, live: Balances) returns (sent: Option<OrderReceiver.LiveOrder>)
      modifies wallet, this`lastUsdtBalance, this`lastBtcBalance, this`isBalanceInitialized, this`hooks
      ensures hooks == old(hooks) + [Executed(order)]
      ensures wallet.Contents() == ExecutionEffect(old(wallet.Contents()), configured, order, CurrentPrice(data))
      ensures order.side in {"BUY", "SELL"} ==>
        && isBalanceInitialized
        && Cached() == BalanceSource(configured, live, wallet.Contents())
        && (sent.Some? <==> configured)
        && (configured ==> sent.value == OrderReceiver.LiveOrder(order.symbol, order.side, order.quantity))
      ensures order.side !in {"BUY", "SELL"} ==>
        && sent == None
        && Cached() == old(Cached()) && isBalanceInitialized == old(isBalanceInitialized)
    {
      hooks := hooks + [Executed(order)];
      sent := None;
      if order.side == "HOLD" {
        return;
      }
      var currentPrice := if data == [] then 0.0 else data[|data| - 1].close;
      if order.side == "BUY" {
        sent := OrderReceiver.PlaceBuyOrder(wallet, configured, order, currentPrice);
        UpdateBalance(live);
      } else if order.side == "SELL" {
        sent := OrderReceiver.PlaceSellOrder(wallet, configured, order, currentPrice);
        UpdateBalance(live);
      }
    }

    /** `logResult`: appends the order, the last close and the cached balances to the trade log. */
    method LogResult(order: Order)
      modifies this`trades, this`hooks
      ensures hooks == old(hooks) + [Logged(order)]
      ensures trades == old(trades) + [TradeRecord(order, CurrentPrice(data), lastUsdtBalance, lastBtcBalance)]
    {
      hooks := hooks + [Logged(order)];
      var currentPrice := if data == [] then 0.0 else data[|data| - 1].close;
      trades := trades + [TradeRecord(order, currentPrice, lastUsdtBalance, lastBtcBalance)];
    }

    /**
     * `trade`: the five hooks, once each and in order, each receiving what the
     * one before produced, and the same order going to execution and the log.
     * Since the fetched list is never empty, every tick overwrites the
     * configured strategy with the selector's choice.
     */
    method Trade(candle: Candle, liveAtSizing: Balances, liveAfterExecution: Balances)
      requires Valid()
      modifies this, config, selector, wallet
      ensures Valid()
      ensures data == Window(old(data), candle)
      ensures
        var sel := StrategySelector.Select(old(selector.State()), data);
        var signal := StrategyDecorator.Generate(StrategySelector.StrategyOf(sel.chosen), data);
        var sizedFrom :=
          if signal == Hold && old(isBalanceInitialized) then old(Cached())
          else BalanceSource(configured, liveAtSizing, old(wallet.Contents()));
        var order := SizeOrder(signal, sizedFrom.usdt, sizedFrom.btc, CurrentPrice(data));
        && selector.State() == sel.next
        && config.strategy == Some(StrategySelector.StrategyOf(sel.chosen))
        && hooks == old(hooks) + [Fetched(candle), Evaluated(data), Created(signal), Executed(order), Logged(order)]
        && wallet.Contents() == ExecutionEffect(old(wallet.Contents()), configured, order, CurrentPrice(data))
        && isBalanceInitialized
        && Cached() ==
          (if order.side in {"BUY", "SELL"} then BalanceSource(configured, liveAfterExecution, wallet.Contents())
           else sizedFrom)
        && trades == old(trades) + [TradeRecord(order, CurrentPrice(data), Cached().usdt, Cached().btc)]
    {
      WindowRule(data, candle);
      var candles := FetchData(candle);
      var signal := EvaluateData(candles);
      var order := CreateOrder(signal, liveAtSizing);
      var _ := ExecuteOrder(order, liveAfterExecution);
      LogResult(order);
    }
  }
}
