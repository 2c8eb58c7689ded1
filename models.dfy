/**
 * The value types shared by the whole engine: the five-valued trading
 * signal, a market candle and an order.  Java `double` fields are modelled
 * as `real`, Java `long` fields as `int`.
 */
module Models {

  /** The recommendation a strategy returns for one tick. */
  datatype Signal = StrongBuy | Buy | Hold | Sell | StrongSell

  /**
   * One OHLCV bar.  Strategies that the source writes over `Price.value`
   * read `close` here: the two list types are one.
   */
  datatype Candle = Candle(
    openTime: int,
    open: real,
    high: real,
    low: real,
    close: real,
    volume: real,
    closeTime: int)

  /** An order as the bot hands it on: the side is the source's text, "BUY", "SELL" or "HOLD". */
  datatype Order = Order(symbol: string, side: string, quantity: real)

  /** A value that may be missing: a text that does not parse, a name a class does not define. */
  datatype Option<T> = None | Some(value: T)

  /** The closing prices of a candle list, in order. */
  function Closes(candles: seq<Candle>): (r: seq<real>)
    ensures |r| == |candles|
  {
    seq(|candles|, i requires 0 <= i < |candles| => candles[i].close)
  }
}
