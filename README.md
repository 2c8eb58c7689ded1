# Trading bot engine — a Dafny model

This project models the engine of a Java cryptocurrency trading bot for the BTCUSDT pair. It covers the indicators and strategies, the regime selector, the risk decorators, the trading template, the simulated wallet, and the text helpers inside the service classes.

On each tick the engine does the following:
- It appends a candle to a store that keeps the newest 500.
- A selector picks a strategy from a simplified DX value: MACD when trending, RSI when mean-reverting, and an always-hold default in between. After each switch it keeps its choice for five calls.
- The chosen strategy produces a signal.
- The signal is sized into an order from cached balances, with a 5 USDT minimum.
- The order goes to a receiver. Without API keys the receiver trades on a simulated wallet; with keys it sends a market order to the exchange.

The service classes contain small text routines that are also modelled:
- rounding a quantity down to the exchange step;
- parsing a klines response into a candle;
- reading a free balance and the server time out of a JSON response;
- laying out a signed order query;
- turning the trades CSV into a JSON array;
- turning a POST body into the configured strategy;
- reading API keys from `.env` lines.

Modelling conventions:
- Java `double` becomes `real` and `long` becomes `int`.
- Java strings become `seq<char>`.
- Strategies are values of one datatype. The decorators are variants that wrap another strategy.
- Objects whose fields the source updates in place are Dafny classes with `modifies` clauses: the selector, the bot, the wallet, the observer list and the key configuration.
- Every loop of the source is a method. Each one is proved equal to a specification function, and the properties are proved as lemmas about that function.

Modules, one per source file:
- `Models`: Signal, Candle, Order, Option.
- `Series`: sums of up/down moves.
- `Text`: the Java `String` operations used.
- `SmaCrossover`, `RsiStrategy`, `MacdStrategy`, `AdxStrategy`, `TrendFollowing`, `DefaultStrategy`, `CrashProtection`.
- `StrategyDecorator`: the strategy datatype, dispatch and the decorators.
- `StrategySelector`, `Wallet`, `OrderReceiver`, `PriceSubject`.
- `Bot`: the template, the Bot hooks and BotConfig.
- `BinanceService`, `ApiService`, `BinanceConfig`.

Behaviour of the code worth noting:
- The RSI strategy uses fixed thresholds of 30 and 70, with no trend adaptation.
- MACD has no histogram-reversal entry and needs 35 prices.
- The default strategy never sells.
- HighRisk and LowRisk are identity wrappers.
- Crash protection treats a fall of exactly the threshold as no drop, so the wrapped signal passes through.
- No strategy ever returns STRONG_BUY or STRONG_SELL.
- The trend-following check compares the same pair of prices on every pass of its loop.
- `evaluateData` overwrites the configured strategy on every tick.
- An empty key value counts as configured.

## Model

| member | source | states |
|---|---|---|
| SmaCrossover.CalculateSma | TradingStrategies/SmaCrossover.java:40-48 | the summing loop returns 0 for a list shorter than the window and otherwise the mean of the last `window` values |
| SmaCrossover.SignalRule | TradingStrategies/SmaCrossover.java:17-38 | fewer than `longWindow` prices hold; BUY iff prevShort <= prevLong and short > long; SELL iff prevShort >= prevLong and short < long; the two crosses exclude each other |
| SmaCrossover.SmaOfConstant | TradingStrategies/SmaCrossover.java:40-48 | the average of a constant series is that constant |
| SmaCrossover.ConstantSeriesHolds | TradingStrategies/SmaCrossover.java:17-38 | with short window <= long window, a constant price series always gives HOLD |
| SmaCrossover.FirstFullBar | TradingStrategies/SmaCrossover.java:23-41 | at exactly `longWindow` prices the previous long average is the 0 sentinel, so with positive prices no BUY fires and SELL fires iff short < long |
| RsiStrategy.CalculateRsi | TradingStrategies/RsiStrategy.java:30-53 | the gain/loss loop over the last n changes returns the RSI of the specification |
| RsiStrategy.RsiRange | TradingStrategies/RsiStrategy.java:30-53 | 50 on too little data, always within [0, 100], and 100 exactly when the window has no loss |
| RsiStrategy.SignalThresholds | TradingStrategies/RsiStrategy.java:13-28 | fewer than 15 prices hold; BUY iff RSI <= 30, SELL iff RSI >= 70, HOLD iff strictly between |
| RsiStrategy.OnlyLastFifteen | TradingStrategies/RsiStrategy.java:37-38 | two lists ending in the same 15 prices have the same RSI and the same signal |
| RsiStrategy.RisingWindowSells | TradingStrategies/RsiStrategy.java:37-49 | a non-decreasing last 15 prices give RSI 100 and hence SELL |
| MacdStrategy.CalculateEma | TradingStrategies/MacdStrategy.java:75-90 | the EMA loop returns the recurrence seeded at max(0, index - 4 * period) with k = 2 / (period + 1) |
| MacdStrategy.EmaBasics | TradingStrategies/MacdStrategy.java:76-83 | an out-of-range index gives 0; an index that is its own seed (index 0, or period 0) gives its own value; 0 < k <= 1 |
| MacdStrategy.EmaSeedWindow | TradingStrategies/MacdStrategy.java:78-89 | the seed is index max(0, index - 4 * period), and two series that agree from the seed to the index have the same EMA there: nothing before the seed is read |
| MacdStrategy.EmaFromBounds | TradingStrategies/MacdStrategy.java:85-88 | the recurrence with 0 <= k <= 1 stays between any bounds of the values it reads |
| MacdStrategy.EmaBetween | TradingStrategies/MacdStrategy.java:81-88 | the EMA lies between the minimum and the maximum of the values from its seed to its index |
| MacdStrategy.EmaOfConstant | TradingStrategies/MacdStrategy.java:75-90 | on a constant series the EMA equals the constant |
| MacdStrategy.CalculateMacdValues | TradingStrategies/MacdStrategy.java:44-73 | the loop returns the MACD line and the mean of the MACD values at endIndex, endIndex - 1, ... (at most 9, none below index 26), or 0 when none qualify |
| MacdStrategy.SignalRule | TradingStrategies/MacdStrategy.java:13-41 | fewer than 35 prices hold; BUY iff bullish cross, SELL iff bearish cross; the two exclude each other |
| MacdStrategy.SignalWindowSizes | TradingStrategies/MacdStrategy.java:61-70 | with at least 35 prices the current signal line averages exactly 9 values, the previous one 9, or 8 at exactly 35 prices |
| MacdStrategy.ConstantSeriesHolds | TradingStrategies/MacdStrategy.java:13-73 | a constant series has MACD 0 and signal 0 at every bar, hence HOLD |
| Series.MovesOfBar | TradingStrategies/AdxStrategy.java:65-74 | per bar +DM and -DM are non-negative, at most one is non-zero, and together they are the true range \|curr - prev\| |
| Series.MoveSums | TradingStrategies/AdxStrategy.java:53-79 | summed over a window, the two move sums are non-negative and add up to the true-range sum |
| AdxStrategy.CalculateAdx | TradingStrategies/AdxStrategy.java:41-94 | the backward loop over at most 14 bars, stopping at index 1, returns the DI values and DX of the specification |
| AdxStrategy.AdxRange | TradingStrategies/AdxStrategy.java:76-93 | both DI values are non-negative and DX lies in [0, 100); any price change in the window makes +DI + -DI = 100; a flat window gives 0, 0, 0 |
| AdxStrategy.DxBounds | TradingStrategies/AdxStrategy.java:82-87 | for any non-negative sums, with a zero true range replaced by 1, both DI values are non-negative and DX lies in [0, 100) |
| AdxStrategy.SignalRule | TradingStrategies/AdxStrategy.java:11-33 | fewer than 28 prices hold; BUY iff DX > 25 and +DI > -DI; SELL iff DX > 25 and -DI > +DI; a flat window holds |
| TrendFollowing.IsTrendFollowing | TradingStrategies/TrendFollowing.java:23-32 | the loop with its early return decides whether price[size-5] <= price[size-4], the only pair it ever compares |
| TrendFollowing.SignalRule | TradingStrategies/TrendFollowing.java:10-21 | never SELL; BUY iff at least 5 prices and price[size-5] <= price[size-4]; fewer than 5 hold |
| TrendFollowing.NewestThreeIgnored | TradingStrategies/TrendFollowing.java:23-32 | replacing the newest three prices never changes the signal |
| TrendFollowing.FallingTailBuys | TradingStrategies/TrendFollowing.java:23-32 | 1, 2, 3, 2, 1 gives BUY although the last prices fall |
| DefaultStrategy.GenerateSignal | TradingStrategies/DefaultStrategy.java:10-15 | HOLD for every list |
| DefaultStrategy.Constant | TradingStrategies/DefaultStrategy.java:10-15 | the signal does not depend on the list, the empty list included |
| CrashProtection.CalculateRsi | StrategyDecorator/CrashProtection.java:42-58 | the decorator's own RSI loop over the closes computes the RSI strategy's index, so the same range facts hold |
| CrashProtection.OverrideRule | StrategyDecorator/CrashProtection.java:16-40 | fewer than 15 candles or no drop pass the wrapped signal through; on a drop the result is HOLD iff RSI < 25 and SELL iff RSI >= 25, whatever the wrapped signal |
| CrashProtection.ExactThresholdPassesThrough | StrategyDecorator/CrashProtection.java:26-29 | a fall of exactly the threshold from a positive close is not a drop: the wrapped signal passes through |
| CrashProtection.SteadySlideNeverSells | StrategyDecorator/CrashProtection.java:16-58 | when each of the last 14 closes is below the one before, RSI is 0 and the decorator gives HOLD or the wrapped signal, never its own SELL |
| StrategyDecorator.Name | TradingStrategies/TrendFollowing.java:36-39 | exactly RSI, MACD, ADX, TrendFollowing ("TrendFollowing (Last: 5)") and the default ("Default (Hold)") have a name |
| StrategyDecorator.ChainIsInnermost | StrategyDecorator/StrategyDecorator.java:15-18 | any chain of delegating decorators gives the innermost strategy's signal |
| StrategyDecorator.RiskWrappersIdentity | StrategyDecorator/HighRisk.java:14-22 | HighRisk(S), LowRisk(S), HighRisk(LowRisk(S)), LowRisk(LowRisk(S)) give S's signal, and Crash(HighRisk(S), t) equals Crash(S, t) |
| StrategyDecorator.StripRiskEquivalent | StrategyDecorator/LowRisk.java:14-21 | removing every HighRisk and LowRisk wrapper at every depth keeps the signal on every list |
| StrategyDecorator.CrashOverrideIgnoresWrapped | StrategyDecorator/CrashProtection.java:29-37 | on a detected drop crash protection gives the same HOLD or SELL whatever it wraps |
| StrategyDecorator.NeverStrong | Bot/Bot.java:78-95 | no strategy, however decorated, returns STRONG_BUY or STRONG_SELL, so those sizing branches are never reached |
| StrategySelector.TrueRange | Bot/StrategySelector.java:89-92 | the true range is non-negative, at least each of its three candidates, and equal to one of them |
| StrategySelector.DirectionalMoves | Bot/StrategySelector.java:94-99 | +DM and -DM are non-negative, at most one is positive, and a positive one is the high's rise or the low's fall |
| StrategySelector.CalculateAdx | Bot/StrategySelector.java:79-111 | the backward loop over highs, lows and closes returns the DX of the window ending at endIndex |
| StrategySelector.CalculateAdxValue | Bot/StrategySelector.java:72-76 | 0 below 28 candles, else the DX at the newest candle |
| StrategySelector.AdxValueRange | Bot/StrategySelector.java:72-111 | the selector's DX lies in [0, 100) and is 0 below 28 candles |
| StrategySelector.Target | Bot/StrategySelector.java:53-59 | trend iff DX > 25, mean reversion iff DX < 20, risk management iff 20 <= DX <= 25 |
| StrategySelector.StrategyOf | Bot/StrategySelector.java:25-27 | the three held strategies are MACD, RSI and the default |
| StrategySelector.SelectRules | Bot/StrategySelector.java:35-69 | under 30 candles the default is returned and nothing changes; a running cooldown drops by exactly 1 and returns the current strategy; otherwise the target is chosen, a switch sets cooldown 5 and a repeat leaves 0; the cooldown stays within [0, 5] |
| StrategySelector.AfterValid | Bot/StrategySelector.java:38-66 | every state reached by any sequence of calls keeps 0 <= cooldown <= 5 |
| StrategySelector.CooldownHolds | Bot/StrategySelector.java:38-41 | with cooldown k, the next k calls on at least 30 candles return the current strategy whatever the candles, ending at cooldown 0 |
| StrategySelector.SwitchThenFiveHolds | Bot/StrategySelector.java:61-66 | after a switch the next five calls return the new strategy and the sixth re-evaluates the DX |
| StrategySelector.StrategySelector.constructor | Bot/StrategySelector.java:23-33 | starts on the default strategy with cooldown 0 |
| StrategySelector.StrategySelector.DetermineStrategy | Bot/StrategySelector.java:35-69 | one call updates the two fields and returns exactly what the pure state machine prescribes, keeping the cooldown bound |
| Wallet.LedgerRules | models/Wallet.java:23-27 | each operation moves one balance by exactly the amount and leaves the other; withdrawing a deposit restores the balances |
| Wallet.NoLowerBound | models/Wallet.java:24 | withdrawing more than the balance leaves it negative |
| Wallet.Wallet.constructor | models/Wallet.java:8-11 | 1000 USDT and 0 BTC |
| Wallet.Wallet.DepositUsdt | models/Wallet.java:23 | adds the amount to the USDT balance only |
| Wallet.Wallet.WithdrawUsdt | models/Wallet.java:24 | subtracts the amount from the USDT balance only |
| Wallet.Wallet.DepositBtc | models/Wallet.java:26 | adds the amount to the BTC balance only |
| Wallet.Wallet.WithdrawBtc | models/Wallet.java:27 | subtracts the amount from the BTC balance only |
| Wallet.WalletRegistry.GetInstance | models/Wallet.java:13-18 | the first call creates a wallet with the initial balances; every later call returns that same object |
| OrderReceiver.BuyRule | commands/OrderReceiver.java:26-35 | a covered buy debits qty * price USDT and credits qty BTC; an uncovered one changes nothing |
| OrderReceiver.SellRule | commands/OrderReceiver.java:54-63 | a covered sell debits qty BTC and credits qty * price USDT; an uncovered one changes nothing |
| OrderReceiver.ValuePreserved | commands/OrderReceiver.java:26-60 | simulated buys and sells keep usdt + btc * price |
| OrderReceiver.StaysNonnegative | commands/OrderReceiver.java:29-57 | from non-negative balances, quantity and price, both balances stay non-negative |
| OrderReceiver.BuyThenSellRestores | commands/OrderReceiver.java:23-69 | selling what a covered buy bought at the same price restores the balances |
| OrderReceiver.PlaceBuyOrder | commands/OrderReceiver.java:23-41 | without keys the wallet takes the simulated buy; with keys the wallet is untouched and a market BUY is sent |
| OrderReceiver.PlaceSellOrder | commands/OrderReceiver.java:51-69 | without keys the wallet takes the simulated sell; with keys the wallet is untouched and a market SELL is sent |
| PriceSubject.RemoveFirstRule | PriceObservers/PriceSubject.java:21-27 | removing a registered observer takes away exactly its first occurrence (length and multiset drop by one); an unregistered one leaves the list as it was |
| PriceSubject.RegisterThenRemove | PriceObservers/PriceSubject.java:15-27 | removing a newly registered observer gives back the old list |
| PriceSubject.NotifiedPerRegistration | PriceObservers/PriceSubject.java:30-33 | each observer is notified once per registration, so one registered twice hears the price twice |
| PriceSubject.PriceSubject.constructor | PriceObservers/PriceSubject.java:11-12 | no observers and no price |
| PriceSubject.PriceSubject.Register | PriceObservers/PriceSubject.java:15-18 | appends at the end, price unchanged |
| PriceSubject.PriceSubject.Remove | PriceObservers/PriceSubject.java:21-27 | the search loop deletes the first occurrence, and reports whether there was one |
| PriceSubject.PriceSubject.NotifyObservers | PriceObservers/PriceSubject.java:30-35 | one notification per entry, in list order, each with the current price; the list is unchanged |
| PriceSubject.PriceSubject.SetPrice | PriceObservers/PriceSubject.java:36-38 | replaces the price only |
| Bot.WindowRule | Bot/Bot.java:23-30 | the store stays within 500 entries, ends with the new candle, and drops only its oldest entry, and only when full |
| Bot.FedIsNewest | Bot/Bot.java:24-28 | after any number of ticks the store holds exactly the newest 500 candles seen, or all of them |
| Bot.SizingRules | Bot/Bot.java:61-115 | HOLD or a zero close gives the HOLD order; 98% / 40% of USDT for the buy signals, all / half the BTC for the sell signals; every order is for BTCUSDT, HOLD has quantity 0, and BUY or SELL is worth at least 5 USDT |
| Bot.SizedOrdersAreCovered | Bot/Bot.java:78-101 | sized from non-negative balances at a positive price, a BUY never costs more than the USDT held and a SELL never sells more than the BTC held |
| Bot.ExecutionRule | Bot/Bot.java:117-136 | a HOLD order, or any order in live mode, leaves the wallet alone; a simulated trade keeps its worth |
| Bot.BotConfig.constructor | Bot/BotConfig.java:8-9 | the strategy reference starts unset |
| Bot.Bot.constructor | Bot/Bot.java:14-20 | empty store, fresh selector in its initial state, zero uninitialised balance cache |
| Bot.Bot.FetchData | Bot/Bot.java:23-30 | appends in place, evicts the oldest past 500, returns the store itself |
| Bot.Bot.EvaluateData | Bot/Bot.java:33-45 | an empty list holds and changes nothing; otherwise the selector steps, its choice becomes the configured strategy and supplies the signal |
| Bot.Bot.UpdateBalance | Bot/Bot.java:47-59 | the cache takes the exchange balances when configured, else the wallet's, and is marked initialised |
| Bot.Bot.CreateOrder | Bot/Bot.java:61-115 | HOLD refreshes the cache only if it was never filled, any other signal always; the order is the sizing of the cache at the last close |
| Bot.Bot.ExecuteOrder | Bot/Bot.java:117-136 | HOLD does nothing; BUY or SELL goes to the receiver at the last close and then refreshes the cache |
| Bot.Bot.LogResult | Bot/Bot.java:138-163 | appends the order, the last close and the cached balances to the trade log |
| Bot.Bot.Trade | interfaces/TradingTemplate.java:12-18 | the five hooks run once each, in order, each on what the previous produced, with the same order executed and logged; the resulting store, selector state, configured strategy, wallet, balance cache (initialised; refreshed from the post-execution balances after a BUY or SELL, else the cache the order was sized from) and the log entry carrying that cache are stated in terms of the inputs |
| BinanceService.RoundToStepRule | services/BinanceService.java:117-119 | the result is at most the quantity and less than one step below it, a whole number of steps, non-negative for non-negative input, and rounding again changes nothing |
| BinanceService.BracketedBody | services/BinanceService.java:214-217 | trimming keeps a bracketed text and stripping removes exactly the outer "[[" and "]]" |
| BinanceService.TooFewFields | services/BinanceService.java:222-237 | fewer than seven comma fields (six included) give no candle |
| BinanceService.ParseKline | services/BinanceService.java:212-238 | "[[" + comma-free fields + "]]" parses to the candle of fields 0-6 in order, quotes removed |
| BinanceService.BalanceRule | services/BinanceService.java:292-314 | no asset marker or no located text gives 0.0; a located text holds no quote |
| BinanceService.BalanceRoundTrip | services/BinanceService.java:296-308 | a response with the asset marker, then the free marker, the amount and a quote yields exactly that amount |
| BinanceService.ServerTimeRoundTrip | services/BinanceService.java:84-97 | `{"serverTime":D}` yields D, and local time plus the stored offset is the server time |
| BinanceService.QueryParameters | services/BinanceService.java:146-149 | the signed query splits on & into exactly symbol, side, type=MARKET, quantity, timestamp and signature, in order |
| Text.IndexOf | services/BinanceService.java:297-304 | indexOf with a start index finds the first occurrence at or after it, or -1 when there is none |
| Text.JavaSplitJoin | services/BinanceService.java:222 | Java's split of comma-free fields joined by commas, the last non-empty, gives back the fields |
| ApiService.Contribution | services/ApiService.java:67-69 | a line contributes nothing exactly when it is blank after trimming or has fewer than four fields, else one object |
| ApiService.TradesJson | services/ApiService.java:60-89 | the output starts with "[" and ends with "]"; a read error gives "[]" |
| ApiService.GetTradesAsJson | services/ApiService.java:60-89 | the loop with its `first` flag builds "[" + the objects of the kept lines, joined by single commas, + "]" |
| ApiService.TradeObjectsAppend | services/ApiService.java:66-81 | the objects of two concatenated files are the objects of each, in order |
| ApiService.LineContribution | services/ApiService.java:66-81 | each line adds its own contribution at its own place in the array |
| ApiService.TradeLineFields | services/ApiService.java:67-78 | a non-blank line of 4 or 7 trimmed fields gives the object of exactly those fields, with "0" for missing price, usdt and btc |
| ApiService.LineOfFields | services/ApiService.java:67-68 | comma-free trimmed fields joined by commas form a kept line that splits back into them |
| ApiService.StripWhitespaceRule | services/ApiService.java:115-121 | no whitespace survives reading the body token by token, and every other character does |
| ApiService.StrategyRule | services/ApiService.java:124-147 | CrashProtection (0.02) iff mentioned, else HighRisk, else LowRisk; the base is TrendFollowing iff the body holds that word, else SmaCrossover(5, 10) |
| ApiService.SpacedNameSelectsTrend | services/ApiService.java:115-136 | "Trend Following" written with a space still selects TrendFollowing |
| ApiService.HandlePost | services/ApiService.java:113-147 | the strategy chosen from the whitespace-free body is installed in the shared configuration |
| BinanceConfig.LastApiLineWins | services/BinanceConfig.java:21-22 | after a BINANCE_API_KEY= line and no later one, the API key is that line's trimmed value |
| BinanceConfig.LastSecretLineWins | services/BinanceConfig.java:23-24 | after a BINANCE_SECRET_KEY= line and no later one, the secret key is that line's trimmed value, whatever API-key lines follow |
| BinanceConfig.SecretLineBeforeApiLine | services/BinanceConfig.java:19-26 | a secret-key line followed by an API-key line sets both keys to their trimmed values |
| BinanceConfig.UnrelatedLineIgnored | services/BinanceConfig.java:19-26 | a line that sets neither key changes nothing, wherever it stands |
| BinanceConfig.KeysUntouched | services/BinanceConfig.java:19-26 | lines that do not set the API key leave it as it was, and lines that do not set the secret key leave that one as it was |
| BinanceConfig.PrefixesExclusive | services/BinanceConfig.java:21-24 | no line starts with both prefixes, so the else branch is exact |
| BinanceConfig.MissingFileNotConfigured | services/BinanceConfig.java:7-38 | without a file both placeholders stay and the client is not configured |
| BinanceConfig.EmptyKeysCountAsConfigured | services/BinanceConfig.java:36-38 | key lines with empty values, read last, make the client configured: only the placeholder text counts as unset |
| BinanceConfig.BinanceConfig.constructor | services/BinanceConfig.java:7-12 | the placeholders, then the loading of the file if there is one |
| BinanceConfig.BinanceConfig.LoadEnv | services/BinanceConfig.java:14-34 | the line loop leaves the keys the left-to-right fold of the line rule gives; no file changes nothing |
| BinanceConfig.BinanceConfig.ReadLine | services/BinanceConfig.java:19-26 | one line: the API-key prefix is tested first, then the secret-key prefix, each setting its key to the trimmed rest |

## Left out

- Network and signing: the HTTP requests of `getCandle`, `syncTime`, `placeOrder` and `getWalletBalance`, and HMAC-SHA256 signing. Balances read from the exchange are parameters of `Bot.Bot.Trade` (one snapshot when the order is sized, one after execution); a live order is returned as a value instead of being sent.
- Files, console and clock: the CSV append of `logResult` (kept as a record without its timestamp), reading `trades.csv` and `.env` (the model takes their lines, or `None` when the file cannot be read), all printing, and `LocalDateTime.now` / `System.currentTimeMillis` (the local time is a parameter).
- Concurrency: the `synchronized` blocks on the file lock and the synchronized `getInstance`; everything is sequential.
- The HTTP server, CORS headers, response writing and the GET handler of `ApiService`, including the POST response text.
- `Program.java` (an endless fetch-and-sleep loop) and the Angular frontend.
- `PriceListener`, `BuyCommand` and `SellCommand`: they only forward; `executeOrder` calls the receiver directly. `undo` only prints.
- Floating point: `double` is `real`, so rounding, NaN and infinities are absent. The one division by a possibly zero close in crash protection is given its IEEE outcome explicitly (see `CrashProtection.DropsBelow`).
- `Double.parseDouble` and `Long.parseLong` are function parameters that return `None` where Java throws; the `%.5f` and `%.2f` formatting is not modelled, so the order query takes the quantity text as given.
- `SmaCrossover.Window`: window sizes are positive; the source only ever uses 5 and 10, and a window of 0 would divide by zero.
- `StrategyDecorator.Name`: SmaCrossover and the decorators define no `getName` in the source, so they have no name.
- `ApiService.StripWhitespace`: the scanner's token loop is a function on the whole body; whitespace is Java's on the ASCII range only.
- `parseCandleFromJson`'s unused split on `","` (with quotes) has no effect and is left out; the two `continue` tests of `getTradesAsJson` are one predicate, `IsTradeLine`.
- The unused `AdxStrategy` object of the selector and the unused arrays of `calculateADX`.
- `BinanceConfig.BinanceConfig.ReadLine` is a separate method for the body of the loop, which the source writes inline.
