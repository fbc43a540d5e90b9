# trade-sonic, modelled in Dafny

This project models the sequential core of the trade-sonic services and proves what they promise. trade-sonic has four services:

- **market-streaming**: three websocket streamers for the Finnhub trade feed.
  - The plain streamer stops at its first failed read.
  - The stock and crypto streamers reconnect with exponential backoff.
  - The stock streamer also warns outside market hours.
  - The streaming command supplies a trade handler and its symbol lists.
- **strategy-engine**:
  - the engine, a registry of strategies keyed by name that fans each tick out to every strategy;
  - the stop-loss strategy. It tracks the highest price seen per stock symbol and per option position. It emits a SELL signal when the drawdown from that high reaches a threshold, and it merges option positions fetched from the position service.
- **token-service**: a per-account-type token cache with expiry, and the Robinhood login. The login either returns a token directly or runs a verification workflow with a prompt poll of at most 30 checks.
- **position-service**: a per-account-type cache of position lists without expiry, and the Robinhood fetch. The fetch keeps the open option positions and values them from a batch of option prices, using fallback chains for prices that do not parse.

How the model represents them:

- **The outside world is an input.**
  - The streamers talk to a `Transport.Env` value that holds:
    - a script of dial and read outcomes;
    - the set of writes that fail;
    - the clock;
    - a log of every effect (dial, write, close, sleep, handler call).
  - The token service consumes a script of HTTP replies.
  - The position service and the stop-loss fetch take their replies as parameters.
- **Objects are classes.** Each object whose fields the Go code updates is a Dafny class with the same fields: streamers, engine, strategy and services. Their methods are proved against specification functions (`Run`/`Reconnect`, `Register`, `StockStep`, `OptionScan`, `Merge`, `Login`, `GetTokenSpec`, `FetchPositions`, `GetPositionsSpec`), and the lemmas state the promised properties about those functions.
- **Numbers and time.**
  - Floats are `real`.
  - Times are integer nanoseconds.
  - `strconv.ParseFloat` is an `Option<real>` field.
  - Go's truncating float-to-integer conversion and integer division are written out (`Token.Truncate`, `StreamerMain.TruncDiv`).
- **Map iteration order.** Go leaves it unspecified, so the model picks the next key with `:|` and returns the visiting order as a ghost result. Contracts hold for every order.
- **Unending streams.** The reconnecting `Stream` methods never return in Go. The model stops them when the script runs out (`Transport.Horizon`).
- **Panics.**
  - The unchecked type assertions at token-service/internal/token/service.go lines 203 and 242 panic on a malformed reply; they are the outcomes `Panicked` and `TokenPanic`.
  - The slice at market-streaming/cmd/streamer/main.go line 24 panics on a crypto symbol shorter than 8 bytes; it is `None` (for ASCII symbols, bytes and characters coincide).

Where the code and its test disagree, the model follows the code. The stock stop-loss signal's reason is `"stock_stop_loss"` (strategy.go line 198), while strategy_test.go line 125 expects `"stop_loss"`. `StopLoss.StockStep` states the code's value.

## Model

| member | source | states |
|---|---|---|
| Backoff.Grow | market-streaming/internal/stream/stock/streamer.go:106-110 | doubling and capping keeps a delay between one and thirty seconds |
| Backoff.GrowN | market-streaming/internal/stream/stock/streamer.go:106-110 | any number of growths from a delay in [1, 30] stays in [1, 30] |
| Backoff.Schedule | market-streaming/internal/stream/stock/streamer.go:103-110 | a streak of k failed attempts sleeps exactly k delays |
| Backoff.ScheduleAt | market-streaming/internal/stream/stock/streamer.go:103-110 | the i-th sleep of a streak is the starting delay grown i times |
| Backoff.GrowNShift | market-streaming/internal/stream/stock/streamer.go:106-110 | growing i+1 times is growing i times and then once more |
| Backoff.GrowNFromInitial | market-streaming/internal/stream/stock/streamer.go:92-110 | from one second, i growths give min(2^i, 30) |
| Backoff.BackoffSequence | market-streaming/internal/stream/stock/streamer.go:92-110 | the i-th sleep of a streak from one second is min(2^i, 30), always within [1, 30] |
| Backoff.FirstSevenDelays | market-streaming/internal/stream/stock/streamer.go:92-110 | a streak sleeps 1, 2, 4, 8, 16, 30, 30 seconds |
| Transport.SubscribeMessage | market-streaming/internal/stream/streamer.go:46 | the subscribe message embeds the symbol between a fixed head and tail, from which it can be read back |
| Transport.SubscribeAll | market-streaming/internal/stream/streamer.go:45-52 | subscribing only extends the log and the write counter, and everything logged is a write on that connection |
| Transport.SubscribeAllSpec | market-streaming/internal/stream/streamer.go:45-52 | one message per symbol, in order, up to and including the first failed write. The error names that symbol and later symbols are never attempted |
| Transport.FirstFailureNone | market-streaming/internal/stream/streamer.go:45-52 | when no write fails, every symbol is sent |
| Transport.SendSubscriptions | market-streaming/internal/stream/streamer.go:45-52 | the subscribe loop computes SubscribeAll |
| Transport.CallEach | market-streaming/internal/stream/streamer.go:73-75 | every handler is called once per trade, in registration order |
| Transport.DispatchLength | market-streaming/internal/stream/streamer.go:72-76 | a frame makes exactly (trades × handlers) calls |
| Transport.DispatchOrder | market-streaming/internal/stream/streamer.go:71-77 | call number i·H+j passes trade i to handler j (H1(A), H2(A), H1(B), H2(B)) |
| Transport.CallHandlers | market-streaming/internal/stream/streamer.go:73-75 | the inner handler loop appends exactly CallEach to the log |
| Transport.DispatchTrades | market-streaming/internal/stream/streamer.go:72-76 | the nested trade/handler loops append exactly Dispatch to the log |
| Transport.Deliver | market-streaming/internal/stream/streamer.go:65-77 | delivering a message only appends handler calls to the log and changes nothing else; a message that is not a decoded trade frame changes nothing |
| StreamModels.FormatSymbol | market-streaming/internal/stream/models.go:20-22 | the result is the 8-character "BINANCE:" prefix followed by base + quote; dropping the prefix gives base + quote back |
| BaseStream.Run | market-streaming/internal/stream/streamer.go:56-79 | the read loop stops with an error exactly when some read fails, and it only appends handler calls to the log |
| BaseStream.MalformedMessageSkipped | market-streaming/internal/stream/streamer.go:65-69 | an undecodable message is skipped and the trade frame after it is still dispatched |
| BaseStream.Streamer.constructor | market-streaming/internal/stream/streamer.go:29-34 | a streamer on the given socket with no handlers |
| BaseStream.Streamer.NewStreamer | market-streaming/internal/stream/streamer.go:20-35 | there is no streamer exactly when the dial fails; otherwise it holds the new socket |
| BaseStream.Streamer.AddHandler | market-streaming/internal/stream/streamer.go:38-40 | the handler is appended and earlier handlers keep their order |
| BaseStream.Streamer.Subscribe | market-streaming/internal/stream/streamer.go:43-53 | the world afterwards and the failed symbol are those of SubscribeAll |
| BaseStream.Streamer.Stream | market-streaming/internal/stream/streamer.go:56-79 | the read loop's result and world are those of Run |
| BaseStream.Streamer.Close | market-streaming/internal/stream/streamer.go:82-84 | the socket is closed |
| StockStream.IsTradingCases | market-streaming/internal/stream/stock/streamer.go:45-67 | never trading on a local Saturday or Sunday, without the New York zone, or at exactly 09:30 or 16:00 New York time; on any Monday to Friday with the zone, trading exactly when New York time is strictly between 09:30 and 16:00 |
| StockStream.IsTrading | market-streaming/internal/stream/stock/streamer.go:45-67 | trading only on a local Monday to Friday, with the New York zone loaded, strictly between 09:30 and 16:00 New York time |
| StockStream.Run | market-streaming/internal/stream/stock/streamer.go:90-152 | the read loop only extends the log, and it ends only when no read (or, while reconnecting, no dial) is left |
| StockStream.Reconnect | market-streaming/internal/stream/stock/streamer.go:102-134 | the reconnect loop only extends the log, and it ends only when the script runs out |
| StockStream.FailedAttemptsSleeps | market-streaming/internal/stream/stock/streamer.go:103-118 | the sleeps of a streak of failed dials are the backoff schedule |
| StockStream.RunReadFails | market-streaming/internal/stream/stock/streamer.go:96-99 | a failed read closes the socket and enters the reconnect loop with a one-second delay |
| StockStream.ReconnectDialFails | market-streaming/internal/stream/stock/streamer.go:113-118 | a failed dial sleeps, keeps the old socket and retries with the grown delay |
| StockStream.ReconnectResubscribeFails | market-streaming/internal/stream/stock/streamer.go:121-129 | a failed resubscription closes the new socket, which stays current, and retries with the grown delay |
| StockStream.ReconnectResumes | market-streaming/internal/stream/stock/streamer.go:121-133 | a dial and a resubscription that both succeed resume the read loop on the new socket |
| StockStream.RunSleepsBounded | market-streaming/internal/stream/stock/streamer.go:90-152 | whatever happens, every sleep lasts between one and thirty seconds |
| StockStream.ReconnectSleepsBounded | market-streaming/internal/stream/stock/streamer.go:102-134 | every sleep of the reconnect loop lasts between one and thirty seconds |
| StockStream.DialFailureStreak | market-streaming/internal/stream/stock/streamer.go:102-118 | k failed dials sleep b, Grow(b), … in turn, keep the socket, and continue with the delay grown k times |
| StockStream.BackoffAfterReadFailure | market-streaming/internal/stream/stock/streamer.go:96-118 | after a failed read, a streak of failed dials sleeps 1, 2, 4, 8, 16, 30, 30, … (the i-th is min(2^i, 30)) |
| StockStream.ReconnectEpisode | market-streaming/internal/stream/stock/streamer.go:102-134 | a failed dial, then a dial whose resubscription fails, then a good one: the full log, and reading resumes on the last socket |
| StockStream.ReadFailsThenDialFails | market-streaming/internal/stream/stock/streamer.go:96-118 | a failed read followed by a failed dial closes the socket, sleeps one second, and keeps the socket |
| StockStream.BackoffReset | market-streaming/internal/stream/stock/streamer.go:95-136 | after a reconnect episode that sleeps 1, 2 and 4 seconds, the next read failure sleeps one second again |
| StockStream.SubscribeIgnoresClock | market-streaming/internal/stream/stock/streamer.go:70-87 | what Subscribe sends and whether it fails do not depend on the clock |
| StockStream.Streamer.constructor | market-streaming/internal/stream/stock/streamer.go:31-36 | a streamer on the given socket with no handlers |
| StockStream.Streamer.NewStreamer | market-streaming/internal/stream/stock/streamer.go:22-37 | there is no streamer exactly when the dial fails |
| StockStream.Streamer.AddHandler | market-streaming/internal/stream/stock/streamer.go:40-42 | the handler is appended after the earlier ones |
| StockStream.Streamer.Subscribe | market-streaming/internal/stream/stock/streamer.go:70-87 | it warns exactly outside trading hours and sends what SubscribeAll sends |
| StockStream.Streamer.Stream | market-streaming/internal/stream/stock/streamer.go:90-152 | the nested read and reconnect loops end with the horizon, socket and world of Run |
| StockStream.Streamer.Close | market-streaming/internal/stream/stock/streamer.go:155-157 | the current socket is closed |
| CryptoStream.FormatSymbol | market-streaming/internal/stream/crypto/streamer.go:141-143 | agrees with StreamModels.FormatSymbol on every input |
| CryptoStream.Run | market-streaming/internal/stream/crypto/streamer.go:71-133 | a run that starts connected ends connected exactly when it ends in the read loop |
| CryptoStream.Reconnect | market-streaming/internal/stream/crypto/streamer.go:84-112 | the flag is set again exactly when the read loop resumes |
| CryptoStream.RunAgreesWithStock | market-streaming/internal/stream/crypto/streamer.go:71-133 | on the wire the crypto read loop is the stock one: same end, socket and world |
| CryptoStream.ReconnectAgreesWithStock | market-streaming/internal/stream/crypto/streamer.go:84-112 | the crypto reconnect loop is the stock one: same end, socket and world |
| CryptoStream.Streamer.constructor | market-streaming/internal/stream/crypto/streamer.go:24-29 | no socket, not connected, no handlers |
| CryptoStream.Streamer.NewStreamer | market-streaming/internal/stream/crypto/streamer.go:23-36 | no streamer exactly when the initial connect fails; otherwise connected on the new socket |
| CryptoStream.Streamer.Connect | market-streaming/internal/stream/crypto/streamer.go:57-68 | only a successful dial replaces the socket and sets the flag; a failed one leaves both |
| CryptoStream.Streamer.AddHandler | market-streaming/internal/stream/crypto/streamer.go:39-41 | the handler is appended after the earlier ones |
| CryptoStream.Streamer.Subscribe | market-streaming/internal/stream/crypto/streamer.go:44-54 | sends what SubscribeAll sends and reports the symbol whose write failed |
| CryptoStream.Streamer.Stream | market-streaming/internal/stream/crypto/streamer.go:71-133 | the nested read and reconnect loops end with the horizon, socket, flag and world of Run, so a streamer that started connected ends connected exactly when it ends reading |
| CryptoStream.Streamer.Close | market-streaming/internal/stream/crypto/streamer.go:136-138 | the current socket is closed |
| StreamerMain.TruncDiv | market-streaming/cmd/streamer/main.go:19 | Go's division: the remainder is smaller than the divisor and has the dividend's sign |
| StreamerMain.TradeSecondsExamples | market-streaming/cmd/streamer/main.go:19 | millisecond timestamps become seconds by truncation toward zero, also before the epoch |
| StreamerMain.DisplaySymbol | market-streaming/cmd/streamer/main.go:21-25 | crypto symbols lose their first 8 characters, which are Go's 8 bytes for an ASCII symbol, and the slice panics when there are fewer; others are shown unchanged |
| StreamerMain.HandleTrade | market-streaming/cmd/streamer/main.go:16-34 | the display line carries the stripped symbol, the market, the price, the volume and the truncated seconds |
| StreamerMain.DisplayFormattedPair | market-streaming/cmd/streamer/main.go:22-25 | stripping the display prefix undoes FormatSymbol: the pair shows as base + quote |
| StreamerMain.ConfiguredPairsDisplay | market-streaming/cmd/streamer/main.go:46-50 | the configured pairs display as BTCUSDT, ETHUSDT and BNBUSDT |
| StopLoss.ParseMaxDrawdown | strategy-engine/internal/strategy/stoploss/strategy.go:54-61 | the threshold is accepted exactly when it is a float strictly between 0 and 100; a non-float and an out-of-range value are told apart |
| StopLoss.ServiceURL | strategy-engine/internal/strategy/stoploss/strategy.go:63-66 | a configured non-empty URL is used, and anything else gives the local default |
| StopLoss.Higher | strategy-engine/internal/strategy/stoploss/strategy.go:122-124 | the high never decreases and is replaced only by the new price |
| StopLoss.StopHitIffBelowFloor | strategy-engine/internal/strategy/stoploss/strategy.go:184-187 | the drawdown test holds exactly when the price is at or below high·(1 − max/100) |
| StopLoss.StockStep | strategy-engine/internal/strategy/stoploss/strategy.go:164-211 | an unknown symbol is tracked with quantity 0 and no signal. A known symbol sells exactly when it is held and the stop is hit; the SELL carries the price, quantity, symbol, "stock_stop_loss" and a one-minute expiry, and the entry is removed. Otherwise only the high changes |
| StopLoss.StockStepFrame | strategy-engine/internal/strategy/stoploss/strategy.go:164-211 | a tick never lowers a high and leaves every other symbol alone |
| StopLoss.StopLossScenario | strategy-engine/internal/strategy/stoploss/strategy_test.go:61-137 | the unit test's ticks: the high rises to 51000, 48500 holds, 48000 sells at a 300/51 % drawdown, and a later tick tracks afresh |
| StopLoss.Touch | strategy-engine/internal/strategy/stoploss/strategy.go:116-127 | an option seeing a tick takes its price and time, and its high only rises |
| StopLoss.FirstTrigger | strategy-engine/internal/strategy/stoploss/strategy.go:114-162 | the position of the first visited option whose stop is hit; none before it triggers |
| StopLoss.OptionScanSpec | strategy-engine/internal/strategy/stoploss/strategy.go:114-162 | if some option triggers, those visited before the first one are updated and that one alone is sold and removed; otherwise every option of the symbol is updated and nothing is sold |
| StopLoss.OptionScanMonotone | strategy-engine/internal/strategy/stoploss/strategy.go:114-162 | the option scan adds no position and lowers no high |
| StopLoss.OptionVisit | strategy-engine/internal/strategy/stoploss/strategy.go:114-162 | one option of the map signals exactly when it triggers; then it alone is removed and the SELL carries the tick's symbol; otherwise the keys and every other option stay as they were |
| StopLoss.OptionScan | strategy-engine/internal/strategy/stoploss/strategy.go:114-162 | the scan never adds a position; without a signal it keeps every key, with one it removes exactly one |
| StopLoss.MergeKeys | strategy-engine/internal/strategy/stoploss/strategy.go:301-341 | a merge keeps every known position and adds exactly the fetched ids that are not empty |
| StopLoss.MergeKeepsIdentity | strategy-engine/internal/strategy/stoploss/strategy.go:310-324 | a known position keeps its id, symbol, entry price, cost basis and multiplier, and its high never decreases |
| StopLoss.MergeNewEntries | strategy-engine/internal/strategy/stoploss/strategy.go:325-337 | a new position is created from its first occurrence: its own id, symbol, average price as entry price, cost basis and multiplier 100; its high is the largest current price among its occurrences |
| StopLoss.MergeAbsent | strategy-engine/internal/strategy/stoploss/strategy.go:301-341 | an id neither known nor fetched does not appear after the merge |
| StopLoss.MergeOne | strategy-engine/internal/strategy/stoploss/strategy.go:301-339 | one fetched position adds its id when not empty and changes no other entry; its entry takes the fetched price and quantity with a high no lower than that price |
| StopLoss.Merge | strategy-engine/internal/strategy/stoploss/strategy.go:301-341 | the merge keeps every known position, and every position it adds has a non-empty id |
| StopLoss.MergeLastWins | strategy-engine/internal/strategy/stoploss/strategy.go:301-341 | a fetched id ends with the quantity and current price of its last occurrence |
| StopLoss.StopLossStrategy.constructor | strategy-engine/internal/strategy/stoploss/strategy.go:68-75 | threshold and URL as given, no positions, the strategy's name |
| StopLoss.StopLossStrategy.New | strategy-engine/internal/strategy/stoploss/strategy.go:53-76 | no strategy and the parse error when the threshold is invalid; otherwise a valid strategy with that threshold and the resolved URL |
| StopLoss.StopLossStrategy.Name | strategy-engine/internal/strategy/stoploss/strategy.go:215-217 | a valid strategy is named "option_stop_loss_strategy" |
| StopLoss.StopLossStrategy.Parameters | strategy-engine/internal/strategy/stoploss/strategy.go:220-225 | reports exactly the two parameters, which parse back to the current threshold and URL |
| StopLoss.StopLossStrategy.UpdateParameters | strategy-engine/internal/strategy/stoploss/strategy.go:228-243 | a rejected update changes nothing, an accepted one sets the threshold, and validity is kept |
| StopLoss.StopLossStrategy.ProcessData | strategy-engine/internal/strategy/stoploss/strategy.go:109-212 | the option scan runs in some visiting order. A sale ends the tick with the stocks untouched; otherwise every option was visited and the stock step runs |
| StopLoss.StopLossStrategy.ProcessOptions | strategy-engine/internal/strategy/stoploss/strategy.go:114-162 | the option loop's map and signal are OptionScan's in the order visited, which covers all options unless one sold |
| StopLoss.StopLossStrategy.ProcessOption | strategy-engine/internal/strategy/stoploss/strategy.go:116-159 | one option's update and possible sale, as OptionVisit |
| StopLoss.StopLossStrategy.ProcessStock | strategy-engine/internal/strategy/stoploss/strategy.go:164-211 | the stock half of a tick is StockStep |
| StopLoss.StopLossStrategy.Initialize | strategy-engine/internal/strategy/stoploss/strategy.go:79-106 | a fetched list is merged, and a failed fetch is ignored |
| StopLoss.StopLossStrategy.FetchOptionPositions | strategy-engine/internal/strategy/stoploss/strategy.go:255-344 | a failed fetch changes nothing; a list is merged in order as Merge |
| Engine.Register | strategy-engine/internal/engine/engine.go:26-36 | refused with AlreadyExists exactly when the name is taken; otherwise adds exactly name → strategy and keeps every other entry |
| Engine.Unregister | strategy-engine/internal/engine/engine.go:39-51 | unknown name → NotFound; a failed cleanup is returned and the strategy stays; otherwise exactly that entry is removed |
| Engine.RegisterThenUnregister | strategy-engine/internal/engine/engine.go:26-51 | registering and then unregistering with a clean cleanup restores the registry |
| Engine.RegisterTwice | strategy-engine/internal/engine/engine.go:30-32 | a second registration under the same name is refused |
| Engine.FanoutSpec | strategy-engine/internal/engine/engine.go:58-70 | the handler receives exactly the signals of the strategies that returned one, in visiting order; failed or silent strategies contribute nothing |
| Engine.Fanout | strategy-engine/internal/engine/engine.go:58-71 | at most one signal per visited strategy, whatever the strategies return |
| Engine.EmittersDistinct | strategy-engine/internal/engine/engine.go:58-70 | each emitting strategy's signal is handled once |
| Engine.Engine.constructor | strategy-engine/internal/engine/engine.go:18-23 | an empty registry |
| Engine.Engine.RegisterStrategy | strategy-engine/internal/engine/engine.go:26-36 | the error and the registry afterwards are Register's |
| Engine.Engine.UnregisterStrategy | strategy-engine/internal/engine/engine.go:39-51 | the error and the registry afterwards are Unregister's |
| Engine.Engine.ProcessMarketData | strategy-engine/internal/engine/engine.go:54-72 | always succeeds, visits every strategy once, and hands on exactly Fanout's signals |
| Engine.Engine.GetStrategy | strategy-engine/internal/engine/engine.go:75-80 | found exactly when the name is registered, and then it is that strategy |
| Engine.Engine.ListStrategies | strategy-engine/internal/engine/engine.go:83-92 | every registered name exactly once |
| Token.Request | token-service/internal/token/service.go:309-323 | the k-th exchange of a run, and a failure beyond the script |
| Token.StringField | token-service/internal/token/service.go:156 | the comma-ok string assertion: a value exactly when the key holds a string |
| Token.ObjectField | token-service/internal/token/service.go:203 | the single-value map assertion: a panic unless the key holds an object |
| Token.Truncate | token-service/internal/token/service.go:158 | float-to-integer conversion truncates toward zero |
| Token.Expiry | token-service/internal/token/service.go:157-158 | the expiry lies a whole number of seconds after now: now itself when expires_in is absent or not a number, no earlier than now and the truncated seconds when it is non-negative, no later than now when it is negative |
| Token.Poll | token-service/internal/token/service.go:210-229 | at most 30 checks; the poll ends still issued only after all 30 |
| Token.ChallengeStatus | token-service/internal/token/service.go:221 | the unchecked assertion yields the string status, or the empty string when it is absent or not a string |
| Token.ChallengeId | token-service/internal/token/service.go:203-206 | the chained assertion panics exactly when the context or the challenge is not an object |
| Token.WorkflowResult | token-service/internal/token/service.go:242-245 | the assertion panics exactly when the type context is not an object |
| Token.Finish | token-service/internal/token/service.go:237-262 | one or two requests; a token only after an approved workflow and a final reply holding it, with that reply's expiry |
| Token.Login | token-service/internal/token/service.go:131-263 | a login makes between 1 and 35 requests; more than one only when the first reply succeeded without an access token |
| Token.DirectToken | token-service/internal/token/service.go:155-160 | a token in the first reply is returned at once with now + expires_in seconds, after one request |
| Token.LoginTokenSource | token-service/internal/token/service.go:131-263 | every issued token is the access token of the last reply; a login makes between 1 and 35 requests; a token after more than one request needs a first reply whose verification workflow is an object with a string id |
| Token.PollAllIssued | token-service/internal/token/service.go:210-229 | thirty "issued" answers end the poll without error after thirty requests |
| Token.PollValidated | token-service/internal/token/service.go:210-229 | after checks answering "issued", a "validated" check ends the poll at once, before the next request |
| Token.PollFailsAt | token-service/internal/token/service.go:210-229 | after checks answering "issued", a failed check ends the poll at once with its error, before the next request: a request error, a status other than 200 with that status, or a challenge status other than "issued" and "validated" with that status |
| Token.WorkflowScenario | token-service/internal/token/service_test.go:258-314 | the unit test's six replies yield "test-token", expiring an hour later |
| Token.PollPrompt | token-service/internal/token/service.go:210-229 | the poll loop computes Poll |
| Token.FetchNewToken | token-service/internal/token/service.go:122-129 | only Robinhood is supported, and it runs the login |
| Token.GetTokenSpec | token-service/internal/token/service.go:80-120 | an unexpired cached token is returned without a request. Missing credentials, an unsupported type or a failed fetch leave the cache unchanged; a success replaces the entry with exactly the new token |
| Token.FetchedTokenIsCached | token-service/internal/token/service.go:83-91 | a fetched token is served from the cache, without a request, until it expires |
| Token.ExpiredTokenRefetched | token-service/internal/token/service.go:83-106 | an expired entry is never served: the answer is a new login's |
| Token.TokenService.constructor | token-service/internal/token/service.go:62-74 | an empty cache and the configured Robinhood credentials |
| Token.TokenService.FetchRobinhoodToken | token-service/internal/token/service.go:131-263 | the login steps compute Login |
| Token.TokenService.GetToken | token-service/internal/token/service.go:80-120 | result, cache and request count are GetTokenSpec's |
| PositionService.OrElse | position-service/internal/position/service.go:211-214 | a parsed value, or the default when parsing failed |
| PositionService.ValuationConsistent | position-service/internal/position/service.go:228-253 | market value = quantity × price × multiplier (100 if unparsed); P&L = market value − cost basis; the percentage is that share of a positive cost basis, else 0 |
| PositionService.UnpricedOption | position-service/internal/position/service.go:228-231 | an option without a fetched price is worth 0 and its P&L is −cost basis |
| PositionService.KeptResults | position-service/internal/position/service.go:200-205 | the kept results are open positions from the input |
| PositionService.KeptResultsAppend | position-service/internal/position/service.go:200-205 | filtering keeps the input order |
| PositionService.KeptResultsSingle | position-service/internal/position/service.go:202-205 | an open result is kept, a closed one dropped |
| PositionService.Value | position-service/internal/position/service.go:200-281 | a valued position keeps the raw id, symbol, option URL and timestamps, belongs to the account, has a positive quantity, the parsed average price and cost basis (0 when they do not parse), and the fetched price of its option, or 0 without one |
| PositionService.ValuePnL | position-service/internal/position/service.go:243-253 | unrealized profit is market value less cost basis, and its percentage is taken of a positive cost basis, 0 otherwise; no price means no market value |
| PositionService.KeptIdsSpec | position-service/internal/position/service.go:179-187 | the first pass collects exactly the open positions' option ids, in order |
| PositionService.ValuationsSpec | position-service/internal/position/service.go:200-281 | the second pass values exactly the open positions, one each, in order |
| PositionService.QuotePrice | position-service/internal/position/service.go:352-366 | the first of mark, adjusted mark and last trade price that parses; none if none does |
| PositionService.PriceMap | position-service/internal/position/service.go:352-373 | no quotes give no prices; the last quote, when it has a price, sets its instrument's price |
| PositionService.PriceMapDomain | position-service/internal/position/service.go:352-373 | an instrument has a price exactly when some quote for it has one; unparseable quotes are skipped |
| PositionService.PriceMapSpec | position-service/internal/position/service.go:352-373 | an instrument's price is that of its last quote with a price |
| PositionService.FetchOptionPrices | position-service/internal/position/service.go:287-376 | no ids: empty map and no request; a failed request is an error; otherwise the price map of the quotes |
| PositionService.CurrentPrice | position-service/internal/position/service.go:424-485 | the first of last trade, ask, bid and extended-hours price that parses and is positive, each case stated; an error when the request fails or no price qualifies |
| PositionService.FetchPositions | position-service/internal/position/service.go:81-284 | no account id → error; a failed positions request → error; a list is for this account, Robinhood and now |
| PositionService.FetchedPositionsSpec | position-service/internal/position/service.go:179-283 | the list holds exactly the open positions, in reply order, each valued at its last fetched price, or 0 if the price fetch failed or found none |
| PositionService.Service.constructor | position-service/internal/position/service.go:31-40 | an empty cache and the configured account id |
| PositionService.Service.CollectOptionIds | position-service/internal/position/service.go:179-187 | the first loop computes KeptIds |
| PositionService.Service.ValueOne | position-service/internal/position/service.go:207-280 | one iteration of the second loop values an open position exactly as Value does |
| PositionService.Service.ValuePositions | position-service/internal/position/service.go:200-281 | the second loop computes Valuations |
| PositionService.Service.FetchRobinhoodPositions | position-service/internal/position/service.go:81-284 | the fetch computes FetchPositions, with a failed price fetch leaving every option unpriced |
| PositionService.Service.GetPositions | position-service/internal/position/service.go:43-78 | result and cache afterwards are GetPositionsSpec's |
| PositionService.GetPositionsSpec | position-service/internal/position/service.go:43-78 | a cached list is returned whatever its age. A token error comes before the account-type check. On a miss with a token for Robinhood the result is the fetch's, and an empty account id gives "account ID not configured"; only a successful fetch writes the cache, under that type |
| PositionService.CachedListIsSticky | position-service/internal/position/service.go:45-50 | once a list is cached, every later call returns it whatever the token and the replies |

## Left out

- Network I/O: websocket dialing, reading and writing, and HTTP requests. They are scripts (`Transport.Env`, `Token.Script`) or reply parameters. JSON decoding is an `Option` or a decoded `Json` value, and message framing, headers, payloads, URLs, device UUIDs and request construction are not modelled.
- Logging and printing: `log.Printf`, `fmt.Printf` and time formatting have no effect on the modelled state.
- Time:
  - `time.Sleep` only logs its delay and the clock does not advance.
  - The token service's 2-second sleep between prompt checks is not modelled.
  - A login uses one `now` for the expiry, although Go reads the clock again after the poll.
  - The merge of fetched option positions uses one `now` for every entry.
  - Timestamps parsed from RFC 3339 strings in the position service are given as integers.
- `IsTrading` takes the local weekday, whether the America/New_York zone loads, and the New York time of day as inputs; the time-zone database is not modelled.
- Concurrency:
  - the mutexes of the engine, the strategy and both services;
  - the goroutines of the streaming command;
  - the strategy's periodic refresh goroutine and ticker (strategy.go lines 86-103);
  - its `Cleanup` (strategy.go lines 246-252), which only stops that ticker.
  The model is sequential.
- Engine.Engine.ProcessMarketData: the signal handler's own error is ignored by the source, so the model records each signal passed to the handler and nothing about the handler's effect. Strategies are opaque handles, and a strategy's processing and cleanup are function parameters, so changes a strategy makes to its own state during fan-out are not modelled.
- StockStream.Streamer.Stream, CryptoStream.Streamer.Stream: the Go loops never return; the model stops when the scripted reads run out in the read loop or the scripted dials run out in the reconnect loop.
- StopLoss.StopLossStrategy.ProcessData: requires a positive tick price. With a price of 0 or less, a zero high makes Go divide by zero and produce NaN or ±Inf, which `real` does not have. The requires also excludes ticks that Go handles without trouble: a price of 0 or less against a held position whose high is positive gives a drawdown of at least 100%, so Go sells whenever the threshold is at most 100 (strategy.go lines 129-137 and 183-187). The model says nothing about those ticks.
- StopLoss.StockStep, StopLoss.OptionVisit, StopLoss.OptionScan, StopLoss.StopLossStrategy.ProcessOptions, StopLoss.StopLossStrategy.ProcessOption, StopLoss.StopLossStrategy.ProcessStock: they carry the same positive-price requires as `ProcessData`, for the same reason, and leave out the same ticks.
- BaseStream.Streamer.Stream: Go's loop blocks in `ReadMessage` when no message arrives and never returns without an error. The model instead stops with `ScriptEnded` once the scripted reads run out.
- StreamerMain.DisplaySymbol: strings are sequences of characters, but Go's `Symbol[8:]` slices bytes of UTF-8. The two agree on ASCII symbols, and every configured symbol is ASCII. A non-ASCII crypto symbol is not modelled.
- Floating point: prices and quantities are exact reals, so float64 rounding, NaN and infinities are not modelled. Overflow of `time.Duration` in the token expiry is not modelled either.
- Token.TokenService.constructor: reading and parsing config.json is not modelled; the constructor takes the configured Robinhood username and password.
- PositionService.Service.GetPositions: the token comes from the token service, which is a separate program here; the call takes its answer as a parameter.
- position-service's `getInstrumentDetails` (service.go lines 379-421) is not called by the fetch and is not modelled. Its price chain `getCurrentPrice` is modelled as `PositionService.CurrentPrice`.
- Plumbing is not part of this model: the HTTP handlers, the token client, the `cmd` entry points (including the streaming command's `main` beyond its trade handler and symbol lists), the strategy engine's configuration loading, and the integration test.
