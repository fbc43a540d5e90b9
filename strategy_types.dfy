/**
 * The values strategies exchange with the engine: market data in, trading signals out, and
 * the loosely typed parameter maps they are configured with.
 */
module StrategyTypes {

  /** One market-data tick; the timestamp is in nanoseconds. */
  datatype MarketData = MarketData(symbol: string, price: real, volume: real, timestamp: int)

  datatype SignalAction = Sell

  /** What a stop-loss signal carries besides its core fields (the Go metadata map). */
  datatype SignalMetadata =
    | OptionStopLoss(optionId: string, entryPrice: real, highestPrice: real, drawdown: real, costBasis: real)
    | StockStopLoss(entryPrice: real, highestPrice: real, drawdown: real)

  datatype Signal = Signal(
    symbol: string,
    action: SignalAction,
    price: real,
    quantity: real,
    confidence: real,
    generatedAt: int,
    expiresAt: int,
    metadata: SignalMetadata)

  /** The "reason" entry of a signal's metadata. */
  function Reason(m: SignalMetadata): string
  {
    match m
    case OptionStopLoss(_, _, _, _, _) => "option_stop_loss"
    case StockStopLoss(_, _, _) => "stock_stop_loss"
  }

  /** A value of a Go `map[string]interface{}`: the dynamic types the strategies look for, or any other. */
  datatype ParamValue = FloatParam(f: real) | StringParam(s: string) | OtherParam

  type Params = map<string, ParamValue>
}
