/**
 * The records decoded from the market-data websocket (market-streaming/internal/stream/models.go)
 * and the exchange-qualified crypto symbol format.
 */
module StreamModels {

  /** One trade: price, exchange symbol, epoch milliseconds and volume (JSON keys p, s, t, v). */
  datatype Trade = Trade(price: real, symbol: string, timestamp: int, volume: real)

  /** One decoded frame; only frames whose `kind` (JSON key "type") is "trade" carry trades to dispatch. */
  datatype TradeData = TradeData(data: seq<Trade>, kind: string)

  const TradeKind: string := "trade"

  /** The venue qualifier in front of every crypto pair symbol; it is 8 characters long. */
  const VenuePrefix: string := "BINANCE:"

  /** The symbol of a crypto pair as the upstream feed names it. */
  function FormatSymbol(base: string, quote: string): (r: string)
    ensures |r| == |VenuePrefix| + |base| + |quote| && |VenuePrefix| == 8
    ensures r[..8] == VenuePrefix
    ensures r[8..] == base + quote
  {
    VenuePrefix + base + quote
  }
}
