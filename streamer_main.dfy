/**
 * The trade handler of the streaming command (market-streaming/cmd/streamer/main.go): it turns
 * a trade into a display line, converting the millisecond timestamp to whole seconds and
 * stripping the venue prefix from crypto symbols; and the symbol lists the command streams.
 */
module StreamerMain {
  import opened Wrappers
  import opened StreamModels
  import CryptoStream

  /** Go's integer division, which truncates toward zero (Dafny's `/` rounds toward minus infinity here). */
  function TruncDiv(a: int, d: int): (q: int)
    requires d > 0
    ensures var rem := a - q * d;
            (&& -d < rem < d
             && (a >= 0 ==> rem >= 0)
             && (a <= 0 ==> rem <= 0))
  {
    if a >= 0 then a / d else -((-a) / d)
  }

  /** A trade's time in whole epoch seconds, as the handler passes it to time.Unix. */
  function TradeSeconds(t: Trade): int
  {
    TruncDiv(t.timestamp, 1000)
  }

  /** Millisecond timestamps are truncated toward zero, also before the epoch. */
  lemma TradeSecondsExamples(p: real, s: string, v: real)
    ensures TradeSeconds(Trade(p, s, 1_700_000_000_999, v)) == 1_700_000_000
    ensures TradeSeconds(Trade(p, s, -1500, v)) == -1
    ensures TradeSeconds(Trade(p, s, -999, v)) == 0
  {
  }

  const CryptoMarket: string := "crypto"

  /**
   * The symbol shown for a trade: crypto symbols lose their first eight characters (the
   * venue prefix), others are shown as they are. None stands for the run-time panic of
   * slicing a crypto symbol shorter than eight characters. Go slices bytes, which are the
   * characters of an ASCII symbol.
   */
  function DisplaySymbol(marketType: string, symbol: string): (r: Option<string>)
    ensures marketType != CryptoMarket ==> r == Some(symbol)
    ensures marketType == CryptoMarket ==> (r.Some? <==> |symbol| >= 8)
    ensures marketType == CryptoMarket && r.Some? ==>
              |r.value| == |symbol| - 8 && symbol == symbol[..8] + r.value
  {
    if marketType == CryptoMarket then
      if |symbol| >= 8 then Some(symbol[8..]) else None
    else Some(symbol)
  }

  /** What the handler prints for one trade; the clock formatting and the layout are not modelled. */
  datatype DisplayLine = DisplayLine(seconds: int, market: string, symbol: string, price: real, volume: real)

  /** The handler for `marketType` applied to one trade; None stands for the slicing panic. */
  function HandleTrade(marketType: string, t: Trade): (r: Option<DisplayLine>)
    ensures r.Some? <==> DisplaySymbol(marketType, t.symbol).Some?
    ensures r.Some? ==>
              && r.value.symbol == DisplaySymbol(marketType, t.symbol).value
              && r.value.market == marketType && r.value.price == t.price && r.value.volume == t.volume
              && var rem := t.timestamp - r.value.seconds * 1000;
                 (&& -1000 < rem < 1000
                  && (t.timestamp >= 0 ==> rem >= 0)
                  && (t.timestamp <= 0 ==> rem <= 0))
  {
    match DisplaySymbol(marketType, t.symbol)
    case None => None
    case Some(shown) => Some(DisplayLine(TradeSeconds(t), marketType, shown, t.price, t.volume))
  }

  /** Stripping the display prefix undoes FormatSymbol: the pair is shown as base + quote. */
  lemma DisplayFormattedPair(base: string, quote: string)
    ensures DisplaySymbol(CryptoMarket, FormatSymbol(base, quote)) == Some(base + quote)
  {
  }

  /** The crypto pairs and the stocks the command streams. */
  const CryptoPairs: seq<string> :=
    [CryptoStream.FormatSymbol("BTC", "USDT"),
     CryptoStream.FormatSymbol("ETH", "USDT"),
     CryptoStream.FormatSymbol("BNB", "USDT")]

  const StockSymbols: seq<string> := ["AAPL", "MSFT", "GOOGL"]

  /** The configured pairs are displayed as BTCUSDT, ETHUSDT and BNBUSDT. */
  lemma ConfiguredPairsDisplay()
    ensures forall i | 0 <= i < |CryptoPairs| ::
              DisplaySymbol(CryptoMarket, CryptoPairs[i]) == Some(["BTCUSDT", "ETHUSDT", "BNBUSDT"][i])
  {
    DisplayFormattedPair("BTC", "USDT");
    DisplayFormattedPair("ETH", "USDT");
    DisplayFormattedPair("BNB", "USDT");
    assert "BTC" + "USDT" == "BTCUSDT" && "ETH" + "USDT" == "ETHUSDT" && "BNB" + "USDT" == "BNBUSDT";
  }
}
