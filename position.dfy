/**
 * The position service (position-service/internal/position/service.go): a cache of position
 * lists per account type, and the Robinhood fetch that values each open option position
 * from a batch of fetched option prices. Replies of the brokerage API are inputs: a failed
 * request, a non-200 status or an undecodable body is a Failure, and a decoded reply holds
 * its records with every numeric string already parsed into an Option<real> (None when
 * strconv.ParseFloat would fail).
 */
module PositionService {
  import opened Wrappers

  const Robinhood: string := "robinhood"

  /** The multiplier of an option position whose trade value multiplier does not parse. */
  const DefaultMultiplier: real := 100.0

  // ---------------------------------------------------------------------------------------
  // Records.

  /** One entry of the options positions reply. */
  datatype RawPosition = RawPosition(
    id: string,
    chainSymbol: string,
    option: string,
    optionId: string,
    quantity: Option<real>,
    averagePrice: Option<real>,
    costBasis: Option<real>,
    multiplier: Option<real>,
    createdAt: int,
    updatedAt: int)

  /** One entry of the option market-data reply. */
  datatype RawQuote = RawQuote(
    instrumentId: string,
    markPrice: Option<real>,
    adjustedMarkPrice: Option<real>,
    lastTradePrice: Option<real>)

  /** The quote reply of a single instrument. */
  datatype Quote = Quote(
    lastTradePrice: Option<real>,
    askPrice: Option<real>,
    bidPrice: Option<real>,
    lastExtendedHoursPrice: Option<real>)

  datatype Position = Position(
    id: string,
    accountId: string,
    symbol: string,
    quantity: real,
    averagePrice: real,
    currentPrice: real,
    marketValue: real,
    costBasis: real,
    unrealizedPnL: real,
    unrealizedPnLPercent: real,
    instrumentURL: string,
    createdAt: int,
    updatedAt: int)

  datatype PositionList = PositionList(positions: seq<Position>, accountId: string, accountType: string, updatedAt: int)

  datatype PositionError =
    | TokenFailed(reason: string)
    | UnsupportedAccount(accountType: string)
    | NoAccountId
    | PositionsRequestFailed(reason: string)

  function OrElse(x: Option<real>, default: real): (r: real)
    ensures x.Some? ==> r == x.value
    ensures x.None? ==> r == default
  {
    match x
    case Some(v) => v
    case None => default
  }

  // ---------------------------------------------------------------------------------------
  // Valuation.

  /** An open position: its quantity parses and is positive. */
  predicate Kept(raw: RawPosition)
  {
    raw.quantity.Some? && raw.quantity.value > 0.0
  }

  /** The position reported for an open raw position, given the fetched option prices. */
  function Value(raw: RawPosition, prices: map<string, real>, accountId: string): (r: Position)
    requires Kept(raw)
    ensures r.id == raw.id && r.accountId == accountId && r.symbol == raw.chainSymbol && r.instrumentURL == raw.option
    ensures r.costBasis == OrElse(raw.costBasis, 0.0) && r.averagePrice == OrElse(raw.averagePrice, 0.0)
    ensures r.createdAt == raw.createdAt && r.updatedAt == raw.updatedAt
    ensures r.quantity > 0.0
    ensures raw.optionId in prices ==> r.currentPrice == prices[raw.optionId]
    ensures raw.optionId !in prices ==> r.currentPrice == 0.0
  {
    var quantity := raw.quantity.value;
    var currentPrice := if raw.optionId in prices then prices[raw.optionId] else 0.0;
    var costBasis := OrElse(raw.costBasis, 0.0);
    var marketValue := quantity * currentPrice * OrElse(raw.multiplier, DefaultMultiplier);
    var pnl := marketValue - costBasis;
    var pnlPercent := if costBasis > 0.0 then pnl / costBasis * 100.0 else 0.0;
    Position(raw.id, accountId, raw.chainSymbol, quantity, OrElse(raw.averagePrice, 0.0), currentPrice,
             marketValue, costBasis, pnl, pnlPercent, raw.option, raw.createdAt, raw.updatedAt)
  }
  /** The profit and loss of a valued position: market value less cost, and its percentage of a positive cost. */
  lemma ValuePnL(raw: RawPosition, prices: map<string, real>, accountId: string)
    requires Kept(raw)
    ensures var p := Value(raw, prices, accountId);
            && p.unrealizedPnL == p.marketValue - p.costBasis
            && (raw.optionId !in prices ==> p.marketValue == 0.0)
            && (p.costBasis > 0.0 ==> p.unrealizedPnLPercent * p.costBasis == p.unrealizedPnL * 100.0)
            && (p.costBasis <= 0.0 ==> p.unrealizedPnLPercent == 0.0)
  {
  }


  /**
   * The valuation is consistent: market value is quantity × price × multiplier (100 when it
   * does not parse), P&L is market value less cost basis, and the P&L percentage is that
   * share of a positive cost basis, 0 otherwise.
   */
  lemma ValuationConsistent(raw: RawPosition, prices: map<string, real>, accountId: string)
    requires Kept(raw)
    ensures var p := Value(raw, prices, accountId);
            && p.quantity == raw.quantity.value > 0.0
            && p.marketValue == p.quantity * p.currentPrice
                                * (if raw.multiplier.Some? then raw.multiplier.value else DefaultMultiplier)
            && p.marketValue - p.unrealizedPnL == p.costBasis
            && (p.costBasis > 0.0 ==> p.unrealizedPnLPercent * p.costBasis == p.unrealizedPnL * 100.0)
            && (p.costBasis <= 0.0 ==> p.unrealizedPnLPercent == 0.0)
  {
    var p := Value(raw, prices, accountId);
    if p.costBasis > 0.0 {
      assert p.unrealizedPnLPercent == p.unrealizedPnL / p.costBasis * 100.0;
    }
  }

  /** An option without a fetched price is worth nothing, and its P&L is minus its cost basis. */
  lemma UnpricedOption(raw: RawPosition, prices: map<string, real>, accountId: string)
    requires Kept(raw) && raw.optionId !in prices
    ensures var p := Value(raw, prices, accountId);
            p.currentPrice == 0.0 && p.marketValue == 0.0 && p.unrealizedPnL == -p.costBasis
  {
  }

  /** The open positions among `results`, in their order. */
  function KeptResults(results: seq<RawPosition>): (r: seq<RawPosition>)
    ensures |r| <= |results|
    ensures forall i | 0 <= i < |r| :: Kept(r[i]) && r[i] in results
    decreases |results|
  {
    if results == [] then []
    else
      var prior := KeptResults(results[..|results| - 1]);
      if Kept(results[|results| - 1]) then prior + [results[|results| - 1]] else prior
  }

  /** Filtering distributes over concatenation: it keeps the input order. */
  lemma {:induction false} KeptResultsAppend(a: seq<RawPosition>, b: seq<RawPosition>)
    ensures KeptResults(a + b) == KeptResults(a) + KeptResults(b)
    decreases |b|
  {
    if b == [] {
      assert a + b == a;
    } else {
      var n := |b|;
      assert (a + b)[..|a + b| - 1] == a + b[..n - 1];
      assert (a + b)[|a + b| - 1] == b[n - 1];
      KeptResultsAppend(a, b[..n - 1]);
    }
  }

  /** An open result is kept, a closed one dropped. */
  lemma KeptResultsSingle(r: RawPosition)
    ensures KeptResults([r]) == if Kept(r) then [r] else []
  {
    assert [r][..0] == [];
  }

  /** The option ids of the open positions, in order. */
  function KeptIds(results: seq<RawPosition>): seq<string>
    decreases |results|
  {
    if results == [] then []
    else
      var prior := KeptIds(results[..|results| - 1]);
      if Kept(results[|results| - 1]) then prior + [results[|results| - 1].optionId] else prior
  }

  /** The valued open positions, in order. */
  function Valuations(results: seq<RawPosition>, prices: map<string, real>, accountId: string): seq<Position>
    decreases |results|
  {
    if results == [] then []
    else
      var last := results[|results| - 1];
      var prior := Valuations(results[..|results| - 1], prices, accountId);
      if Kept(last) then prior + [Value(last, prices, accountId)] else prior
  }

  /** The ids collected in the first pass are those of the open positions, one each, in order. */
  lemma {:induction false} KeptIdsSpec(results: seq<RawPosition>)
    ensures |KeptIds(results)| == |KeptResults(results)|
    ensures forall i | 0 <= i < |KeptIds(results)| :: KeptIds(results)[i] == KeptResults(results)[i].optionId
    decreases |results|
  {
    if results != [] {
      KeptIdsSpec(results[..|results| - 1]);
    }
  }

  /** The second pass values exactly the open positions, one each, in order. */
  lemma {:induction false} ValuationsSpec(results: seq<RawPosition>, prices: map<string, real>, accountId: string)
    ensures |Valuations(results, prices, accountId)| == |KeptResults(results)|
    ensures forall i | 0 <= i < |KeptResults(results)| ::
              Valuations(results, prices, accountId)[i] == Value(KeptResults(results)[i], prices, accountId)
    decreases |results|
  {
    if results != [] {
      ValuationsSpec(results[..|results| - 1], prices, accountId);
    }
  }

  // ---------------------------------------------------------------------------------------
  // Prices.

  /** The price of a quote: the first of mark, adjusted mark and last trade price that parses. */
  function QuotePrice(q: RawQuote): (r: Option<real>)
    ensures r.None? <==> q.markPrice.None? && q.adjustedMarkPrice.None? && q.lastTradePrice.None?
    ensures q.markPrice.Some? ==> r == q.markPrice
    ensures q.markPrice.None? && q.adjustedMarkPrice.Some? ==> r == q.adjustedMarkPrice
    ensures q.markPrice.None? && q.adjustedMarkPrice.None? ==> r == q.lastTradePrice
  {
    if q.markPrice.Some? then q.markPrice
    else if q.adjustedMarkPrice.Some? then q.adjustedMarkPrice
    else q.lastTradePrice
  }

  /** The price map built from the quotes in order; a later quote for an instrument overrides an earlier one. */
  function PriceMap(quotes: seq<RawQuote>): (r: map<string, real>)
    ensures quotes == [] ==> r == map[]
    ensures quotes != [] && QuotePrice(quotes[|quotes| - 1]).Some? ==>
              quotes[|quotes| - 1].instrumentId in r && r[quotes[|quotes| - 1].instrumentId] == QuotePrice(quotes[|quotes| - 1]).value
    decreases |quotes|
  {
    if quotes == [] then map[]
    else
      var q := quotes[|quotes| - 1];
      var prior := PriceMap(quotes[..|quotes| - 1]);
      match QuotePrice(q)
      case None => prior
      case Some(price) => prior[q.instrumentId := price]
  }

  /** An instrument has a price exactly when some quote for it has a price; quotes without any price are skipped. */
  lemma {:induction false} PriceMapDomain(quotes: seq<RawQuote>, id: string)
    ensures id in PriceMap(quotes) <==>
              exists i | 0 <= i < |quotes| :: quotes[i].instrumentId == id && QuotePrice(quotes[i]).Some?
    decreases |quotes|
  {
    if quotes != [] {
      var n := |quotes|;
      var prefix := quotes[..n - 1];
      PriceMapDomain(prefix, id);
      assert forall i | 0 <= i < n - 1 :: quotes[i] == prefix[i];
    }
  }

  /** The price an instrument gets is that of the last quote for it that has a price. */
  lemma {:induction false} PriceMapSpec(quotes: seq<RawQuote>, id: string)
    ensures id in PriceMap(quotes) ==>
              exists i | 0 <= i < |quotes| ::
                && quotes[i].instrumentId == id && QuotePrice(quotes[i]) == Some(PriceMap(quotes)[id])
                && forall j | i < j < |quotes| :: !(quotes[j].instrumentId == id && QuotePrice(quotes[j]).Some?)
    decreases |quotes|
  {
    if quotes != [] {
      var n := |quotes|;
      var prefix := quotes[..n - 1];
      var q := quotes[n - 1];
      if q.instrumentId == id && QuotePrice(q).Some? {
        assert PriceMap(quotes)[id] == QuotePrice(q).value;
        assert quotes[n - 1] == q;
      } else if id in PriceMap(quotes) {
        PriceMapSpec(prefix, id);
        assert PriceMap(quotes)[id] == PriceMap(prefix)[id];
        var i :| 0 <= i < n - 1 && prefix[i].instrumentId == id && QuotePrice(prefix[i]) == Some(PriceMap(prefix)[id])
                 && forall j | i < j < n - 1 :: !(prefix[j].instrumentId == id && QuotePrice(prefix[j]).Some?);
        assert quotes[i] == prefix[i];
        assert forall j | i < j < n - 1 :: quotes[j] == prefix[j];
      }
    }
  }

  /**
   * fetchOptionPrices: no ids means no request and no prices; otherwise the reply's quotes
   * fill the map in order. The result also says whether a request was made.
   */
  method FetchOptionPrices(ids: seq<string>, reply: Result<seq<RawQuote>, string>)
    returns (prices: Result<map<string, real>, string>, requested: bool)
    ensures requested <==> |ids| > 0
    ensures |ids| == 0 ==> prices == Success(map[])
    ensures |ids| > 0 && reply.Failure? ==> prices == Failure(reply.error)
    ensures |ids| > 0 && reply.Success? ==> prices == Success(PriceMap(reply.value))
  {
    if |ids| == 0 {
      return Success(map[]), false;
    }
    requested := true;
    if reply.Failure? {
      return Failure(reply.error), requested;
    }
    var quotes := reply.value;
    var found: map<string, real> := map[];
    for i := 0 to |quotes|
      invariant found == PriceMap(quotes[..i])
    {
      assert quotes[..i + 1][..i] == quotes[..i];
      var q := quotes[i];
      var price: real;
      if q.markPrice.Some? {
        price := q.markPrice.value;
      } else if q.adjustedMarkPrice.Some? {
        price := q.adjustedMarkPrice.value;
      } else if q.lastTradePrice.Some? {
        price := q.lastTradePrice.value;
      } else {
        continue;
      }
      found := found[q.instrumentId := price];
    }
    assert quotes[..|quotes|] == quotes;
    prices := Success(found);
  }

  /**
   * getCurrentPrice: the first of last trade, ask, bid and extended-hours price that parses
   * and is positive; an error if the request fails or none qualifies.
   */
  function CurrentPrice(reply: Result<Quote, string>): (r: Result<real, string>)
    ensures reply.Failure? ==> r == Failure(reply.error)
    ensures reply.Success? ==>
              var q := reply.value;
              && (r.Success? <==> Positive(q.lastTradePrice) || Positive(q.askPrice) || Positive(q.bidPrice)
                                  || Positive(q.lastExtendedHoursPrice))
              && (r.Success? ==> r.value > 0.0)
              && (Positive(q.lastTradePrice) ==> r == Success(q.lastTradePrice.value))
              && (!Positive(q.lastTradePrice) && Positive(q.askPrice) ==> r == Success(q.askPrice.value))
              && (!Positive(q.lastTradePrice) && !Positive(q.askPrice) && Positive(q.bidPrice) ==>
                    r == Success(q.bidPrice.value))
              && (!Positive(q.lastTradePrice) && !Positive(q.askPrice) && !Positive(q.bidPrice) && Positive(q.lastExtendedHoursPrice) ==>
                    r == Success(q.lastExtendedHoursPrice.value))
  {
    match reply
    case Failure(e) => Failure(e)
    case Success(q) =>
      if Positive(q.lastTradePrice) then Success(q.lastTradePrice.value)
      else if Positive(q.askPrice) then Success(q.askPrice.value)
      else if Positive(q.bidPrice) then Success(q.bidPrice.value)
      else if Positive(q.lastExtendedHoursPrice) then Success(q.lastExtendedHoursPrice.value)
      else Failure("no valid price found for instrument")
  }

  predicate Positive(x: Option<real>)
  {
    x.Some? && x.value > 0.0
  }

  // ---------------------------------------------------------------------------------------
  // The fetch.

  /** fetchRobinhoodPositions as a function of its replies, at time `now`. */
  function FetchPositions(accountId: string, positionsReply: Result<seq<RawPosition>, string>,
                          pricesReply: Result<seq<RawQuote>, string>, now: int): (r: Result<PositionList, PositionError>)
    ensures accountId == "" ==> r == Failure(NoAccountId)
    ensures accountId != "" && positionsReply.Failure? ==> r == Failure(PositionsRequestFailed(positionsReply.error))
    ensures r.Success? ==> r.value.accountId == accountId && r.value.accountType == Robinhood
                           && r.value.updatedAt == now
  {
    if accountId == "" then Failure(NoAccountId)
    else
      match positionsReply
      case Failure(e) => Failure(PositionsRequestFailed(e))
      case Success(results) =>
        var ids := KeptIds(results);
        var prices := if |ids| == 0 || pricesReply.Failure? then map[] else PriceMap(pricesReply.value);
        Success(PositionList(Valuations(results, prices, accountId), accountId, Robinhood, now))
  }

  /**
   * The fetched list holds exactly the open positions, in the order of the reply, each
   * valued at the last fetched price of its option, or 0 when the price fetch failed or
   * found none.
   */
  lemma FetchedPositionsSpec(accountId: string, results: seq<RawPosition>,
                             pricesReply: Result<seq<RawQuote>, string>, now: int)
    requires accountId != ""
    ensures var r := FetchPositions(accountId, Success(results), pricesReply, now);
            var kept := KeptResults(results);
            var prices := if |kept| == 0 || pricesReply.Failure? then map[] else PriceMap(pricesReply.value);
            && r.Success?
            && |r.value.positions| == |kept|
            && forall i | 0 <= i < |kept| ::
                 && r.value.positions[i] == Value(kept[i], prices, accountId)
                 && r.value.positions[i].quantity > 0.0
                 && r.value.positions[i].currentPrice
                    == (if kept[i].optionId in prices then prices[kept[i].optionId] else 0.0)
  {
    KeptIdsSpec(results);
    ValuationsSpec(results, if |KeptIds(results)| == 0 || pricesReply.Failure? then map[] else PriceMap(pricesReply.value),
                   accountId);
  }

  class Service {
    var positionCache: map<string, PositionList>
    const accountId: string

    constructor (accountId: string)
      ensures positionCache == map[] && this.accountId == accountId
    {
      positionCache := map[];
      this.accountId := accountId;
    }

    /** The first pass: the option ids of the open positions, in order. */
    static method CollectOptionIds(results: seq<RawPosition>) returns (ids: seq<string>)
      ensures ids == KeptIds(results)
    {
      ids := [];
      for i := 0 to |results|
        invariant ids == KeptIds(results[..i])
      {
        assert results[..i + 1][..i] == results[..i];
        var item := results[i];
        if item.quantity.None? || item.quantity.value <= 0.0 {
          continue;
        }
        ids := ids + [item.optionId];
      }
      assert results[..|results|] == results;
    }

    /** The valuation of one open position in the second pass. */
    static method ValueOne(item: RawPosition, prices: map<string, real>, accountId: string) returns (position: Position)
      requires Kept(item)
      ensures position == Value(item, prices, accountId)
    {
      var quantity := item.quantity.value;
      var averagePrice := OrElse(item.averagePrice, 0.0);
      var costBasis := OrElse(item.costBasis, 0.0);
      var currentPrice := 0.0;
      if item.optionId in prices {
        currentPrice := prices[item.optionId];
      }
      var multiplier := OrElse(item.multiplier, DefaultMultiplier);
      var marketValue := quantity * currentPrice * multiplier;
      var pnl := marketValue - costBasis;
      var pnlPercent := 0.0;
      if costBasis > 0.0 {
        pnlPercent := pnl / costBasis * 100.0;
      }
      position := Position(item.id, accountId, item.chainSymbol, quantity, averagePrice, currentPrice,
                           marketValue, costBasis, pnl, pnlPercent, item.option, item.createdAt, item.updatedAt);
    }

    /** The second pass: the valued open positions, in order. */
    static method ValuePositions(results: seq<RawPosition>, prices: map<string, real>, accountId: string)
      returns (positions: seq<Position>)
      ensures positions == Valuations(results, prices, accountId)
    {
      positions := [];
      for i := 0 to |results|
        invariant positions == Valuations(results[..i], prices, accountId)
      {
        assert results[..i + 1][..i] == results[..i];
        var item := results[i];
        if item.quantity.None? || item.quantity.value <= 0.0 {
          continue;
        }
        var position := ValueOne(item, prices, accountId);
        positions := positions + [position];
      }
      assert results[..|results|] == results;
    }

    /** fetchRobinhoodPositions: a failed price fetch leaves every option unpriced. */
    method FetchRobinhoodPositions(positionsReply: Result<seq<RawPosition>, string>,
                                   pricesReply: Result<seq<RawQuote>, string>, now: int)
      returns (r: Result<PositionList, PositionError>)
      ensures r == FetchPositions(accountId, positionsReply, pricesReply, now)
    {
      if accountId == "" {
        return Failure(NoAccountId);
      }
      if positionsReply.Failure? {
        return Failure(PositionsRequestFailed(positionsReply.error));
      }
      var results := positionsReply.value;
      var ids := CollectOptionIds(results);
      var fetched, _ := FetchOptionPrices(ids, pricesReply);
      var prices := if fetched.Success? then fetched.value else map[];
      var positions := ValuePositions(results, prices, accountId);
      r := Success(PositionList(positions, accountId, Robinhood, now));
    }

    /**
     * GetPositions: a cached list is returned whatever its age; otherwise the token (the
     * token service's answer) is needed first, then a supported account type, then a
     * successful fetch, which alone is cached.
     */
    method GetPositions(accountType: string, token: Result<string, string>,
                        positionsReply: Result<seq<RawPosition>, string>,
                        pricesReply: Result<seq<RawQuote>, string>, now: int)
      returns (r: Result<PositionList, PositionError>)
      modifies this`positionCache
      ensures (r, positionCache) == GetPositionsSpec(old(positionCache), accountId, accountType, token,
                                                     positionsReply, pricesReply, now)
    {
      if accountType in positionCache {
        return Success(positionCache[accountType]);
      }
      if token.Failure? {
        return Failure(TokenFailed(token.error));
      }
      if accountType != Robinhood {
        return Failure(UnsupportedAccount(accountType));
      }
      r := FetchRobinhoodPositions(positionsReply, pricesReply, now);
      if r.Failure? {
        return;
      }
      positionCache := positionCache[accountType := r.value];
    }
  }

  /** GetPositions as a function: the result and the cache afterwards. */
  function GetPositionsSpec(cache: map<string, PositionList>, accountId: string, accountType: string,
                            token: Result<string, string>, positionsReply: Result<seq<RawPosition>, string>,
                            pricesReply: Result<seq<RawQuote>, string>, now: int)
    : (r: (Result<PositionList, PositionError>, map<string, PositionList>))
    ensures accountType in cache ==> r == (Success(cache[accountType]), cache)
    ensures accountType !in cache && token.Failure? ==> r == (Failure(TokenFailed(token.error)), cache)
    ensures accountType !in cache && token.Success? && accountType != Robinhood ==>
              r == (Failure(UnsupportedAccount(accountType)), cache)
    ensures r.0.Failure? ==> r.1 == cache
    ensures r.0.Success? ==> r.1 == cache[accountType := r.0.value]
    ensures accountType !in cache && token.Success? && accountType == Robinhood ==>
              r.0 == FetchPositions(accountId, positionsReply, pricesReply, now)
    ensures accountType !in cache && token.Success? && accountType == Robinhood && accountId == "" ==>
              r == (Failure(NoAccountId), cache)
  {
    if accountType in cache then (Success(cache[accountType]), cache)
    else if token.Failure? then (Failure(TokenFailed(token.error)), cache)
    else if accountType != Robinhood then (Failure(UnsupportedAccount(accountType)), cache)
    else
      var fetched := FetchPositions(accountId, positionsReply, pricesReply, now);
      if fetched.Failure? then (fetched, cache) else (fetched, cache[accountType := fetched.value])
  }

  /** Once a list is cached, every later call returns it, whatever the token and the replies. */
  lemma CachedListIsSticky(cache: map<string, PositionList>, accountId: string, accountType: string,
                           token: Result<string, string>, positionsReply: Result<seq<RawPosition>, string>,
                           pricesReply: Result<seq<RawQuote>, string>, now: int,
                           token2: Result<string, string>, positionsReply2: Result<seq<RawPosition>, string>,
                           pricesReply2: Result<seq<RawQuote>, string>, later: int)
    requires GetPositionsSpec(cache, accountId, accountType, token, positionsReply, pricesReply, now).0.Success?
    ensures var (first, cache1) := GetPositionsSpec(cache, accountId, accountType, token, positionsReply, pricesReply, now);
            GetPositionsSpec(cache1, accountId, accountType, token2, positionsReply2, pricesReply2, later)
            == (first, cache1)
  {
  }
}
