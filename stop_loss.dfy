/**
 * The stop-loss strategy (strategy-engine/internal/strategy/stoploss/strategy.go). It tracks
 * the highest price seen per stock symbol and per option position. When a held position
 * falls from that high by at least the configured percentage it emits a SELL signal and
 * forgets the position. Option positions are refreshed from the position service.
 */
module StopLoss {
  import opened Wrappers
  import opened StrategyTypes
  import opened Collections

  const MaxDrawdownKey: string := "max_drawdown_percent"
  const ServiceURLKey: string := "position_service_url"
  const DefaultServiceURL: string := "http://localhost:8081"
  const StrategyName: string := "option_stop_loss_strategy"

  /** The multiplier given to option positions first seen in a fetch. */
  const DefaultMultiplier: real := 100.0

  /** A signal expires one minute (in nanoseconds) after it is generated. */
  const SignalLifetime: int := 60_000_000_000

  // ---------------------------------------------------------------------------------------
  // Parameters.

  datatype ParamError = NotAFloat | OutOfRange

  /** The drawdown threshold: a float strictly between 0 and 100, or the reason it is not one. */
  function ParseMaxDrawdown(params: Params): (r: Result<real, ParamError>)
    ensures r.Success? <==>
              MaxDrawdownKey in params && params[MaxDrawdownKey].FloatParam?
              && 0.0 < params[MaxDrawdownKey].f < 100.0
    ensures r.Success? ==> r.value == params[MaxDrawdownKey].f
    ensures r == Failure(NotAFloat) <==> !(MaxDrawdownKey in params && params[MaxDrawdownKey].FloatParam?)
  {
    if MaxDrawdownKey !in params || !params[MaxDrawdownKey].FloatParam? then Failure(NotAFloat)
    else
      var m := params[MaxDrawdownKey].f;
      if m <= 0.0 || m >= 100.0 then Failure(OutOfRange) else Success(m)
  }

  /** The position service URL: the configured non-empty string, or the local default. */
  function ServiceURL(params: Params): (r: string)
    ensures r != ""
    ensures r == DefaultServiceURL || (ServiceURLKey in params && params[ServiceURLKey] == StringParam(r))
    ensures ServiceURLKey in params && params[ServiceURLKey].StringParam? && params[ServiceURLKey].s != "" ==>
              r == params[ServiceURLKey].s
  {
    if ServiceURLKey in params && params[ServiceURLKey].StringParam? && params[ServiceURLKey].s != "" then
      params[ServiceURLKey].s
    else DefaultServiceURL
  }

  // ---------------------------------------------------------------------------------------
  // Positions and the drawdown rule.

  datatype Position = Position(entryPrice: real, highestPrice: real, quantity: real, lastUpdateTime: int)

  datatype OptionPosition = OptionPosition(
    id: string,
    symbol: string,
    entryPrice: real,
    highestPrice: real,
    currentPrice: real,
    quantity: real,
    multiplier: real,
    costBasis: real,
    lastUpdateTime: int)

  /** The highest price after seeing `price`: replaced only by a strictly greater price. */
  function Higher(highest: real, price: real): (r: real)
    ensures r >= highest && r >= price
    ensures r == highest || r == price
  {
    if price > highest then price else highest
  }

  /** How far, in percent of the high, the price has fallen from it. */
  function Drawdown(highest: real, price: real): real
    requires highest > 0.0
  {
    (highest - price) / highest * 100.0
  }

  predicate StopHit(highest: real, price: real, maxDrawdown: real)
    requires highest > 0.0
  {
    Drawdown(highest, price) >= maxDrawdown
  }

  /** The stop is hit exactly when the price has fallen to the floor highest·(1 − max/100) or below. */
  lemma StopHitIffBelowFloor(highest: real, price: real, maxDrawdown: real)
    requires highest > 0.0
    ensures StopHit(highest, price, maxDrawdown) <==> price <= highest * (1.0 - maxDrawdown / 100.0)
  {
    var d := Drawdown(highest, price);
    assert d * highest == (highest - price) * 100.0;
    assert highest * (1.0 - maxDrawdown / 100.0) == highest - maxDrawdown * highest / 100.0;
    if d >= maxDrawdown {
      assert d * highest >= maxDrawdown * highest;
    } else {
      assert d * highest < maxDrawdown * highest;
    }
  }

  // ---------------------------------------------------------------------------------------
  // The stock path.

  function StockSignal(data: MarketData, pos: Position): Signal
    requires pos.highestPrice > 0.0
  {
    Signal(data.symbol, Sell, data.price, pos.quantity, 1.0, data.timestamp, data.timestamp + SignalLifetime,
           StockStopLoss(pos.entryPrice, pos.highestPrice, Drawdown(pos.highestPrice, data.price)))
  }

  /**
   * A tick for a stock symbol. An unknown symbol starts being tracked with no quantity and
   * no signal. A known one raises its high if the price is above it; a held position whose
   * drawdown from the high reaches the threshold is sold and forgotten.
   */
  function StockStep(positions: map<string, Position>, data: MarketData, maxDrawdown: real)
    : (r: (map<string, Position>, Option<Signal>))
    requires data.price > 0.0
    ensures data.symbol !in positions ==>
              r == (positions[data.symbol := Position(data.price, data.price, 0.0, data.timestamp)], None)
    ensures data.symbol in positions ==>
              var pos := positions[data.symbol];
              var high := Higher(pos.highestPrice, data.price);
              && (r.1.Some? <==> pos.quantity > 0.0 && StopHit(high, data.price, maxDrawdown))
              && (r.1.Some? ==>
                    && r.0 == positions - {data.symbol}
                    && r.1.value.action == Sell && r.1.value.symbol == data.symbol
                    && r.1.value.price == data.price && r.1.value.quantity == pos.quantity
                    && r.1.value.expiresAt == data.timestamp + SignalLifetime
                    && Reason(r.1.value.metadata) == "stock_stop_loss"
                    && r.1.value.metadata.highestPrice == high)
              && (r.1.None? ==> r.0 == positions[data.symbol := pos.(highestPrice := high)])
  {
    if data.symbol !in positions then
      (positions[data.symbol := Position(data.price, data.price, 0.0, data.timestamp)], None)
    else
      var pos := positions[data.symbol];
      var updated := pos.(highestPrice := Higher(pos.highestPrice, data.price));
      if updated.quantity > 0.0 && StopHit(updated.highestPrice, data.price, maxDrawdown) then
        (positions - {data.symbol}, Some(StockSignal(data, updated)))
      else (positions[data.symbol := updated], None)
  }

  /** No tick lowers a tracked high, and a tick for one symbol leaves every other symbol alone. */
  lemma StockStepFrame(positions: map<string, Position>, data: MarketData, maxDrawdown: real)
    requires data.price > 0.0
    ensures var r := StockStep(positions, data, maxDrawdown).0;
            && (forall s | s in r && s in positions :: r[s].highestPrice >= positions[s].highestPrice)
            && (forall s | s != data.symbol :: (s in r <==> s in positions))
            && (forall s | s in positions && s != data.symbol :: r[s] == positions[s])
  {
  }

  /**
   * The sequence of ticks of the strategy's unit test: with a 5% threshold and a held
   * position entered at 50000, a rise to 51000 raises the high, 48500 (4.9% down) holds,
   * 48000 (5.88% down) sells at 48000, and a later tick starts tracking afresh.
   */
  lemma StopLossScenario(sym: string, t: int)
    ensures var p0 := map[sym := Position(50000.0, 50000.0, 1.0, t)];
            var r1 := StockStep(p0, MarketData(sym, 50000.0, 1.0, t), 5.0);
            var r2 := StockStep(r1.0, MarketData(sym, 51000.0, 1.0, t + 1), 5.0);
            var r3 := StockStep(r2.0, MarketData(sym, 48500.0, 1.0, t + 2), 5.0);
            var r4 := StockStep(r3.0, MarketData(sym, 48000.0, 1.0, t + 3), 5.0);
            var r5 := StockStep(r4.0, MarketData(sym, 47000.0, 1.0, t + 4), 5.0);
            && r1.1 == None && r2.1 == None && r2.0[sym].highestPrice == 51000.0
            && r3.1 == None
            && r4.1 == Some(Signal(sym, Sell, 48000.0, 1.0, 1.0, t + 3, t + 3 + SignalLifetime,
                                   StockStopLoss(50000.0, 51000.0, 300.0 / 51.0)))
            && r4.0 == map[]
            && r5.1 == None && r5.0 == map[sym := Position(47000.0, 47000.0, 0.0, t + 4)]
  {
    var p0 := map[sym := Position(50000.0, 50000.0, 1.0, t)];
    var p2 := map[sym := Position(50000.0, 51000.0, 1.0, t)];
    assert StockStep(p0, MarketData(sym, 50000.0, 1.0, t), 5.0) == (p0, None) by {
      assert p0[sym := p0[sym]] == p0;
    }
    assert StockStep(p0, MarketData(sym, 51000.0, 1.0, t + 1), 5.0) == (p2, None) by {
      assert Drawdown(51000.0, 51000.0) == 0.0;
      assert p0[sym := Position(50000.0, 51000.0, 1.0, t)] == p2;
    }
    assert StockStep(p2, MarketData(sym, 48500.0, 1.0, t + 2), 5.0) == (p2, None) by {
      assert Drawdown(51000.0, 48500.0) < 5.0;
      assert p2[sym := p2[sym]] == p2;
    }
    assert Drawdown(51000.0, 48000.0) == 300.0 / 51.0;
    assert p2 - {sym} == map[];
  }

  // ---------------------------------------------------------------------------------------
  // The option path.

  /** An option position after a tick for its underlying symbol. */
  function Touch(op: OptionPosition, data: MarketData): (r: OptionPosition)
    ensures r.highestPrice == Higher(op.highestPrice, data.price)
    ensures r == op.(currentPrice := data.price, lastUpdateTime := data.timestamp, highestPrice := r.highestPrice)
  {
    op.(currentPrice := data.price, lastUpdateTime := data.timestamp,
        highestPrice := Higher(op.highestPrice, data.price))
  }

  /** The option `id` is about the tick's symbol, is held, and its stop is hit. */
  predicate TriggersAt(opts: map<string, OptionPosition>, id: string, data: MarketData, maxDrawdown: real)
    requires data.price > 0.0
  {
    && id in opts
    && opts[id].symbol == data.symbol
    && Touch(opts[id], data).quantity > 0.0
    && StopHit(Touch(opts[id], data).highestPrice, data.price, maxDrawdown)
  }

  function OptionSignal(id: string, op: OptionPosition, data: MarketData): Signal
    requires op.highestPrice > 0.0
  {
    Signal(op.symbol, Sell, data.price, op.quantity, 1.0, data.timestamp, data.timestamp + SignalLifetime,
           OptionStopLoss(id, op.entryPrice, op.highestPrice, Drawdown(op.highestPrice, data.price), op.costBasis))
  }

  /** Visiting one option during the scan: update it if it is about the tick's symbol, and sell it if its stop is hit. */
  function OptionVisit(opts: map<string, OptionPosition>, id: string, data: MarketData, maxDrawdown: real)
    : (r: (map<string, OptionPosition>, Option<Signal>))
    requires data.price > 0.0
    ensures r.1.Some? <==> TriggersAt(opts, id, data, maxDrawdown)
    ensures r.1.Some? ==> r.0 == opts - {id} && r.1.value.symbol == data.symbol && r.1.value.action == Sell
    ensures r.1.None? ==> r.0.Keys == opts.Keys && forall x | x in opts && x != id :: r.0[x] == opts[x]
  {
    if id in opts && opts[id].symbol == data.symbol then
      var updated := Touch(opts[id], data);
      if updated.quantity > 0.0 && StopHit(updated.highestPrice, data.price, maxDrawdown) then
        (opts - {id}, Some(OptionSignal(id, updated, data)))
      else (opts[id := updated], None)
    else (opts, None)
  }

  /** The option scan over the ids in the order the map iteration happened to visit them; it stops at the first sale. */
  function OptionScan(opts: map<string, OptionPosition>, order: seq<string>, data: MarketData, maxDrawdown: real)
    : (r: (map<string, OptionPosition>, Option<Signal>))
    requires data.price > 0.0
    ensures r.0.Keys <= opts.Keys
    ensures r.1.None? ==> r.0.Keys == opts.Keys
    ensures r.1.Some? ==> |r.0.Keys| + 1 == |opts.Keys|
    decreases |order|
  {
    if order == [] then (opts, None)
    else
      var prior := OptionScan(opts, order[..|order| - 1], data, maxDrawdown);
      if prior.1.Some? then prior
      else OptionVisit(prior.0, order[|order| - 1], data, maxDrawdown)
  }

  /** Scanning one more id after a scan that sold nothing is one more visit. */
  lemma OptionScanSnoc(opts: map<string, OptionPosition>, order: seq<string>, id: string, data: MarketData,
                       maxDrawdown: real)
    requires data.price > 0.0
    requires OptionScan(opts, order, data, maxDrawdown).1.None?
    ensures OptionScan(opts, order + [id], data, maxDrawdown)
         == OptionVisit(OptionScan(opts, order, data, maxDrawdown).0, id, data, maxDrawdown)
  {
    assert (order + [id])[..|order|] == order;
  }

  /** The position in `order` of the first option whose stop is hit; |order| if there is none. */
  function FirstTrigger(opts: map<string, OptionPosition>, order: seq<string>, data: MarketData, maxDrawdown: real)
    : (k: nat)
    requires data.price > 0.0
    ensures k <= |order|
    ensures forall i | 0 <= i < k :: !TriggersAt(opts, order[i], data, maxDrawdown)
    ensures k < |order| ==> TriggersAt(opts, order[k], data, maxDrawdown)
    decreases |order|
  {
    if order == [] then 0
    else if TriggersAt(opts, order[0], data, maxDrawdown) then 0
    else 1 + FirstTrigger(opts, order[1..], data, maxDrawdown)
  }

  /** Every option in `ids` that is about the tick's symbol updated by the tick; the others as they were. */
  function TouchAll(opts: map<string, OptionPosition>, ids: set<string>, data: MarketData): map<string, OptionPosition>
  {
    map id | id in opts :: if id in ids && opts[id].symbol == data.symbol then Touch(opts[id], data) else opts[id]
  }

  /** How the first trigger of a list relates to the first trigger of the list without its last id. */
  lemma FirstTriggerSnoc(opts: map<string, OptionPosition>, order: seq<string>, data: MarketData, maxDrawdown: real)
    requires data.price > 0.0 && |order| > 0
    ensures var n := |order|;
            var kp := FirstTrigger(opts, order[..n - 1], data, maxDrawdown);
            var k := FirstTrigger(opts, order, data, maxDrawdown);
            && (kp < n - 1 ==> k == kp)
            && (kp == n - 1 && TriggersAt(opts, order[n - 1], data, maxDrawdown) ==> k == n - 1)
            && (kp == n - 1 && !TriggersAt(opts, order[n - 1], data, maxDrawdown) ==> k == n)
  {
    var n := |order|;
    var prefix := order[..n - 1];
    var kp := FirstTrigger(opts, prefix, data, maxDrawdown);
    var k := FirstTrigger(opts, order, data, maxDrawdown);
    if k < n - 1 {
      assert prefix[k] == order[k];
    }
    if kp < n - 1 {
      assert prefix[kp] == order[kp];
    }
  }

  /** Visiting an option that does not trigger extends the set of updated ids by it. */
  lemma VisitExtends(opts: map<string, OptionPosition>, ids: set<string>, id: string, data: MarketData,
                     maxDrawdown: real)
    requires data.price > 0.0 && id in opts && id !in ids
    requires !TriggersAt(opts, id, data, maxDrawdown)
    ensures OptionVisit(TouchAll(opts, ids, data), id, data, maxDrawdown) == (TouchAll(opts, ids + {id}, data), None)
  {
    var m := TouchAll(opts, ids, data);
    assert m[id] == opts[id];
    if opts[id].symbol == data.symbol {
      assert m[id := Touch(opts[id], data)] == TouchAll(opts, ids + {id}, data);
    } else {
      assert m == TouchAll(opts, ids + {id}, data);
    }
  }

  /**
   * What the option scan does, independently of how it goes: if some option triggers, the
   * options visited before the first one that does are updated, that one is removed and
   * sold, and the rest stay as they were; otherwise every option about the tick's symbol is
   * updated and nothing is sold.
   */
  lemma {:induction false} OptionScanSpec(opts: map<string, OptionPosition>, order: seq<string>,
                                          data: MarketData, maxDrawdown: real)
    requires data.price > 0.0
    requires Distinct(order) && forall i | 0 <= i < |order| :: order[i] in opts
    ensures var k := FirstTrigger(opts, order, data, maxDrawdown);
            OptionScan(opts, order, data, maxDrawdown)
            == if k < |order| then
                 (TouchAll(opts, Elems(order[..k]), data) - {order[k]},
                  Some(OptionSignal(order[k], Touch(opts[order[k]], data), data)))
               else (TouchAll(opts, Elems(order), data), None)
    decreases |order|
  {
    var n := |order|;
    if n == 0 {
      assert TouchAll(opts, {}, data) == opts;
      assert Elems(order) == {};
    } else {
      var prefix := order[..n - 1];
      var id := order[n - 1];
      assert order == prefix + [id];
      OptionScanSpec(opts, prefix, data, maxDrawdown);
      FirstTriggerSnoc(opts, order, data, maxDrawdown);
      var kp := FirstTrigger(opts, prefix, data, maxDrawdown);
      var k := FirstTrigger(opts, order, data, maxDrawdown);
      if kp < n - 1 {
        assert prefix[..kp] == order[..k];
      } else {
        assert id !in Elems(prefix);
        var m := TouchAll(opts, Elems(prefix), data);
        assert m[id] == opts[id];
        if TriggersAt(opts, id, data, maxDrawdown) {
          assert order[..k] == prefix;
        } else {
          VisitExtends(opts, Elems(prefix), id, data, maxDrawdown);
          ElemsSnoc(prefix, id);
        }
      }
    }
  }

  /** The option scan never lowers a high and never adds a position. */
  lemma OptionScanMonotone(opts: map<string, OptionPosition>, order: seq<string>, data: MarketData, maxDrawdown: real)
    requires data.price > 0.0
    requires Distinct(order) && forall i | 0 <= i < |order| :: order[i] in opts
    ensures var r := OptionScan(opts, order, data, maxDrawdown).0;
            && r.Keys <= opts.Keys
            && forall id | id in r :: r[id].highestPrice >= opts[id].highestPrice
  {
    OptionScanSpec(opts, order, data, maxDrawdown);
  }

  // ---------------------------------------------------------------------------------------
  // Merging fetched option positions.

  /** One position as the position service reports it. */
  datatype FetchedPosition = FetchedPosition(
    id: string,
    symbol: string,
    quantity: real,
    averagePrice: real,
    currentPrice: real,
    marketValue: real,
    costBasis: real,
    instrumentURL: string)

  /** Merging one fetched position at time `now`. */
  function MergeOne(opts: map<string, OptionPosition>, p: FetchedPosition, now: int): (r: map<string, OptionPosition>)
    ensures r.Keys == opts.Keys + (if p.id != "" then {p.id} else {})
    ensures forall x | x in opts && x != p.id :: r[x] == opts[x]
    ensures p.id != "" ==> r[p.id].currentPrice == p.currentPrice && r[p.id].quantity == p.quantity
                           && r[p.id].highestPrice >= p.currentPrice
  {
    if p.id == "" then opts
    else if p.id in opts then
      var existing := opts[p.id];
      opts[p.id := existing.(currentPrice := p.currentPrice, quantity := p.quantity, lastUpdateTime := now,
                             highestPrice := Higher(existing.highestPrice, p.currentPrice))]
    else
      opts[p.id := OptionPosition(p.id, p.symbol, p.averagePrice, p.currentPrice, p.currentPrice, p.quantity,
                                  DefaultMultiplier, p.costBasis, now)]
  }

  /** Merging a fetched list, in order. */
  function Merge(opts: map<string, OptionPosition>, fetched: seq<FetchedPosition>, now: int)
    : (r: map<string, OptionPosition>)
    ensures opts.Keys <= r.Keys
    ensures forall x | x in r && x !in opts :: x != ""
    decreases |fetched|
  {
    if fetched == [] then opts
    else MergeOne(Merge(opts, fetched[..|fetched| - 1], now), fetched[|fetched| - 1], now)
  }

  /** The ids of the fetched positions that are not empty. */
  function FetchedIds(fetched: seq<FetchedPosition>): set<string>
  {
    set i | 0 <= i < |fetched| && fetched[i].id != "" :: fetched[i].id
  }

  lemma FetchedIdsSnoc(fetched: seq<FetchedPosition>, p: FetchedPosition)
    ensures FetchedIds(fetched + [p]) == FetchedIds(fetched) + (if p.id != "" then {p.id} else {})
  {
    var all := fetched + [p];
    forall x | x in FetchedIds(all)
      ensures x in FetchedIds(fetched) + (if p.id != "" then {p.id} else {})
    {
      var i :| 0 <= i < |all| && all[i].id != "" && all[i].id == x;
      if i < |fetched| {
        assert all[i] == fetched[i];
      }
    }
    forall x | x in FetchedIds(fetched)
      ensures x in FetchedIds(all)
    {
      var i :| 0 <= i < |fetched| && fetched[i].id != "" && fetched[i].id == x;
      assert all[i] == fetched[i];
    }
    if p.id != "" {
      assert all[|fetched|] == p;
    }
  }

  /** Merging keeps every known position and adds exactly the fetched ones with a non-empty id. */
  lemma {:induction false} MergeKeys(opts: map<string, OptionPosition>, fetched: seq<FetchedPosition>, now: int)
    ensures Merge(opts, fetched, now).Keys == opts.Keys + FetchedIds(fetched)
    decreases |fetched|
  {
    if fetched != [] {
      var n := |fetched|;
      MergeKeys(opts, fetched[..n - 1], now);
      assert fetched == fetched[..n - 1] + [fetched[n - 1]];
      FetchedIdsSnoc(fetched[..n - 1], fetched[n - 1]);
    }
  }

  /**
   * A known position keeps its id, symbol, entry price, multiplier and cost basis through a
   * merge, and never loses height.
   */
  lemma {:induction false} MergeKeepsIdentity(opts: map<string, OptionPosition>, fetched: seq<FetchedPosition>,
                                              now: int, id: string)
    requires id in opts
    ensures var r := Merge(opts, fetched, now);
            && id in r
            && r[id].id == opts[id].id && r[id].symbol == opts[id].symbol
            && r[id].entryPrice == opts[id].entryPrice && r[id].costBasis == opts[id].costBasis
            && r[id].multiplier == opts[id].multiplier
            && r[id].highestPrice >= opts[id].highestPrice
    decreases |fetched|
  {
    if fetched != [] {
      MergeKeepsIdentity(opts, fetched[..|fetched| - 1], now, id);
    }
  }

  /** An id that is not known and that no fetched position carries stays absent after a merge. */
  lemma {:induction false} MergeAbsent(opts: map<string, OptionPosition>, fetched: seq<FetchedPosition>, now: int,
                                       id: string)
    requires id !in opts
    requires forall j | 0 <= j < |fetched| :: fetched[j].id != id
    ensures id !in Merge(opts, fetched, now)
    decreases |fetched|
  {
    if fetched != [] {
      MergeAbsent(opts, fetched[..|fetched| - 1], now, id);
    }
  }

  /**
   * A position first seen in a merge is created from its first occurrence `i` in the list:
   * its own id, that occurrence's symbol, its average price as entry price, its cost basis,
   * and the default multiplier. Its high is the highest current price among its occurrences.
   */
  lemma MergeNewEntries(opts: map<string, OptionPosition>, fetched: seq<FetchedPosition>, now: int, i: nat)
    requires i < |fetched| && fetched[i].id != "" && fetched[i].id !in opts
    requires forall j | 0 <= j < i :: fetched[j].id != fetched[i].id
    ensures var r := Merge(opts, fetched, now);
            var id := fetched[i].id;
            && id in r
            && r[id].id == id && r[id].symbol == fetched[i].symbol
            && r[id].entryPrice == fetched[i].averagePrice && r[id].costBasis == fetched[i].costBasis
            && r[id].multiplier == DefaultMultiplier
            && (forall j | 0 <= j < |fetched| && fetched[j].id == id :: r[id].highestPrice >= fetched[j].currentPrice)
            && (exists j | i <= j < |fetched| :: fetched[j].id == id && r[id].highestPrice == fetched[j].currentPrice)
  {
    MergeNewIdentity(opts, fetched, now, i);
    MergeNewHighBound(opts, fetched, now, i);
    MergeNewHighAttained(opts, fetched, now, i);
  }

  /** The identity part of MergeNewEntries: later occurrences never change what the first one set. */
  lemma {:induction false} MergeNewIdentity(opts: map<string, OptionPosition>, fetched: seq<FetchedPosition>,
                                            now: int, i: nat)
    requires i < |fetched| && fetched[i].id != "" && fetched[i].id !in opts
    requires forall j | 0 <= j < i :: fetched[j].id != fetched[i].id
    ensures var r := Merge(opts, fetched, now);
            var id := fetched[i].id;
            && id in r
            && r[id].id == id && r[id].symbol == fetched[i].symbol
            && r[id].entryPrice == fetched[i].averagePrice && r[id].costBasis == fetched[i].costBasis
            && r[id].multiplier == DefaultMultiplier
    decreases |fetched|
  {
    var n := |fetched|;
    var prefix := fetched[..n - 1];
    var id := fetched[i].id;
    assert Merge(opts, fetched, now) == MergeOne(Merge(opts, prefix, now), fetched[n - 1], now);
    if i == n - 1 {
      MergeAbsent(opts, prefix, now, id);
    } else {
      assert prefix[i] == fetched[i];
      MergeNewIdentity(opts, prefix, now, i);
    }
  }

  /** One merge step on a tracked id: its high becomes the larger of the old high and, for its own id, the fetched price. */
  lemma MergeOneHigh(m: map<string, OptionPosition>, p: FetchedPosition, now: int, id: string)
    requires id in m && id != ""
    ensures id in MergeOne(m, p, now)
    ensures var h := MergeOne(m, p, now)[id].highestPrice;
            && h >= m[id].highestPrice
            && (p.id == id ==> h >= p.currentPrice)
            && (h == m[id].highestPrice || (p.id == id && h == p.currentPrice))
  {
  }

  /** One merge step on an id not yet tracked: the new entry's high is the fetched price. */
  lemma MergeNewHighFirst(m: map<string, OptionPosition>, p: FetchedPosition, now: int)
    requires p.id != "" && p.id !in m
    ensures p.id in MergeOne(m, p, now) && MergeOne(m, p, now)[p.id].highestPrice == p.currentPrice
  {
  }

  /** The high of a new position is no lower than the current price of any of its occurrences. */
  lemma {:induction false} MergeNewHighBound(opts: map<string, OptionPosition>, fetched: seq<FetchedPosition>,
                                             now: int, i: nat)
    requires i < |fetched| && fetched[i].id != "" && fetched[i].id !in opts
    requires forall j | 0 <= j < i :: fetched[j].id != fetched[i].id
    ensures var r := Merge(opts, fetched, now);
            var id := fetched[i].id;
            && id in r
            && forall j | 0 <= j < |fetched| && fetched[j].id == id :: r[id].highestPrice >= fetched[j].currentPrice
    decreases |fetched|
  {
    var n := |fetched|;
    var prefix := fetched[..n - 1];
    var id := fetched[i].id;
    var m := Merge(opts, prefix, now);
    var r := Merge(opts, fetched, now);
    assert r == MergeOne(m, fetched[n - 1], now);
    if i == n - 1 {
      MergeAbsent(opts, prefix, now, id);
      MergeNewHighFirst(m, fetched[n - 1], now);
      forall j | 0 <= j < n && fetched[j].id == id
        ensures r[id].highestPrice >= fetched[j].currentPrice
      {
        assert j == n - 1;
      }
    } else {
      assert prefix[i] == fetched[i];
      MergeNewHighBound(opts, prefix, now, i);
      MergeOneHigh(m, fetched[n - 1], now, id);
      forall j | 0 <= j < n && fetched[j].id == id
        ensures r[id].highestPrice >= fetched[j].currentPrice
      {
        if j < n - 1 {
          assert prefix[j] == fetched[j];
        }
      }
    }
  }

  /** The high of a new position is the current price of one of its occurrences. */
  lemma {:induction false} MergeNewHighAttained(opts: map<string, OptionPosition>, fetched: seq<FetchedPosition>,
                                                now: int, i: nat)
    requires i < |fetched| && fetched[i].id != "" && fetched[i].id !in opts
    requires forall j | 0 <= j < i :: fetched[j].id != fetched[i].id
    ensures var r := Merge(opts, fetched, now);
            var id := fetched[i].id;
            && id in r
            && exists j | i <= j < |fetched| :: fetched[j].id == id && r[id].highestPrice == fetched[j].currentPrice
    decreases |fetched|
  {
    var n := |fetched|;
    var prefix := fetched[..n - 1];
    var id := fetched[i].id;
    var m := Merge(opts, prefix, now);
    var r := Merge(opts, fetched, now);
    assert r == MergeOne(m, fetched[n - 1], now);
    if i == n - 1 {
      MergeAbsent(opts, prefix, now, id);
      MergeNewHighFirst(m, fetched[n - 1], now);
      assert fetched[n - 1].id == id && r[id].highestPrice == fetched[n - 1].currentPrice;
    } else {
      assert prefix[i] == fetched[i];
      MergeNewHighAttained(opts, prefix, now, i);
      MergeOneHigh(m, fetched[n - 1], now, id);
      if r[id].highestPrice == m[id].highestPrice {
        var k :| i <= k < n - 1 && prefix[k].id == id && m[id].highestPrice == prefix[k].currentPrice;
        assert fetched[k] == prefix[k];
      } else {
        assert fetched[n - 1].id == id && r[id].highestPrice == fetched[n - 1].currentPrice;
      }
    }
  }

  /** After a merge, a fetched id carries the quantity and current price of its last occurrence in the list. */
  lemma {:induction false} MergeLastWins(opts: map<string, OptionPosition>, fetched: seq<FetchedPosition>, now: int,
                                         i: nat)
    requires i < |fetched| && fetched[i].id != ""
    requires forall j | i < j < |fetched| :: fetched[j].id != fetched[i].id
    ensures var r := Merge(opts, fetched, now);
            && fetched[i].id in r
            && r[fetched[i].id].quantity == fetched[i].quantity
            && r[fetched[i].id].currentPrice == fetched[i].currentPrice
    decreases |fetched|
  {
    var n := |fetched|;
    if i < n - 1 {
      MergeLastWins(opts, fetched[..n - 1], now, i);
    }
  }

  // ---------------------------------------------------------------------------------------
  // The strategy object.

  /** What a request to the position service yields: an error, or the decoded list. */
  datatype FetchOutcome = FetchFailed | Fetched(positions: seq<FetchedPosition>)

  class StopLossStrategy {
    var maxDrawdownPercent: real
    var positions: map<string, Position>
    var optionPositions: map<string, OptionPosition>
    const positionServiceURL: string
    const name: string

    /** The threshold is a valid percentage and the service URL is set. */
    ghost predicate Valid()
      reads this
    {
      0.0 < maxDrawdownPercent < 100.0 && positionServiceURL != "" && name == StrategyName
    }

    constructor (maxDrawdown: real, url: string)
      ensures maxDrawdownPercent == maxDrawdown && positionServiceURL == url && name == StrategyName
      ensures positions == map[] && optionPositions == map[]
    {
      maxDrawdownPercent := maxDrawdown;
      positions := map[];
      optionPositions := map[];
      positionServiceURL := url;
      name := StrategyName;
    }

    /** NewStopLossStrategy: no strategy unless the threshold parses. */
    static method New(params: Params) returns (s: StopLossStrategy?, err: Option<ParamError>)
      ensures ParseMaxDrawdown(params).Failure? ==> s == null && err == Some(ParseMaxDrawdown(params).error)
      ensures ParseMaxDrawdown(params).Success? ==>
                && s != null && fresh(s) && err == None && s.Valid()
                && s.maxDrawdownPercent == ParseMaxDrawdown(params).value
                && s.positionServiceURL == ServiceURL(params)
                && s.positions == map[] && s.optionPositions == map[]
    {
      var parsed := ParseMaxDrawdown(params);
      if parsed.Failure? {
        return null, Some(parsed.error);
      }
      s := new StopLossStrategy(parsed.value, ServiceURL(params));
      err := None;
    }

    /** The strategy's registration name. */
    function Name(): (r: string)
      reads this
      ensures Valid() ==> r == StrategyName
    {
      name
    }

    function Parameters(): (r: Params)
      reads this
      ensures r.Keys == {MaxDrawdownKey, ServiceURLKey}
      ensures Valid() ==> ParseMaxDrawdown(r) == Success(maxDrawdownPercent) && ServiceURL(r) == positionServiceURL
    {
      map[MaxDrawdownKey := FloatParam(maxDrawdownPercent), ServiceURLKey := StringParam(positionServiceURL)]
    }

    /** A rejected update changes nothing; an accepted one is what Parameters reports afterwards. */
    method UpdateParameters(params: Params) returns (err: Option<ParamError>)
      modifies this`maxDrawdownPercent
      ensures ParseMaxDrawdown(params).Failure? ==>
                err == Some(ParseMaxDrawdown(params).error) && maxDrawdownPercent == old(maxDrawdownPercent)
      ensures ParseMaxDrawdown(params).Success? ==>
                err == None && maxDrawdownPercent == ParseMaxDrawdown(params).value
      ensures old(Valid()) ==> Valid()
    {
      var parsed := ParseMaxDrawdown(params);
      if parsed.Failure? {
        return Some(parsed.error);
      }
      maxDrawdownPercent := parsed.value;
      err := None;
    }

    /**
     * One tick. Options about the tick's symbol are visited in the map's iteration order
     * (`order`, chosen by the runtime); the first whose stop is hit is sold. If none is, the
     * stock path runs.
     */
    method ProcessData(data: MarketData) returns (signal: Option<Signal>, ghost order: seq<string>)
      requires data.price > 0.0
      modifies this`positions, this`optionPositions
      ensures Distinct(order) && Elems(order) <= old(optionPositions).Keys
      ensures optionPositions == OptionScan(old(optionPositions), order, data, maxDrawdownPercent).0
      ensures OptionScan(old(optionPositions), order, data, maxDrawdownPercent).1.Some? ==>
                signal == OptionScan(old(optionPositions), order, data, maxDrawdownPercent).1
                && positions == old(positions)
      ensures OptionScan(old(optionPositions), order, data, maxDrawdownPercent).1.None? ==>
                && Elems(order) == old(optionPositions).Keys
                && (positions, signal) == StockStep(old(positions), data, maxDrawdownPercent)
    {
      signal, order := ProcessOptions(data);
      if signal.None? {
        signal := ProcessStock(data);
      }
    }

    /** The option half of a tick: visit every option in some order, stopping at the first sale. */
    method ProcessOptions(data: MarketData) returns (signal: Option<Signal>, ghost order: seq<string>)
      requires data.price > 0.0
      modifies this`optionPositions
      ensures Distinct(order) && Elems(order) <= old(optionPositions).Keys
      ensures (optionPositions, signal) == OptionScan(old(optionPositions), order, data, maxDrawdownPercent)
      ensures signal.None? ==> Elems(order) == old(optionPositions).Keys
    {
      ghost var start := optionPositions;
      var remaining := optionPositions.Keys;
      order := [];
      ghost var visited: set<string> := {};
      while remaining != {}
        invariant visited == Elems(order)
        invariant remaining !! visited
        invariant remaining + visited == start.Keys
        invariant Distinct(order)
        invariant optionPositions.Keys == start.Keys
        invariant OptionScan(start, order, data, maxDrawdownPercent) == (optionPositions, None)
        decreases |remaining|
      {
        var id :| id in remaining;
        VisitStep(start.Keys, order, visited, remaining, id);
        OptionScanSnoc(start, order, id, data, maxDrawdownPercent);
        remaining := remaining - {id};
        order := order + [id];
        visited := visited + {id};
        signal := ProcessOption(id, data);
        assert OptionScan(start, order, data, maxDrawdownPercent) == (optionPositions, signal);
        if signal.Some? {
          return;
        }
      }
      signal := None;
    }

    /** The option `id` seeing a tick: updated if it is about the tick's symbol, sold if its stop is hit. */
    method ProcessOption(id: string, data: MarketData) returns (signal: Option<Signal>)
      requires data.price > 0.0 && id in optionPositions
      modifies this`optionPositions
      ensures (optionPositions, signal) == OptionVisit(old(optionPositions), id, data, maxDrawdownPercent)
      ensures signal.None? ==> optionPositions.Keys == old(optionPositions).Keys
    {
      var op := optionPositions[id];
      if op.symbol == data.symbol {
        var updated := Touch(op, data);
        optionPositions := optionPositions[id := updated];
        if updated.quantity > 0.0 && StopHit(updated.highestPrice, data.price, maxDrawdownPercent) {
          optionPositions := optionPositions - {id};
          assert optionPositions == old(optionPositions) - {id};
          return Some(OptionSignal(id, updated, data));
        }
      }
      signal := None;
    }

    /** The stock half of a tick, run when no option was sold. */
    method ProcessStock(data: MarketData) returns (signal: Option<Signal>)
      requires data.price > 0.0
      modifies this`positions
      ensures (positions, signal) == StockStep(old(positions), data, maxDrawdownPercent)
    {
      if data.symbol !in positions {
        positions := positions[data.symbol := Position(data.price, data.price, 0.0, data.timestamp)];
        return None;
      }
      var pos := positions[data.symbol];
      if data.price > pos.highestPrice {
        pos := pos.(highestPrice := data.price);
        positions := positions[data.symbol := pos];
      }
      if pos.quantity > 0.0 && StopHit(pos.highestPrice, data.price, maxDrawdownPercent) {
        signal := Some(StockSignal(data, pos));
        positions := positions - {data.symbol};
        assert positions == old(positions) - {data.symbol};
        return;
      }
      assert positions == old(positions)[data.symbol := pos];
      signal := None;
    }

    /** Initialize: one fetch whose failure is ignored; the periodic refresh is not modelled. */
    method Initialize(outcome: FetchOutcome, now: int)
      modifies this`optionPositions
      ensures outcome.Fetched? ==> optionPositions == Merge(old(optionPositions), outcome.positions, now)
      ensures outcome.FetchFailed? ==> optionPositions == old(optionPositions)
    {
      var _ := FetchOptionPositions(outcome, now);
    }

    /** fetchOptionPositions: a failed request changes nothing; a list is merged in order at time `now`. */
    method FetchOptionPositions(outcome: FetchOutcome, now: int) returns (ok: bool)
      modifies this`optionPositions
      ensures ok == outcome.Fetched?
      ensures ok ==> optionPositions == Merge(old(optionPositions), outcome.positions, now)
      ensures !ok ==> optionPositions == old(optionPositions)
    {
      if outcome.FetchFailed? {
        return false;
      }
      var fetched := outcome.positions;
      for i := 0 to |fetched|
        invariant optionPositions == Merge(old(optionPositions), fetched[..i], now)
      {
        assert fetched[..i + 1][..i] == fetched[..i];
        var p := fetched[i];
        if p.id == "" {
          continue;
        }
        if p.id in optionPositions {
          var existing := optionPositions[p.id];
          existing := existing.(currentPrice := p.currentPrice, quantity := p.quantity, lastUpdateTime := now);
          if p.currentPrice > existing.highestPrice {
            existing := existing.(highestPrice := p.currentPrice);
          }
          optionPositions := optionPositions[p.id := existing];
        } else {
          optionPositions := optionPositions[p.id := OptionPosition(p.id, p.symbol, p.averagePrice, p.currentPrice,
                                                                    p.currentPrice, p.quantity, DefaultMultiplier,
                                                                    p.costBasis, now)];
        }
      }
      assert fetched[..|fetched|] == fetched;
      ok := true;
    }
  }
}
