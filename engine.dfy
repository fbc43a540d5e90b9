/**
 * The strategy engine (strategy-engine/internal/engine/engine.go): a registry of strategies
 * keyed by name, and the fan-out of each market-data tick to every registered strategy,
 * passing every signal produced to the signal handler.
 *
 * Strategies are opaque here: a strategy is a handle carrying its name, and what it does on
 * cleanup or on a tick is a parameter of the operation that asks it.
 */
module Engine {
  import opened Wrappers
  import opened StrategyTypes
  import opened Collections

  /** A registered strategy, as far as the registry can see it: its Name() and an identity. */
  datatype StrategyHandle = StrategyHandle(name: string, id: nat)

  /** The two sentinel errors of errors.go, and an error passed on from a strategy's Cleanup. */
  datatype EngineError = AlreadyExists | NotFound | CleanupFailed(reason: string)

  /** What a strategy's ProcessData returned for a tick: an error, no signal, or a signal. */
  datatype TickOutcome = TickFailed(reason: string) | NoSignal | Emitted(signal: Signal)

  type Registry = map<string, StrategyHandle>

  /** Every strategy is registered under its own name. */
  ghost predicate WellKeyed(m: Registry)
  {
    forall n | n in m :: m[n].name == n
  }

  /** Registering: refused if the name is taken; otherwise exactly one entry is added. */
  function Register(m: Registry, s: StrategyHandle): (r: Result<Registry, EngineError>)
    ensures r.Failure? <==> s.name in m
    ensures r.Failure? ==> r.error == AlreadyExists
    ensures r.Success? ==>
              && r.value.Keys == m.Keys + {s.name} && r.value[s.name] == s
              && forall n | n in m :: r.value[n] == m[n]
    ensures r.Success? && WellKeyed(m) ==> WellKeyed(r.value)
  {
    if s.name in m then Failure(AlreadyExists) else Success(m[s.name := s])
  }

  /**
   * Unregistering: an unknown name is an error; otherwise the strategy's cleanup runs, and
   * only if it succeeds is exactly that entry removed.
   */
  function Unregister(m: Registry, name: string, cleanup: StrategyHandle -> Option<string>)
    : (r: Result<Registry, EngineError>)
    ensures name !in m ==> r == Failure(NotFound)
    ensures name in m ==> (r.Failure? <==> cleanup(m[name]).Some?)
    ensures name in m && cleanup(m[name]).Some? ==> r == Failure(CleanupFailed(cleanup(m[name]).value))
    ensures r.Success? ==>
              && r.value.Keys == m.Keys - {name}
              && forall n | n in r.value :: r.value[n] == m[n]
    ensures r.Success? && WellKeyed(m) ==> WellKeyed(r.value)
  {
    if name !in m then Failure(NotFound)
    else
      match cleanup(m[name])
      case Some(reason) => Failure(CleanupFailed(reason))
      case None => Success(m - {name})
  }

  /** Unregistering a freshly registered strategy whose cleanup succeeds gives back the registry as it was. */
  lemma RegisterThenUnregister(m: Registry, s: StrategyHandle, cleanup: StrategyHandle -> Option<string>)
    requires s.name !in m && cleanup(s).None?
    ensures Register(m, s).Success?
    ensures Unregister(Register(m, s).value, s.name, cleanup) == Success(m)
  {
    assert m[s.name := s] - {s.name} == m;
  }

  /** A second registration under the same name is refused whatever the strategy. */
  lemma RegisterTwice(m: Registry, s: StrategyHandle, t: StrategyHandle)
    requires s.name == t.name && Register(m, s).Success?
    ensures Register(Register(m, s).value, t) == Failure(AlreadyExists)
  {
  }

  /**
   * The signals handed to the signal handler when the strategies are visited in `order`: one
   * per strategy that returned a signal, in visiting order. Errors, and the handler's own
   * errors, only move on to the next strategy.
   */
  function Fanout(m: Registry, order: seq<string>, process: (StrategyHandle, MarketData) -> TickOutcome,
                  data: MarketData): (r: seq<Signal>)
    ensures |r| <= |order|
    decreases |order|
  {
    if order == [] then []
    else
      var last := order[|order| - 1];
      Fanout(m, order[..|order| - 1], process, data)
      + (if last in m && process(m[last], data).Emitted? then [process(m[last], data).signal] else [])
  }

  /** Visiting one more registered strategy adds its signal, if it returned one. */
  lemma FanoutSnoc(m: Registry, order: seq<string>, name: string,
                   process: (StrategyHandle, MarketData) -> TickOutcome, data: MarketData)
    requires name in m
    ensures Fanout(m, order + [name], process, data)
         == Fanout(m, order, process, data)
            + (if process(m[name], data).Emitted? then [process(m[name], data).signal] else [])
  {
    assert (order + [name])[..|order|] == order;
  }

  /** The strategies among `order` that returned a signal, in order. */
  function Emitters(m: Registry, order: seq<string>, process: (StrategyHandle, MarketData) -> TickOutcome,
                    data: MarketData): (r: seq<string>)
    ensures forall i | 0 <= i < |r| :: r[i] in order
    decreases |order|
  {
    if order == [] then []
    else
      var last := order[|order| - 1];
      Emitters(m, order[..|order| - 1], process, data)
      + (if last in m && process(m[last], data).Emitted? then [last] else [])
  }

  /**
   * The handler receives exactly the signals of the emitting strategies, each once, in the
   * order they were visited, and nothing from a strategy that failed or stayed silent.
   */
  lemma {:induction false} FanoutSpec(m: Registry, order: seq<string>,
                                      process: (StrategyHandle, MarketData) -> TickOutcome, data: MarketData)
    requires Elems(order) <= m.Keys
    ensures var e := Emitters(m, order, process, data);
            var f := Fanout(m, order, process, data);
            && |f| == |e|
            && (forall i | 0 <= i < |e| :: process(m[e[i]], data) == Emitted(f[i]))
            && (forall n | n in order :: (n in e <==> process(m[n], data).Emitted?))
    decreases |order|
  {
    if order != [] {
      var prefix := order[..|order| - 1];
      var last := order[|order| - 1];
      assert Elems(prefix) <= Elems(order) by {
        assert forall x | x in prefix :: x in order;
      }
      FanoutSpec(m, prefix, process, data);
      assert forall n | n in order :: n in prefix || n == last by {
        assert order == prefix + [last];
      }
    }
  }

  /** Each name visited once gives each emitting strategy's signal once. */
  lemma {:induction false} EmittersDistinct(m: Registry, order: seq<string>,
                                            process: (StrategyHandle, MarketData) -> TickOutcome, data: MarketData)
    requires Distinct(order)
    ensures Distinct(Emitters(m, order, process, data))
    decreases |order|
  {
    if order != [] {
      var prefix := order[..|order| - 1];
      var last := order[|order| - 1];
      EmittersDistinct(m, prefix, process, data);
      var e := Emitters(m, prefix, process, data);
      assert last !in Elems(e);
      if last in m && process(m[last], data).Emitted? {
        DistinctSnoc(e, last);
      }
    }
  }

  class Engine {
    var strategies: Registry

    constructor ()
      ensures strategies == map[]
    {
      strategies := map[];
    }

    method RegisterStrategy(s: StrategyHandle) returns (err: Option<EngineError>)
      modifies this`strategies
      ensures var r := Register(old(strategies), s);
              && (r.Failure? ==> err == Some(r.error) && strategies == old(strategies))
              && (r.Success? ==> err == None && strategies == r.value)
    {
      if s.name in strategies {
        return Some(AlreadyExists);
      }
      strategies := strategies[s.name := s];
      err := None;
    }

    method UnregisterStrategy(name: string, cleanup: StrategyHandle -> Option<string>)
      returns (err: Option<EngineError>)
      modifies this`strategies
      ensures var r := Unregister(old(strategies), name, cleanup);
              && (r.Failure? ==> err == Some(r.error) && strategies == old(strategies))
              && (r.Success? ==> err == None && strategies == r.value)
    {
      if name in strategies {
        var s := strategies[name];
        var cleanupErr := cleanup(s);
        if cleanupErr.Some? {
          return Some(CleanupFailed(cleanupErr.value));
        }
        strategies := strategies - {name};
        return None;
      }
      err := Some(NotFound);
    }

    /**
     * One tick to every strategy, in the map's iteration order (`order`, chosen by the
     * runtime). The result is always success; `handled` are the signals passed to the signal
     * handler, in the order they were passed.
     */
    method ProcessMarketData(data: MarketData, process: (StrategyHandle, MarketData) -> TickOutcome)
      returns (err: Option<EngineError>, handled: seq<Signal>, ghost order: seq<string>)
      ensures err == None
      ensures Distinct(order) && Elems(order) == strategies.Keys
      ensures handled == Fanout(strategies, order, process, data)
    {
      var remaining := strategies.Keys;
      order := [];
      handled := [];
      ghost var visited: set<string> := {};
      while remaining != {}
        invariant visited == Elems(order) && remaining !! visited && remaining + visited == strategies.Keys
        invariant Distinct(order)
        invariant handled == Fanout(strategies, order, process, data)
        decreases |remaining|
      {
        var name :| name in remaining;
        VisitStep(strategies.Keys, order, visited, remaining, name);
        remaining := remaining - {name};
        visited := visited + {name};
        var outcome := process(strategies[name], data);
        FanoutSnoc(strategies, order, name, process, data);
        order := order + [name];
        if outcome.TickFailed? {
          continue;
        }
        if outcome.Emitted? {
          handled := handled + [outcome.signal];
        }
      }
      err := None;
    }

    function GetStrategy(name: string): (r: Option<StrategyHandle>)
      reads this
      ensures r.Some? <==> name in strategies
      ensures r.Some? ==> r.value == strategies[name]
    {
      if name in strategies then Some(strategies[name]) else None
    }

    /** Every registered name exactly once, in the map's iteration order. */
    method ListStrategies() returns (names: seq<string>)
      ensures Distinct(names) && Elems(names) == strategies.Keys
      ensures |names| == |strategies|
    {
      var remaining := strategies.Keys;
      names := [];
      ghost var listed: set<string> := {};
      while remaining != {}
        invariant listed == Elems(names) && remaining !! listed && remaining + listed == strategies.Keys
        invariant Distinct(names)
        decreases |remaining|
      {
        var name :| name in remaining;
        VisitStep(strategies.Keys, names, listed, remaining, name);
        remaining := remaining - {name};
        listed := listed + {name};
        names := names + [name];
      }
      DistinctCard(names);
    }
  }
}
