/**
 * The plain market-data streamer (market-streaming/internal/stream/streamer.go): one socket,
 * subscriptions sent on request, and a read loop that dispatches trade frames and gives up
 * at the first failed read.
 */
module BaseStream {
  import opened Wrappers
  import opened StreamModels
  import opened Transport

  /** Why Stream stopped: a read failed, or the scripted reads ran out. */
  datatype StreamStop = ReadError | ScriptEnded

  /**
   * The read loop: every message is decoded and trade frames are dispatched, until a read
   * fails. It stops with an error exactly when one of the reads fails, and all it does to
   * the outside is call handlers.
   */
  function Run(handlers: seq<HandlerId>, e: Env): (r: (StreamStop, Env))
    ensures |e.log| <= |r.1.log| && r.1.log[..|e.log|] == e.log
    ensures r.0 == ReadError <==> ReadFailed in e.incoming
    ensures forall i | |e.log| <= i < |r.1.log| :: r.1.log[i].Called?
    decreases |e.incoming|
  {
    if |e.incoming| == 0 then (ScriptEnded, e)
    else
      var (inbound, e1) := Read(e);
      match inbound
      case ReadFailed => (ReadError, e1)
      case Received(decoded) =>
        assert e.incoming == [inbound] + e1.incoming;
        Run(handlers, Deliver(e1, decoded, handlers))
  }

  /**
   * A malformed message does not stop the loop: one that fails to decode, followed by a
   * trade frame, still delivers that frame's trades to every handler.
   */
  lemma MalformedMessageSkipped(handlers: seq<HandlerId>, e: Env, trades: seq<Trade>)
    requires e.incoming == [Received(None), Received(Some(TradeData(trades, TradeKind))), ReadFailed]
    ensures Run(handlers, e) == (ReadError, e.(incoming := [], log := e.log + Dispatch(trades, handlers)))
  {
    var e1 := e.(incoming := e.incoming[1..]);
    var e2 := e1.(incoming := e1.incoming[1..]);
    assert Run(handlers, e) == Run(handlers, e1);
    assert TradeKind == "trade";
    assert Run(handlers, e1) == Run(handlers, e2.(log := e2.log + Dispatch(trades, handlers)));
  }

  class Streamer {
    var conn: ConnId
    const apiKey: string
    const symbols: seq<string>
    var handlers: seq<HandlerId>
    var env: Env

    constructor (conn: ConnId, apiKey: string, symbols: seq<string>, env: Env)
      ensures this.conn == conn && this.apiKey == apiKey && this.symbols == symbols
      ensures this.handlers == [] && this.env == env
    {
      this.conn := conn;
      this.apiKey := apiKey;
      this.symbols := symbols;
      this.handlers := [];
      this.env := env;
    }

    /** Dials the upstream; there is no streamer when the dial fails. */
    static method NewStreamer(apiKey: string, symbols: seq<string>, e: Env)
      returns (s: Streamer?, rest: Env)
      ensures var (dialed, e1) := Dial(e, EndpointURL(apiKey));
              && (s == null <==> dialed.DialError?)
              && rest == e1
              && (s != null ==>
                    && fresh(s) && s.conn == dialed.conn && s.env == e1
                    && s.apiKey == apiKey && s.symbols == symbols && s.handlers == [])
    {
      var (dialed, e1) := Dial(e, EndpointURL(apiKey));
      rest := e1;
      if dialed.DialError? {
        return null, rest;
      }
      s := new Streamer(dialed.conn, apiKey, symbols, e1);
    }

    method AddHandler(h: HandlerId)
      modifies this`handlers
      ensures handlers == old(handlers) + [h]
    {
      handlers := handlers + [h];
    }

    /** One subscribe message per symbol, in order, stopping at the first failed write. */
    method Subscribe() returns (failed: Option<string>)
      modifies this`env
      ensures (failed, env) == SubscribeAll(old(env), conn, symbols)
    {
      failed, env := SendSubscriptions(env, conn, symbols);
    }

    method Stream() returns (stop: StreamStop)
      modifies this`env
      ensures (stop, env) == Run(handlers, old(env))
    {
      while |env.incoming| > 0
        invariant Run(handlers, env) == Run(handlers, old(env))
        decreases |env.incoming|
      {
        var (inbound, e1) := Read(env);
        env := e1;
        if inbound.ReadFailed? {
          return ReadError;
        }
        var decoded := inbound.decoded;
        if decoded.None? {
          continue;
        }
        if decoded.value.kind == TradeKind {
          env := DispatchTrades(env, decoded.value.data, handlers);
        }
      }
      return ScriptEnded;
    }

    method Close()
      modifies this`env
      ensures env == Transport.Close(old(env), conn)
    {
      env := Transport.Close(env, conn);
    }
  }
}
