/**
 * The crypto streamer (market-streaming/internal/stream/crypto/streamer.go): the same
 * reconnecting read loop as the stock streamer, without the market-hours warning, and with a
 * `connected` flag that is cleared when a socket is given up and set again by a successful
 * connect.
 */
module CryptoStream {
  import opened Wrappers
  import StreamModels
  import opened Transport
  import opened Backoff
  import StockStream

  /** The symbol of a crypto pair as the upstream feed names it (this package's own copy). */
  function FormatSymbol(base: string, quote: string): (r: string)
    ensures r == StreamModels.FormatSymbol(base, quote)
  {
    "BINANCE:" + base + quote
  }

  /**
   * The read loop on socket `conn`, with the flag `connected`: a failed read closes the
   * socket, clears the flag, and enters the reconnect loop with the initial backoff. The
   * result is where the run ends, the socket and flag then, and the world. A run that starts
   * connected ends connected exactly when it ends in the read loop.
   */
  function Run(apiKey: string, symbols: seq<string>, handlers: seq<HandlerId>,
               conn: ConnId, connected: bool, e: Env)
    : (r: (Horizon, ConnId, bool, Env))
    ensures connected ==> (r.2 <==> r.0 == ReadsExhausted)
    decreases |e.incoming|, |e.dials|, 1
  {
    if |e.incoming| == 0 then (ReadsExhausted, conn, connected, e)
    else
      var (inbound, e1) := Read(e);
      match inbound
      case ReadFailed => Reconnect(apiKey, symbols, handlers, conn, InitialBackoff, Transport.Close(e1, conn))
      case Received(decoded) => Run(apiKey, symbols, handlers, conn, connected, Deliver(e1, decoded, handlers))
  }

  /**
   * The reconnect loop with delay `b`, entered disconnected: sleep, grow the delay, connect;
   * a failed connect keeps the old socket and stays disconnected; a connect whose
   * resubscription fails closes the new socket and clears the flag again; a successful one
   * resumes the read loop connected. It ends connected exactly when it ends in the read loop.
   */
  function Reconnect(apiKey: string, symbols: seq<string>, handlers: seq<HandlerId>, conn: ConnId,
                     b: nat, e: Env)
    : (r: (Horizon, ConnId, bool, Env))
    requires InitialBackoff <= b <= MaxBackoff
    ensures r.2 <==> r.0 == ReadsExhausted
    decreases |e.incoming|, |e.dials|, 0
  {
    if |e.dials| == 0 then (DialsExhausted, conn, false, e)
    else
      var (dialed, e1) := Dial(Sleep(e, b), EndpointURL(apiKey));
      match dialed
      case DialError => Reconnect(apiKey, symbols, handlers, conn, Grow(b), e1)
      case Connected(c) =>
        var (failed, e2) := SubscribeAll(e1, c, symbols);
        if failed.Some? then Reconnect(apiKey, symbols, handlers, c, Grow(b), Transport.Close(e2, c))
        else Run(apiKey, symbols, handlers, c, true, e2)
  }

  /**
   * On the wire the crypto streamer behaves exactly as the stock streamer: the same socket
   * at the end and the same world, so every property of the stock read and reconnect loops
   * (the backoff schedule, its reset, the bound on sleeps) holds for it too.
   */
  lemma {:induction false} RunAgreesWithStock(apiKey: string, symbols: seq<string>, handlers: seq<HandlerId>,
                                              conn: ConnId, connected: bool, e: Env)
    ensures var r := Run(apiKey, symbols, handlers, conn, connected, e);
            var q := StockStream.Run(apiKey, symbols, handlers, conn, e);
            (r.0 == q.0 && r.1 == q.1 && r.3 == q.2)
    decreases |e.incoming|, |e.dials|, 1
  {
    if |e.incoming| > 0 {
      var (inbound, e1) := Read(e);
      match inbound
      case ReadFailed =>
        ReconnectAgreesWithStock(apiKey, symbols, handlers, conn, InitialBackoff, Transport.Close(e1, conn));
      case Received(decoded) =>
        RunAgreesWithStock(apiKey, symbols, handlers, conn, connected, Deliver(e1, decoded, handlers));
    }
  }

  lemma {:induction false} ReconnectAgreesWithStock(apiKey: string, symbols: seq<string>, handlers: seq<HandlerId>,
                                                    conn: ConnId, b: nat, e: Env)
    requires InitialBackoff <= b <= MaxBackoff
    ensures var r := Reconnect(apiKey, symbols, handlers, conn, b, e);
            var q := StockStream.Reconnect(apiKey, symbols, handlers, conn, b, e);
            (r.0 == q.0 && r.1 == q.1 && r.3 == q.2)
    decreases |e.incoming|, |e.dials|, 0
  {
    if |e.dials| > 0 {
      var (dialed, e1) := Dial(Sleep(e, b), EndpointURL(apiKey));
      match dialed
      case DialError =>
        ReconnectAgreesWithStock(apiKey, symbols, handlers, conn, Grow(b), e1);
      case Connected(c) =>
        var (failed, e2) := SubscribeAll(e1, c, symbols);
        if failed.Some? {
          ReconnectAgreesWithStock(apiKey, symbols, handlers, c, Grow(b), Transport.Close(e2, c));
        } else {
          RunAgreesWithStock(apiKey, symbols, handlers, c, true, e2);
        }
    }
  }

  class Streamer {
    /** The socket in use; none before the first successful connect. */
    var conn: Option<ConnId>
    const apiKey: string
    const symbols: seq<string>
    var handlers: seq<HandlerId>
    var connected: bool
    var env: Env

    constructor (apiKey: string, symbols: seq<string>, env: Env)
      ensures this.conn == None && this.apiKey == apiKey && this.symbols == symbols
      ensures this.handlers == [] && !this.connected && this.env == env
    {
      this.conn := None;
      this.apiKey := apiKey;
      this.symbols := symbols;
      this.handlers := [];
      this.connected := false;
      this.env := env;
    }

    /** Builds a disconnected streamer and connects it; there is none when the connect fails. */
    static method NewStreamer(apiKey: string, symbols: seq<string>, e: Env)
      returns (s: Streamer?, rest: Env)
      ensures var (dialed, e1) := Dial(e, EndpointURL(apiKey));
              && (s == null <==> dialed.DialError?)
              && rest == e1
              && (s != null ==>
                    && fresh(s) && s.conn == Some(dialed.conn) && s.connected && s.env == e1
                    && s.apiKey == apiKey && s.symbols == symbols && s.handlers == [])
    {
      var st := new Streamer(apiKey, symbols, e);
      var ok := st.Connect();
      rest := st.env;
      if !ok {
        return null, rest;
      }
      s := st;
    }

    /** Dials; only a successful dial replaces the socket and sets the flag. */
    method Connect() returns (ok: bool)
      modifies this`conn, this`connected, this`env
      ensures var (dialed, e1) := Dial(old(env), EndpointURL(apiKey));
              && env == e1
              && ok == dialed.Connected?
              && (ok ==> conn == Some(dialed.conn) && connected)
              && (!ok ==> conn == old(conn) && connected == old(connected))
    {
      var (dialed, e1) := Dial(env, EndpointURL(apiKey));
      env := e1;
      if dialed.DialError? {
        return false;
      }
      conn := Some(dialed.conn);
      connected := true;
      ok := true;
    }

    method AddHandler(h: HandlerId)
      modifies this`handlers
      ensures handlers == old(handlers) + [h]
    {
      handlers := handlers + [h];
    }

    /** One subscribe message per symbol, in order, stopping at the first failed write. */
    method Subscribe() returns (failed: Option<string>)
      requires conn.Some?
      modifies this`env
      ensures (failed, env) == SubscribeAll(old(env), conn.value, symbols)
    {
      failed, env := SendSubscriptions(env, conn.value, symbols);
    }

    /** The read loop never resumes disconnected once it has started connected. */
    method Stream() returns (stop: Horizon)
      requires conn.Some?
      modifies this`conn, this`connected, this`env
      ensures conn.Some?
      ensures (stop, conn.value, connected, env)
           == Run(apiKey, symbols, handlers, old(conn).value, old(connected), old(env))
    {
      var backoff := InitialBackoff;
      while true
        invariant conn.Some? && backoff == InitialBackoff
        invariant old(connected) ==> connected
        invariant Run(apiKey, symbols, handlers, conn.value, connected, env)
               == Run(apiKey, symbols, handlers, old(conn).value, old(connected), old(env))
        decreases |env.incoming|
      {
        if |env.incoming| == 0 {
          return ReadsExhausted;
        }
        var (inbound, e1) := Read(env);
        env := e1;
        if inbound.ReadFailed? {
          env := Transport.Close(env, conn.value);
          connected := false;
          ghost var pending := |env.incoming|;
          while true
            invariant conn.Some? && !connected
            invariant InitialBackoff <= backoff <= MaxBackoff
            invariant |env.incoming| == pending
            invariant Reconnect(apiKey, symbols, handlers, conn.value, backoff, env)
                   == Run(apiKey, symbols, handlers, old(conn).value, old(connected), old(env))
            decreases |env.dials|
          {
            if |env.dials| == 0 {
              return DialsExhausted;
            }
            env := Sleep(env, backoff);
            backoff := Grow(backoff);
            var ok := Connect();
            if !ok {
              continue;
            }
            var failed := Subscribe();
            if failed.Some? {
              env := Transport.Close(env, conn.value);
              connected := false;
              continue;
            }
            backoff := InitialBackoff;
            break;
          }
          continue;
        }
        var decoded := inbound.decoded;
        if decoded.None? {
          continue;
        }
        if decoded.value.kind == StreamModels.TradeKind {
          env := DispatchTrades(env, decoded.value.data, handlers);
        }
      }
    }

    method Close()
      requires conn.Some?
      modifies this`env
      ensures env == Transport.Close(old(env), conn.value)
    {
      env := Transport.Close(env, conn.value);
    }
  }
}
