/**
 * The world a market streamer talks to: the websocket dialer and sockets, the clock and the
 * registered trade handlers. The outcomes of dials and reads are a script fixed in advance, a
 * write fails exactly when its position is listed in `failingWrites`, and every effect a
 * streamer has on the outside (dials, writes, closes, sleeps, handler calls) is appended to `log`.
 */
module Transport {
  import opened Wrappers
  import opened StreamModels

  /** Sockets are told apart by the order in which they were opened. */
  type ConnId = nat

  /** Trade handlers (Go closures) are told apart by an identity. */
  type HandlerId = nat

  /** Go's time.Weekday. */
  datatype Weekday = Sunday | Monday | Tuesday | Wednesday | Thursday | Friday | Saturday

  /**
   * What the stock streamer learns from time.Now(): the weekday on the local clock, whether
   * the America/New_York zone loads, and the New York wall-clock time of day in nanoseconds.
   */
  datatype Instant = Instant(localWeekday: Weekday, zoneLoads: bool, etNanosOfDay: nat)

  /** The outcome of one ReadMessage: an error, or a message that json.Unmarshal decodes or not. */
  datatype Inbound = ReadFailed | Received(decoded: Option<TradeData>)

  datatype Event =
    | Dialed(url: string, ok: bool)
    | Wrote(conn: ConnId, msg: string, ok: bool)
    | Closed(conn: ConnId)
    | Slept(seconds: nat)
    | Called(handler: HandlerId, trade: Trade)

  datatype Env = Env(
    dials: seq<bool>,          // outcomes of the coming dials; no outcome left means the dial fails
    incoming: seq<Inbound>,    // outcomes of the coming reads
    failingWrites: set<nat>,   // positions (counted from 0) of the writes that fail
    writes: nat,               // writes attempted so far
    nextConn: ConnId,          // identity of the next socket a dial opens
    clock: Instant,
    log: seq<Event>)

  datatype DialResult = Connected(conn: ConnId) | DialError

  /**
   * Where a run of a reconnecting streamer ends. Its Stream has no return path, so only the
   * end of the script stops it: no read outcome is left, or no dial outcome is left while
   * reconnecting.
   */
  datatype Horizon = ReadsExhausted | DialsExhausted

  const EndpointPrefix: string := "wss://ws.finnhub.io?token="

  /** The upstream URL, with the API key as query token. */
  function EndpointURL(apiKey: string): string
  {
    EndpointPrefix + apiKey
  }

  function Dial(e: Env, url: string): (DialResult, Env)
  {
    if |e.dials| > 0 && e.dials[0] then
      (Connected(e.nextConn),
       e.(dials := e.dials[1..], nextConn := e.nextConn + 1, log := e.log + [Dialed(url, true)]))
    else
      (DialError,
       e.(dials := if |e.dials| > 0 then e.dials[1..] else [], log := e.log + [Dialed(url, false)]))
  }

  function Write(e: Env, conn: ConnId, msg: string): (bool, Env)
  {
    var ok := e.writes !in e.failingWrites;
    (ok, e.(writes := e.writes + 1, log := e.log + [Wrote(conn, msg, ok)]))
  }

  function Read(e: Env): (Inbound, Env)
    requires |e.incoming| > 0
  {
    (e.incoming[0], e.(incoming := e.incoming[1..]))
  }

  function Close(e: Env, conn: ConnId): Env
  {
    e.(log := e.log + [Closed(conn)])
  }

  function Sleep(e: Env, seconds: nat): Env
  {
    e.(log := e.log + [Slept(seconds)])
  }

  function Invoke(e: Env, h: HandlerId, t: Trade): Env
  {
    e.(log := e.log + [Called(h, t)])
  }

  // ---------------------------------------------------------------------------------------
  // Subscribing: one control message per symbol, in order, stopping at the first failed write.

  const SubscribeHead: string := "{\"type\":\"subscribe\",\"symbol\":\""
  const SubscribeTail: string := "\"}"

  /** The control message that subscribes to `symbol`; the symbol can be read back from it. */
  function SubscribeMessage(symbol: string): (m: string)
    ensures |m| == |SubscribeHead| + |symbol| + |SubscribeTail|
    ensures m[|SubscribeHead|..|m| - |SubscribeTail|] == symbol
  {
    SubscribeHead + symbol + SubscribeTail
  }

  /**
   * Sending the subscriptions for `symbols` on `conn`: the symbol whose write failed, if any,
   * and the world afterwards. Only the write counter and the log change, and everything
   * logged is a write on `conn`.
   */
  function SubscribeAll(e: Env, conn: ConnId, symbols: seq<string>): (r: (Option<string>, Env))
    ensures r.1 == e.(writes := r.1.writes, log := r.1.log)
    ensures |e.log| <= |r.1.log| && r.1.log[..|e.log|] == e.log
    ensures forall i | |e.log| <= i < |r.1.log| :: r.1.log[i].Wrote? && r.1.log[i].conn == conn
    decreases |symbols|
  {
    if symbols == [] then (None, e)
    else
      var (ok, e1) := Write(e, conn, SubscribeMessage(symbols[0]));
      if !ok then (Some(symbols[0]), e1)
      else SubscribeAll(e1, conn, symbols[1..])
  }

  /** The position of the first of `n` writes, numbered from `start`, that fails; `n` if none does. */
  function FirstFailure(start: nat, failing: set<nat>, n: nat): (k: nat)
    ensures k <= n
    decreases n
  {
    if n == 0 || start in failing then 0 else 1 + FirstFailure(start + 1, failing, n - 1)
  }

  /**
   * Subscribing writes exactly one message per symbol, in order, up to and including the
   * first failed write; the error names that symbol; later symbols are never attempted.
   */
  lemma {:induction false} SubscribeAllSpec(e: Env, conn: ConnId, symbols: seq<string>)
    ensures var k := FirstFailure(e.writes, e.failingWrites, |symbols|);
            var sent := if k < |symbols| then k + 1 else k;
            var r := SubscribeAll(e, conn, symbols);
            && r.0 == (if k < |symbols| then Some(symbols[k]) else None)
            && r.1.writes == e.writes + sent
            && |r.1.log| == |e.log| + sent
            && forall i | 0 <= i < sent ::
                 r.1.log[|e.log| + i] == Wrote(conn, SubscribeMessage(symbols[i]), i != k)
    decreases |symbols|
  {
    if symbols != [] && e.writes !in e.failingWrites {
      var e1 := Write(e, conn, SubscribeMessage(symbols[0])).1;
      SubscribeAllSpec(e1, conn, symbols[1..]);
      var k := FirstFailure(e.writes, e.failingWrites, |symbols|);
      var k1 := FirstFailure(e1.writes, e1.failingWrites, |symbols| - 1);
      assert k == k1 + 1;
      var r := SubscribeAll(e, conn, symbols);
      assert r == SubscribeAll(e1, conn, symbols[1..]);
      assert |e1.log| == |e.log| + 1;
      var sent := if k < |symbols| then k + 1 else k;
      forall i | 0 <= i < sent
        ensures r.1.log[|e.log| + i] == Wrote(conn, SubscribeMessage(symbols[i]), i != k)
      {
        if i > 0 {
          assert r.1.log[|e.log| + i] == r.1.log[|e1.log| + (i - 1)];
          assert symbols[1..][i - 1] == symbols[i];
        } else {
          assert r.1.log[|e.log|] == r.1.log[..|e1.log|][|e.log|];
        }
      }
    }
  }

  /** With no failing write, subscribing succeeds and writes one message per symbol. */
  lemma {:induction false} FirstFailureNone(start: nat, n: nat)
    ensures FirstFailure(start, {}, n) == n
    decreases n
  {
    if n > 0 {
      FirstFailureNone(start + 1, n - 1);
    }
  }

  /** The world after sending the subscriptions; a method over the loop of the Subscribe methods. */
  method SendSubscriptions(e: Env, conn: ConnId, symbols: seq<string>)
    returns (failed: Option<string>, e': Env)
    ensures (failed, e') == SubscribeAll(e, conn, symbols)
  {
    e' := e;
    var i := 0;
    while i < |symbols|
      invariant 0 <= i <= |symbols|
      invariant SubscribeAll(e', conn, symbols[i..]) == SubscribeAll(e, conn, symbols)
    {
      var (ok, next) := Write(e', conn, SubscribeMessage(symbols[i]));
      e' := next;
      if !ok {
        return Some(symbols[i]), e';
      }
      assert symbols[i..][1..] == symbols[i + 1..];
      i := i + 1;
    }
    failed := None;
  }

  // ---------------------------------------------------------------------------------------
  // Dispatching: every trade of a frame to every handler, trades outer and handlers inner.

  /** The calls for one trade: every handler once, in registration order. */
  function CallEach(handlers: seq<HandlerId>, t: Trade): (r: seq<Event>)
    ensures |r| == |handlers|
    ensures forall j | 0 <= j < |handlers| :: r[j] == Called(handlers[j], t)
    decreases |handlers|
  {
    if handlers == [] then []
    else CallEach(handlers[..|handlers| - 1], t) + [Called(handlers[|handlers| - 1], t)]
  }

  /** The calls for the trades of one frame, trade after trade. */
  function Dispatch(trades: seq<Trade>, handlers: seq<HandlerId>): (r: seq<Event>)
    ensures forall i | 0 <= i < |r| :: r[i].Called?
    decreases |trades|
  {
    if trades == [] then []
    else Dispatch(trades[..|trades| - 1], handlers) + CallEach(handlers, trades[|trades| - 1])
  }

  /** Every handler is called once per trade. */
  lemma {:induction false} DispatchLength(trades: seq<Trade>, handlers: seq<HandlerId>)
    ensures |Dispatch(trades, handlers)| == |trades| * |handlers|
    decreases |trades|
  {
    if trades != [] {
      DispatchLength(trades[..|trades| - 1], handlers);
    }
  }

  /**
   * The dispatch order: the call at position i*|handlers|+j passes trade i to handler j, so
   * with handlers H1, H2 and trades A, B the calls are H1(A), H2(A), H1(B), H2(B).
   */
  lemma {:induction false} DispatchOrder(trades: seq<Trade>, handlers: seq<HandlerId>, i: nat, j: nat)
    requires i < |trades| && j < |handlers|
    ensures i * |handlers| + j < |Dispatch(trades, handlers)|
    ensures Dispatch(trades, handlers)[i * |handlers| + j] == Called(handlers[j], trades[i])
    decreases |trades|
  {
    var n, h := |trades|, |handlers|;
    var init := trades[..n - 1];
    assert Dispatch(trades, handlers) == Dispatch(init, handlers) + CallEach(handlers, trades[n - 1]);
    DispatchLength(trades, handlers);
    DispatchLength(init, handlers);
    if i < n - 1 {
      DispatchOrder(init, handlers, i, j);
      assert init[i] == trades[i];
    } else {
      assert |Dispatch(init, handlers)| == (n - 1) * h == i * h;
    }
  }

  /** Calls every handler for one trade, in registration order: the inner loop of the Stream methods. */
  method CallHandlers(e: Env, handlers: seq<HandlerId>, t: Trade) returns (e': Env)
    ensures e' == e.(log := e.log + CallEach(handlers, t))
  {
    e' := e;
    for j := 0 to |handlers|
      invariant e' == e.(log := e.log + CallEach(handlers[..j], t))
    {
      assert handlers[..j + 1][..j] == handlers[..j];
      e' := Invoke(e', handlers[j], t);
    }
    assert handlers[..|handlers|] == handlers;
  }

  /** Calls every handler for every trade, trade after trade: the nested loops of the Stream methods. */
  method DispatchTrades(e: Env, trades: seq<Trade>, handlers: seq<HandlerId>) returns (e': Env)
    ensures e' == e.(log := e.log + Dispatch(trades, handlers))
  {
    e' := e;
    for i := 0 to |trades|
      invariant e' == e.(log := e.log + Dispatch(trades[..i], handlers))
    {
      assert trades[..i + 1][..i] == trades[..i];
      assert Dispatch(trades[..i + 1], handlers) == Dispatch(trades[..i], handlers) + CallEach(handlers, trades[i]);
      e' := CallHandlers(e', handlers, trades[i]);
      assert e'.log == e.log + Dispatch(trades[..i + 1], handlers);
    }
    assert trades[..|trades|] == trades;
  }

  /** What one received message does: a decoded "trade" frame calls the handlers, anything else nothing. */
  function Deliver(e: Env, decoded: Option<TradeData>, handlers: seq<HandlerId>): (r: Env)
    ensures r == e.(log := r.log)
    ensures |e.log| <= |r.log| && r.log[..|e.log|] == e.log
    ensures forall i | |e.log| <= i < |r.log| :: r.log[i].Called?
    ensures decoded.None? || decoded.value.kind != TradeKind ==> r == e
  {
    match decoded
    case None => e
    case Some(frame) =>
      if frame.kind == TradeKind then e.(log := e.log + Dispatch(frame.data, handlers)) else e
  }

  // ---------------------------------------------------------------------------------------
  // The sleeps in a log, for stating the backoff behaviour.

  function Sleeps(log: seq<Event>): seq<nat>
    decreases |log|
  {
    if log == [] then []
    else Sleeps(log[..|log| - 1]) + (if log[|log| - 1].Slept? then [log[|log| - 1].seconds] else [])
  }

  lemma {:induction false} SleepsAppend(a: seq<Event>, b: seq<Event>)
    ensures Sleeps(a + b) == Sleeps(a) + Sleeps(b)
    decreases |b|
  {
    if b != [] {
      assert (a + b)[..|a + b| - 1] == a + b[..|b| - 1];
      assert (a + b)[|a + b| - 1] == b[|b| - 1];
      SleepsAppend(a, b[..|b| - 1]);
    } else {
      assert a + b == a;
    }
  }

  /** A stretch of log without sleeps adds no delay. */
  lemma {:induction false} SleepsNone(b: seq<Event>)
    requires forall i | 0 <= i < |b| :: !b[i].Slept?
    ensures Sleeps(b) == []
    decreases |b|
  {
    if b != [] {
      SleepsNone(b[..|b| - 1]);
    }
  }
}
