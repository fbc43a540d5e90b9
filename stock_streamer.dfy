/**
 * The stock streamer (market-streaming/internal/stream/stock/streamer.go): subscriptions with
 * an advisory market-hours warning, and a read loop that never gives up. After a failed
 * read it closes the socket and redials with exponential backoff, and it goes back to
 * reading once a dial and a resubscription have both succeeded.
 */
module StockStream {
  import opened Wrappers
  import opened StreamModels
  import opened Transport
  import opened Backoff

  // ---------------------------------------------------------------------------------------
  // Market hours.

  const NanosPerMinute: nat := 60_000_000_000

  /** 09:30:00 and 16:00:00, New York wall clock, in nanoseconds since midnight. */
  const MarketOpen: nat := (9 * 60 + 30) * NanosPerMinute
  const MarketClose: nat := 16 * 60 * NanosPerMinute

  /**
   * Regular trading hours: not a Saturday or Sunday on the local clock, the New York zone
   * loads, and New York time lies strictly between the opening and the closing time.
   */
  predicate IsTrading(now: Instant)
    ensures IsTrading(now) ==>
              && now.localWeekday in {Monday, Tuesday, Wednesday, Thursday, Friday}
              && now.zoneLoads
              && 34_200_000_000_000 < now.etNanosOfDay < 57_600_000_000_000
  {
    && now.localWeekday != Saturday && now.localWeekday != Sunday
    && now.zoneLoads
    && MarketOpen < now.etNanosOfDay < MarketClose
  }

  /**
   * Both ends of the session are excluded; a weekend day or a missing zone is never trading;
   * on any weekday with the zone, trading is exactly the open interval from 09:30 to 16:00.
   */
  lemma IsTradingCases(now: Instant)
    ensures now.localWeekday == Saturday || now.localWeekday == Sunday ==> !IsTrading(now)
    ensures !now.zoneLoads ==> !IsTrading(now)
    ensures now.etNanosOfDay == MarketOpen || now.etNanosOfDay == MarketClose ==> !IsTrading(now)
    ensures now.localWeekday != Saturday && now.localWeekday != Sunday && now.zoneLoads ==>
              (IsTrading(now) <==> 34_200_000_000_000 < now.etNanosOfDay < 57_600_000_000_000)
  {
  }

  // ---------------------------------------------------------------------------------------
  // The read loop and the reconnect loop, as functions of the streamer's state.

  /**
   * The read loop on socket `conn`: a trade frame calls the handlers, anything undecodable or
   * not a trade is skipped, and a failed read closes the socket and enters the reconnect loop
   * with the initial backoff. The result is where the run ends, the socket in use then, and
   * the world.
   */
  function Run(apiKey: string, symbols: seq<string>, handlers: seq<HandlerId>, conn: ConnId, e: Env)
    : (r: (Horizon, ConnId, Env))
    ensures |e.log| <= |r.2.log| && r.2.log[..|e.log|] == e.log
    ensures r.0 == ReadsExhausted ==> r.2.incoming == []
    ensures r.0 == DialsExhausted ==> r.2.dials == []
    decreases |e.incoming|, |e.dials|, 1
  {
    if |e.incoming| == 0 then (ReadsExhausted, conn, e)
    else
      var (inbound, e1) := Read(e);
      match inbound
      case ReadFailed => Reconnect(apiKey, symbols, handlers, conn, InitialBackoff, Close(e1, conn))
      case Received(decoded) => Run(apiKey, symbols, handlers, conn, Deliver(e1, decoded, handlers))
  }

  /**
   * The reconnect loop with delay `b`: sleep, grow the delay, dial; a failed dial retries
   * and keeps the old socket; a failed resubscription closes the new socket and retries; a
   * successful one resumes the read loop on the new socket (with the delay back at its start).
   */
  function Reconnect(apiKey: string, symbols: seq<string>, handlers: seq<HandlerId>, conn: ConnId,
                     b: nat, e: Env)
    : (r: (Horizon, ConnId, Env))
    requires InitialBackoff <= b <= MaxBackoff
    ensures |e.log| <= |r.2.log| && r.2.log[..|e.log|] == e.log
    ensures r.0 == ReadsExhausted ==> r.2.incoming == []
    ensures r.0 == DialsExhausted ==> r.2.dials == []
    decreases |e.incoming|, |e.dials|, 0
  {
    if |e.dials| == 0 then (DialsExhausted, conn, e)
    else
      var (dialed, e1) := Dial(Sleep(e, b), EndpointURL(apiKey));
      match dialed
      case DialError => Reconnect(apiKey, symbols, handlers, conn, Grow(b), e1)
      case Connected(c) =>
        var (failed, e2) := SubscribeAll(e1, c, symbols);
        if failed.Some? then Reconnect(apiKey, symbols, handlers, c, Grow(b), Close(e2, c))
        else Run(apiKey, symbols, handlers, c, e2)
  }

  /** What a streak of `k` failed dials appends to the log, starting with delay `b`. */
  function FailedAttempts(url: string, b: nat, k: nat): (r: seq<Event>)
    ensures |r| == 2 * k
    decreases k
  {
    if k == 0 then [] else [Slept(b), Dialed(url, false)] + FailedAttempts(url, Grow(b), k - 1)
  }

  /** The sleeps of a streak of failed dials are the backoff schedule. */
  lemma {:induction false} FailedAttemptsSleeps(url: string, b: nat, k: nat)
    ensures Sleeps(FailedAttempts(url, b, k)) == Schedule(b, k)
    decreases k
  {
    if k > 0 {
      var rest := FailedAttempts(url, Grow(b), k - 1);
      FailedAttemptsSleeps(url, Grow(b), k - 1);
      SleepsAppend([Slept(b), Dialed(url, false)], rest);
      assert [Slept(b), Dialed(url, false)] == [Slept(b)] + [Dialed(url, false)];
      SleepsAppend([Slept(b)], [Dialed(url, false)]);
      assert Sleeps([Slept(b)]) == Sleeps([]) + [b];
      assert Sleeps([Slept(b)] + [Dialed(url, false)]) == [b];
    }
  }

  // ---------------------------------------------------------------------------------------
  // One round of the reconnect loop, branch by branch.

  /** A failed read: close the socket and enter the reconnect loop with the initial delay. */
  lemma RunReadFails(apiKey: string, symbols: seq<string>, handlers: seq<HandlerId>, conn: ConnId, e: Env)
    requires |e.incoming| > 0 && e.incoming[0] == ReadFailed
    ensures Run(apiKey, symbols, handlers, conn, e)
         == Reconnect(apiKey, symbols, handlers, conn, InitialBackoff,
                      e.(incoming := e.incoming[1..], log := e.log + [Closed(conn)]))
  {
  }

  /** A failed dial: sleep, keep the old socket, retry with the grown delay. */
  lemma ReconnectDialFails(apiKey: string, symbols: seq<string>, handlers: seq<HandlerId>,
                           conn: ConnId, b: nat, e: Env)
    requires InitialBackoff <= b <= MaxBackoff
    requires |e.dials| > 0 && !e.dials[0]
    ensures Reconnect(apiKey, symbols, handlers, conn, b, e)
         == Reconnect(apiKey, symbols, handlers, conn, Grow(b),
                      e.(dials := e.dials[1..], log := e.log + [Slept(b), Dialed(EndpointURL(apiKey), false)]))
  {
    var url := EndpointURL(apiKey);
    assert e.log + [Slept(b)] + [Dialed(url, false)] == e.log + [Slept(b), Dialed(url, false)];
    assert Dial(Sleep(e, b), url) == (DialError, e.(dials := e.dials[1..], log := e.log + [Slept(b), Dialed(url, false)]));
  }

  /** The world right after a sleep of `b` and a successful dial, which opens socket `e.nextConn`. */
  function Connecting(e: Env, b: nat, url: string): (r: Env)
    requires |e.dials| > 0
    ensures r.nextConn == e.nextConn + 1 && r.dials == e.dials[1..]
    ensures r.log == e.log + [Slept(b), Dialed(url, true)]
    ensures r == e.(dials := r.dials, nextConn := r.nextConn, log := r.log)
  {
    e.(dials := e.dials[1..], nextConn := e.nextConn + 1, log := e.log + [Slept(b), Dialed(url, true)])
  }

  /**
   * A dial whose resubscription fails: the new socket replaces the old one, is closed, and
   * the loop retries with the grown delay.
   */
  lemma ReconnectResubscribeFails(apiKey: string, symbols: seq<string>, handlers: seq<HandlerId>,
                                  conn: ConnId, b: nat, e: Env)
    requires InitialBackoff <= b <= MaxBackoff
    requires |e.dials| > 0 && e.dials[0]
    requires SubscribeAll(Connecting(e, b, EndpointURL(apiKey)), e.nextConn, symbols).0.Some?
    ensures Reconnect(apiKey, symbols, handlers, conn, b, e)
         == Reconnect(apiKey, symbols, handlers, e.nextConn, Grow(b),
                      Transport.Close(SubscribeAll(Connecting(e, b, EndpointURL(apiKey)), e.nextConn, symbols).1,
                                      e.nextConn))
  {
    var url := EndpointURL(apiKey);
    assert e.log + [Slept(b)] + [Dialed(url, true)] == e.log + [Slept(b), Dialed(url, true)];
    assert Dial(Sleep(e, b), url) == (Connected(e.nextConn), Connecting(e, b, url));
  }

  /** A dial whose resubscription succeeds: the read loop resumes on the new socket. */
  lemma ReconnectResumes(apiKey: string, symbols: seq<string>, handlers: seq<HandlerId>,
                         conn: ConnId, b: nat, e: Env)
    requires InitialBackoff <= b <= MaxBackoff
    requires |e.dials| > 0 && e.dials[0]
    requires SubscribeAll(Connecting(e, b, EndpointURL(apiKey)), e.nextConn, symbols).0.None?
    ensures Reconnect(apiKey, symbols, handlers, conn, b, e)
         == Run(apiKey, symbols, handlers, e.nextConn,
                SubscribeAll(Connecting(e, b, EndpointURL(apiKey)), e.nextConn, symbols).1)
  {
    var url := EndpointURL(apiKey);
    assert e.log + [Slept(b)] + [Dialed(url, true)] == e.log + [Slept(b), Dialed(url, true)];
    assert Dial(Sleep(e, b), url) == (Connected(e.nextConn), Connecting(e, b, url));
  }

  // ---------------------------------------------------------------------------------------
  // Backoff.

  /** Every sleep logged from position `from` on lasts between one and thirty seconds. */
  ghost predicate SleepsBounded(log: seq<Event>, from: nat)
  {
    forall i | from <= i < |log| :: log[i].Slept? ==> InitialBackoff <= log[i].seconds <= MaxBackoff
  }

  lemma SleepsBoundedTrans(a: seq<Event>, mid: seq<Event>, log: seq<Event>)
    requires |a| <= |mid| <= |log| && log[..|mid|] == mid
    requires SleepsBounded(mid, |a|) && SleepsBounded(log, |mid|)
    ensures SleepsBounded(log, |a|)
  {
    forall i | |a| <= i < |mid|
      ensures log[i] == mid[i]
    {
      assert log[..|mid|][i] == log[i];
    }
  }

  /** However the run goes, every delay the read loop sleeps lies between one and thirty seconds. */
  lemma {:induction false} RunSleepsBounded(apiKey: string, symbols: seq<string>, handlers: seq<HandlerId>,
                                            conn: ConnId, e: Env)
    ensures SleepsBounded(Run(apiKey, symbols, handlers, conn, e).2.log, |e.log|)
    decreases |e.incoming|, |e.dials|, 1
  {
    if |e.incoming| > 0 {
      var (inbound, e1) := Read(e);
      match inbound
      case ReadFailed =>
        var e2 := Transport.Close(e1, conn);
        ReconnectSleepsBounded(apiKey, symbols, handlers, conn, InitialBackoff, e2);
        SleepsBoundedTrans(e.log, e2.log, Run(apiKey, symbols, handlers, conn, e).2.log);
      case Received(decoded) =>
        var e2 := Deliver(e1, decoded, handlers);
        RunSleepsBounded(apiKey, symbols, handlers, conn, e2);
        assert SleepsBounded(e2.log, |e.log|);
        SleepsBoundedTrans(e.log, e2.log, Run(apiKey, symbols, handlers, conn, e).2.log);
    }
  }

  lemma {:induction false} ReconnectSleepsBounded(apiKey: string, symbols: seq<string>, handlers: seq<HandlerId>,
                                                  conn: ConnId, b: nat, e: Env)
    requires InitialBackoff <= b <= MaxBackoff
    ensures SleepsBounded(Reconnect(apiKey, symbols, handlers, conn, b, e).2.log, |e.log|)
    decreases |e.incoming|, |e.dials|, 0
  {
    if |e.dials| > 0 {
      var url := EndpointURL(apiKey);
      var r := Reconnect(apiKey, symbols, handlers, conn, b, e);
      if !e.dials[0] {
        var e1 := e.(dials := e.dials[1..], log := e.log + [Slept(b), Dialed(url, false)]);
        ReconnectDialFails(apiKey, symbols, handlers, conn, b, e);
        assert SleepsBounded(e1.log, |e.log|);
        ReconnectSleepsBounded(apiKey, symbols, handlers, conn, Grow(b), e1);
        SleepsBoundedTrans(e.log, e1.log, r.2.log);
      } else {
        var e1 := Connecting(e, b, url);
        assert SleepsBounded(e1.log, |e.log|);
        var (failed, e2) := SubscribeAll(e1, e.nextConn, symbols);
        assert SleepsBounded(e2.log, |e1.log|);
        SleepsBoundedTrans(e.log, e1.log, e2.log);
        if failed.Some? {
          var e3 := Transport.Close(e2, e.nextConn);
          ReconnectResubscribeFails(apiKey, symbols, handlers, conn, b, e);
          ReconnectSleepsBounded(apiKey, symbols, handlers, e.nextConn, Grow(b), e3);
          SleepsBoundedTrans(e.log, e3.log, r.2.log);
        } else {
          ReconnectResumes(apiKey, symbols, handlers, conn, b, e);
          RunSleepsBounded(apiKey, symbols, handlers, e.nextConn, e2);
          SleepsBoundedTrans(e.log, e2.log, r.2.log);
        }
      }
    }
  }

  /** After the first failed dial of a streak, the rest of the streak is a streak one shorter. */
  lemma StreakShift(e: Env, url: string, b: nat, k: nat)
    requires 0 < k <= |e.dials|
    requires forall i | 0 <= i < k :: !e.dials[i]
    ensures var e1 := e.(dials := e.dials[1..], log := e.log + [Slept(b), Dialed(url, false)]);
            && (forall i | 0 <= i < k - 1 :: !e1.dials[i])
            && e1.(dials := e1.dials[k - 1..], log := e1.log + FailedAttempts(url, Grow(b), k - 1))
               == e.(dials := e.dials[k..], log := e.log + FailedAttempts(url, b, k))
  {
    var e1 := e.(dials := e.dials[1..], log := e.log + [Slept(b), Dialed(url, false)]);
    assert e1.dials[k - 1..] == e.dials[k..];
    assert FailedAttempts(url, b, k) == [Slept(b), Dialed(url, false)] + FailedAttempts(url, Grow(b), k - 1);
    assert e1.log + FailedAttempts(url, Grow(b), k - 1) == e.log + FailedAttempts(url, b, k);
    forall i | 0 <= i < k - 1
      ensures !e1.dials[i]
    {
      assert e1.dials[i] == e.dials[i + 1];
    }
  }

  /**
   * A streak of `k` failed dials sleeps b, Grow(b), ... in turn, keeps the old socket, and
   * carries on with the delay grown `k` times.
   */
  lemma {:induction false} DialFailureStreak(apiKey: string, symbols: seq<string>, handlers: seq<HandlerId>,
                                             conn: ConnId, b: nat, e: Env, k: nat)
    requires InitialBackoff <= b <= MaxBackoff
    requires k <= |e.dials|
    requires forall i | 0 <= i < k :: !e.dials[i]
    ensures Reconnect(apiKey, symbols, handlers, conn, b, e)
         == Reconnect(apiKey, symbols, handlers, conn, GrowN(b, k),
                      e.(dials := e.dials[k..], log := e.log + FailedAttempts(EndpointURL(apiKey), b, k)))
    decreases k
  {
    var url := EndpointURL(apiKey);
    var target := e.(dials := e.dials[k..], log := e.log + FailedAttempts(url, b, k));
    if k == 0 {
      assert target == e by {
        assert e.dials[0..] == e.dials;
        assert e.log + [] == e.log;
      }
    } else {
      var e1 := e.(dials := e.dials[1..], log := e.log + [Slept(b), Dialed(url, false)]);
      var t1 := e1.(dials := e1.dials[k - 1..], log := e1.log + FailedAttempts(url, Grow(b), k - 1));
      StreakShift(e, url, b, k);
      assert Reconnect(apiKey, symbols, handlers, conn, b, e)
          == Reconnect(apiKey, symbols, handlers, conn, GrowN(Grow(b), k - 1), t1) by {
        ReconnectDialFails(apiKey, symbols, handlers, conn, b, e);
        DialFailureStreak(apiKey, symbols, handlers, conn, Grow(b), e1, k - 1);
      }
    }
  }

  /**
   * From a failed read, a streak of `k` failed dials sleeps 1, 2, 4, 8, 16, 30, 30, ...
   * seconds: the i-th sleep is 2^i capped at thirty.
   */
  lemma BackoffAfterReadFailure(apiKey: string, symbols: seq<string>, handlers: seq<HandlerId>,
                                conn: ConnId, e: Env, k: nat)
    requires |e.incoming| > 0 && e.incoming[0] == ReadFailed
    requires k <= |e.dials|
    requires forall i | 0 <= i < k :: !e.dials[i]
    ensures var streak := FailedAttempts(EndpointURL(apiKey), InitialBackoff, k);
            && Run(apiKey, symbols, handlers, conn, e)
               == Reconnect(apiKey, symbols, handlers, conn, GrowN(InitialBackoff, k),
                            e.(incoming := e.incoming[1..], dials := e.dials[k..],
                               log := e.log + [Closed(conn)] + streak))
            && Sleeps(streak) == Schedule(InitialBackoff, k)
            && forall i | 0 <= i < k :: Sleeps(streak)[i] == Capped(i)
  {
    var url := EndpointURL(apiKey);
    var e1 := e.(incoming := e.incoming[1..], log := e.log + [Closed(conn)]);
    RunReadFails(apiKey, symbols, handlers, conn, e);
    DialFailureStreak(apiKey, symbols, handlers, conn, InitialBackoff, e1, k);
    FailedAttemptsSleeps(url, InitialBackoff, k);
    forall i | 0 <= i < k
      ensures Schedule(InitialBackoff, k)[i] == Capped(i)
    {
      BackoffSequence(k, i);
    }
  }

  /**
   * A reconnect episode from delay one: a failed dial, a dial whose resubscription fails
   * (that socket is closed), and a dial that resubscribes; the read loop resumes on the
   * last socket.
   */
  lemma ReconnectEpisode(apiKey: string, handlers: seq<HandlerId>, conn: ConnId, e: Env, sym: string)
    requires |e.dials| >= 3 && e.dials[..3] == [false, true, true]
    requires e.failingWrites == {e.writes}
    ensures var url := EndpointURL(apiKey);
            var c1, c2 := e.nextConn, e.nextConn + 1;
            var msg := SubscribeMessage(sym);
            (Reconnect(apiKey, [sym], handlers, conn, InitialBackoff, e)
             == Run(apiKey, [sym], handlers, c2,
                    e.(dials := e.dials[3..], nextConn := c2 + 1, writes := e.writes + 2,
                       log := e.log + [Slept(1), Dialed(url, false),
                                       Slept(2), Dialed(url, true), Wrote(c1, msg, false), Closed(c1),
                                       Slept(4), Dialed(url, true), Wrote(c2, msg, true)])))
  {
    var url := EndpointURL(apiKey);
    var c1, c2 := e.nextConn, e.nextConn + 1;
    var msg := SubscribeMessage(sym);
    var s1 := e.(dials := e.dials[1..], log := e.log + [Slept(1), Dialed(url, false)]);
    assert Reconnect(apiKey, [sym], handlers, conn, 1, e) == Reconnect(apiKey, [sym], handlers, conn, 2, s1) by {
      ReconnectDialFails(apiKey, [sym], handlers, conn, 1, e);
    }
    var x1 := Connecting(s1, 2, url);
    var y1 := x1.(writes := e.writes + 1, log := x1.log + [Wrote(c1, msg, false)]);
    var s2 := Transport.Close(y1, c1);
    assert Reconnect(apiKey, [sym], handlers, conn, 2, s1) == Reconnect(apiKey, [sym], handlers, c1, 4, s2) by {
      assert SubscribeAll(x1, c1, [sym]) == (Some(sym), y1);
      ReconnectResubscribeFails(apiKey, [sym], handlers, conn, 2, s1);
    }
    var x2 := Connecting(s2, 4, url);
    var y2 := x2.(writes := e.writes + 2, log := x2.log + [Wrote(c2, msg, true)]);
    assert Reconnect(apiKey, [sym], handlers, c1, 4, s2) == Run(apiKey, [sym], handlers, c2, y2) by {
      assert s2.dials[0];
      assert SubscribeAll(x2, c2, [sym]) == SubscribeAll(y2, c2, []);
      ReconnectResumes(apiKey, [sym], handlers, c1, 4, s2);
    }
    assert y2.dials == e.dials[3..];
    assert y2.log == e.log + [Slept(1), Dialed(url, false),
                              Slept(2), Dialed(url, true), Wrote(c1, msg, false), Closed(c1),
                              Slept(4), Dialed(url, true), Wrote(c2, msg, true)];
  }

  /** The last read fails and so does the only dial left: the run ends on the same socket. */
  lemma ReadFailsThenDialFails(apiKey: string, symbols: seq<string>, handlers: seq<HandlerId>, conn: ConnId, e: Env)
    requires e.incoming == [ReadFailed] && e.dials == [false]
    ensures Run(apiKey, symbols, handlers, conn, e)
         == (DialsExhausted, conn,
             e.(incoming := [], dials := [],
                log := e.log + [Closed(conn), Slept(InitialBackoff), Dialed(EndpointURL(apiKey), false)]))
  {
    var e1 := e.(incoming := [], log := e.log + [Closed(conn)]);
    RunReadFails(apiKey, symbols, handlers, conn, e);
    ReconnectDialFails(apiKey, symbols, handlers, conn, InitialBackoff, e1);
    var e2 := e1.(dials := [], log := e1.log + [Slept(InitialBackoff), Dialed(EndpointURL(apiKey), false)]);
    assert Reconnect(apiKey, symbols, handlers, conn, Grow(InitialBackoff), e2) == (DialsExhausted, conn, e2);
    assert e2.log == e.log + [Closed(conn), Slept(InitialBackoff), Dialed(EndpointURL(apiKey), false)];
  }

  /**
   * The backoff resets: after a read failure and a reconnect episode that sleeps 1, 2 and 4
   * seconds, the read loop resumes, and the next read failure starts again from one second.
   */
  lemma BackoffReset(apiKey: string, handlers: seq<HandlerId>, conn: ConnId, e: Env, sym: string)
    requires e.incoming == [ReadFailed, ReadFailed]
    requires e.dials == [false, true, true, false]
    requires e.failingWrites == {e.writes}
    ensures var url := EndpointURL(apiKey);
            var c1, c2 := e.nextConn, e.nextConn + 1;
            var msg := SubscribeMessage(sym);
            var r := Run(apiKey, [sym], handlers, conn, e);
            && r.0 == DialsExhausted
            && r.1 == c2
            && r.2.log == e.log + [
                 Closed(conn),
                 Slept(1), Dialed(url, false),
                 Slept(2), Dialed(url, true), Wrote(c1, msg, false), Closed(c1),
                 Slept(4), Dialed(url, true), Wrote(c2, msg, true),
                 Closed(c2),
                 Slept(1), Dialed(url, false)]
  {
    var url := EndpointURL(apiKey);
    var c1, c2 := e.nextConn, e.nextConn + 1;
    var msg := SubscribeMessage(sym);
    var s1 := e.(incoming := [ReadFailed], log := e.log + [Closed(conn)]);
    var episode := [Slept(1), Dialed(url, false),
                    Slept(2), Dialed(url, true), Wrote(c1, msg, false), Closed(c1),
                    Slept(4), Dialed(url, true), Wrote(c2, msg, true)];
    var s2 := s1.(dials := [false], nextConn := c2 + 1, writes := e.writes + 2, log := s1.log + episode);
    assert Reconnect(apiKey, [sym], handlers, conn, InitialBackoff, s1) == Run(apiKey, [sym], handlers, c2, s2) by {
      assert s1.dials[..3] == [false, true, true] && s1.dials[3..] == [false];
      assert s2 == s1.(dials := s1.dials[3..], nextConn := c2 + 1, writes := s1.writes + 2, log := s1.log + episode);
      ReconnectEpisode(apiKey, handlers, conn, s1, sym);
    }
    var s4 := s2.(incoming := [], dials := [], log := s2.log + [Closed(c2), Slept(1), Dialed(url, false)]);
    ReadFailsThenDialFails(apiKey, [sym], handlers, c2, s2);
    assert s4.log == e.log + [Closed(conn)] + episode + [Closed(c2), Slept(1), Dialed(url, false)];
    assert Run(apiKey, [sym], handlers, conn, e) == (DialsExhausted, c2, s4);
  }

  // ---------------------------------------------------------------------------------------
  // The market-hours warning.

  /**
   * The market-hours check is advisory: what Subscribe sends, and whether it fails, is the
   * same whatever the clock says.
   */
  lemma {:induction false} SubscribeIgnoresClock(e: Env, conn: ConnId, symbols: seq<string>, now: Instant)
    ensures var r := SubscribeAll(e, conn, symbols);
            (SubscribeAll(e.(clock := now), conn, symbols) == (r.0, r.1.(clock := now)))
    decreases |symbols|
  {
    if symbols != [] {
      var e1 := Write(e, conn, SubscribeMessage(symbols[0])).1;
      SubscribeIgnoresClock(e1, conn, symbols[1..], now);
    }
  }

  // ---------------------------------------------------------------------------------------
  // The streamer.

  class Streamer {
    var conn: ConnId
    const apiKey: string
    const symbols: seq<string>
    var handlers: seq<HandlerId>
    var env: Env

    constructor (conn: ConnId, apiKey: string, symbols: seq<string>, env: Env)
      ensures this.conn == conn && this.apiKey == apiKey && this.symbols == symbols
      ensures this.handlers == [] && this.env == env
    {
      this.conn := conn;
      this.apiKey := apiKey;
      this.symbols := symbols;
      this.handlers := [];
      this.env := env;
    }

    /** Dials the upstream; there is no streamer when the dial fails. */
    static method NewStreamer(apiKey: string, symbols: seq<string>, e: Env)
      returns (s: Streamer?, rest: Env)
      ensures var (dialed, e1) := Dial(e, EndpointURL(apiKey));
              && (s == null <==> dialed.DialError?)
              && rest == e1
              && (s != null ==>
                    && fresh(s) && s.conn == dialed.conn && s.env == e1
                    && s.apiKey == apiKey && s.symbols == symbols && s.handlers == [])
    {
      var (dialed, e1) := Dial(e, EndpointURL(apiKey));
      rest := e1;
      if dialed.DialError? {
        return null, rest;
      }
      s := new Streamer(dialed.conn, apiKey, symbols, e1);
    }

    method AddHandler(h: HandlerId)
      modifies this`handlers
      ensures handlers == old(handlers) + [h]
    {
      handlers := handlers + [h];
    }

    /**
     * Warns when the market is closed, then sends the subscriptions whatever the clock says:
     * what is sent does not depend on the warning.
     */
    method Subscribe() returns (failed: Option<string>, warned: bool)
      modifies this`env
      ensures warned == !IsTrading(old(env).clock)
      ensures (failed, env) == SubscribeAll(old(env), conn, symbols)
    {
      warned := !IsTrading(env.clock);
      failed, env := SendSubscriptions(env, conn, symbols);
    }

    method Stream() returns (stop: Horizon)
      modifies this`conn, this`env
      ensures (stop, conn, env) == Run(apiKey, symbols, handlers, old(conn), old(env))
    {
      var backoff := InitialBackoff;
      while true
        invariant backoff == InitialBackoff
        invariant Run(apiKey, symbols, handlers, conn, env) == Run(apiKey, symbols, handlers, old(conn), old(env))
        decreases |env.incoming|
      {
        if |env.incoming| == 0 {
          return ReadsExhausted;
        }
        var (inbound, e1) := Read(env);
        env := e1;
        if inbound.ReadFailed? {
          env := Transport.Close(env, conn);
          ghost var pending := |env.incoming|;
          while true
            invariant InitialBackoff <= backoff <= MaxBackoff
            invariant |env.incoming| == pending
            invariant Reconnect(apiKey, symbols, handlers, conn, backoff, env)
                   == Run(apiKey, symbols, handlers, old(conn), old(env))
            decreases |env.dials|
          {
            if |env.dials| == 0 {
              return DialsExhausted;
            }
            env := Sleep(env, backoff);
            backoff := Grow(backoff);
            var (dialed, e2) := Dial(env, EndpointURL(apiKey));
            env := e2;
            if dialed.DialError? {
              continue;
            }
            conn := dialed.conn;
            var failed, _ := Subscribe();
            if failed.Some? {
              env := Transport.Close(env, conn);
              continue;
            }
            backoff := InitialBackoff;
            break;
          }
          continue;
        }
        var decoded := inbound.decoded;
        if decoded.None? {
          continue;
        }
        if decoded.value.kind == TradeKind {
          env := DispatchTrades(env, decoded.value.data, handlers);
        }
      }
    }

    method Close()
      modifies this`env
      ensures env == Transport.Close(old(env), conn)
    {
      env := Transport.Close(env, conn);
    }
  }
}
