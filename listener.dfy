/**
  The exchange listener (`Command.listen_binance`): a loop that connects,
  subscribes to one trade stream per configured symbol, and pushes every
  accepted trade onto its symbol's capped buffer; any exception is reported,
  followed by a fixed five-second wait and a new connection.

  The network is a parameter: a finite script of connection attempts, each
  either refused or a session delivering a sequence of decoded messages and
  then ending cleanly or with a read error.
 */
module Listener {
  import opened Common
  import opened Store

  /** A decoded inbound frame; each field is present or absent. */
  datatype FeedMessage = FeedMessage(s: Option<string>, p: Option<real>, q: Option<real>, t: Option<int>)

  /** What the listener does with one message. `Fail` is the KeyError raised
      when `q` or `T` is missing; it ends the connection. */
  datatype Outcome = Ignore | Push(key: string, trade: Trade) | Fail

  /** The `SUBSCRIBE` control message. */
  datatype SubscribeRequest = SubscribeRequest(methodName: string, params: seq<string>, id: int)

  const TradeSuffix: string := "@trade"
  const SubscribeId: int := 1
  const BackoffSeconds: nat := 5

  /** `[f"{symbol}@trade" for symbol in SYMBOLS]`. */
  function TradeStreams(symbols: seq<string>): (r: seq<string>)
    ensures |r| == |symbols|
    ensures forall i :: 0 <= i < |symbols| ==> r[i] == symbols[i] + TradeSuffix
  {
    if symbols == [] then [] else TradeStreams(symbols[..|symbols| - 1]) + [symbols[|symbols| - 1] + TradeSuffix]
  }

  function SubscribeMessage(symbols: seq<string>): (m: SubscribeRequest)
    ensures m.methodName == "SUBSCRIBE" && m.id == SubscribeId
    ensures |m.params| == |symbols|
    ensures forall i :: 0 <= i < |symbols| ==> m.params[i] == symbols[i] + TradeSuffix
  {
    SubscribeRequest("SUBSCRIBE", TradeStreams(symbols), SubscribeId)
  }

  /** Accept a message only if it has both `s` and `p`; then build the trade
      from the lower-cased symbol and the verbatim price, quantity and time. */
  function HandleMessage(m: FeedMessage): (o: Outcome)
    ensures o.Ignore? <==> m.s.None? || m.p.None?
    ensures o.Fail? <==> m.s.Some? && m.p.Some? && (m.q.None? || m.t.None?)
    ensures o.Push? ==> o.key == Key(Lower(m.s.value))
    ensures o.Push? ==> o.trade == Trade(Lower(m.s.value), m.p.value, m.q.value, m.t.value)
  {
    if m.s.None? || m.p.None? then Ignore
    else if m.q.None? || m.t.None? then Fail
    else
      var symbol := Lower(m.s.value);
      Push(Key(symbol), Trade(symbol, m.p.value, m.q.value, m.t.value))
  }

  /** Exchange symbols that differ only in case share one buffer. */
  lemma SameBufferAnyCase(m1: FeedMessage, m2: FeedMessage)
    requires HandleMessage(m1).Push? && HandleMessage(m2).Push?
    requires Upper(m1.s.value) == Upper(m2.s.value)
    ensures HandleMessage(m1).key == HandleMessage(m2).key
  {
    var a, b := m1.s.value, m2.s.value;
    assert |a| == |Upper(a)| == |Upper(b)| == |b|;
    forall i | 0 <= i < |a| ensures LowerChar(a[i]) == LowerChar(b[i]) {
      assert UpperChar(a[i]) == Upper(a)[i] == Upper(b)[i] == UpperChar(b[i]);
      SameCaseFold(a[i], b[i]);
    }
    assert Lower(a) == Lower(b);
  }

  /** The task reads the buffer of configured symbol `symbol` under
      `"trades:" + symbol` as configured, while the listener writes under the
      lower-cased exchange symbol: a trade reaches the task exactly when the
      configured spelling is that lower-cased symbol. */
  lemma TaskReadsPushedBuffer(m: FeedMessage, symbol: string)
    requires HandleMessage(m).Push?
    ensures HandleMessage(m).key == Key(symbol) <==> symbol == Lower(m.s.value)
  {
    KeyInjective(Lower(m.s.value), symbol);
  }

  lemma SameCaseFold(x: char, y: char)
    requires UpperChar(x) == UpperChar(y)
    ensures LowerChar(x) == LowerChar(y)
  {
    if 'a' <= x <= 'z' {
      assert y == x || y as int == x as int - 32;
    } else if 'a' <= y <= 'z' {
      assert x as int == y as int - 32;
    }
  }

  datatype StreamResult = StreamResult(lists: Lists, raised: bool)

  /** The buffers after handling `msgs` in order; the first `Fail` raises and
      nothing after it is read. */
  function Stream(lists: Lists, msgs: seq<FeedMessage>, cap: nat): StreamResult
  {
    if msgs == [] then StreamResult(lists, false)
    else
      var prev := Stream(lists, msgs[..|msgs| - 1], cap);
      if prev.raised then prev
      else match HandleMessage(msgs[|msgs| - 1])
        case Ignore => prev
        case Fail => StreamResult(prev.lists, true)
        case Push(key, t) => StreamResult(Pushed(prev.lists, key, t, cap), false)
  }

  /** The trades of `msgs` that are pushed under `key`, in arrival order. */
  function Accepted(msgs: seq<FeedMessage>, key: string): seq<Trade>
  {
    if msgs == [] then []
    else
      var o := HandleMessage(msgs[|msgs| - 1]);
      Accepted(msgs[..|msgs| - 1], key) + (if o.Push? && o.key == key then [o.trade] else [])
  }

  /** A session raises exactly when one of its messages has `s` and `p` but
      lacks `q` or `T`. */
  lemma {:induction false} StreamRaisesIffFail(lists: Lists, msgs: seq<FeedMessage>, cap: nat)
    ensures Stream(lists, msgs, cap).raised <==> exists i :: 0 <= i < |msgs| && HandleMessage(msgs[i]).Fail?
  {
    if msgs != [] {
      var init := msgs[..|msgs| - 1];
      StreamRaisesIffFail(lists, init, cap);
      if exists i :: 0 <= i < |init| && HandleMessage(init[i]).Fail? {
        var i :| 0 <= i < |init| && HandleMessage(init[i]).Fail?;
        assert msgs[i] == init[i];
      }
      if exists i :: 0 <= i < |msgs| && HandleMessage(msgs[i]).Fail? {
        var i :| 0 <= i < |msgs| && HandleMessage(msgs[i]).Fail?;
        if i < |init| { assert init[i] == msgs[i]; }
      }
    }
  }

  /** Once a prefix has raised, the rest of the session is never read. */
  lemma {:induction false} StreamStopsAtFailure(lists: Lists, msgs: seq<FeedMessage>, j: nat, cap: nat)
    requires j <= |msgs|
    requires Stream(lists, msgs[..j], cap).raised
    ensures Stream(lists, msgs, cap) == Stream(lists, msgs[..j], cap)
    decreases |msgs| - j
  {
    if j < |msgs| {
      assert msgs[..j + 1][..j] == msgs[..j];
      StreamStopsAtFailure(lists, msgs, j + 1, cap);
    } else {
      assert msgs[..j] == msgs;
    }
  }

  lemma {:induction false} PushAllSnoc(l: seq<Trade>, ts: seq<Trade>, t: Trade, cap: nat)
    ensures PushAll(l, ts + [t], cap) == Trim([t] + PushAll(l, ts, cap), cap)
    decreases |ts|
  {
    if ts != [] {
      assert (ts + [t])[1..] == ts[1..] + [t];
      PushAllSnoc(Trim([ts[0]] + l, cap), ts[1..], t, cap);
    }
  }

  /** In a session that does not raise, each buffer ends up as if exactly the
      trades accepted for its key had been pushed onto it, one by one; no other
      message touches it. */
  lemma {:induction false} StreamBuffers(lists: Lists, msgs: seq<FeedMessage>, cap: nat, key: string)
    requires !Stream(lists, msgs, cap).raised
    ensures Lookup(Stream(lists, msgs, cap).lists, key) == PushAll(Lookup(lists, key), Accepted(msgs, key), cap)
  {
    if msgs != [] {
      var init := msgs[..|msgs| - 1];
      var prev := Stream(lists, init, cap);
      assert !prev.raised;
      StreamBuffers(lists, init, cap, key);
      match HandleMessage(msgs[|msgs| - 1]) {
        case Ignore =>
          assert Stream(lists, msgs, cap) == prev;
          assert Accepted(msgs, key) == Accepted(init, key) + [] == Accepted(init, key);
          assert Lookup(prev.lists, key) == PushAll(Lookup(lists, key), Accepted(init, key), cap);
        case Fail =>
          assert false;
        case Push(k, t) =>
          if k == key {
            PushAllSnoc(Lookup(lists, key), Accepted(init, key), t, cap);
          } else {
            assert Accepted(msgs, key) == Accepted(init, key) + [] == Accepted(init, key);
            assert Lookup(Pushed(prev.lists, k, t, cap), key) == Lookup(prev.lists, key);
          }
      }
    }
  }

  /** Hence a buffer that respected the cap holds, after such a session, the
      newest `cap + 1` of its old and newly accepted trades, newest first. */
  lemma StreamKeepsNewest(lists: Lists, msgs: seq<FeedMessage>, cap: nat, key: string)
    requires !Stream(lists, msgs, cap).raised
    requires |Lookup(lists, key)| <= cap + 1
    ensures Lookup(Stream(lists, msgs, cap).lists, key) == Trim(NewestFirst(Accepted(msgs, key)) + Lookup(lists, key), cap)
  {
    StreamBuffers(lists, msgs, cap, key);
    PushAllKeepsNewest(Lookup(lists, key), Accepted(msgs, key), cap);
  }

  /** A message without `s` or without `p` changes no buffer. */
  lemma IgnoredMessageChangesNothing(lists: Lists, msgs: seq<FeedMessage>, m: FeedMessage, cap: nat)
    requires m.s.None? || m.p.None?
    ensures Stream(lists, msgs + [m], cap) == Stream(lists, msgs, cap)
  {
    assert (msgs + [m])[..|msgs|] == msgs;
  }

  datatype SessionEnd = ClosedCleanly | ReadFailed

  /** One turn of the outer loop, as the network plays it. */
  datatype Attempt = ConnectFailed | Session(messages: seq<FeedMessage>, end: SessionEnd)

  /** What the loop does that is visible outside the buffers. */
  datatype Action = Connect | Send(request: SubscribeRequest) | ReportError | Sleep(seconds: nat)

  datatype ListenResult = ListenResult(lists: Lists, log: seq<Action>)

  /** One iteration of `while True`: connect; on success send the subscribe
      message and stream; any exception is reported and followed by the wait.
      A session that ends without an exception reconnects at once. */
  function RunAttempt(lists: Lists, symbols: seq<string>, cap: nat, a: Attempt): ListenResult
  {
    match a
    case ConnectFailed => ListenResult(lists, [Connect, ReportError, Sleep(BackoffSeconds)])
    case Session(msgs, end) =>
      var s := Stream(lists, msgs, cap);
      var opening := [Connect, Send(SubscribeMessage(symbols))];
      if s.raised || end == ReadFailed then ListenResult(s.lists, opening + [ReportError, Sleep(BackoffSeconds)])
      else ListenResult(s.lists, opening)
  }

  /** The loop run over a finite prefix of its attempts. */
  function Listen(lists: Lists, symbols: seq<string>, cap: nat, attempts: seq<Attempt>): ListenResult
  {
    if attempts == [] then ListenResult(lists, [])
    else
      var prev := Listen(lists, symbols, cap, attempts[..|attempts| - 1]);
      var step := RunAttempt(prev.lists, symbols, cap, attempts[|attempts| - 1]);
      ListenResult(step.lists, prev.log + step.log)
  }

  /** `lpush` of an accepted trade followed by `ltrim` of its buffer to the cap. */
  method PushTrade(store: TradeStore, key: string, t: Trade, cap: nat)
    requires store.Valid()
    modifies store
    ensures store.Valid()
    ensures store.lists == Pushed(old(store.lists), key, t, cap)
  {
    store.LPush(key, t);
    store.LTrim(key, cap);
  }

  /** The inner `async for`: handle each message of one session in order,
      pushing and trimming the accepted ones, until one raises. */
  method StreamSession(store: TradeStore, msgs: seq<FeedMessage>, cap: nat) returns (raised: bool)
    requires store.Valid()
    modifies store
    ensures store.Valid()
    ensures Stream(old(store.lists), msgs, cap) == StreamResult(store.lists, raised)
  {
    var j := 0;
    raised := false;
    while j < |msgs| && !raised
      invariant 0 <= j <= |msgs|
      invariant store.Valid()
      invariant Stream(old(store.lists), msgs[..j], cap) == StreamResult(store.lists, raised)
    {
      assert msgs[..j + 1][..j] == msgs[..j];
      match HandleMessage(msgs[j]) {
        case Ignore =>
        case Fail =>
          raised := true;
        case Push(key, t) =>
          PushTrade(store, key, t, cap);
      }
      j := j + 1;
    }
    if raised {
      StreamStopsAtFailure(old(store.lists), msgs, j, cap);
    } else {
      assert msgs[..j] == msgs;
    }
  }

  /** `listen_binance` over the attempts the network offers. */
  method ListenBinance(store: TradeStore, symbols: seq<string>, cap: nat, attempts: seq<Attempt>)
    returns (log: seq<Action>)
    requires store.Valid()
    modifies store
    ensures store.Valid()
    ensures store.lists == Listen(old(store.lists), symbols, cap, attempts).lists
    ensures log == Listen(old(store.lists), symbols, cap, attempts).log
  {
    log := [];
    var i := 0;
    while i < |attempts|
      invariant 0 <= i <= |attempts|
      invariant store.Valid()
      invariant Listen(old(store.lists), symbols, cap, attempts[..i]) == ListenResult(store.lists, log)
    {
      assert attempts[..i + 1][..i] == attempts[..i];
      log := log + [Connect];
      match attempts[i] {
        case ConnectFailed =>
          log := log + [ReportError, Sleep(BackoffSeconds)];
        case Session(msgs, end) =>
          log := log + [Send(SubscribeMessage(symbols))];
          var raised := StreamSession(store, msgs, cap);
          if raised || end == ReadFailed {
            log := log + [ReportError, Sleep(BackoffSeconds)];
          }
      }
      i := i + 1;
    }
    assert attempts[..i] == attempts;
  }

  /** The shape every log of the loop has: each `Send` is the subscribe message
      for the configured symbols and comes right after `Connect`; each reported
      error is followed by the five-second wait and then by a new `Connect`. */
  ghost predicate WellFormedLog(log: seq<Action>, symbols: seq<string>)
  {
    && (forall k :: 0 <= k < |log| && log[k].Send? ==>
          0 < k && log[k - 1] == Connect && log[k].request == SubscribeMessage(symbols))
    && (forall k :: 0 <= k < |log| && log[k] == ReportError ==>
          k + 1 < |log| && log[k + 1] == Sleep(BackoffSeconds) && (k + 2 < |log| ==> log[k + 2] == Connect))
    && (forall k :: 0 <= k < |log| && log[k].Sleep? ==> 0 < k && log[k - 1] == ReportError)
  }

  function Count(log: seq<Action>, a: Action): nat
  {
    if log == [] then 0 else Count(log[..|log| - 1], a) + (if log[|log| - 1] == a then 1 else 0)
  }

  lemma {:induction false} CountConcat(x: seq<Action>, y: seq<Action>, a: Action)
    ensures Count(x + y, a) == Count(x, a) + Count(y, a)
    decreases |y|
  {
    if y != [] {
      assert (x + y)[..|x + y| - 1] == x + y[..|y| - 1];
      CountConcat(x, y[..|y| - 1], a);
    } else {
      assert x + y == x;
    }
  }

  /** An iteration's log opens with its only `Connect`. */
  lemma AttemptLogShape(lists: Lists, symbols: seq<string>, cap: nat, a: Attempt)
    ensures var log := RunAttempt(lists, symbols, cap, a).log;
      && WellFormedLog(log, symbols) && log[0] == Connect
      && forall k :: 0 <= k < |log[1..]| ==> log[1..][k] != Connect
  {
    var log := RunAttempt(lists, symbols, cap, a).log;
    assert log == [Connect, ReportError, Sleep(BackoffSeconds)]
        || log == [Connect, Send(SubscribeMessage(symbols))]
        || log == [Connect, Send(SubscribeMessage(symbols)), ReportError, Sleep(BackoffSeconds)];
    OneLogWellFormed(log, symbols);
  }

  /** The three logs an iteration can leave are well formed. */
  lemma OneLogWellFormed(log: seq<Action>, symbols: seq<string>)
    requires log == [Connect, ReportError, Sleep(BackoffSeconds)]
          || log == [Connect, Send(SubscribeMessage(symbols))]
          || log == [Connect, Send(SubscribeMessage(symbols)), ReportError, Sleep(BackoffSeconds)]
    ensures WellFormedLog(log, symbols)
    ensures forall k :: 0 <= k < |log[1..]| ==> log[1..][k] != Connect
  {
  }

  lemma AttemptLogWellFormed(lists: Lists, symbols: seq<string>, cap: nat, a: Attempt)
    ensures var log := RunAttempt(lists, symbols, cap, a).log;
      WellFormedLog(log, symbols) && log[0] == Connect && Count(log, Connect) == 1
  {
    var log := RunAttempt(lists, symbols, cap, a).log;
    AttemptLogShape(lists, symbols, cap, a);
    NoOccurrence(log[1..], Connect);
    CountConcat([Connect], log[1..], Connect);
    assert [Connect] + log[1..] == log;
  }

  lemma {:induction false} NoOccurrence(log: seq<Action>, a: Action)
    requires forall k :: 0 <= k < |log| ==> log[k] != a
    ensures Count(log, a) == 0
  {
    if log != [] {
      NoOccurrence(log[..|log| - 1], a);
    }
  }

  lemma ConcatWellFormed(x: seq<Action>, y: seq<Action>, symbols: seq<string>)
    requires WellFormedLog(x, symbols) && WellFormedLog(y, symbols)
    requires y != [] ==> y[0] == Connect
    ensures WellFormedLog(x + y, symbols)
  {
    var xy := x + y;
    forall k | 0 <= k < |xy| && xy[k] == ReportError
      ensures k + 1 < |xy| && xy[k + 1] == Sleep(BackoffSeconds) && (k + 2 < |xy| ==> xy[k + 2] == Connect)
    {
      if k < |x| {
        assert x[k] == ReportError;
        if k + 2 == |x| && k + 2 < |xy| { assert xy[k + 2] == y[0]; }
      } else {
        assert y[k - |x|] == ReportError;
      }
    }
    forall k | 0 <= k < |xy| && xy[k].Send?
      ensures 0 < k && xy[k - 1] == Connect && xy[k].request == SubscribeMessage(symbols)
    {
      if k >= |x| { assert y[k - |x|].Send?; }
    }
    forall k | 0 <= k < |xy| && xy[k].Sleep?
      ensures 0 < k && xy[k - 1] == ReportError
    {
      if k >= |x| { assert y[k - |x|].Sleep?; }
    }
  }

  /** Every run of the loop has a well-formed log, and the loop makes exactly
      one connection attempt per iteration: no outcome of an attempt, refused
      connection, clean close, read error or malformed trade, ends the loop. */
  lemma {:induction false} ListenLog(lists: Lists, symbols: seq<string>, cap: nat, attempts: seq<Attempt>)
    ensures var log := Listen(lists, symbols, cap, attempts).log;
      && WellFormedLog(log, symbols)
      && Count(log, Connect) == |attempts|
      && (attempts != [] ==> log[0] == Connect)
  {
    if attempts != [] {
      var init := attempts[..|attempts| - 1];
      var prev := Listen(lists, symbols, cap, init);
      var step := RunAttempt(prev.lists, symbols, cap, attempts[|attempts| - 1]);
      ListenLog(lists, symbols, cap, init);
      AttemptLogWellFormed(prev.lists, symbols, cap, attempts[|attempts| - 1]);
      ConcatWellFormed(prev.log, step.log, symbols);
      CountConcat(prev.log, step.log, Connect);
      if init == [] {
        assert prev.log == [];
        assert prev.log + step.log == step.log;
      }
    }
  }

  /** Every error path of an iteration, a refused connection, a read error or
      a trade without `q` or `T`, is reported and followed by the wait; a
      session that ends cleanly reconnects without waiting. Only a session
      sends the subscribe message, right after connecting. */
  lemma AttemptErrorWaits(lists: Lists, symbols: seq<string>, cap: nat, a: Attempt)
    ensures var log := RunAttempt(lists, symbols, cap, a).log;
      && log[0] == Connect
      && (Sleep(BackoffSeconds) in log <==>
            a.ConnectFailed? || a.end == ReadFailed || exists i :: 0 <= i < |a.messages| && HandleMessage(a.messages[i]).Fail?)
      && (ReportError in log <==> Sleep(BackoffSeconds) in log)
      && (a.ConnectFailed? ==> forall k :: 0 <= k < |log| ==> !log[k].Send?)
      && (a.Session? ==> log[..2] == [Connect, Send(SubscribeMessage(symbols))])
  {
    if a.Session? {
      StreamRaisesIffFail(lists, a.messages, cap);
    }
  }

  /** The number of messages a session handles before the first one that
      raises: all of them when none does. */
  function FirstFail(msgs: seq<FeedMessage>): (n: nat)
    ensures n <= |msgs|
    ensures forall i :: 0 <= i < n ==> !HandleMessage(msgs[i]).Fail?
    ensures n < |msgs| ==> HandleMessage(msgs[n]).Fail?
  {
    if msgs == [] || HandleMessage(msgs[0]).Fail? then 0
    else
      var n := 1 + FirstFail(msgs[1..]);
      assert forall i :: 1 <= i < |msgs| ==> msgs[1..][i - 1] == msgs[i];
      n
  }

  /** A session leaves the buffers as its messages before the first failing
      one do, and those do not raise. */
  lemma StreamUpToFail(lists: Lists, msgs: seq<FeedMessage>, cap: nat)
    ensures !Stream(lists, msgs[..FirstFail(msgs)], cap).raised
    ensures Stream(lists, msgs, cap).lists == Stream(lists, msgs[..FirstFail(msgs)], cap).lists
  {
    var f := FirstFail(msgs);
    StreamRaisesIffFail(lists, msgs[..f], cap);
    if f < |msgs| {
      assert msgs[..f + 1][..f] == msgs[..f];
      StreamStopsAtFailure(lists, msgs, f + 1, cap);
    } else {
      assert msgs[..f] == msgs;
    }
  }

  /** The trades an attempt stores under `key`, in arrival order. */
  function AttemptTrades(a: Attempt, key: string): seq<Trade>
  {
    match a
    case ConnectFailed => []
    case Session(msgs, _) => Accepted(msgs[..FirstFail(msgs)], key)
  }

  /** The trades all the attempts store under `key`, in arrival order. */
  function SessionTrades(attempts: seq<Attempt>, key: string): seq<Trade>
  {
    if attempts == [] then []
    else SessionTrades(attempts[..|attempts| - 1], key) + AttemptTrades(attempts[|attempts| - 1], key)
  }

  /** One iteration leaves each buffer as if the trades it accepted for that
      key had been pushed onto it one by one. */
  lemma AttemptBuffers(lists: Lists, symbols: seq<string>, cap: nat, a: Attempt, key: string)
    ensures Lookup(RunAttempt(lists, symbols, cap, a).lists, key)
         == PushAll(Lookup(lists, key), AttemptTrades(a, key), cap)
  {
    if a.Session? {
      StreamUpToFail(lists, a.messages, cap);
      StreamBuffers(lists, a.messages[..FirstFail(a.messages)], cap, key);
    }
  }

  /** Across any run of the loop, each buffer ends up as if every trade the
      sessions accepted for its key had been pushed onto it in arrival order;
      reconnects, refused connections and failed sessions lose none of the
      trades handled before the failure. */
  lemma {:induction false} ListenBuffers(lists: Lists, symbols: seq<string>, cap: nat, attempts: seq<Attempt>, key: string)
    ensures Lookup(Listen(lists, symbols, cap, attempts).lists, key)
         == PushAll(Lookup(lists, key), SessionTrades(attempts, key), cap)
  {
    if attempts != [] {
      var init := attempts[..|attempts| - 1];
      var prev := Listen(lists, symbols, cap, init);
      ListenBuffers(lists, symbols, cap, init, key);
      AttemptBuffers(prev.lists, symbols, cap, attempts[|attempts| - 1], key);
      PushAllConcat(Lookup(lists, key), SessionTrades(init, key), AttemptTrades(attempts[|attempts| - 1], key), cap);
    }
  }

  /** Hence a buffer that respected the cap holds, after any run of the loop,
      the newest `cap + 1` of its old and accepted trades, newest first. */
  lemma ListenKeepsNewest(lists: Lists, symbols: seq<string>, cap: nat, attempts: seq<Attempt>, key: string)
    requires |Lookup(lists, key)| <= cap + 1
    ensures Lookup(Listen(lists, symbols, cap, attempts).lists, key)
         == Trim(NewestFirst(SessionTrades(attempts, key)) + Lookup(lists, key), cap)
  {
    ListenBuffers(lists, symbols, cap, attempts, key);
    PushAllKeepsNewest(Lookup(lists, key), SessionTrades(attempts, key), cap);
  }
}
