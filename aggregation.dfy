/**
  The periodic task `aggregate_trades`: for each configured symbol in order,
  read its whole buffer; if it is non-empty, create one candle row and one
  average-price row from it, then delete the buffer.

  The candle is computed over the buffer as read, head first. The listener
  pushes at the head, so position 0 is the newest trade: the candle's open
  price is the newest trade's and its close price the oldest's.
 */
module Aggregation {
  import opened Common
  import opened Store
  import opened Persistence

  function Prices(ts: seq<Trade>): (r: seq<real>)
    ensures |r| == |ts| && forall i :: 0 <= i < |ts| ==> r[i] == ts[i].price
  {
    seq(|ts|, i requires 0 <= i < |ts| => ts[i].price)
  }

  function Quantities(ts: seq<Trade>): (r: seq<real>)
    ensures |r| == |ts| && forall i :: 0 <= i < |ts| ==> r[i] == ts[i].quantity
  {
    seq(|ts|, i requires 0 <= i < |ts| => ts[i].quantity)
  }


  /** Python's `max` of a non-empty list. */
  function MaxOf(s: seq<real>): (r: real)
    requires |s| > 0
    ensures forall i :: 0 <= i < |s| ==> s[i] <= r
    ensures exists i :: 0 <= i < |s| && s[i] == r
  {
    if |s| == 1 then s[0]
    else
      var m := MaxOf(s[..|s| - 1]);
      assert forall i :: 0 <= i < |s| - 1 ==> s[..|s| - 1][i] == s[i];
      if s[|s| - 1] > m then s[|s| - 1] else m
  }

  /** Python's `min` of a non-empty list. */
  function MinOf(s: seq<real>): (r: real)
    requires |s| > 0
    ensures forall i :: 0 <= i < |s| ==> r <= s[i]
    ensures exists i :: 0 <= i < |s| && s[i] == r
  {
    if |s| == 1 then s[0]
    else
      var m := MinOf(s[..|s| - 1]);
      assert forall i :: 0 <= i < |s| - 1 ==> s[..|s| - 1][i] == s[i];
      if s[|s| - 1] < m then s[|s| - 1] else m
  }

  /** `min` over trade times. */
  function Earliest(ts: seq<Trade>): (r: int)
    requires |ts| > 0
    ensures forall i :: 0 <= i < |ts| ==> r <= ts[i].tradeTime
    ensures exists i :: 0 <= i < |ts| && ts[i].tradeTime == r
  {
    if |ts| == 1 then ts[0].tradeTime
    else
      var m := Earliest(ts[..|ts| - 1]);
      assert forall i :: 0 <= i < |ts| - 1 ==> ts[..|ts| - 1][i] == ts[i];
      if ts[|ts| - 1].tradeTime < m then ts[|ts| - 1].tradeTime else m
  }

  /** `max` over trade times. */
  function Latest(ts: seq<Trade>): (r: int)
    requires |ts| > 0
    ensures forall i :: 0 <= i < |ts| ==> ts[i].tradeTime <= r
    ensures exists i :: 0 <= i < |ts| && ts[i].tradeTime == r
  {
    if |ts| == 1 then ts[0].tradeTime
    else
      var m := Latest(ts[..|ts| - 1]);
      assert forall i :: 0 <= i < |ts| - 1 ==> ts[..|ts| - 1][i] == ts[i];
      if ts[|ts| - 1].tradeTime > m then ts[|ts| - 1].tradeTime else m
  }

  /** Python's `sum`, adding left to right. */
  function Sum(s: seq<real>): real
  {
    if s == [] then 0.0 else Sum(s[..|s| - 1]) + s[|s| - 1]
  }

  /** A sum of terms all at least `b` is at least |s| times `b`. */
  lemma {:induction false} SumAtLeast(s: seq<real>, b: real)
    requires forall i :: 0 <= i < |s| ==> b <= s[i]
    ensures |s| as real * b <= Sum(s)
  {
    if s != [] {
      var init := s[..|s| - 1];
      assert forall i :: 0 <= i < |init| ==> init[i] == s[i];
      SumAtLeast(init, b);
    }
  }

  /** A sum of terms all at most `b` is at most |s| times `b`. */
  lemma {:induction false} SumAtMost(s: seq<real>, b: real)
    requires forall i :: 0 <= i < |s| ==> s[i] <= b
    ensures Sum(s) <= |s| as real * b
  {
    if s != [] {
      var init := s[..|s| - 1];
      assert forall i :: 0 <= i < |init| ==> init[i] == s[i];
      SumAtMost(init, b);
    }
  }

  lemma {:induction false} SumConcat(a: seq<real>, b: seq<real>)
    ensures Sum(a + b) == Sum(a) + Sum(b)
    decreases |b|
  {
    if b == [] {
      assert a + b == a;
    } else {
      assert (a + b)[..|a + b| - 1] == a + b[..|b| - 1];
      SumConcat(a, b[..|b| - 1]);
    }
  }

  /** The sum does not depend on the order the buffer holds the terms in. */
  lemma {:induction false} SumReversed(s: seq<real>, r: seq<real>)
    requires |r| == |s| && forall i :: 0 <= i < |s| ==> r[i] == s[|s| - 1 - i]
    ensures Sum(r) == Sum(s)
    decreases |s|
  {
    if s != [] {
      var n := |s|;
      SumReversed(s[..n - 1], r[1..]);
      SumConcat([r[0]], r[1..]);
      assert [r[0]] + r[1..] == r;
      assert Sum([r[0]]) == Sum([]) + r[0];
    }
  }

  /** A quotient multiplies back to its dividend. */
  lemma QuotientTimes(total: real, n: real, q: real)
    requires n > 0.0 && q == total / n
    ensures q * n == total
  {
  }

  lemma QuotientBetween(total: real, n: real, lo: real, hi: real)
    requires n > 0.0 && n * lo <= total <= n * hi
    ensures lo <= total / n <= hi
  {
    var q := total / n;
    assert q * n == total;
  }

  /** The quotient of the sum by the count lies between any lower and upper
      bound of the terms. */
  lemma MeanBetween(s: seq<real>, lo: real, hi: real)
    requires |s| > 0 && forall i :: 0 <= i < |s| ==> lo <= s[i] <= hi
    ensures lo <= Sum(s) / |s| as real <= hi
  {
    SumAtLeast(s, lo);
    SumAtMost(s, hi);
    QuotientBetween(Sum(s), |s| as real, lo, hi);
  }

  /** The mean multiplied by the count gives back the sum. */
  lemma {:induction false} MeanTimesCount(s: seq<real>)
    requires |s| > 0
    ensures Mean(s) * |s| as real == Sum(s)
  {
    QuotientTimes(Sum(s), |s| as real, Mean(s));
  }

  /** The unweighted mean, `sum(prices) / len(prices)`: it lies between the
      smallest and the largest term. */
  function Mean(s: seq<real>): (r: real)
    requires |s| > 0
    ensures MinOf(s) <= r <= MaxOf(s)
  {
    MeanBetween(s, MinOf(s), MaxOf(s));
    Sum(s) / |s| as real
  }

  /** The mean of equal terms is that term. */
  lemma MeanOfEqual(s: seq<real>, v: real)
    requires |s| > 0 && forall i :: 0 <= i < |s| ==> s[i] == v
    ensures Mean(s) == v
  {
    var i :| 0 <= i < |s| && s[i] == MinOf(s);
    var j :| 0 <= j < |s| && s[j] == MaxOf(s);
  }

  /** The candle for a non-empty buffer `ts` configured as `symbol`. */
  function MakeCandle(symbol: string, ts: seq<Trade>): (c: Candle)
    requires |ts| > 0
    ensures c.symbol == Upper(symbol)
    ensures c.openPrice == ts[0].price && c.closePrice == ts[|ts| - 1].price
    ensures forall i :: 0 <= i < |ts| ==> c.lowPrice <= ts[i].price <= c.highPrice
    ensures (exists i :: 0 <= i < |ts| && ts[i].price == c.highPrice)
         && (exists i :: 0 <= i < |ts| && ts[i].price == c.lowPrice)
    ensures forall i :: 0 <= i < |ts| ==> c.startTime <= ts[i].tradeTime <= c.endTime
    ensures (exists i :: 0 <= i < |ts| && ts[i].tradeTime == c.startTime)
         && (exists i :: 0 <= i < |ts| && ts[i].tradeTime == c.endTime)
    ensures c.volume == Sum(Quantities(ts))
  {
    var prices := Prices(ts);
    Candle(Upper(symbol), Earliest(ts), Latest(ts), prices[0], prices[|ts| - 1],
      MaxOf(prices), MinOf(prices), Sum(Quantities(ts)))
  }

  /** The average-price record for the same buffer, stamped `now`. */
  function MakeAverage(symbol: string, ts: seq<Trade>, now: int): (a: AverageTrade)
    requires |ts| > 0
    ensures a.symbol == Upper(symbol)
    ensures MinOf(Prices(ts)) <= a.price <= MaxOf(Prices(ts))
    ensures a.price == Mean(Prices(ts))
    ensures a.quantity == Sum(Quantities(ts))
    ensures a.tradeTime == now
  {
    var prices := Prices(ts);
    AverageTrade(Upper(symbol), Mean(prices), Sum(Quantities(ts)), now)
  }

  /** The two records made from one buffer agree: same symbol, the average's
      quantity is the candle's volume, and the candle's low and high bound its
      open, close and the average price. */
  lemma CandleAndAverage(symbol: string, ts: seq<Trade>, now: int)
    requires |ts| > 0
    ensures var c, a := MakeCandle(symbol, ts), MakeAverage(symbol, ts, now);
      && a.symbol == c.symbol && a.quantity == c.volume
      && c.lowPrice <= c.openPrice <= c.highPrice
      && c.lowPrice <= c.closePrice <= c.highPrice
      && c.lowPrice <= a.price <= c.highPrice
      && c.startTime <= c.endTime
  {
    var c, a := MakeCandle(symbol, ts), MakeAverage(symbol, ts, now);
    var prices := Prices(ts);
    assert c.lowPrice <= ts[0].price;
    assert ts[|ts| - 1].price <= c.highPrice;
    var i :| 0 <= i < |ts| && ts[i].price == c.lowPrice;
    var j :| 0 <= j < |ts| && ts[j].price == c.highPrice;
    assert MinOf(prices) <= prices[i] == c.lowPrice;
    assert c.highPrice == prices[j] <= MaxOf(prices);
  }

  /** The largest of a sequence is the largest of its reversal. */
  lemma MaxOfReversed(s: seq<real>, r: seq<real>)
    requires |s| > 0 && |r| == |s| && forall i :: 0 <= i < |s| ==> r[i] == s[|s| - 1 - i]
    ensures MaxOf(r) == MaxOf(s)
  {
    var i :| 0 <= i < |r| && r[i] == MaxOf(r);
    var j :| 0 <= j < |s| && s[j] == MaxOf(s);
    assert s[|s| - 1 - i] == MaxOf(r) <= MaxOf(s);
    assert r[|s| - 1 - j] == MaxOf(s) <= MaxOf(r);
  }

  /** The smallest of a sequence is the smallest of its reversal. */
  lemma MinOfReversed(s: seq<real>, r: seq<real>)
    requires |s| > 0 && |r| == |s| && forall i :: 0 <= i < |s| ==> r[i] == s[|s| - 1 - i]
    ensures MinOf(r) == MinOf(s)
  {
    var i :| 0 <= i < |r| && r[i] == MinOf(r);
    var j :| 0 <= j < |s| && s[j] == MinOf(s);
    assert s[|s| - 1 - i] == MinOf(r) >= MinOf(s);
    assert r[|s| - 1 - j] == MinOf(s) >= MinOf(r);
  }

  /** The earliest time does not depend on the order. */
  lemma EarliestReversed(s: seq<Trade>, r: seq<Trade>)
    requires |s| > 0 && |r| == |s| && forall i :: 0 <= i < |s| ==> r[i] == s[|s| - 1 - i]
    ensures Earliest(r) == Earliest(s)
  {
    var i :| 0 <= i < |r| && r[i].tradeTime == Earliest(r);
    var j :| 0 <= j < |s| && s[j].tradeTime == Earliest(s);
    assert s[|s| - 1 - i].tradeTime == Earliest(r) >= Earliest(s);
    assert r[|s| - 1 - j].tradeTime == Earliest(s) >= Earliest(r);
  }

  /** The latest time does not depend on the order. */
  lemma LatestReversed(s: seq<Trade>, r: seq<Trade>)
    requires |s| > 0 && |r| == |s| && forall i :: 0 <= i < |s| ==> r[i] == s[|s| - 1 - i]
    ensures Latest(r) == Latest(s)
  {
    var i :| 0 <= i < |r| && r[i].tradeTime == Latest(r);
    var j :| 0 <= j < |s| && s[j].tradeTime == Latest(s);
    assert s[|s| - 1 - i].tradeTime == Latest(r) <= Latest(s);
    assert r[|s| - 1 - j].tradeTime == Latest(s) <= Latest(r);
  }

  lemma ProjectionsReversed(ts: seq<Trade>, buffer: seq<Trade>)
    requires |buffer| == |ts| && forall i :: 0 <= i < |ts| ==> buffer[i] == ts[|ts| - 1 - i]
    ensures forall i :: 0 <= i < |ts| ==> Prices(buffer)[i] == Prices(ts)[|ts| - 1 - i]
    ensures forall i :: 0 <= i < |ts| ==> Quantities(buffer)[i] == Quantities(ts)[|ts| - 1 - i]
  {
  }

  /** Reversing the buffer does not change the candle's high and low. */
  lemma ExtremesOfReversed(symbol: string, ts: seq<Trade>, buffer: seq<Trade>)
    requires |ts| > 0 && |buffer| == |ts|
    requires forall i :: 0 <= i < |ts| ==> buffer[i] == ts[|ts| - 1 - i]
    ensures MakeCandle(symbol, buffer).highPrice == MaxOf(Prices(ts))
    ensures MakeCandle(symbol, buffer).lowPrice == MinOf(Prices(ts))
  {
    ProjectionsReversed(ts, buffer);
    MaxOfReversed(Prices(ts), Prices(buffer));
    MinOfReversed(Prices(ts), Prices(buffer));
  }

  /** Reversing the buffer does not change the candle's time window. */
  lemma WindowOfReversed(symbol: string, ts: seq<Trade>, buffer: seq<Trade>)
    requires |ts| > 0 && |buffer| == |ts|
    requires forall i :: 0 <= i < |ts| ==> buffer[i] == ts[|ts| - 1 - i]
    ensures MakeCandle(symbol, buffer).startTime == Earliest(ts)
    ensures MakeCandle(symbol, buffer).endTime == Latest(ts)
  {
    EarliestReversed(ts, buffer);
    LatestReversed(ts, buffer);
  }

  /** Reversing the buffer does not change the candle's volume. */
  lemma VolumeOfReversed(symbol: string, ts: seq<Trade>, buffer: seq<Trade>)
    requires |ts| > 0 && |buffer| == |ts|
    requires forall i :: 0 <= i < |ts| ==> buffer[i] == ts[|ts| - 1 - i]
    ensures MakeCandle(symbol, buffer).volume == Sum(Quantities(ts))
  {
    ProjectionsReversed(ts, buffer);
    SumReversed(Quantities(ts), Quantities(buffer));
  }

  /** For trades pushed oldest first onto an empty buffer (no more than the
      cap, so none was trimmed), the buffer holds them all, and the candle
      opens at the NEWEST trade's price and closes at the OLDEST's; high,
      low, volume and window are those of the trades in arrival order. */
  lemma CandleOfPushedTrades(symbol: string, ts: seq<Trade>, cap: nat)
    requires 0 < |ts| <= cap + 1
    ensures |PushAll([], ts, cap)| == |ts|
    ensures MakeCandle(symbol, PushAll([], ts, cap)).openPrice == ts[|ts| - 1].price
    ensures MakeCandle(symbol, PushAll([], ts, cap)).closePrice == ts[0].price
    ensures MakeCandle(symbol, PushAll([], ts, cap)).volume == Sum(Quantities(ts))
    ensures MakeCandle(symbol, PushAll([], ts, cap)).highPrice == MaxOf(Prices(ts))
    ensures MakeCandle(symbol, PushAll([], ts, cap)).lowPrice == MinOf(Prices(ts))
    ensures MakeCandle(symbol, PushAll([], ts, cap)).startTime == Earliest(ts)
    ensures MakeCandle(symbol, PushAll([], ts, cap)).endTime == Latest(ts)
  {
    PushAllFromEmpty(ts, cap);
    var buffer := PushAll([], ts, cap);
    ExtremesOfReversed(symbol, ts, buffer);
    WindowOfReversed(symbol, ts, buffer);
    VolumeOfReversed(symbol, ts, buffer);
  }

  lemma SumOfThree(a: real, b: real, c: real)
    ensures Sum([a, b, c]) == a + b + c
  {
    assert [a, b, c][..2] == [a, b];
    assert [a, b][..1] == [a];
    assert [a][..0] == [];
    assert Sum([a]) == a;
    assert Sum([a, b]) == a + b;
  }

  lemma UpperOfTestSymbol()
    ensures Upper("BTCUSDT") == "BTCUSDT"
  {
    assert Upper("BTCUSDT")[0] == 'B';
  }

  /** Of three ascending terms, the last is the largest and the first the smallest. */
  lemma ExtremesOfThree(s: seq<real>)
    requires |s| == 3 && s[0] <= s[1] <= s[2]
    ensures MaxOf(s) == s[2] && MinOf(s) == s[0]
  {
    var i :| 0 <= i < 3 && s[i] == MaxOf(s);
    var j :| 0 <= j < 3 && s[j] == MinOf(s);
  }

  /** Of three ascending times, the first is the earliest and the last the latest. */
  lemma WindowOfThree(ts: seq<Trade>)
    requires |ts| == 3 && ts[0].tradeTime <= ts[1].tradeTime <= ts[2].tradeTime
    ensures Earliest(ts) == ts[0].tradeTime && Latest(ts) == ts[2].tradeTime
  {
    var i :| 0 <= i < 3 && ts[i].tradeTime == Earliest(ts);
    var j :| 0 <= j < 3 && ts[j].tradeTime == Latest(ts);
  }

  /** The candle of a three-trade buffer whose prices and times ascend from
      the head. */
  lemma CandleOfThree(symbol: string, ts: seq<Trade>)
    requires |ts| == 3
    requires ts[0].price <= ts[1].price <= ts[2].price
    requires ts[0].tradeTime <= ts[1].tradeTime <= ts[2].tradeTime
    ensures MakeCandle(symbol, ts) == Candle(Upper(symbol), ts[0].tradeTime, ts[2].tradeTime,
      ts[0].price, ts[2].price, ts[2].price, ts[0].price, ts[0].quantity + ts[1].quantity + ts[2].quantity)
  {
    ExtremesOfThree(Prices(ts));
    WindowOfThree(ts);
    assert Quantities(ts) == [ts[0].quantity, ts[1].quantity, ts[2].quantity];
    SumOfThree(ts[0].quantity, ts[1].quantity, ts[2].quantity);
  }

  /** The candle of the task's unit test for symbol BTCUSDT. The buffer, head
      first as the mocked `lrange` returns it, holds prices 45000, 45100, 45200
      with quantities 0.5, 0.3, 0.7 at times t1 < t2 < t3. */
  lemma ScenarioCandle(t1: int, t2: int, t3: int)
    requires t1 < t2 < t3
    ensures var ts := [Trade("BTCUSDT", 45000.0, 0.5, t1), Trade("BTCUSDT", 45100.0, 0.3, t2),
                       Trade("BTCUSDT", 45200.0, 0.7, t3)];
      MakeCandle("BTCUSDT", ts) == Candle("BTCUSDT", t1, t3, 45000.0, 45200.0, 45200.0, 45000.0, 1.5)
  {
    CandleOfThree("BTCUSDT", [Trade("BTCUSDT", 45000.0, 0.5, t1), Trade("BTCUSDT", 45100.0, 0.3, t2),
                              Trade("BTCUSDT", 45200.0, 0.7, t3)]);
    UpperOfTestSymbol();
  }

  /** The average-price record of the same test case: the mean price is 45100
      and the total quantity 1.5. */
  lemma ScenarioAverage(t1: int, t2: int, t3: int, now: int)
    ensures var ts := [Trade("BTCUSDT", 45000.0, 0.5, t1), Trade("BTCUSDT", 45100.0, 0.3, t2),
                       Trade("BTCUSDT", 45200.0, 0.7, t3)];
      MakeAverage("BTCUSDT", ts, now) == AverageTrade("BTCUSDT", 45100.0, 1.5, now)
  {
    var ts := [Trade("BTCUSDT", 45000.0, 0.5, t1), Trade("BTCUSDT", 45100.0, 0.3, t2),
               Trade("BTCUSDT", 45200.0, 0.7, t3)];
    var prices := [45000.0, 45100.0, 45200.0];
    assert Prices(ts) == prices;
    assert Quantities(ts) == [0.5, 0.3, 0.7];
    SumOfThree(45000.0, 45100.0, 45200.0);
    assert Mean(prices) == 135300.0 / 3.0;
    SumOfThree(0.5, 0.3, 0.7);
    UpperOfTestSymbol();
  }

  /** A create call the database rejects, by the position of its symbol in the
      configured list. The exception escapes the task. */
  datatype Fault = NoFault | CandleCreateFails(index: nat) | TradeCreateFails(index: nat)

  datatype CycleResult = CycleResult(lists: Lists, candles: seq<Candle>, averages: seq<AverageTrade>, raised: bool)

  /** One turn of the `for symbol in SYMBOLS` loop, the `i`-th: what it does
      to the buffers and which rows it creates. */
  function AggregateOne(lists: Lists, i: nat, symbol: string, fault: Fault, now: int): CycleResult
  {
    var key := Key(symbol);
    var ts := Lookup(lists, key);
    if ts == [] then CycleResult(lists, [], [], false)
    else if fault == CandleCreateFails(i) then CycleResult(lists, [], [], true)
    else
      var candle := MakeCandle(symbol, ts);
      if fault == TradeCreateFails(i) then CycleResult(lists, [candle], [], true)
      else CycleResult(lists - {key}, [candle], [MakeAverage(symbol, ts, now)], false)
  }

  /** The task run over `symbols`; an exception ends it where it is raised. */
  function Cycle(lists: Lists, symbols: seq<string>, fault: Fault, now: int): CycleResult
  {
    if symbols == [] then CycleResult(lists, [], [], false)
    else
      var prev := Cycle(lists, symbols[..|symbols| - 1], fault, now);
      if prev.raised then prev
      else
        var step := AggregateOne(prev.lists, |symbols| - 1, symbols[|symbols| - 1], fault, now);
        CycleResult(step.lists, prev.candles + step.candles, prev.averages + step.averages, step.raised)
  }

  lemma CycleSnoc(lists: Lists, symbols: seq<string>, i: nat, fault: Fault, now: int)
    requires i < |symbols| && !Cycle(lists, symbols[..i], fault, now).raised
    ensures var prev := Cycle(lists, symbols[..i], fault, now);
      var step := AggregateOne(prev.lists, i, symbols[i], fault, now);
      Cycle(lists, symbols[..i + 1], fault, now)
        == CycleResult(step.lists, prev.candles + step.candles, prev.averages + step.averages, step.raised)
  {
    assert symbols[..i + 1][..i] == symbols[..i];
  }

  lemma {:induction false} CycleStopsWhenRaised(lists: Lists, symbols: seq<string>, j: nat, fault: Fault, now: int)
    requires j <= |symbols|
    requires Cycle(lists, symbols[..j], fault, now).raised
    ensures Cycle(lists, symbols, fault, now) == Cycle(lists, symbols[..j], fault, now)
    decreases |symbols| - j
  {
    if j < |symbols| {
      assert symbols[..j + 1][..j] == symbols[..j];
      CycleStopsWhenRaised(lists, symbols, j + 1, fault, now);
    } else {
      assert symbols[..j] == symbols;
    }
  }

  /** The buffer keys of the configured symbols. */
  function KeysOf(symbols: seq<string>): (ks: set<string>)
    ensures forall s :: s in symbols ==> Key(s) in ks
    ensures forall k :: k in ks ==> exists s :: s in symbols && k == Key(s)
  {
    set s | s in symbols :: Key(s)
  }

  lemma KeysOfSnoc(symbols: seq<string>)
    requires symbols != []
    ensures KeysOf(symbols) == KeysOf(symbols[..|symbols| - 1]) + {Key(symbols[|symbols| - 1])}
  {
    var init := symbols[..|symbols| - 1];
    assert symbols == init + [symbols[|symbols| - 1]];
  }

  /** Without a failing create, the task never raises, every configured
      buffer is drained, and every other buffer is left as it was. */
  lemma {:induction false} CycleNoFault(lists: Lists, symbols: seq<string>, now: int)
    requires NoEmptyList(lists)
    ensures var r := Cycle(lists, symbols, NoFault, now);
      && !r.raised
      && r.lists == lists - KeysOf(symbols)
  {
    if symbols != [] {
      var init := symbols[..|symbols| - 1];
      var key := Key(symbols[|symbols| - 1]);
      CycleNoFault(lists, init, now);
      KeysOfSnoc(symbols);
      var prev := Cycle(lists, init, NoFault, now);
      if Lookup(prev.lists, key) == [] {
        assert key !in prev.lists;
        assert prev.lists - {key} == prev.lists;
      }
      assert lists - KeysOf(init) - {key} == lists - KeysOf(symbols);
    }
  }

  /** The candles the task should create when nothing fails: one per
      configured symbol whose buffer is non-empty, from that whole buffer as
      the task found it, in the order of `symbols`. */
  function ExpectedCandles(lists: Lists, symbols: seq<string>): seq<Candle>
  {
    if symbols == [] then []
    else
      var s := symbols[|symbols| - 1];
      var ts := Lookup(lists, Key(s));
      ExpectedCandles(lists, symbols[..|symbols| - 1]) + (if ts == [] then [] else [MakeCandle(s, ts)])
  }

  /** Likewise for the average-price records. */
  function ExpectedAverages(lists: Lists, symbols: seq<string>, now: int): seq<AverageTrade>
  {
    if symbols == [] then []
    else
      var s := symbols[|symbols| - 1];
      var ts := Lookup(lists, Key(s));
      ExpectedAverages(lists, symbols[..|symbols| - 1], now) + (if ts == [] then [] else [MakeAverage(s, ts, now)])
  }

  /** Unfolding of one turn, used by `CycleContents`: a turn without a fault
      makes its records from the whole buffer of its symbol and deletes
      exactly that buffer. */
  lemma AggregateOneRecords(lists: Lists, i: nat, symbol: string, now: int)
    ensures var ts := Lookup(lists, Key(symbol));
      var r := AggregateOne(lists, i, symbol, NoFault, now);
      && r.candles == (if ts == [] then [] else [MakeCandle(symbol, ts)])
      && r.averages == (if ts == [] then [] else [MakeAverage(symbol, ts, now)])
      && (ts != [] ==> r.lists == lists - {Key(symbol)})
  {
  }

  /** With distinct configured symbols and no failing create, the task
      creates, in the order of `symbols`, the candle and the average-price
      record of each whole non-empty buffer as it stood when the task began:
      each symbol's buffer is read independently of the others. */
  lemma {:induction false} CycleContents(lists: Lists, symbols: seq<string>, now: int)
    requires NoEmptyList(lists)
    requires forall i, j :: 0 <= i < j < |symbols| ==> symbols[i] != symbols[j]
    ensures Cycle(lists, symbols, NoFault, now).candles == ExpectedCandles(lists, symbols)
    ensures Cycle(lists, symbols, NoFault, now).averages == ExpectedAverages(lists, symbols, now)
  {
    if symbols != [] {
      var init := symbols[..|symbols| - 1];
      var s := symbols[|symbols| - 1];
      CycleContents(lists, init, now);
      CycleNoFault(lists, init, now);
      var prev := Cycle(lists, init, NoFault, now);
      assert Key(s) !in KeysOf(init);
      assert Lookup(prev.lists, Key(s)) == Lookup(lists, Key(s));
      AggregateOneRecords(prev.lists, |symbols| - 1, s, now);
    }
  }

  /** A candle and an average-price record made from the same buffer. */
  predicate Agree(c: Candle, a: AverageTrade)
  {
    && a.symbol == c.symbol
    && a.quantity == c.volume
    && c.lowPrice <= a.price <= c.highPrice
  }

  /** The i-th average-price record belongs with the i-th candle; at most one
      candle, the last, lacks its average record. */
  predicate Paired(candles: seq<Candle>, averages: seq<AverageTrade>)
  {
    && |averages| <= |candles| <= |averages| + 1
    && forall i :: 0 <= i < |averages| ==> Agree(candles[i], averages[i])
  }

  lemma PairedConcat(c1: seq<Candle>, a1: seq<AverageTrade>, c2: seq<Candle>, a2: seq<AverageTrade>)
    requires Paired(c1, a1) && |c1| == |a1| && Paired(c2, a2)
    ensures Paired(c1 + c2, a1 + a2)
  {
    var c, a := c1 + c2, a1 + a2;
    forall i | 0 <= i < |a|
      ensures Agree(c[i], a[i])
    {
      if i >= |a1| {
        assert c[i] == c2[i - |c1|] && a[i] == a2[i - |a1|];
      }
    }
  }

  /** The records of one turn are paired: the average record agrees with the
      candle, and only a failed average-record create leaves a candle alone. */
  lemma AggregateOnePaired(lists: Lists, i: nat, symbol: string, fault: Fault, now: int)
    ensures var r := AggregateOne(lists, i, symbol, fault, now);
      && Paired(r.candles, r.averages)
      && (!r.raised ==> |r.candles| == |r.averages|)
    ensures Lookup(lists, Key(symbol)) == [] ==> AggregateOne(lists, i, symbol, fault, now) == CycleResult(lists, [], [], false)
    ensures |AggregateOne(lists, i, symbol, fault, now).candles| > |AggregateOne(lists, i, symbol, fault, now).averages|
      ==> fault == TradeCreateFails(i)
  {
    var ts := Lookup(lists, Key(symbol));
    if ts != [] {
      CandleAndAverage(symbol, ts, now);
    }
  }

  /** Every average-price record the task creates agrees with the candle
      created just before it from the same buffer; if the task raised, at most
      the last candle lacks its average record. */
  lemma {:induction false} CyclePaired(lists: Lists, symbols: seq<string>, fault: Fault, now: int)
    ensures var r := Cycle(lists, symbols, fault, now);
      && Paired(r.candles, r.averages)
      && (!r.raised ==> |r.candles| == |r.averages|)
  {
    if symbols != [] {
      var init := symbols[..|symbols| - 1];
      CyclePaired(lists, init, fault, now);
      var prev := Cycle(lists, init, fault, now);
      if !prev.raised {
        AggregateOnePaired(prev.lists, |symbols| - 1, symbols[|symbols| - 1], fault, now);
        var step := AggregateOne(prev.lists, |symbols| - 1, symbols[|symbols| - 1], fault, now);
        PairedConcat(prev.candles, prev.averages, step.candles, step.averages);
      }
    }
  }

  /** A turn raises only at the position the fault names, and then leaves
      the buffers alone. */
  lemma AggregateOneRaises(lists: Lists, i: nat, symbol: string, fault: Fault, now: int)
    ensures var r := AggregateOne(lists, i, symbol, fault, now);
      r.raised ==> !fault.NoFault? && fault.index == i && r.lists == lists
  {
  }

  /** Only a failing create raises, and only at the position it names: the
      buffers are then exactly as the turns before that position left them,
      so the failing symbol's buffer and every later one are kept. */
  lemma {:induction false} CycleRaisedAtFault(lists: Lists, symbols: seq<string>, fault: Fault, now: int)
    ensures var r := Cycle(lists, symbols, fault, now);
      r.raised ==>
        && !fault.NoFault?
        && fault.index < |symbols|
        && r.lists == Cycle(lists, symbols[..fault.index], fault, now).lists
  {
    if symbols != [] {
      var n := |symbols| - 1;
      var init := symbols[..n];
      CycleRaisedAtFault(lists, init, fault, now);
      var prev := Cycle(lists, init, fault, now);
      if prev.raised {
        assert init[..fault.index] == symbols[..fault.index];
      } else {
        AggregateOneRaises(prev.lists, n, symbols[n], fault, now);
      }
    }
  }

  lemma AggregateOneBeforeFault(lists: Lists, i: nat, symbol: string, fault: Fault, now: int)
    requires fault.NoFault? || i < fault.index
    ensures AggregateOne(lists, i, symbol, fault, now) == AggregateOne(lists, i, symbol, NoFault, now)
  {
  }

  /** A fault at a position the task has not reached yet makes no difference. */
  lemma {:induction false} CycleBeforeFault(lists: Lists, symbols: seq<string>, fault: Fault, now: int)
    requires fault.NoFault? || |symbols| <= fault.index
    ensures Cycle(lists, symbols, fault, now) == Cycle(lists, symbols, NoFault, now)
  {
    if symbols != [] {
      var n := |symbols| - 1;
      CycleBeforeFault(lists, symbols[..n], fault, now);
      var prev := Cycle(lists, symbols[..n], NoFault, now);
      AggregateOneBeforeFault(prev.lists, n, symbols[n], fault, now);
    }
  }

  /** When every configured buffer is empty, the task creates nothing and
      changes nothing, whatever create would fail. */
  lemma {:induction false} CycleIdle(lists: Lists, symbols: seq<string>, fault: Fault, now: int)
    requires forall s :: s in symbols ==> Lookup(lists, Key(s)) == []
    ensures Cycle(lists, symbols, fault, now) == CycleResult(lists, [], [], false)
  {
    if symbols != [] {
      CycleIdle(lists, symbols[..|symbols| - 1], fault, now);
      assert symbols[|symbols| - 1] in symbols;
    }
  }

  /** The body of the loop for the `i`-th configured symbol. */
  method AggregateSymbol(store: TradeStore, db: Database, i: nat, symbol: string, fault: Fault, now: int)
    returns (raised: bool)
    requires store.Valid() && db.Valid()
    modifies store, db
    ensures store.Valid() && db.Valid()
    ensures var r := AggregateOne(old(store.lists), i, symbol, fault, now);
      && store.lists == r.lists
      && CandlesOf(db.tickers) == CandlesOf(old(db.tickers)) + r.candles
      && db.trades == old(db.trades) + r.averages
      && raised == r.raised
  {
    raised := false;
    var key := Key(symbol);
    var trades := store.LRange(key);
    if trades != [] {
      if fault == CandleCreateFails(i) {
        raised := true;
      } else {
        var candle := MakeCandle(symbol, trades);
        ghost var rows := db.tickers;
        var id := db.CreateTicker(candle);
        CandlesOfSnoc(rows, TickerRow(id, candle));
        if fault == TradeCreateFails(i) {
          raised := true;
        } else {
          db.CreateTrade(MakeAverage(symbol, trades, now));
          store.Delete(key);
        }
      }
    }
  }

  /** The rows and buffers after the first `i` turns, relative to the state
      the task started from. */
  ghost predicate Reached(store: TradeStore, db: Database, lists0: Lists, candles0: seq<Candle>,
                          trades0: seq<AverageTrade>, r: CycleResult)
    reads store, db
  {
    && store.lists == r.lists
    && CandlesOf(db.tickers) == candles0 + r.candles
    && db.trades == trades0 + r.averages
  }

  /** One turn of the loop, from the state after `i` turns to the state after `i + 1`. */
  method AggregateStep(store: TradeStore, db: Database, symbols: seq<string>, i: nat, fault: Fault, now: int,
                       ghost lists0: Lists, ghost candles0: seq<Candle>, ghost trades0: seq<AverageTrade>)
    returns (raised: bool)
    requires i < |symbols| && store.Valid() && db.Valid()
    requires !Cycle(lists0, symbols[..i], fault, now).raised
    requires Reached(store, db, lists0, candles0, trades0, Cycle(lists0, symbols[..i], fault, now))
    modifies store, db
    ensures store.Valid() && db.Valid()
    ensures Reached(store, db, lists0, candles0, trades0, Cycle(lists0, symbols[..i + 1], fault, now))
    ensures raised == Cycle(lists0, symbols[..i + 1], fault, now).raised
  {
    ghost var prev := Cycle(lists0, symbols[..i], fault, now);
    ghost var step := AggregateOne(prev.lists, i, symbols[i], fault, now);
    CycleSnoc(lists0, symbols, i, fault, now);
    AppendAssoc(candles0, prev.candles, step.candles);
    AppendAssoc(trades0, prev.averages, step.averages);
    raised := AggregateSymbol(store, db, i, symbols[i], fault, now);
  }

  /** `aggregate_trades` over the configured symbols. */
  method AggregateTrades(store: TradeStore, db: Database, symbols: seq<string>, fault: Fault, now: int)
    returns (raised: bool)
    requires store.Valid() && db.Valid()
    modifies store, db
    ensures store.Valid() && db.Valid()
    ensures var r := Cycle(old(store.lists), symbols, fault, now);
      && store.lists == r.lists
      && CandlesOf(db.tickers) == CandlesOf(old(db.tickers)) + r.candles
      && db.trades == old(db.trades) + r.averages
      && raised == r.raised
  {
    raised := false;
    var i := 0;
    ghost var lists0, candles0, trades0 := store.lists, CandlesOf(db.tickers), db.trades;
    assert symbols[..0] == [];
    assert Reached(store, db, lists0, candles0, trades0, Cycle(lists0, symbols[..0], fault, now));
    while i < |symbols| && !raised
      invariant 0 <= i <= |symbols|
      invariant store.Valid() && db.Valid()
      invariant Reached(store, db, lists0, candles0, trades0, Cycle(lists0, symbols[..i], fault, now))
      invariant raised == Cycle(lists0, symbols[..i], fault, now).raised
    {
      raised := AggregateStep(store, db, symbols, i, fault, now, lists0, candles0, trades0);
      i := i + 1;
    }
    if raised {
      CycleStopsWhenRaised(lists0, symbols, i, fault, now);
    } else {
      assert symbols[..i] == symbols;
    }
  }
}
