/**
  The WebSocket side: every connected consumer belongs to the group
  "trades"; a client asks for the latest candle of a symbol, and every
  candle the task creates is broadcast to the group. String formatting of
  the decimal fields is not modelled: a reply carries the candle's values.
 */
module Consumers {
  import opened Common
  import opened Persistence

  const GroupName: string := "trades"

  /** `TickerAggregate.objects.filter(symbol=symbol).latest("id")`: the row
      with the greatest id among those for `symbol`, or None where Django
      raises `DoesNotExist`. */
  function LatestById(rows: seq<TickerRow>, symbol: string): (r: Option<TickerRow>)
    ensures r.None? <==> forall i :: 0 <= i < |rows| ==> rows[i].candle.symbol != symbol
    ensures r.Some? ==> r.value in rows && r.value.candle.symbol == symbol
    ensures r.Some? ==> forall i :: 0 <= i < |rows| && rows[i].candle.symbol == symbol ==> rows[i].id <= r.value.id
  {
    if rows == [] then None
    else
      var init := rows[..|rows| - 1];
      var last := rows[|rows| - 1];
      var prev := LatestById(init, symbol);
      assert forall i :: 0 <= i < |init| ==> init[i] == rows[i];
      if last.candle.symbol == symbol && (prev.None? || prev.value.id <= last.id) then Some(last)
      else prev
  }

  lemma IdsIncreasingPrefix(rows: seq<TickerRow>, m: nat)
    requires IdsIncreasing(rows) && m <= |rows|
    ensures IdsIncreasing(rows[..m])
  {
    var p := rows[..m];
    forall i, j | 0 <= i < j < |p|
      ensures p[i].id < p[j].id
    {
      assert p[i] == rows[i] && p[j] == rows[j];
    }
  }

  /** Ids grow with creation order, so the latest by id is the matching row
      created last. */
  lemma {:induction false} LatestIsLastCreated(rows: seq<TickerRow>, symbol: string, k: nat)
    requires IdsIncreasing(rows)
    requires k < |rows| && rows[k].candle.symbol == symbol
    requires forall j :: k < j < |rows| ==> rows[j].candle.symbol != symbol
    ensures LatestById(rows, symbol) == Some(rows[k])
    decreases |rows|
  {
    var n := |rows| - 1;
    var init := rows[..n];
    if k < n {
      IdsIncreasingPrefix(rows, n);
      LatestIsLastCreated(init, symbol, k);
    } else {
      var prev := LatestById(init, symbol);
      if prev.Some? {
        var i :| 0 <= i < |init| && init[i] == prev.value;
        assert rows[i].id < rows[n].id;
      }
    }
  }

  /** A candle row created after all others is what a request for its symbol
      returns from then on. */
  lemma LatestAfterCreate(rows: seq<TickerRow>, row: TickerRow)
    requires IdsIncreasing(rows + [row])
    ensures LatestById(rows + [row], row.candle.symbol) == Some(row)
  {
    LatestIsLastCreated(rows + [row], row.candle.symbol, |rows|);
  }

  /** A new row for another symbol does not change what a request returns. */
  lemma LatestUnaffected(rows: seq<TickerRow>, row: TickerRow, symbol: string)
    requires row.candle.symbol != symbol
    ensures LatestById(rows + [row], symbol) == LatestById(rows, symbol)
  {
    assert (rows + [row])[..|rows|] == rows;
  }

  /** The six-field payload of a reply or a broadcast. Each value is the
      string form of a decimal field in the source; here it is the value. */
  datatype Reply = Reply(symbol: string, openPrice: real, closePrice: real, highPrice: real,
                         lowPrice: real, volume: real)

  function ReplyOf(c: Candle): Reply
  {
    Reply(c.symbol, c.openPrice, c.closePrice, c.highPrice, c.lowPrice, c.volume)
  }

  /** A channel-layer event of type `send_trade_update`. */
  datatype Event = Event(data: Reply)

  /** A channel-layer group: its name and the channel names of its members. */
  class TradeGroup {
    const name: string
    var members: set<string>

    constructor (name: string)
      ensures this.name == name && members == {}
    {
      this.name := name;
      members := {};
    }

    /** `group_add`. */
    method Add(channel: string)
      modifies this
      ensures members == old(members) + {channel}
    {
      members := members + {channel};
    }

    /** `group_discard`: removing a channel that is not a member changes nothing. */
    method Discard(channel: string)
      modifies this
      ensures members == old(members) - {channel}
      ensures channel !in old(members) ==> members == old(members)
    {
      members := members - {channel};
    }
  }

  /** One WebSocket connection: its channel name, whether the handshake was
      accepted, whether the consumer has ended because a handler raised, and
      the frames sent to the client so far. */
  class TradeConsumer {
    const channelName: string
    var accepted: bool
    var closed: bool
    var sent: seq<Reply>

    constructor (channelName: string)
      ensures this.channelName == channelName && !accepted && !closed && sent == []
    {
      this.channelName := channelName;
      accepted := false;
      closed := false;
      sent := [];
    }

    /** `connect`: join the group, then accept the handshake. */
    method Connect(group: TradeGroup)
      requires group.name == GroupName
      modifies this, group
      ensures group.members == old(group.members) + {channelName}
      ensures accepted && sent == old(sent) && closed == old(closed)
    {
      group.Add(channelName);
      accepted := true;
    }

    /** `disconnect`: leave the group. */
    method Disconnect(group: TradeGroup)
      requires group.name == GroupName
      modifies group
      ensures group.members == old(group.members) - {channelName}
    {
      group.Discard(channelName);
    }

    /** `receive`: look up the latest candle row for the requested symbol and
        send its six fields. A request without a symbol filters on NULL,
        which no row has; when no row matches, `latest` raises
        `DoesNotExist`, nothing is sent and, the exception being uncaught,
        the consumer ends. Group membership is not touched. */
    method Receive(db: Database, symbol: Option<string>) returns (reply: Option<Reply>)
      requires !closed
      modifies this
      ensures reply.None? <==>
        (symbol.None? || forall i :: 0 <= i < |db.tickers| ==> db.tickers[i].candle.symbol != symbol.value)
      ensures reply.Some? ==>
        exists i :: 0 <= i < |db.tickers|
          && db.tickers[i].candle.symbol == symbol.value
          && reply.value == ReplyOf(db.tickers[i].candle)
          && (forall j :: 0 <= j < |db.tickers| && db.tickers[j].candle.symbol == symbol.value
                ==> db.tickers[j].id <= db.tickers[i].id)
      ensures sent == old(sent) + (if reply.Some? then [reply.value] else [])
      ensures closed <==> reply.None?
      ensures accepted == old(accepted)
    {
      reply := None;
      if symbol.Some? {
        var row := LatestById(db.tickers, symbol.value);
        if row.Some? {
          reply := Some(ReplyOf(row.value.candle));
          sent := sent + [reply.value];
        }
      }
      closed := reply.None?;
    }

    /** `send_trade_update`: forward the event's data to the client unchanged. */
    method SendTradeUpdate(event: Event) returns (frame: Reply)
      requires !closed
      modifies this
      ensures frame == event.data
      ensures sent == old(sent) + [event.data]
      ensures accepted == old(accepted) && !closed
    {
      frame := event.data;
      sent := sent + [frame];
    }
  }

  /** The channel layer hands `event` to the consumer of channel `ch`, if
      there is one and it has not ended; no other consumer is touched. */
  method Deliver(consumers: map<string, TradeConsumer>, ch: string, event: Event)
    requires forall c :: c in consumers ==> consumers[c].channelName == c
    modifies consumers.Values
    ensures forall c :: c in consumers && (c != ch || old(consumers[c].closed)) ==>
      consumers[c].sent == old(consumers[c].sent)
    ensures ch in consumers && !old(consumers[ch].closed) ==>
      consumers[ch].sent == old(consumers[ch].sent) + [event.data]
    ensures forall c :: c in consumers ==>
      consumers[c].closed == old(consumers[c].closed) && consumers[c].accepted == old(consumers[c].accepted)
  {
    if ch in consumers && !consumers[ch].closed {
      var frame := consumers[ch].SendTradeUpdate(event);
    }
  }

  /** `group_send` of `event` to a group: the channel layer hands the event to
      the consumer of every member channel, whose `send_trade_update`
      forwards it. `consumers` are the live consumers by channel name; a
      channel with no consumer, or whose consumer has ended, receives
      nothing. Non-members receive nothing either. */
  method GroupSend(group: TradeGroup, consumers: map<string, TradeConsumer>, event: Event)
    requires forall c :: c in consumers ==> consumers[c].channelName == c
    modifies consumers.Values
    ensures forall c :: c in consumers && c in group.members && !old(consumers[c].closed) ==>
      consumers[c].sent == old(consumers[c].sent) + [event.data]
    ensures forall c :: c in consumers && (c !in group.members || old(consumers[c].closed)) ==>
      consumers[c].sent == old(consumers[c].sent)
    ensures forall c :: c in consumers ==>
      consumers[c].closed == old(consumers[c].closed) && consumers[c].accepted == old(consumers[c].accepted)
  {
    var todo := group.members;
    ghost var done: set<string> := {};
    while todo != {}
      invariant todo + done == group.members && todo !! done
      invariant forall c :: c in consumers && c in done && !old(consumers[c].closed) ==>
        consumers[c].sent == old(consumers[c].sent) + [event.data]
      invariant forall c :: c in consumers && (c !in done || old(consumers[c].closed)) ==>
        consumers[c].sent == old(consumers[c].sent)
      invariant forall c :: c in consumers ==>
        consumers[c].closed == old(consumers[c].closed) && consumers[c].accepted == old(consumers[c].accepted)
      decreases |todo|
    {
      var ch :| ch in todo;
      Deliver(consumers, ch, event);
      todo, done := todo - {ch}, done + {ch};
    }
  }
}
