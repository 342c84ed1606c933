# TradeWS trade pipeline, modelled in Dafny

TradeWS takes trades from the Binance WebSocket feed, keeps them in Redis,
turns them into candles, and serves those candles to WebSocket clients. This
project models three parts of it and proves properties about them.

- **Listener** (`api/management/commands/binance_listener.py`, module
  `Listener`): the reconnect loop, the `SUBSCRIBE` message, and the filter and
  normalisation of inbound messages. An accepted trade is stored with LPUSH
  followed by LTRIM, so each symbol's Redis list is capped and newest first.
- **Aggregation task** (`TradeWS/tasks.py`, module `Aggregation`): for each
  configured symbol, the task reads the whole list, builds the OHLCV candle
  and the average-price record, creates both rows, and then deletes the key.
- **Consumers** (`api/consumers.py`, module `Consumers`): membership of the
  group "trades", the latest-by-id lookup that `receive` answers with, and the
  pass-through of broadcast updates.

Shared pieces:

- `Common` holds the trade record, ASCII case mapping and the buffer key.
- `Store` holds the Redis lists. `TradeStore` is a class whose
  `map<string, seq<Trade>>` is changed by LPush, LTrim and Delete.
- `Persistence` holds the database tables. `Database` is a class with two
  growing sequences of rows and an auto-increment id.

Each imperative loop of the source is a `method` with a `while` loop, proved
against a specification function:

- `Listener.ListenBinance` against `Listen`;
- `Listener.StreamSession` against `Stream`;
- `Aggregation.AggregateTrades` against `Cycle`.

The properties are proved about those functions. The network is a finite
script of connection attempts: each attempt is refused, or it is a session
that delivers messages and then closes cleanly or fails. A failing database
write is a `Fault` parameter.

Prices and quantities are exact `real`s, and trade times are integer
milliseconds.

### Behaviour of the code worth knowing

Some of this behaviour is easy to miss in the code. The model follows the code in each case.

- **Buffer order.** The buffer is read newest first, because LPUSH prepends.
  The candle therefore takes `open` from the newest trade and `close` from the
  oldest (`Aggregation.CandleOfPushedTrades`). The unit test mocks `lrange` in
  oldest-first order, which a real buffer never returns.
- **Clean close.** A session that closes without an exception reconnects at
  once, with no five-second wait (`Listener.AttemptErrorWaits`).
- **Failed create.** An exception in either `objects.create` call ends the
  whole task:
  - that symbol's key is not deleted, so its trades are kept;
  - no later symbol is processed;
  - a candle created just before a failing average-record create remains.

  See `Aggregation.CycleRaisedAtFault` and `Aggregation.CyclePaired`.
- **Missing `q` or `T`.** A message that has `s` and `p` but lacks `q` or `T`
  raises KeyError. The connection is dropped rather than the message skipped
  (`Listener.StreamRaisesIffFail`).
- **Case of configured symbols.** The task reads `trades:` followed by the
  configured symbol exactly as spelled. The listener writes under the
  lower-cased exchange symbol. A configured symbol with an upper-case letter
  therefore never sees a trade (`Listener.TaskReadsPushedBuffer`).
- **Case of requests.** `receive` matches the requested symbol exactly
  against the stored upper-case symbol. Under a case-sensitive database
  collation, the lookup is therefore case-sensitive; the model assumes such a
  collation.
- **Unknown symbol.** A request for a symbol with no candle, or one without
  a `symbol` field, does not get a "not found" reply. `latest("id")` raises
  `DoesNotExist`, which `receive` does not catch, so the consumer ends.
  Later broadcasts no longer reach it (`Consumers.TradeConsumer.Receive`,
  `Consumers.GroupSend`).

## Model

| member | source | states |
|---|---|---|
| Common.Lower | api/management/commands/binance_listener.py:33 | `str.lower()` on ASCII: same length, each character lower-cased |
| Common.Upper | TradeWS/tasks.py:35 | `str.upper()` on ASCII: same length, each character upper-cased |
| Common.LowerIdempotent | api/management/commands/binance_listener.py:33 | lower-casing an already lower-cased symbol changes nothing |
| Common.UpperOfLower | TradeWS/tasks.py:35 | upper-casing the listener's lower-cased symbol gives the exchange symbol upper-cased |
| Common.Key | TradeWS/tasks.py:17 | the key is "trades:" followed by the symbol: prefix and suffix are recovered from it |
| Common.KeyInjective | TradeWS/tasks.py:17 | two symbols share a buffer key exactly when they are equal |
| Store.Lookup | TradeWS/tasks.py:18 | LRANGE of an absent key is the empty list |
| Store.Trim | api/management/commands/binance_listener.py:41 | `LTRIM key 0 cap` keeps a prefix of at most cap+1 entries, and the whole list if it is short enough |
| Store.Pushed | api/management/commands/binance_listener.py:40-41 | push then trim: the new trade is at the head; the rest is a prefix of the old list; the length is the old length plus one while that is within cap+1, and exactly cap+1 once the list is full; every other key is unchanged |
| Store.NewestFirst | api/management/commands/binance_listener.py:40 | position i of the pushed list holds the i-th newest trade |
| Store.PushAll | api/management/commands/binance_listener.py:40-41 | definition of a run of `lpush`/`ltrim` pairs on one buffer, in arrival order; its properties are in `PushAllKeepsNewest`, `PushAllConcat` and `PushAllFromEmpty` |
| Store.PushAllKeepsNewest | api/management/commands/binance_listener.py:40-41 | after any run of pushes, a capped buffer holds exactly the newest cap+1 of all its trades, newest first |
| Store.PushAllConcat | api/management/commands/binance_listener.py:40-41 | pushing two runs of trades one after the other is pushing their concatenation |
| Store.PushAllFromEmpty | api/management/commands/binance_listener.py:40-41 | from an empty buffer: the length is min(count, cap+1) and position i holds the i-th newest trade |
| Store.TradeStore.LPush | api/management/commands/binance_listener.py:40 | LPUSH prepends under the key; no key is left mapping to [] |
| Store.TradeStore.LTrim | api/management/commands/binance_listener.py:41 | LTRIM trims the list under the key; an absent key stays absent |
| Store.TradeStore.LRange | TradeWS/tasks.py:18 | returns the whole list, or [] for an absent key |
| Store.TradeStore.Delete | TradeWS/tasks.py:53 | DEL removes exactly the key |
| Listener.TradeStreams | api/management/commands/binance_listener.py:25 | one stream name `symbol@trade` per configured symbol, in order |
| Listener.SubscribeMessage | api/management/commands/binance_listener.py:23-28 | method "SUBSCRIBE", id 1, and params `s@trade` for each configured symbol in order |
| Listener.HandleMessage | api/management/commands/binance_listener.py:32-39 | ignored iff `s` or `p` is missing; raises iff `s` and `p` are present but `q` or `T` is missing; otherwise pushes under "trades:"+lower(s) a trade with symbol lower(s) and price, quantity and time copied verbatim |
| Listener.TaskReadsPushedBuffer | api/management/commands/binance_listener.py:33-40 | an accepted trade lands in the buffer the task reads for a configured symbol iff that symbol is the lower-cased exchange symbol |
| Listener.SameBufferAnyCase | api/management/commands/binance_listener.py:33-40 | exchange symbols that differ only in letter case share one buffer |
| Listener.StreamRaisesIffFail | api/management/commands/binance_listener.py:30-41 | a session raises exactly when one of its messages has `s` and `p` but lacks `q` or `T` |
| Listener.StreamStopsAtFailure | api/management/commands/binance_listener.py:30-44 | after a message raises, the rest of the session is not read and no buffer changes |
| Listener.StreamBuffers | api/management/commands/binance_listener.py:30-41 | after a session that did not raise, each buffer equals its old contents with exactly the trades accepted for its key pushed in order; other messages do not touch it |
| Listener.StreamKeepsNewest | api/management/commands/binance_listener.py:40-41 | hence a buffer within the cap holds the newest cap+1 of its old and new trades, newest first |
| Listener.Stream | api/management/commands/binance_listener.py:30-41 | definition of one session's effect on the buffers; its properties are in `StreamRaisesIffFail`, `StreamStopsAtFailure`, `StreamBuffers` and `StreamKeepsNewest` |
| Listener.Accepted | api/management/commands/binance_listener.py:32-39 | definition of the trades a session's messages push under one key, in arrival order; its properties are in `StreamBuffers`, `StreamKeepsNewest` and `StreamUpToFail` |
| Listener.IgnoredMessageChangesNothing | api/management/commands/binance_listener.py:32 | a message lacking `s` or `p` leaves every buffer unchanged |
| Listener.PushTrade | api/management/commands/binance_listener.py:40-41 | `lpush` then `ltrim` leaves the store as `Pushed` describes |
| Listener.StreamSession | api/management/commands/binance_listener.py:30-41 | the `async for` loop leaves the buffers, and reports a raise, exactly as `Stream` says |
| Listener.RunAttempt | api/management/commands/binance_listener.py:21-44 | definition of one iteration of the reconnect loop (buffers and actions); its properties are in `AttemptLogWellFormed`, `AttemptErrorWaits` and `AttemptBuffers` |
| Listener.Listen | api/management/commands/binance_listener.py:20-44 | definition of the reconnect loop run over a finite prefix of its attempts; its properties are in `ListenBuffers`, `ListenKeepsNewest`, `ListenLog` and `AttemptLogWellFormed`, and `ListenBinance` is proved against it |
| Listener.ListenBinance | api/management/commands/binance_listener.py:20-44 | the `while True` loop over the attempts leaves the buffers and the action log exactly as `Listen` says |
| Listener.AttemptLogWellFormed | api/management/commands/binance_listener.py:20-44 | each iteration starts with exactly one Connect; a Send is always the subscribe message right after Connect; an error report is always followed by the 5-second wait |
| Listener.ListenLog | api/management/commands/binance_listener.py:20-44 | over any attempts the log is well formed and there is one connection attempt per iteration: no outcome ends the loop, and after each wait comes a new Connect |
| Listener.AttemptErrorWaits | api/management/commands/binance_listener.py:21-44 | every iteration starts with Connect; it waits 5 seconds iff the connection was refused, the session had a read error, or a message lacked `q`/`T`; an error is reported exactly when the wait follows; a refused connection sends nothing, and a session sends the subscribe message right after connecting; a clean close reconnects at once |
| Listener.FirstFail | api/management/commands/binance_listener.py:30-39 | the number of messages handled before the first one that raises: none of those raises, and the message at that position does |
| Listener.StreamUpToFail | api/management/commands/binance_listener.py:30-41 | a session leaves the buffers as its messages before the first failing one do, and those do not raise |
| Listener.AttemptTrades | api/management/commands/binance_listener.py:30-41 | definition: the trades one attempt accepts for a key before any failure (none for a refused connection); used by `AttemptBuffers` |
| Listener.SessionTrades | api/management/commands/binance_listener.py:20-41 | definition: the trades all attempts accept for a key, in arrival order; used by `ListenBuffers` |
| Listener.AttemptBuffers | api/management/commands/binance_listener.py:21-41 | one iteration leaves each buffer as its old contents with the iteration's accepted trades pushed in order |
| Listener.ListenBuffers | api/management/commands/binance_listener.py:20-41 | across any run of the loop, each buffer is its old contents with every trade accepted for it pushed in arrival order; reconnects lose none of the trades handled before a failure |
| Listener.ListenKeepsNewest | api/management/commands/binance_listener.py:20-41 | hence a buffer within the cap holds, after any run of the loop, the newest cap+1 of its old and accepted trades, newest first |
| Persistence.Database.CreateTicker | TradeWS/tasks.py:34-43 | appends one candle row with the next id; ids stay increasing |
| Persistence.Database.CreateTrade | TradeWS/tasks.py:46-51 | appends one average-price row; candle rows are unchanged |
| Aggregation.MaxOf | TradeWS/tasks.py:30 | `max`: at least every element, and equal to one of them |
| Aggregation.MinOf | TradeWS/tasks.py:31 | `min`: at most every element, and equal to one of them |
| Aggregation.Prices | TradeWS/tasks.py:22 | one price per trade, position by position and in buffer order; used by `MakeCandle`, `MakeAverage` and `ProjectionsReversed` |
| Aggregation.Quantities | TradeWS/tasks.py:23 | one quantity per trade, position by position and in buffer order; used by `MakeCandle`, `MakeAverage` and `VolumeOfReversed` |
| Aggregation.Earliest | TradeWS/tasks.py:26 | `min` of the times: at most every time, and one of them |
| Aggregation.Latest | TradeWS/tasks.py:27 | `max` of the times: at least every time, and one of them |
| Aggregation.Sum | TradeWS/tasks.py:32 | definition of `sum`, adding left to right; its properties are in `SumAtLeast`, `SumAtMost`, `SumConcat` and `SumReversed` |
| Aggregation.SumAtLeast | TradeWS/tasks.py:32 | a sum of n terms each at least b is at least n·b |
| Aggregation.SumAtMost | TradeWS/tasks.py:32 | a sum of n terms each at most b is at most n·b |
| Aggregation.SumReversed | TradeWS/tasks.py:32 | the sum does not depend on the order of the buffer |
| Aggregation.MeanBetween | TradeWS/tasks.py:45 | `sum / len` lies between any lower and any upper bound of the terms |
| Aggregation.Mean | TradeWS/tasks.py:45 | the mean lies between the smallest and the largest price |
| Aggregation.MeanTimesCount | TradeWS/tasks.py:45 | the mean times the number of terms is the sum |
| Aggregation.MeanOfEqual | TradeWS/tasks.py:45 | the mean of equal prices is that price |
| Aggregation.MakeCandle | TradeWS/tasks.py:20-43 | symbol upper-cased; open is element 0 and close the last element; low and high bound every price and both are attained; start and end bound every time and both are attained; volume is the sum of quantities |
| Aggregation.MakeAverage | TradeWS/tasks.py:45-51 | symbol upper-cased; the price is the mean of the prices (so, by `MeanTimesCount`, price × count = sum of prices) and lies between min and max price; quantity is the sum of quantities; time is the task's clock |
| Aggregation.CandleAndAverage | TradeWS/tasks.py:26-51 | the two records of one buffer share a symbol, the average quantity equals the volume, low ≤ open, close, average ≤ high, and start ≤ end |
| Aggregation.ExtremesOfReversed | TradeWS/tasks.py:30-31 | high and low do not depend on buffer order |
| Aggregation.WindowOfReversed | TradeWS/tasks.py:26-27 | start and end times do not depend on buffer order |
| Aggregation.VolumeOfReversed | TradeWS/tasks.py:32 | volume does not depend on buffer order |
| Aggregation.CandleOfPushedTrades | TradeWS/tasks.py:28-29 | for trades pushed by the listener within the cap, the candle opens at the NEWEST trade's price and closes at the OLDEST's; high, low, volume and window are those of the trades in arrival order |
| Aggregation.CandleOfThree | TradeWS/tasks.py:26-32 | a three-trade buffer with ascending prices and times gives open = low = first price, close = high = last price, and volume = the sum of the three quantities |
| Aggregation.ScenarioCandle | api/tests.py:124-163 | the unit test's buffer gives candle BTCUSDT, open 45000, close 45200, high 45200, low 45000, volume 1.5 |
| Aggregation.ScenarioAverage | api/tests.py:165-168 | the unit test's buffer gives average price 45100 and quantity 1.5 |
| Aggregation.KeysOf | TradeWS/tasks.py:16-17 | the buffer keys of the configured symbols, and nothing else |
| Aggregation.Cycle | TradeWS/tasks.py:16-53 | definition of the `for symbol in SYMBOLS` loop run turn by turn; its properties are in `CycleContents`, `CycleNoFault`, `CyclePaired`, `CycleRaisedAtFault`, `CycleBeforeFault`, `CycleIdle` and `CycleStopsWhenRaised`, and `AggregateTrades` is proved against it |
| Aggregation.CycleNoFault | TradeWS/tasks.py:16-53 | with no failing create, the task does not raise, deletes every configured buffer, and leaves every other buffer alone |
| Aggregation.AggregateOne | TradeWS/tasks.py:17-53 | definition of one turn of the loop; its properties are in `AggregateOneRecords`, `AggregateOnePaired`, `AggregateOneRaises` and `AggregateOneBeforeFault` |
| Aggregation.AggregateOneRecords | TradeWS/tasks.py:17-53 | unfolding of one turn, used by `CycleContents`: a turn without a fault creates the candle and the average record of its symbol's whole buffer (nothing if it is empty), and then deletes exactly that key |
| Aggregation.ExpectedCandles | TradeWS/tasks.py:16-43 | definition: one candle per configured symbol with a non-empty buffer, from that whole buffer as the task found it, in configured order; used by `CycleContents` |
| Aggregation.ExpectedAverages | TradeWS/tasks.py:16-51 | definition: likewise, one average-price record per such symbol; used by `CycleContents` |
| Aggregation.CycleContents | TradeWS/tasks.py:16-53 | with distinct configured symbols and no failing create, the task creates exactly the expected candles and average records, in configured order: each buffer is read whole and independently of the others |
| Aggregation.AggregateOnePaired | TradeWS/tasks.py:20-53 | one symbol's turn: an empty buffer creates nothing, keeps the key and does not raise; otherwise the average record agrees with the candle; a candle without its average record only when the second create fails |
| Aggregation.CyclePaired | TradeWS/tasks.py:16-53 | the i-th average record agrees with the i-th candle; if the task raised, at most the last candle lacks its average record, otherwise the counts are equal |
| Aggregation.AggregateOneRaises | TradeWS/tasks.py:34-53 | a turn raises only at the faulted position, and then leaves the buffers unchanged (the delete comes last) |
| Aggregation.CycleRaisedAtFault | TradeWS/tasks.py:16-53 | if the task raised, the buffers are exactly as the turns before the failing symbol left them: that buffer and all later ones are kept |
| Aggregation.CycleBeforeFault | TradeWS/tasks.py:16-53 | a fault at a position not yet reached changes nothing; symbols are handled in order, independently of later ones |
| Aggregation.CycleIdle | TradeWS/tasks.py:20 | when all configured buffers are empty, nothing is created or deleted |
| Aggregation.CycleStopsWhenRaised | TradeWS/tasks.py:16-53 | once a turn raises, no later symbol is processed |
| Aggregation.AggregateSymbol | TradeWS/tasks.py:17-53 | one turn of the loop: LRANGE, the two creates and DEL, leaving the store and tables as `AggregateOne` says |
| Aggregation.AggregateStep | TradeWS/tasks.py:16-53 | extends the state after i turns to the state after i+1 turns of `Cycle` |
| Aggregation.AggregateTrades | TradeWS/tasks.py:16-53 | `aggregate_trades` leaves the buffers, the new candle rows, the new average rows and the raise exactly as `Cycle` says |
| Consumers.LatestById | api/consumers.py:21 | `filter(symbol=s).latest("id")`: none iff no row has symbol s; otherwise a row with symbol s whose id is the greatest among rows with symbol s |
| Consumers.LatestIsLastCreated | api/consumers.py:21 | since ids grow, the reply row is the matching row created last |
| Consumers.LatestAfterCreate | api/consumers.py:21 | a newly created candle is what a request for its symbol returns |
| Consumers.LatestUnaffected | api/consumers.py:21 | a new candle for another symbol does not change the reply |
| Consumers.TradeGroup.Add | api/consumers.py:11 | `group_add` adds the channel |
| Consumers.TradeGroup.Discard | api/consumers.py:15 | `group_discard` removes the channel; removing a non-member changes nothing |
| Consumers.ReplyOf | api/consumers.py:22-29 | definition of the six-field reply built from a candle row |
| Consumers.TradeConsumer.Connect | api/consumers.py:10-12 | joins the group "trades", then accepts; nothing is sent |
| Consumers.TradeConsumer.Disconnect | api/consumers.py:14-15 | leaves the group |
| Consumers.TradeConsumer.Receive | api/consumers.py:17-29 | no reply iff the symbol is missing or no row has it, and exactly then the consumer ends (the uncaught `DoesNotExist`); otherwise it sends the six fields of the matching row with the greatest id; group membership is untouched |
| Consumers.TradeConsumer.SendTradeUpdate | api/consumers.py:31-32 | a live consumer sends `event["data"]` unchanged |
| Consumers.Deliver | api/consumers.py:31-32 | the channel layer hands an event to one channel: its live consumer sends the data once, and no other consumer changes |
| Consumers.GroupSend | api/consumers.py:31-32 | a group send: each live consumer whose channel is a member sends the event's data exactly once; consumers of non-members and ended consumers send nothing |

## Left out

- JSON encoding and decoding. Messages are records with optional fields, and stored trades are records rather than JSON strings.
- A message field of the wrong JSON type, such as `"s": null`, which would raise in `.lower()`, is not modelled. Every field is either absent or well typed.
- Float parsing and rounding, `Decimal` quantisation and `str()` formatting of the reply fields. Values are exact reals, and a reply carries the values rather than their strings.
- `datetime.fromtimestamp` and time zones. Trade times stay integer milliseconds.
- `timezone.now()` is a parameter `now`. One value covers the whole run, whereas the task calls `timezone.now()` once per symbol, so the model does not capture that records of later symbols carry later times.
- Unicode case mapping. `Lower` and `Upper` change ASCII letters only.
- The network, asyncio and the sleep itself:
  - a connection attempt is a scripted `Attempt`;
  - the error message text is a `ReportError` action;
  - the wait is a `Sleep(5)` action.
- Listener.ListenBinance: the `while True` loop never ends. The model runs it over any finite prefix of attempts.
- Concurrency between the listener's LPUSH and the task's non-atomic LRANGE…DEL. A trade pushed in between is deleted unseen, which is a race between processes that a sequential model does not capture.
- Database failures other than an exception from a create call, modelled by `Fault`. A failing Redis call is not modelled.
- A negative `TIME_INTERVAL`: the cap is a `nat`. `SYMBOLS` and `TIME_INTERVAL` are parameters because the configuration file only reads the environment.
- `api/signals.py` (the `post_save` hook that builds the broadcast payload) is not part of this model beyond the `Event` it hands to the group.
- Django, Celery and Channels glue (models, migrations, admin, serializers, views, urls, routing, asgi, celery) is not part of this model.
- The channel layer's delivery is modelled as an immediate call on each member's consumer (`GroupSend`). Its queues, capacity, expiry and delivery order are not modelled.
