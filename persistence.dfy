/**
  The two tables the aggregation task writes: `TickerAggregate` rows (one
  candle each, with an auto-increment id, which the consumers query by
  greatest id) and `Trade` rows (one average-price record each).
 */
module Persistence {

  /** A `TickerAggregate` row's fields. */
  datatype Candle = Candle(
    symbol: string,
    startTime: int,
    endTime: int,
    openPrice: real,
    closePrice: real,
    highPrice: real,
    lowPrice: real,
    volume: real)

  /** A `Trade` row as the task writes it: the mean price of a drained buffer,
      its total quantity, and the wall-clock time of the write. */
  datatype AverageTrade = AverageTrade(symbol: string, price: real, quantity: real, tradeTime: int)

  datatype TickerRow = TickerRow(id: nat, candle: Candle)

  /** The candles of `rows`, in creation order. */
  function CandlesOf(rows: seq<TickerRow>): (cs: seq<Candle>)
    ensures |cs| == |rows| && forall i :: 0 <= i < |rows| ==> cs[i] == rows[i].candle
  {
    seq(|rows|, i requires 0 <= i < |rows| => rows[i].candle)
  }

  /** Creating a row extends the candles by its candle. */
  lemma CandlesOfSnoc(rows: seq<TickerRow>, row: TickerRow)
    ensures CandlesOf(rows + [row]) == CandlesOf(rows) + [row.candle]
  {
  }

  ghost predicate IdsIncreasing(rows: seq<TickerRow>)
  {
    forall i, j :: 0 <= i < j < |rows| ==> rows[i].id < rows[j].id
  }

  class Database {
    var tickers: seq<TickerRow>
    var trades: seq<AverageTrade>
    var nextId: nat

    /** Ids are handed out in increasing order and never reused. */
    ghost predicate Valid()
      reads this
    {
      && IdsIncreasing(tickers)
      && forall i :: 0 <= i < |tickers| ==> tickers[i].id < nextId
    }

    constructor ()
      ensures Valid() && tickers == [] && trades == []
    {
      tickers, trades, nextId := [], [], 1;
    }

    /** `TickerAggregate.objects.create(...)`: a new row with the next id. */
    method CreateTicker(c: Candle) returns (id: nat)
      requires Valid()
      modifies this
      ensures Valid()
      ensures id == old(nextId) && tickers == old(tickers) + [TickerRow(id, c)]
      ensures trades == old(trades)
    {
      id := nextId;
      tickers := tickers + [TickerRow(id, c)];
      nextId := nextId + 1;
    }

    /** `Trade.objects.create(...)`. */
    method CreateTrade(a: AverageTrade)
      requires Valid()
      modifies this
      ensures Valid()
      ensures trades == old(trades) + [a]
      ensures tickers == old(tickers) && nextId == old(nextId)
    {
      trades := trades + [a];
    }
  }
}
