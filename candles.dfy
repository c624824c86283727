/** Daily candles and the column/row conversions of app/models/candles.go. */
module Candles {

  /** One day's candle (app/models/base.go). The quote's Date column fills `time`. */
  datatype Candle = Candle(time: int, open: real, high: real, low: real, close: real, volume: real)

  /** A go-quote Quote: the same data column by column. */
  datatype Quote = Quote(date: seq<int>, open: seq<real>, high: seq<real>, low: seq<real>,
                         close: seq<real>, volume: seq<real>)

  /** The candles of one symbol, oldest first. */
  datatype CandleFrame = CandleFrame(symbol: string, candles: seq<Candle>)

  /** Every price column is at least as long as the Date column. */
  predicate ColumnsCoverDates(q: Quote) {
    |q.open| >= |q.date| && |q.high| >= |q.date| && |q.low| >= |q.date| &&
    |q.close| >= |q.date| && |q.volume| >= |q.date|
  }

  /** Row i of a quote. */
  function RowAt(q: Quote, i: int): Candle
    requires ColumnsCoverDates(q) && 0 <= i < |q.date|
  {
    Candle(q.date[i], q.open[i], q.high[i], q.low[i], q.close[i], q.volume[i])
  }

  /** The candle list of a quote, one row per date. */
  function Rows(q: Quote): seq<Candle>
    requires ColumnsCoverDates(q)
  {
    seq(|q.date|, i requires 0 <= i < |q.date| => RowAt(q, i))
  }

  /** The column view of a candle list: the inverse of Rows. */
  function Columns(cs: seq<Candle>): Quote {
    Quote(seq(|cs|, i requires 0 <= i < |cs| => cs[i].time),
          seq(|cs|, i requires 0 <= i < |cs| => cs[i].open),
          seq(|cs|, i requires 0 <= i < |cs| => cs[i].high),
          seq(|cs|, i requires 0 <= i < |cs| => cs[i].low),
          seq(|cs|, i requires 0 <= i < |cs| => cs[i].close),
          seq(|cs|, i requires 0 <= i < |cs| => cs[i].volume))
  }

  /** The quote with every column cut to the length of the Date column. */
  function Trimmed(q: Quote): Quote
    requires ColumnsCoverDates(q)
  {
    var n := |q.date|;
    Quote(q.date, q.open[..n], q.high[..n], q.low[..n], q.close[..n], q.volume[..n])
  }

  /** Reading the columns back from the rows of a quote gives the quote, trimmed. */
  lemma ColumnsOfRows(q: Quote)
    requires ColumnsCoverDates(q)
    ensures Columns(Rows(q)) == Trimmed(q)
  {
    var cs := Rows(q);
    var c := Columns(cs);
    var t := Trimmed(q);
    assert c.date == t.date;
    assert c.open == t.open;
    assert c.high == t.high;
    assert c.low == t.low;
    assert c.close == t.close;
    assert c.volume == t.volume;
  }

  /** Building rows from the columns of a candle list gives the list back. */
  lemma RowsOfColumns(cs: seq<Candle>)
    ensures ColumnsCoverDates(Columns(cs)) && Rows(Columns(cs)) == cs
  {
    var r := Rows(Columns(cs));
    assert |r| == |cs|;
    forall i | 0 <= i < |cs| ensures r[i] == cs[i] {
    }
  }

  /** NewCandlesFromQuote: one candle per date, candle i built from element i of
      every column, in order. */
  method NewCandlesFromQuote(stock: Quote) returns (candles: seq<Candle>)
    requires ColumnsCoverDates(stock)
    ensures |candles| == |stock.date|
    ensures forall i :: 0 <= i < |candles| ==>
      candles[i] == Candle(stock.date[i], stock.open[i], stock.high[i], stock.low[i],
                           stock.close[i], stock.volume[i])
    ensures candles == Rows(stock)
  {
    candles := [];
    var i := 0;
    while i < |stock.date|
      invariant 0 <= i <= |stock.date|
      invariant |candles| == i
      invariant forall j :: 0 <= j < i ==> candles[j] == RowAt(stock, j)
    {
      candles := candles + [Candle(stock.date[i], stock.open[i], stock.high[i], stock.low[i],
                                   stock.close[i], stock.volume[i])];
      i := i + 1;
    }
  }

  /** GetCandles with the database query abstracted: the fetched rows are copied
      into a new frame unchanged and in order. The shown CandleFrame has no Symbol
      field, so the symbol keeps Go's zero value. */
  method GetCandles(fetched: seq<Candle>) returns (cframe: CandleFrame)
    ensures cframe.candles == fetched
    ensures cframe.symbol == ""
  {
    var copied: seq<Candle> := [];
    for k := 0 to |fetched|
      invariant copied == fetched[..k]
    {
      copied := copied + [fetched[k]];
    }
    assert fetched[..|fetched|] == fetched;
    cframe := CandleFrame("", copied);
  }
}
