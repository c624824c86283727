/** app/models/candle.go: the older copy of the quote-to-candles conversion. */
module LegacyCandles {

  import opened Candles

  /** NewCandles: one candle per date, candle i built from element i of every
      column, in order. */
  method NewCandles(stock: Quote) returns (candles: seq<Candle>)
    requires ColumnsCoverDates(stock)
    ensures |candles| == |stock.date|
    ensures forall i :: 0 <= i < |candles| ==>
      candles[i] == Candle(stock.date[i], stock.open[i], stock.high[i], stock.low[i],
                           stock.close[i], stock.volume[i])
    ensures Columns(candles) == Trimmed(stock)
  {
    candles := [];
    for i := 0 to |stock.date|
      invariant |candles| == i
      invariant forall j :: 0 <= j < i ==> candles[j] == RowAt(stock, j)
    {
      candles := candles + [Candle(stock.date[i], stock.open[i], stock.high[i], stock.low[i],
                                   stock.close[i], stock.volume[i])];
    }
    assert candles == Rows(stock);
    ColumnsOfRows(stock);
  }
}
