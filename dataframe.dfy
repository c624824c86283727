/** app/models/dataframe.go: the column accessors of a candle frame and the
    indicator frame whose AddX methods record go-talib outputs. */
module DataFrame {

  import opened Wrappers
  import opened Candles
  import opened TaLib

  /** Opens: the open price of every candle, in order. */
  method Opens(cframe: CandleFrame) returns (open: seq<real>)
    ensures |open| == |cframe.candles|
    ensures forall i :: 0 <= i < |open| ==> open[i] == cframe.candles[i].open
    ensures open == Columns(cframe.candles).open
  {
    var a := new real[|cframe.candles|];
    for i := 0 to |cframe.candles|
      invariant forall j :: 0 <= j < i ==> a[j] == cframe.candles[j].open
    {
      a[i] := cframe.candles[i].open;
    }
    open := a[..];
  }

  /** Highs: the high price of every candle, in order. */
  method Highs(cframe: CandleFrame) returns (high: seq<real>)
    ensures |high| == |cframe.candles|
    ensures forall i :: 0 <= i < |high| ==> high[i] == cframe.candles[i].high
    ensures high == Columns(cframe.candles).high
  {
    var a := new real[|cframe.candles|];
    for i := 0 to |cframe.candles|
      invariant forall j :: 0 <= j < i ==> a[j] == cframe.candles[j].high
    {
      a[i] := cframe.candles[i].high;
    }
    high := a[..];
  }

  /** Lows: the low price of every candle, in order. */
  method Lows(cframe: CandleFrame) returns (low: seq<real>)
    ensures |low| == |cframe.candles|
    ensures forall i :: 0 <= i < |low| ==> low[i] == cframe.candles[i].low
    ensures low == Columns(cframe.candles).low
  {
    var a := new real[|cframe.candles|];
    for i := 0 to |cframe.candles|
      invariant forall j :: 0 <= j < i ==> a[j] == cframe.candles[j].low
    {
      a[i] := cframe.candles[i].low;
    }
    low := a[..];
  }

  /** Closes: the close price of every candle, in order. */
  method Closes(cframe: CandleFrame) returns (close: seq<real>)
    ensures |close| == |cframe.candles|
    ensures forall i :: 0 <= i < |close| ==> close[i] == cframe.candles[i].close
    ensures close == Columns(cframe.candles).close
  {
    var a := new real[|cframe.candles|];
    for i := 0 to |cframe.candles|
      invariant forall j :: 0 <= j < i ==> a[j] == cframe.candles[j].close
    {
      a[i] := cframe.candles[i].close;
    }
    close := a[..];
  }

  /** Volumes: the volume of every candle, in order. */
  method Volumes(cframe: CandleFrame) returns (volume: seq<real>)
    ensures |volume| == |cframe.candles|
    ensures forall i :: 0 <= i < |volume| ==> volume[i] == cframe.candles[i].volume
    ensures volume == Columns(cframe.candles).volume
  {
    var a := new real[|cframe.candles|];
    for i := 0 to |cframe.candles|
      invariant forall j :: 0 <= j < i ==> a[j] == cframe.candles[j].volume
    {
      a[i] := cframe.candles[i].volume;
    }
    volume := a[..];
  }

  // Records of app/models/indicator.go.
  datatype Sma = Sma(period: int, values: seq<real>)
  datatype Ema = Ema(period: int, values: seq<real>)
  datatype BBands = BBands(n: int, k: real, up: seq<real>, mid: seq<real>, low: seq<real>)
  datatype Macd = Macd(fast: int, slow: int, signal: int,
                       macd: seq<real>, macdSignal: seq<real>, macdHist: seq<real>)
  datatype Rsi = Rsi(period: int, values: seq<real>)
  datatype WillR = WillR(period: int, values: seq<real>)

  /** IndicatorFrame: the candles plus the indicators computed over them so far;
      a nil pointer field is None. */
  class IndicatorFrame {
    var cframe: CandleFrame
    var smas: seq<Sma>
    var emas: seq<Ema>
    var bbands: Option<BBands>
    var macd: Option<Macd>
    var rsi: Option<Rsi>
    var willR: Option<WillR>

    /** NewIndicator, with the database rows it fetches given as input. */
    constructor (fetched: seq<Candle>)
      ensures cframe.candles == fetched
      ensures smas == [] && emas == [] && bbands == None && macd == None && rsi == None && willR == None
    {
      var frame := GetCandles(fetched);
      cframe := frame;
      smas, emas := [], [];
      bbands, macd, rsi, willR := None, None, None, None;
    }

    /** AddSma: refuses a period longer than the candle count; otherwise appends
        exactly one entry recording the period and talib.Sma's output. */
    method AddSma(lib: Library, period: int) returns (ok: bool)
      modifies this`smas
      ensures ok <==> period <= |cframe.candles|
      ensures ok ==> smas == old(smas) + [Sma(period, Series(d => lib.at(SmaOut(period, d)), |cframe.candles|))]
      ensures !ok ==> smas == old(smas)
    {
      if period > |cframe.candles| {
        return false;
      }
      smas := smas + [Sma(period, Series(d => lib.at(SmaOut(period, d)), |cframe.candles|))];
      return true;
    }

    /** AddEma: refuses a period longer than the candle count; otherwise appends
        exactly one entry recording the period and talib.Ema's output. */
    method AddEma(lib: Library, period: int) returns (ok: bool)
      modifies this`emas
      ensures ok <==> period <= |cframe.candles|
      ensures ok ==> emas == old(emas) + [Ema(period, Series(d => lib.at(EmaOut(period, d)), |cframe.candles|))]
      ensures !ok ==> emas == old(emas)
    {
      if period > |cframe.candles| {
        return false;
      }
      emas := emas + [Ema(period, Series(d => lib.at(EmaOut(period, d)), |cframe.candles|))];
      return true;
    }

    /** AddBBands: refuses N longer than the candle count; otherwise replaces the
        bands, recording N and K. */
    method AddBBands(lib: Library, n: int, k: real) returns (ok: bool)
      modifies this`bbands
      ensures ok <==> n <= |cframe.candles|
      ensures ok ==> bbands == Some(BBands(n, k,
                        Series(d => lib.at(BBUpperOut(n, k, d)), |cframe.candles|),
                        Series(d => lib.at(BBMiddleOut(n, k, d)), |cframe.candles|),
                        Series(d => lib.at(BBLowerOut(n, k, d)), |cframe.candles|)))
      ensures !ok ==> bbands == old(bbands)
    {
      if n > |cframe.candles| {
        return false;
      }
      var count := |cframe.candles|;
      bbands := Some(BBands(n, k,
                  Series(d => lib.at(BBUpperOut(n, k, d)), count),
                  Series(d => lib.at(BBMiddleOut(n, k, d)), count),
                  Series(d => lib.at(BBLowerOut(n, k, d)), count)));
      return true;
    }

    /** AddMacd: refuses only an empty frame, whatever the periods; otherwise
        replaces the MACD lines, recording the three periods. */
    method AddMacd(lib: Library, fast: int, slow: int, signal: int) returns (ok: bool)
      modifies this`macd
      ensures ok <==> |cframe.candles| >= 1
      ensures ok ==> macd == Some(Macd(fast, slow, signal,
                        Series(d => lib.at(MacdOut(fast, slow, signal, d)), |cframe.candles|),
                        Series(d => lib.at(MacdSignalOut(fast, slow, signal, d)), |cframe.candles|),
                        Series(d => lib.at(MacdHistOut(fast, slow, signal, d)), |cframe.candles|)))
      ensures !ok ==> macd == old(macd)
    {
      if |cframe.candles| < 1 {
        return false;
      }
      var count := |cframe.candles|;
      macd := Some(Macd(fast, slow, signal,
                Series(d => lib.at(MacdOut(fast, slow, signal, d)), count),
                Series(d => lib.at(MacdSignalOut(fast, slow, signal, d)), count),
                Series(d => lib.at(MacdHistOut(fast, slow, signal, d)), count)));
      return true;
    }

    /** AddRsi: refuses a period longer than the candle count; otherwise replaces
        the RSI line, recording the period. */
    method AddRsi(lib: Library, period: int) returns (ok: bool)
      modifies this`rsi
      ensures ok <==> period <= |cframe.candles|
      ensures ok ==> rsi == Some(Rsi(period, Series(d => lib.at(RsiOut(period, d)), |cframe.candles|)))
      ensures !ok ==> rsi == old(rsi)
    {
      if period > |cframe.candles| {
        return false;
      }
      rsi := Some(Rsi(period, Series(d => lib.at(RsiOut(period, d)), |cframe.candles|)));
      return true;
    }

    /** AddWillR: refuses a period longer than the candle count; otherwise replaces
        the Williams %R line, recording the period. */
    method AddWillR(lib: Library, period: int) returns (ok: bool)
      modifies this`willR
      ensures ok <==> period <= |cframe.candles|
      ensures ok ==> willR == Some(WillR(period, Series(d => lib.at(WillrOut(period, d)), |cframe.candles|)))
      ensures !ok ==> willR == old(willR)
    {
      if period > |cframe.candles| {
        return false;
      }
      willR := Some(WillR(period, Series(d => lib.at(WillrOut(period, d)), |cframe.candles|)));
      return true;
    }
  }
}
