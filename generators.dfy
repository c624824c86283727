/** The five per-family signal generators of app/models/backtest.go
    (backtestEma, backtestBB, backtestMacd, backtestRsi, backtestWillr): each walks
    days 1..n-1 and sends Buy/Sell requests with that day's candle to a fresh
    signal list whenever its family's rule fires. */
module Generators {

  import opened Wrappers
  import opened Signals
  import opened Candles
  import opened TaLib

  /** A family together with the parameters of one run. */
  datatype Rule =
    | EmaRule(short: int, long: int)
    | BBRule(n: int, k: real)
    | MacdRule(fast: int, slow: int, signal: int)
    | RsiRule(period: int, buyThread: real, sellThread: real)
    | WillrRule(period: int, buyThread: real, sellThread: real)

  /** The nil result: some period parameter is at least the number of candles. */
  predicate TooLong(rule: Rule, count: int) {
    match rule
    case EmaRule(short, long) => short >= count || long >= count
    case BBRule(n, _) => n >= count
    case MacdRule(fast, slow, signal) => fast >= count || slow >= count || signal >= count
    case RsiRule(period, _, _) => period >= count
    case WillrRule(period, _, _) => period >= count
  }

  /** The warm-up and degenerate-value guards: a day the walk passes over. */
  predicate Skipped(lib: Library, rule: Rule, day: int) {
    match rule
    case EmaRule(short, long) => day < short || day < long
    case BBRule(n, _) => day < n
    case MacdRule(_, _, _) => false
    case RsiRule(period, _, _) => lib.at(RsiOut(period, day - 1)) == 0.0 || lib.at(RsiOut(period, day - 1)) == 100.0
    case WillrRule(period, _, _) => lib.at(WillrOut(period, day - 1)) == 0.0 || lib.at(WillrOut(period, day - 1)) == -100.0
  }

  /** The family's Buy condition on yesterday's and today's values. */
  predicate BuyFires(cframe: CandleFrame, lib: Library, rule: Rule, day: int)
    requires 1 <= day < |cframe.candles|
  {
    match rule
    case EmaRule(short, long) =>
      lib.at(EmaOut(short, day - 1)) < lib.at(EmaOut(long, day - 1)) && lib.at(EmaOut(short, day)) >= lib.at(EmaOut(long, day))
    case BBRule(n, k) =>
      cframe.candles[day - 1].close < lib.at(BBLowerOut(n, k, day - 1)) &&
      cframe.candles[day].close >= lib.at(BBLowerOut(n, k, day))
    case MacdRule(fast, slow, signal) =>
      lib.at(MacdOut(fast, slow, signal, day)) < 0.0 && lib.at(MacdSignalOut(fast, slow, signal, day)) < 0.0 &&
      lib.at(MacdOut(fast, slow, signal, day - 1)) < lib.at(MacdSignalOut(fast, slow, signal, day - 1)) &&
      lib.at(MacdOut(fast, slow, signal, day)) >= lib.at(MacdSignalOut(fast, slow, signal, day))
    case RsiRule(period, buyThread, _) =>
      lib.at(RsiOut(period, day - 1)) < buyThread && lib.at(RsiOut(period, day)) >= buyThread
    case WillrRule(period, buyThread, _) =>
      lib.at(WillrOut(period, day - 1)) < buyThread && lib.at(WillrOut(period, day)) >= buyThread
  }

  /** The family's Sell condition on yesterday's and today's values. */
  predicate SellFires(cframe: CandleFrame, lib: Library, rule: Rule, day: int)
    requires 1 <= day < |cframe.candles|
  {
    match rule
    case EmaRule(short, long) =>
      lib.at(EmaOut(short, day - 1)) > lib.at(EmaOut(long, day - 1)) && lib.at(EmaOut(short, day)) <= lib.at(EmaOut(long, day))
    case BBRule(n, k) =>
      cframe.candles[day - 1].close > lib.at(BBUpperOut(n, k, day - 1)) &&
      cframe.candles[day].close <= lib.at(BBUpperOut(n, k, day))
    case MacdRule(fast, slow, signal) =>
      lib.at(MacdOut(fast, slow, signal, day)) > 0.0 && lib.at(MacdSignalOut(fast, slow, signal, day)) > 0.0 &&
      lib.at(MacdOut(fast, slow, signal, day - 1)) > lib.at(MacdSignalOut(fast, slow, signal, day - 1)) &&
      lib.at(MacdOut(fast, slow, signal, day)) <= lib.at(MacdSignalOut(fast, slow, signal, day))
    case RsiRule(period, _, sellThread) =>
      lib.at(RsiOut(period, day - 1)) > sellThread && lib.at(RsiOut(period, day)) <= sellThread
    case WillrRule(period, _, sellThread) =>
      lib.at(WillrOut(period, day - 1)) > sellThread && lib.at(WillrOut(period, day)) <= sellThread
  }

  /** One iteration of the day loop: a Buy request when the Buy rule fires, then a
      Sell request when the Sell rule fires, both with the day's time and close. */
  function DayStep(cframe: CandleFrame, lib: Library, rule: Rule, h: seq<Signal>, day: int): seq<Signal>
    requires 1 <= day < |cframe.candles|
  {
    if Skipped(lib, rule, day) then h
    else
      var c := cframe.candles[day];
      var h1 := if BuyFires(cframe, lib, rule, day) then TryBuy(h, cframe.symbol, c.time, c.close) else h;
      if SellFires(cframe, lib, rule, day) then TrySell(h1, cframe.symbol, c.time, c.close) else h1
  }

  /** The list after the loop has handled days 1 .. upTo-1. */
  function History(cframe: CandleFrame, lib: Library, rule: Rule, upTo: int): seq<Signal>
    requires upTo <= 1 || upTo <= |cframe.candles|
    decreases upTo, 1
  {
    if upTo <= 1 then [] else After(cframe, lib, rule, upTo - 1)
  }

  /** The list after the iteration for `day`. Kept apart from History so that a
      History term unfolds one day at a time. */
  function After(cframe: CandleFrame, lib: Library, rule: Rule, day: int): seq<Signal>
    requires 1 <= day < |cframe.candles|
    decreases day + 1, 0
  {
    DayStep(cframe, lib, rule, History(cframe, lib, rule, day), day)
  }

  /** History and DayStep: the list after day `day` is DayStep of the list before it. */
  lemma HistoryStep(cframe: CandleFrame, lib: Library, rule: Rule, day: int)
    requires 1 <= day < |cframe.candles|
    ensures History(cframe, lib, rule, day + 1) == DayStep(cframe, lib, rule, History(cframe, lib, rule, day), day)
  {
  }

  // ---------------------------------------------------------------------------
  // Which day each event came from

  /** The days on which DayStep appends its events, added to ds. */
  ghost function DayStepDays(cframe: CandleFrame, lib: Library, rule: Rule, h: seq<Signal>,
                             ds: seq<int>, day: int): seq<int>
    requires 1 <= day < |cframe.candles|
  {
    if Skipped(lib, rule, day) then ds
    else
      var c := cframe.candles[day];
      var buys := BuyFires(cframe, lib, rule, day) && BuyAllowed(h);
      var h1 := if BuyFires(cframe, lib, rule, day) then TryBuy(h, cframe.symbol, c.time, c.close) else h;
      var ds1 := if buys then ds + [day] else ds;
      if SellFires(cframe, lib, rule, day) && SellAllowed(h1) then ds1 + [day] else ds1
  }

  /** For each event of History(cframe, lib, rule, upTo), the day that emitted it. */
  ghost function EventDays(cframe: CandleFrame, lib: Library, rule: Rule, upTo: int): seq<int>
    requires upTo <= 1 || upTo <= |cframe.candles|
    decreases upTo
  {
    if upTo <= 1 then []
    else DayStepDays(cframe, lib, rule, History(cframe, lib, rule, upTo - 1),
                     EventDays(cframe, lib, rule, upTo - 1), upTo - 1)
  }

  /** Event e was emitted on day: a day the guards let through, on which the rule
      for e's action fired, and e carries that day's time and close. */
  ghost predicate EmittedOn(cframe: CandleFrame, lib: Library, rule: Rule, e: Signal, day: int) {
    && 1 <= day < |cframe.candles|
    && !Skipped(lib, rule, day)
    && e.symbol == cframe.symbol
    && e.time == cframe.candles[day].time
    && e.price == cframe.candles[day].close
    && (e.action == Buy ==> BuyFires(cframe, lib, rule, day))
    && (e.action == Sell ==> SellFires(cframe, lib, rule, day))
  }

  /** ds gives, in non-decreasing order, a day before upTo that emitted each event of h. */
  ghost predicate Witnessed(cframe: CandleFrame, lib: Library, rule: Rule, h: seq<Signal>,
                            ds: seq<int>, upTo: int) {
    && |ds| == |h|
    && (forall i :: 0 <= i < |h| ==> ds[i] < upTo && EmittedOn(cframe, lib, rule, h[i], ds[i]))
    && (forall i, j :: 0 <= i < j < |ds| ==> ds[i] <= ds[j])
  }

  /** Witnessing survives moving the bound one day on. */
  lemma WitnessedLater(cframe: CandleFrame, lib: Library, rule: Rule, h: seq<Signal>,
                       ds: seq<int>, day: int)
    requires Witnessed(cframe, lib, rule, h, ds, day)
    ensures Witnessed(cframe, lib, rule, h, ds, day + 1)
  {
  }

  /** Appending an event emitted on the bound day keeps the list witnessed. */
  lemma WitnessedSnoc(cframe: CandleFrame, lib: Library, rule: Rule, h: seq<Signal>,
                      ds: seq<int>, e: Signal, day: int, upTo: int)
    requires Witnessed(cframe, lib, rule, h, ds, upTo) && day < upTo
    requires forall i :: 0 <= i < |ds| ==> ds[i] <= day
    requires EmittedOn(cframe, lib, rule, e, day)
    ensures Witnessed(cframe, lib, rule, h + [e], ds + [day], upTo)
  {
    assert forall i :: 0 <= i < |h| ==> (h + [e])[i] == h[i] && (ds + [day])[i] == ds[i];
  }

  lemma DayStepWitnessed(cframe: CandleFrame, lib: Library, rule: Rule, h: seq<Signal>,
                         ds: seq<int>, day: int)
    requires 1 <= day < |cframe.candles|
    requires Witnessed(cframe, lib, rule, h, ds, day)
    ensures Witnessed(cframe, lib, rule, DayStep(cframe, lib, rule, h, day),
                      DayStepDays(cframe, lib, rule, h, ds, day), day + 1)
  {
    WitnessedLater(cframe, lib, rule, h, ds, day);
    if !Skipped(lib, rule, day) {
      var c := cframe.candles[day];
      var h1, ds1 := h, ds;
      if BuyFires(cframe, lib, rule, day) && BuyAllowed(h) {
        WitnessedSnoc(cframe, lib, rule, h, ds, Signal(cframe.symbol, c.time, c.close, Buy), day, day + 1);
        h1, ds1 := h + [Signal(cframe.symbol, c.time, c.close, Buy)], ds + [day];
      }
      assert Witnessed(cframe, lib, rule, h1, ds1, day + 1);
      assert forall i :: 0 <= i < |ds1| ==> ds1[i] <= day;
      if SellFires(cframe, lib, rule, day) && SellAllowed(h1) {
        WitnessedSnoc(cframe, lib, rule, h1, ds1, Signal(cframe.symbol, c.time, c.close, Sell), day, day + 1);
      }
    }
  }

  /** Every event of a history was emitted, in day order, by a day before upTo on
      which its rule fired, and carries that day's candle. */
  lemma {:induction false} HistoryWitnessed(cframe: CandleFrame, lib: Library, rule: Rule, upTo: int)
    requires upTo <= 1 || upTo <= |cframe.candles|
    ensures Witnessed(cframe, lib, rule, History(cframe, lib, rule, upTo),
                      EventDays(cframe, lib, rule, upTo), if upTo < 1 then 1 else upTo)
    decreases upTo
  {
    if upTo > 1 {
      HistoryWitnessed(cframe, lib, rule, upTo - 1);
      DayStepWitnessed(cframe, lib, rule, History(cframe, lib, rule, upTo - 1),
                       EventDays(cframe, lib, rule, upTo - 1), upTo - 1);
    }
  }

  /** Every history alternates, starting with a Buy. */
  lemma {:induction false} HistoryAlternating(cframe: CandleFrame, lib: Library, rule: Rule, upTo: int)
    requires upTo <= 1 || upTo <= |cframe.candles|
    ensures Alternating(History(cframe, lib, rule, upTo))
    decreases upTo
  {
    if upTo > 1 {
      var day := upTo - 1;
      var h := History(cframe, lib, rule, day);
      HistoryAlternating(cframe, lib, rule, day);
      var c := cframe.candles[day];
      TryBuyAlternating(h, cframe.symbol, c.time, c.close);
      var h1 := if BuyFires(cframe, lib, rule, day) then TryBuy(h, cframe.symbol, c.time, c.close) else h;
      TrySellAlternating(h1, cframe.symbol, c.time, c.close);
    }
  }

  /** Conversely, a day the guards let through on which the Buy rule fires records a
      Buy with that day's candle whenever the list can buy. */
  lemma FiringBuyRecorded(cframe: CandleFrame, lib: Library, rule: Rule, day: int)
    requires 1 <= day < |cframe.candles|
    requires !Skipped(lib, rule, day) && BuyFires(cframe, lib, rule, day)
    requires BuyAllowed(History(cframe, lib, rule, day))
    ensures var h := History(cframe, lib, rule, day);
            var c := cframe.candles[day];
            var h' := History(cframe, lib, rule, day + 1);
            |h'| > |h| && h'[..|h| + 1] == h + [Signal(cframe.symbol, c.time, c.close, Buy)]
  {
    var h := History(cframe, lib, rule, day);
    var c := cframe.candles[day];
    var h1 := h + [Signal(cframe.symbol, c.time, c.close, Buy)];
    var h' := History(cframe, lib, rule, day + 1);
    HistoryStep(cframe, lib, rule, day);
    assert h'[..|h1|] == h1;
  }

  /** A day the guards let through on which the Sell rule fires records a Sell with
      that day's candle whenever the list can sell. */
  lemma FiringSellRecorded(cframe: CandleFrame, lib: Library, rule: Rule, day: int)
    requires 1 <= day < |cframe.candles|
    requires !Skipped(lib, rule, day) && SellFires(cframe, lib, rule, day)
    requires SellAllowed(History(cframe, lib, rule, day))
    ensures var h := History(cframe, lib, rule, day);
            var c := cframe.candles[day];
            History(cframe, lib, rule, day + 1) == h + [Signal(cframe.symbol, c.time, c.close, Sell)]
  {
  }

  // ---------------------------------------------------------------------------
  // Per-family consequences

  /** EMA: no event before day short or long; a Buy only where the short EMA
      crosses up through the long one, a Sell only where it crosses down. */
  lemma EmaEvents(cframe: CandleFrame, lib: Library, short: int, long: int)
    ensures var rule := EmaRule(short, long);
            var n := |cframe.candles|;
            var h := History(cframe, lib, rule, n);
            var ds := EventDays(cframe, lib, rule, n);
            |ds| == |h| &&
            forall i :: 0 <= i < |h| ==>
              && 1 <= ds[i] < n && ds[i] >= short && ds[i] >= long
              && h[i].time == cframe.candles[ds[i]].time && h[i].price == cframe.candles[ds[i]].close
              && (h[i].action == Buy ==>
                    lib.at(EmaOut(short, ds[i] - 1)) < lib.at(EmaOut(long, ds[i] - 1)) &&
                    lib.at(EmaOut(short, ds[i])) >= lib.at(EmaOut(long, ds[i])))
              && (h[i].action == Sell ==>
                    lib.at(EmaOut(short, ds[i] - 1)) > lib.at(EmaOut(long, ds[i] - 1)) &&
                    lib.at(EmaOut(short, ds[i])) <= lib.at(EmaOut(long, ds[i])))
  {
    HistoryWitnessed(cframe, lib, EmaRule(short, long), |cframe.candles|);
  }

  /** Bollinger bands: no event before day N; a Buy only where the close comes back
      up to the lower band after being below it, a Sell only where it comes back
      down to the upper band after being above it. */
  lemma BBEvents(cframe: CandleFrame, lib: Library, n: int, k: real)
    ensures var rule := BBRule(n, k);
            var cs := cframe.candles;
            var h := History(cframe, lib, rule, |cs|);
            var ds := EventDays(cframe, lib, rule, |cs|);
            |ds| == |h| &&
            forall i :: 0 <= i < |h| ==>
              && 1 <= ds[i] < |cs| && ds[i] >= n
              && h[i].time == cs[ds[i]].time && h[i].price == cs[ds[i]].close
              && (h[i].action == Buy ==>
                    cs[ds[i] - 1].close < lib.at(BBLowerOut(n, k, ds[i] - 1)) &&
                    cs[ds[i]].close >= lib.at(BBLowerOut(n, k, ds[i])))
              && (h[i].action == Sell ==>
                    cs[ds[i] - 1].close > lib.at(BBUpperOut(n, k, ds[i] - 1)) &&
                    cs[ds[i]].close <= lib.at(BBUpperOut(n, k, ds[i])))
  {
    HistoryWitnessed(cframe, lib, BBRule(n, k), |cframe.candles|);
  }

  /** MACD: a Buy only where both lines are negative and the MACD line crosses up
      through its signal line, a Sell only where both are positive and it crosses down. */
  lemma MacdEvents(cframe: CandleFrame, lib: Library, fast: int, slow: int, signal: int)
    ensures var rule := MacdRule(fast, slow, signal);
            var n := |cframe.candles|;
            var h := History(cframe, lib, rule, n);
            var ds := EventDays(cframe, lib, rule, n);
            |ds| == |h| &&
            forall i :: 0 <= i < |h| ==>
              && 1 <= ds[i] < n
              && h[i].time == cframe.candles[ds[i]].time && h[i].price == cframe.candles[ds[i]].close
              && (h[i].action == Buy ==>
                    lib.at(MacdOut(fast, slow, signal, ds[i])) < 0.0 &&
                    lib.at(MacdSignalOut(fast, slow, signal, ds[i])) < 0.0 &&
                    lib.at(MacdOut(fast, slow, signal, ds[i] - 1)) < lib.at(MacdSignalOut(fast, slow, signal, ds[i] - 1)) &&
                    lib.at(MacdOut(fast, slow, signal, ds[i])) >= lib.at(MacdSignalOut(fast, slow, signal, ds[i])))
              && (h[i].action == Sell ==>
                    lib.at(MacdOut(fast, slow, signal, ds[i])) > 0.0 &&
                    lib.at(MacdSignalOut(fast, slow, signal, ds[i])) > 0.0 &&
                    lib.at(MacdOut(fast, slow, signal, ds[i] - 1)) > lib.at(MacdSignalOut(fast, slow, signal, ds[i] - 1)) &&
                    lib.at(MacdOut(fast, slow, signal, ds[i])) <= lib.at(MacdSignalOut(fast, slow, signal, ds[i])))
  {
    HistoryWitnessed(cframe, lib, MacdRule(fast, slow, signal), |cframe.candles|);
  }

  /** RSI: nothing on a day whose previous value is exactly 0 or 100; a Buy only on
      a crossing up to the buy threshold, a Sell only on a crossing down to the sell
      threshold. */
  lemma RsiEvents(cframe: CandleFrame, lib: Library, period: int, buyThread: real, sellThread: real)
    ensures var rule := RsiRule(period, buyThread, sellThread);
            var n := |cframe.candles|;
            var h := History(cframe, lib, rule, n);
            var ds := EventDays(cframe, lib, rule, n);
            |ds| == |h| &&
            forall i :: 0 <= i < |h| ==>
              && 1 <= ds[i] < n
              && lib.at(RsiOut(period, ds[i] - 1)) != 0.0 && lib.at(RsiOut(period, ds[i] - 1)) != 100.0
              && h[i].time == cframe.candles[ds[i]].time && h[i].price == cframe.candles[ds[i]].close
              && (h[i].action == Buy ==>
                    lib.at(RsiOut(period, ds[i] - 1)) < buyThread && lib.at(RsiOut(period, ds[i])) >= buyThread)
              && (h[i].action == Sell ==>
                    lib.at(RsiOut(period, ds[i] - 1)) > sellThread && lib.at(RsiOut(period, ds[i])) <= sellThread)
  {
    HistoryWitnessed(cframe, lib, RsiRule(period, buyThread, sellThread), |cframe.candles|);
  }

  /** Williams %R: nothing on a day whose previous value is exactly 0 or -100; a
      Buy only on a crossing up to the buy threshold, a Sell only on a crossing
      down to the sell threshold. */
  lemma WillrEvents(cframe: CandleFrame, lib: Library, period: int, buyThread: real, sellThread: real)
    ensures var rule := WillrRule(period, buyThread, sellThread);
            var n := |cframe.candles|;
            var h := History(cframe, lib, rule, n);
            var ds := EventDays(cframe, lib, rule, n);
            |ds| == |h| &&
            forall i :: 0 <= i < |h| ==>
              && 1 <= ds[i] < n
              && lib.at(WillrOut(period, ds[i] - 1)) != 0.0 && lib.at(WillrOut(period, ds[i] - 1)) != -100.0
              && h[i].time == cframe.candles[ds[i]].time && h[i].price == cframe.candles[ds[i]].close
              && (h[i].action == Buy ==>
                    lib.at(WillrOut(period, ds[i] - 1)) < buyThread && lib.at(WillrOut(period, ds[i])) >= buyThread)
              && (h[i].action == Sell ==>
                    lib.at(WillrOut(period, ds[i] - 1)) > sellThread && lib.at(WillrOut(period, ds[i])) <= sellThread)
  {
    HistoryWitnessed(cframe, lib, WillrRule(period, buyThread, sellThread), |cframe.candles|);
  }

  // ---------------------------------------------------------------------------
  // The generators

  /** backtestEma: nil exactly when short or long is at least the candle count;
      otherwise a fresh alternating list holding the EMA-crossing history. */
  method BacktestEma(cframe: CandleFrame, lib: Library, short: int, long: int) returns (r: SignalList?)
    ensures r == null <==> TooLong(EmaRule(short, long), |cframe.candles|)
    ensures r != null ==> r.signals == History(cframe, lib, EmaRule(short, long), |cframe.candles|)
    ensures r != null ==> r.Valid()
    ensures r != null ==> fresh(r)
  {
    var candles := cframe.candles;
    var lenCandles := |candles|;
    if short >= lenCandles || long >= lenCandles {
      return null;
    }
    ghost var rule := EmaRule(short, long);
    var signals := new SignalList();
    var day := 1;
    while day < lenCandles
      invariant 1 <= day && (day == 1 || day <= lenCandles)
      invariant signals.signals == History(cframe, lib, rule, day)
    {
      if !(day < short || day < long) {
        if lib.at(EmaOut(short, day - 1)) < lib.at(EmaOut(long, day - 1)) && lib.at(EmaOut(short, day)) >= lib.at(EmaOut(long, day)) {
          var bought := signals.Buy(cframe.symbol, candles[day].time, candles[day].close);
        }
        if lib.at(EmaOut(short, day - 1)) > lib.at(EmaOut(long, day - 1)) && lib.at(EmaOut(short, day)) <= lib.at(EmaOut(long, day)) {
          var sold := signals.Sell(cframe.symbol, candles[day].time, candles[day].close);
        }
      }
      day := day + 1;
    }
    HistoryAlternating(cframe, lib, rule, lenCandles);
    return signals;
  }

  /** backtestBB: nil exactly when N is at least the candle count; otherwise a fresh
      alternating list holding the band-rebound history. */
  method BacktestBB(cframe: CandleFrame, lib: Library, n: int, k: real) returns (r: SignalList?)
    ensures r == null <==> TooLong(BBRule(n, k), |cframe.candles|)
    ensures r != null ==> r.signals == History(cframe, lib, BBRule(n, k), |cframe.candles|)
    ensures r != null ==> r.Valid()
    ensures r != null ==> fresh(r)
  {
    var candles := cframe.candles;
    var lenCandles := |candles|;
    if n >= lenCandles {
      return null;
    }
    ghost var rule := BBRule(n, k);
    var signals := new SignalList();
    var day := 1;
    while day < lenCandles
      invariant 1 <= day && (day == 1 || day <= lenCandles)
      invariant signals.signals == History(cframe, lib, rule, day)
    {
      if !(day < n) {
        if candles[day - 1].close < lib.at(BBLowerOut(n, k, day - 1)) && candles[day].close >= lib.at(BBLowerOut(n, k, day)) {
          var bought := signals.Buy(cframe.symbol, candles[day].time, candles[day].close);
        }
        if candles[day - 1].close > lib.at(BBUpperOut(n, k, day - 1)) && candles[day].close <= lib.at(BBUpperOut(n, k, day)) {
          var sold := signals.Sell(cframe.symbol, candles[day].time, candles[day].close);
        }
      }
      day := day + 1;
    }
    HistoryAlternating(cframe, lib, rule, lenCandles);
    return signals;
  }

  /** backtestMacd: nil exactly when fast, slow or signal is at least the candle
      count; otherwise a fresh alternating list holding the MACD-crossing history. */
  method BacktestMacd(cframe: CandleFrame, lib: Library, fast: int, slow: int, signal: int)
    returns (r: SignalList?)
    ensures r == null <==> TooLong(MacdRule(fast, slow, signal), |cframe.candles|)
    ensures r != null ==> r.signals == History(cframe, lib, MacdRule(fast, slow, signal), |cframe.candles|)
    ensures r != null ==> r.Valid()
    ensures r != null ==> fresh(r)
  {
    var candles := cframe.candles;
    var lenCandles := |candles|;
    if fast >= lenCandles || slow >= lenCandles || signal >= lenCandles {
      return null;
    }
    ghost var rule := MacdRule(fast, slow, signal);
    var signals := new SignalList();
    var day := 1;
    while day < lenCandles
      invariant 1 <= day && (day == 1 || day <= lenCandles)
      invariant signals.signals == History(cframe, lib, rule, day)
    {
      var m, s := lib.at(MacdOut(fast, slow, signal, day)), lib.at(MacdSignalOut(fast, slow, signal, day));
      var m1, s1 := lib.at(MacdOut(fast, slow, signal, day - 1)), lib.at(MacdSignalOut(fast, slow, signal, day - 1));
      if m < 0.0 && s < 0.0 && m1 < s1 && m >= s {
        var bought := signals.Buy(cframe.symbol, candles[day].time, candles[day].close);
      }
      if m > 0.0 && s > 0.0 && m1 > s1 && m <= s {
        var sold := signals.Sell(cframe.symbol, candles[day].time, candles[day].close);
      }
      day := day + 1;
    }
    HistoryAlternating(cframe, lib, rule, lenCandles);
    return signals;
  }

  /** backtestRsi: nil exactly when the period is at least the candle count;
      otherwise a fresh alternating list holding the RSI threshold history. */
  method BacktestRsi(cframe: CandleFrame, lib: Library, period: int, buyThread: real, sellThread: real)
    returns (r: SignalList?)
    ensures r == null <==> TooLong(RsiRule(period, buyThread, sellThread), |cframe.candles|)
    ensures r != null ==>
      r.signals == History(cframe, lib, RsiRule(period, buyThread, sellThread), |cframe.candles|)
    ensures r != null ==> r.Valid()
    ensures r != null ==> fresh(r)
  {
    var candles := cframe.candles;
    var lenCandles := |candles|;
    if period >= lenCandles {
      return null;
    }
    ghost var rule := RsiRule(period, buyThread, sellThread);
    var signals := new SignalList();
    var day := 1;
    while day < lenCandles
      invariant 1 <= day && (day == 1 || day <= lenCandles)
      invariant signals.signals == History(cframe, lib, rule, day)
    {
      var prev, cur := lib.at(RsiOut(period, day - 1)), lib.at(RsiOut(period, day));
      if !(prev == 0.0 || prev == 100.0) {
        if prev < buyThread && cur >= buyThread {
          var bought := signals.Buy(cframe.symbol, candles[day].time, candles[day].close);
        }
        if prev > sellThread && cur <= sellThread {
          var sold := signals.Sell(cframe.symbol, candles[day].time, candles[day].close);
        }
      }
      day := day + 1;
    }
    HistoryAlternating(cframe, lib, rule, lenCandles);
    return signals;
  }

  /** backtestWillr: nil exactly when the period is at least the candle count;
      otherwise a fresh alternating list holding the Williams %R threshold history. */
  method BacktestWillr(cframe: CandleFrame, lib: Library, period: int, buyThread: real, sellThread: real)
    returns (r: SignalList?)
    ensures r == null <==> TooLong(WillrRule(period, buyThread, sellThread), |cframe.candles|)
    ensures r != null ==>
      r.signals == History(cframe, lib, WillrRule(period, buyThread, sellThread), |cframe.candles|)
    ensures r != null ==> r.Valid()
    ensures r != null ==> fresh(r)
  {
    var candles := cframe.candles;
    var lenCandles := |candles|;
    if period >= lenCandles {
      return null;
    }
    ghost var rule := WillrRule(period, buyThread, sellThread);
    var signals := new SignalList();
    var day := 1;
    while day < lenCandles
      invariant 1 <= day && (day == 1 || day <= lenCandles)
      invariant signals.signals == History(cframe, lib, rule, day)
    {
      var prev, cur := lib.at(WillrOut(period, day - 1)), lib.at(WillrOut(period, day));
      if !(prev == 0.0 || prev == -100.0) {
        if prev < buyThread && cur >= buyThread {
          var bought := signals.Buy(cframe.symbol, candles[day].time, candles[day].close);
        }
        if prev > sellThread && cur <= sellThread {
          var sold := signals.Sell(cframe.symbol, candles[day].time, candles[day].close);
        }
      }
      day := day + 1;
    }
    HistoryAlternating(cframe, lib, rule, lenCandles);
    return signals;
  }
}
