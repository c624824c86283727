/** The five optimize* grid searches of app/models/backtest.go and the BackTest run
    that composes them: each optimizer runs its family's generator on every
    combination of a parameter grid, in nested ascending loop order, and keeps the
    first combination with the largest positive profit; BackTest then re-runs each
    generator with the winning parameters and records everything in one result. */
module Backtest {

  import opened Wrappers
  import opened Signals
  import opened Candles
  import opened TaLib
  import opened Generators
  import opened GridSearch

  // ---------------------------------------------------------------------------
  // What one grid point is worth to an optimizer

  /** The profit an optimizer reads off one generator run: nothing for a nil list,
      otherwise Profit() of the list after the whole walk, which is the sum of its
      completed round trips. */
  function Outcome(cframe: CandleFrame, lib: Library, rule: Rule): (o: Option<real>)
    ensures o.None? <==> TooLong(rule, |cframe.candles|)
    ensures o.Some? ==> o.value == RoundTripSum(History(cframe, lib, rule, |cframe.candles|))
  {
    if TooLong(rule, |cframe.candles|) then None
    else
      var h := History(cframe, lib, rule, |cframe.candles|);
      HistoryAlternating(cframe, lib, rule, |cframe.candles|);
      ProfitIsRoundTripSum(h);
      Some(ProfitOf(h))
  }

  /** The grid families: two-parameter grids (EMA, BB) and three-parameter grids
      (MACD, RSI, WillR). BB's K is carried in tenths (k = kt / 10), and the RSI and
      WillR thresholds, which the source steps by 1.0, as integers. */
  datatype PairFamily = EmaGrid | BBGrid
  datatype TripleFamily = MacdGrid | RsiGrid | WillrGrid

  function PairRule(f: PairFamily, p: (int, int)): Rule {
    match f
    case EmaGrid => EmaRule(p.0, p.1)
    case BBGrid => BBRule(p.0, p.1 as real / 10.0)
  }

  function TripleRule(f: TripleFamily, p: (int, int, int)): Rule {
    match f
    case MacdGrid => MacdRule(p.0, p.1, p.2)
    case RsiGrid => RsiRule(p.0, p.1 as real, p.2 as real)
    case WillrGrid => WillrRule(p.0, p.1 as real, p.2 as real)
  }

  /** What the optimizer of family f reads off the grid point p. */
  function PairScore(cframe: CandleFrame, lib: Library, f: PairFamily): ((int, int)) -> Option<real> {
    (p: (int, int)) => Outcome(cframe, lib, PairRule(f, p))
  }

  function TripleScore(cframe: CandleFrame, lib: Library, f: TripleFamily): ((int, int, int)) -> Option<real> {
    (p: (int, int, int)) => Outcome(cframe, lib, TripleRule(f, p))
  }

  // ---------------------------------------------------------------------------
  // The optimizers' loop invariants, one loop level at a time. Each fold names the
  // best after the loop at its level has run through hi; its "Last" partner is the
  // step for hi itself. These are GridSearch.ScanRow2 .. ScanTriples with the score
  // fixed to Outcome on this frame; the *IsScan lemmas below prove them equal.
  // They exist for the verifier's sake. A score passed to the generic folds is a
  // lambda, which the verifier treats as a literal, so with BackTest's literal grid
  // bounds every argument of a generic fold is a literal and the verifier unrolls
  // it over the whole grid (more than ten times the resource limit). Here the frame
  // stands in the decreases clause instead; it is never a literal, so these folds
  // unfold one level at a time.

  function VisitRow2(cframe: CandleFrame, lib: Library, f: PairFamily, a: int, lo: int, hi: int,
                     init: Best<(int, int)>): Best<(int, int)>
    decreases hi - lo, 1, cframe
  {
    if hi < lo then init else VisitLast2(cframe, lib, f, a, lo, hi, init)
  }

  /** The inner pair loop after the point (a, hi), which follows (a, lo) .. (a, hi-1). */
  function VisitLast2(cframe: CandleFrame, lib: Library, f: PairFamily, a: int, lo: int, hi: int,
                      init: Best<(int, int)>): Best<(int, int)>
    requires lo <= hi
    decreases hi - lo, 0, cframe
  {
    Consider(VisitRow2(cframe, lib, f, a, lo, hi - 1, init), (a, hi), Outcome(cframe, lib, PairRule(f, (a, hi))))
  }

  function VisitPairs(cframe: CandleFrame, lib: Library, f: PairFamily, lo1: int, hi1: int, lo2: int, hi2: int,
                      init: Best<(int, int)>): Best<(int, int)>
    decreases hi1 - lo1, 1, cframe
  {
    if hi1 < lo1 then init else VisitLastRow2(cframe, lib, f, lo1, hi1, lo2, hi2, init)
  }

  /** The pair loops after the row of hi1, which follows the rows lo1 .. hi1-1. */
  function VisitLastRow2(cframe: CandleFrame, lib: Library, f: PairFamily, lo1: int, hi1: int, lo2: int, hi2: int,
                         init: Best<(int, int)>): Best<(int, int)>
    requires lo1 <= hi1
    decreases hi1 - lo1, 0, cframe
  {
    VisitRow2(cframe, lib, f, hi1, lo2, hi2, VisitPairs(cframe, lib, f, lo1, hi1 - 1, lo2, hi2, init))
  }

  function VisitRow3(cframe: CandleFrame, lib: Library, f: TripleFamily, a: int, b: int, lo: int, hi: int,
                     init: Best<(int, int, int)>): Best<(int, int, int)>
    decreases hi - lo, 1, cframe
  {
    if hi < lo then init else VisitLast3(cframe, lib, f, a, b, lo, hi, init)
  }

  /** The innermost triple loop after the point (a, b, hi). */
  function VisitLast3(cframe: CandleFrame, lib: Library, f: TripleFamily, a: int, b: int, lo: int, hi: int,
                      init: Best<(int, int, int)>): Best<(int, int, int)>
    requires lo <= hi
    decreases hi - lo, 0, cframe
  {
    Consider(VisitRow3(cframe, lib, f, a, b, lo, hi - 1, init), (a, b, hi), Outcome(cframe, lib, TripleRule(f, (a, b, hi))))
  }

  function VisitBlock3(cframe: CandleFrame, lib: Library, f: TripleFamily, a: int, lo2: int, hi2: int, lo3: int, hi3: int,
                       init: Best<(int, int, int)>): Best<(int, int, int)>
    decreases hi2 - lo2, 1, cframe
  {
    if hi2 < lo2 then init else VisitLastRow3(cframe, lib, f, a, lo2, hi2, lo3, hi3, init)
  }

  /** The middle triple loop after the row (a, hi2). */
  function VisitLastRow3(cframe: CandleFrame, lib: Library, f: TripleFamily, a: int, lo2: int, hi2: int, lo3: int, hi3: int,
                         init: Best<(int, int, int)>): Best<(int, int, int)>
    requires lo2 <= hi2
    decreases hi2 - lo2, 0, cframe
  {
    VisitRow3(cframe, lib, f, a, hi2, lo3, hi3, VisitBlock3(cframe, lib, f, a, lo2, hi2 - 1, lo3, hi3, init))
  }

  function VisitTriples(cframe: CandleFrame, lib: Library, f: TripleFamily,
                        lo1: int, hi1: int, lo2: int, hi2: int, lo3: int, hi3: int,
                        init: Best<(int, int, int)>): Best<(int, int, int)>
    decreases hi1 - lo1, 1, cframe
  {
    if hi1 < lo1 then init else VisitLastBlock3(cframe, lib, f, lo1, hi1, lo2, hi2, lo3, hi3, init)
  }

  /** The triple loops after the block of hi1, which follows the blocks lo1 .. hi1-1. */
  function VisitLastBlock3(cframe: CandleFrame, lib: Library, f: TripleFamily,
                           lo1: int, hi1: int, lo2: int, hi2: int, lo3: int, hi3: int,
                           init: Best<(int, int, int)>): Best<(int, int, int)>
    requires lo1 <= hi1
    decreases hi1 - lo1, 0, cframe
  {
    VisitBlock3(cframe, lib, f, hi1, lo2, hi2, lo3, hi3, VisitTriples(cframe, lib, f, lo1, hi1 - 1, lo2, hi2, lo3, hi3, init))
  }

  lemma {:induction false} VisitRow2IsScanRow2(cframe: CandleFrame, lib: Library, f: PairFamily, a: int, lo: int, hi: int,
                                               init: Best<(int, int)>)
    ensures VisitRow2(cframe, lib, f, a, lo, hi, init) == ScanRow2(a, lo, hi, PairScore(cframe, lib, f), init)
    decreases hi - lo
  {
    if hi >= lo {
      VisitRow2IsScanRow2(cframe, lib, f, a, lo, hi - 1, init);
    }
  }

  /** The pair loops visit the grid in Pairs order, so they keep the optimizer's promise. */
  lemma {:induction false} VisitPairsIsScan(cframe: CandleFrame, lib: Library, f: PairFamily,
                                            lo1: int, hi1: int, lo2: int, hi2: int, init: Best<(int, int)>)
    ensures VisitPairs(cframe, lib, f, lo1, hi1, lo2, hi2, init) == ScanPairs(lo1, hi1, lo2, hi2, PairScore(cframe, lib, f), init)
    decreases hi1 - lo1
  {
    if hi1 >= lo1 {
      VisitPairsIsScan(cframe, lib, f, lo1, hi1 - 1, lo2, hi2, init);
      VisitRow2IsScanRow2(cframe, lib, f, hi1, lo2, hi2, VisitPairs(cframe, lib, f, lo1, hi1 - 1, lo2, hi2, init));
    }
  }

  /** The pair loops visit the grid in Pairs order: they compute the left scan. */
  lemma VisitPairsScans(cframe: CandleFrame, lib: Library, f: PairFamily,
                        lo1: int, hi1: int, lo2: int, hi2: int, defaults: (int, int))
    ensures VisitPairs(cframe, lib, f, lo1, hi1, lo2, hi2, Best(0.0, defaults)) ==
            Scan(Pairs(lo1, hi1, lo2, hi2), PairScore(cframe, lib, f), Best(0.0, defaults))
  {
    VisitPairsIsScan(cframe, lib, f, lo1, hi1, lo2, hi2, Best(0.0, defaults));
    ScanPairsIsScan(lo1, hi1, lo2, hi2, PairScore(cframe, lib, f), Best(0.0, defaults));
  }

  /** So the pair loops keep the optimizer's promise: the first best point, or the
      defaults. */
  lemma VisitPairsOptimal(cframe: CandleFrame, lib: Library, f: PairFamily,
                          lo1: int, hi1: int, lo2: int, hi2: int, defaults: (int, int))
    ensures Optimal2(VisitPairs(cframe, lib, f, lo1, hi1, lo2, hi2, Best(0.0, defaults)), lo1, hi1, lo2, hi2,
                     PairScore(cframe, lib, f), defaults)
  {
    VisitPairsScans(cframe, lib, f, lo1, hi1, lo2, hi2, defaults);
    PairSearch(lo1, hi1, lo2, hi2, PairScore(cframe, lib, f), defaults);
  }

  lemma {:induction false} VisitRow3IsScanRow3(cframe: CandleFrame, lib: Library, f: TripleFamily, a: int, b: int,
                                               lo: int, hi: int, init: Best<(int, int, int)>)
    ensures VisitRow3(cframe, lib, f, a, b, lo, hi, init) == ScanRow3(a, b, lo, hi, TripleScore(cframe, lib, f), init)
    decreases hi - lo
  {
    if hi >= lo {
      VisitRow3IsScanRow3(cframe, lib, f, a, b, lo, hi - 1, init);
    }
  }

  lemma {:induction false} VisitBlock3IsScanBlock3(cframe: CandleFrame, lib: Library, f: TripleFamily, a: int,
                                                   lo2: int, hi2: int, lo3: int, hi3: int, init: Best<(int, int, int)>)
    ensures VisitBlock3(cframe, lib, f, a, lo2, hi2, lo3, hi3, init) ==
            ScanBlock3(a, lo2, hi2, lo3, hi3, TripleScore(cframe, lib, f), init)
    decreases hi2 - lo2
  {
    if hi2 >= lo2 {
      VisitBlock3IsScanBlock3(cframe, lib, f, a, lo2, hi2 - 1, lo3, hi3, init);
      VisitRow3IsScanRow3(cframe, lib, f, a, hi2, lo3, hi3, VisitBlock3(cframe, lib, f, a, lo2, hi2 - 1, lo3, hi3, init));
    }
  }

  lemma {:induction false} VisitTriplesIsScan(cframe: CandleFrame, lib: Library, f: TripleFamily,
                                              lo1: int, hi1: int, lo2: int, hi2: int, lo3: int, hi3: int,
                                              init: Best<(int, int, int)>)
    ensures VisitTriples(cframe, lib, f, lo1, hi1, lo2, hi2, lo3, hi3, init) ==
            ScanTriples(lo1, hi1, lo2, hi2, lo3, hi3, TripleScore(cframe, lib, f), init)
    decreases hi1 - lo1
  {
    if hi1 >= lo1 {
      VisitTriplesIsScan(cframe, lib, f, lo1, hi1 - 1, lo2, hi2, lo3, hi3, init);
      VisitBlock3IsScanBlock3(cframe, lib, f, hi1, lo2, hi2, lo3, hi3,
                              VisitTriples(cframe, lib, f, lo1, hi1 - 1, lo2, hi2, lo3, hi3, init));
    }
  }

  /** The triple loops visit the grid in Triples order: they compute the left scan. */
  lemma VisitTriplesScans(cframe: CandleFrame, lib: Library, f: TripleFamily,
                          lo1: int, hi1: int, lo2: int, hi2: int, lo3: int, hi3: int, defaults: (int, int, int))
    ensures VisitTriples(cframe, lib, f, lo1, hi1, lo2, hi2, lo3, hi3, Best(0.0, defaults)) ==
            Scan(Triples(lo1, hi1, lo2, hi2, lo3, hi3), TripleScore(cframe, lib, f), Best(0.0, defaults))
  {
    VisitTriplesIsScan(cframe, lib, f, lo1, hi1, lo2, hi2, lo3, hi3, Best(0.0, defaults));
    ScanTriplesIsScan(lo1, hi1, lo2, hi2, lo3, hi3, TripleScore(cframe, lib, f), Best(0.0, defaults));
  }

  /** So the triple loops keep the optimizer's promise. */
  lemma VisitTriplesOptimal(cframe: CandleFrame, lib: Library, f: TripleFamily,
                            lo1: int, hi1: int, lo2: int, hi2: int, lo3: int, hi3: int, defaults: (int, int, int))
    ensures Optimal3(VisitTriples(cframe, lib, f, lo1, hi1, lo2, hi2, lo3, hi3, Best(0.0, defaults)),
                     lo1, hi1, lo2, hi2, lo3, hi3, TripleScore(cframe, lib, f), defaults)
  {
    VisitTriplesScans(cframe, lib, f, lo1, hi1, lo2, hi2, lo3, hi3, defaults);
    TripleSearch(lo1, hi1, lo2, hi2, lo3, hi3, TripleScore(cframe, lib, f), defaults);
  }

  /** What an optimizer's winner is worth: a positive best performance is the profit
      of re-running its parameters, which then are feasible; otherwise the result
      is the defaults with performance 0. */
  lemma PairWinner(cframe: CandleFrame, lib: Library, f: PairFamily,
                   lo1: int, hi1: int, lo2: int, hi2: int, defaults: (int, int))
    ensures var b := VisitPairs(cframe, lib, f, lo1, hi1, lo2, hi2, Best(0.0, defaults));
            && b.performance >= 0.0
            && (b.performance == 0.0 ==> b.params == defaults)
            && (b.performance > 0.0 ==>
                  && lo1 <= b.params.0 <= hi1 && lo2 <= b.params.1 <= hi2
                  && Outcome(cframe, lib, PairRule(f, b.params)) == Some(b.performance))
  {
    VisitPairsOptimal(cframe, lib, f, lo1, hi1, lo2, hi2, defaults);
  }

  lemma TripleWinner(cframe: CandleFrame, lib: Library, f: TripleFamily,
                     lo1: int, hi1: int, lo2: int, hi2: int, lo3: int, hi3: int, defaults: (int, int, int))
    ensures var b := VisitTriples(cframe, lib, f, lo1, hi1, lo2, hi2, lo3, hi3, Best(0.0, defaults));
            && b.performance >= 0.0
            && (b.performance == 0.0 ==> b.params == defaults)
            && (b.performance > 0.0 ==>
                  && lo1 <= b.params.0 <= hi1 && lo2 <= b.params.1 <= hi2 && lo3 <= b.params.2 <= hi3
                  && Outcome(cframe, lib, TripleRule(f, b.params)) == Some(b.performance))
  {
    VisitTriplesOptimal(cframe, lib, f, lo1, hi1, lo2, hi2, lo3, hi3, defaults);
  }

  // ---------------------------------------------------------------------------
  // The optimizers

  /** One grid point of a two-parameter optimizer: the family's generator run on p,
      and Profit() of the list it returns unless it returns nil. */
  method EvaluatePair(cframe: CandleFrame, lib: Library, f: PairFamily, p: (int, int)) returns (o: Option<real>)
    ensures o == Outcome(cframe, lib, PairRule(f, p))
  {
    var signals;
    match f {
      case EmaGrid => signals := BacktestEma(cframe, lib, p.0, p.1);
      case BBGrid => signals := BacktestBB(cframe, lib, p.0, p.1 as real / 10.0);
    }
    if signals == null {
      return None;
    }
    var profit := signals.Profit();
    return Some(profit);
  }

  /** One grid point of a three-parameter optimizer. */
  method EvaluateTriple(cframe: CandleFrame, lib: Library, f: TripleFamily, p: (int, int, int)) returns (o: Option<real>)
    ensures o == Outcome(cframe, lib, TripleRule(f, p))
  {
    var signals;
    match f {
      case MacdGrid => signals := BacktestMacd(cframe, lib, p.0, p.1, p.2);
      case RsiGrid => signals := BacktestRsi(cframe, lib, p.0, p.1 as real, p.2 as real);
      case WillrGrid => signals := BacktestWillr(cframe, lib, p.0, p.1 as real, p.2 as real);
    }
    if signals == null {
      return None;
    }
    var profit := signals.Profit();
    return Some(profit);
  }

  /** optimizeEma: the scan of short x long from (0, (7, 14)). */
  method OptimizeEma(cframe: CandleFrame, lib: Library, lowShort: int, highShort: int, lowLong: int, highLong: int)
    returns (bestPerformance: real, bestShort: int, bestLong: int)
    ensures Best(bestPerformance, (bestShort, bestLong)) == VisitPairs(cframe, lib, EmaGrid, lowShort, highShort, lowLong, highLong, Best(0.0, (7, 14)))
  {
    ghost var seed := Best(0.0, (7, 14));
    bestPerformance, bestShort, bestLong := 0.0, 7, 14;
    var short := lowShort;
    while short <= highShort
      invariant lowShort <= short && (short <= highShort + 1 || short == lowShort)
      invariant Best(bestPerformance, (bestShort, bestLong)) == VisitPairs(cframe, lib, EmaGrid, lowShort, short - 1, lowLong, highLong, seed)
    {
      ghost var done := VisitPairs(cframe, lib, EmaGrid, lowShort, short - 1, lowLong, highLong, seed);
      var long := lowLong;
      while long <= highLong
        invariant lowLong <= long && (long <= highLong + 1 || long == lowLong)
        invariant Best(bestPerformance, (bestShort, bestLong)) == VisitRow2(cframe, lib, EmaGrid, short, lowLong, long - 1, done)
      {
        var profit := EvaluatePair(cframe, lib, EmaGrid, (short, long));
        if profit.Some? && bestPerformance < profit.value {
          bestPerformance, bestShort, bestLong := profit.value, short, long;
        }
        long := long + 1;
      }
      short := short + 1;
    }
  }

  /** optimizeBB: the scan of N x K from (0, (20, 2.0)). K runs lowK, lowK + 0.1, ...,
      highK, written here as the tenths lowKTenths .. highKTenths; bestKTenths is
      the winning K in tenths. */
  method OptimizeBB(cframe: CandleFrame, lib: Library, lowN: int, highN: int, lowKTenths: int, highKTenths: int)
    returns (bestPerformance: real, bestN: int, bestKTenths: int)
    ensures Best(bestPerformance, (bestN, bestKTenths)) == VisitPairs(cframe, lib, BBGrid, lowN, highN, lowKTenths, highKTenths, Best(0.0, (20, 20)))
  {
    ghost var seed := Best(0.0, (20, 20));
    bestPerformance, bestN, bestKTenths := 0.0, 20, 20;
    var n := lowN;
    while n <= highN
      invariant lowN <= n && (n <= highN + 1 || n == lowN)
      invariant Best(bestPerformance, (bestN, bestKTenths)) == VisitPairs(cframe, lib, BBGrid, lowN, n - 1, lowKTenths, highKTenths, seed)
    {
      ghost var done := VisitPairs(cframe, lib, BBGrid, lowN, n - 1, lowKTenths, highKTenths, seed);
      var kTenths := lowKTenths;
      while kTenths <= highKTenths
        invariant lowKTenths <= kTenths && (kTenths <= highKTenths + 1 || kTenths == lowKTenths)
        invariant Best(bestPerformance, (bestN, bestKTenths)) == VisitRow2(cframe, lib, BBGrid, n, lowKTenths, kTenths - 1, done)
      {
        var profit := EvaluatePair(cframe, lib, BBGrid, (n, kTenths));
        if profit.Some? && bestPerformance < profit.value {
          bestPerformance, bestN, bestKTenths := profit.value, n, kTenths;
        }
        kTenths := kTenths + 1;
      }
      n := n + 1;
    }
  }

  /** optimizeMacd: the scan of fast x slow x signal from (0, (12, 26, 9)). */
  method OptimizeMacd(cframe: CandleFrame, lib: Library, lowFast: int, highFast: int, lowSlow: int, highSlow: int, lowSignal: int, highSignal: int)
    returns (bestPerformance: real, bestFast: int, bestSlow: int, bestSignal: int)
    ensures Best(bestPerformance, (bestFast, bestSlow, bestSignal)) ==
            VisitTriples(cframe, lib, MacdGrid, lowFast, highFast, lowSlow, highSlow, lowSignal, highSignal, Best(0.0, (12, 26, 9)))
  {
    ghost var seed := Best(0.0, (12, 26, 9));
    bestPerformance, bestFast, bestSlow, bestSignal := 0.0, 12, 26, 9;
    var fast := lowFast;
    while fast <= highFast
      invariant lowFast <= fast && (fast <= highFast + 1 || fast == lowFast)
      invariant Best(bestPerformance, (bestFast, bestSlow, bestSignal)) == VisitTriples(cframe, lib, MacdGrid, lowFast, fast - 1, lowSlow, highSlow, lowSignal, highSignal, seed)
    {
      ghost var done := VisitTriples(cframe, lib, MacdGrid, lowFast, fast - 1, lowSlow, highSlow, lowSignal, highSignal, seed);
      var slow := lowSlow;
      while slow <= highSlow
        invariant lowSlow <= slow && (slow <= highSlow + 1 || slow == lowSlow)
        invariant Best(bestPerformance, (bestFast, bestSlow, bestSignal)) == VisitBlock3(cframe, lib, MacdGrid, fast, lowSlow, slow - 1, lowSignal, highSignal, done)
      {
        ghost var block := VisitBlock3(cframe, lib, MacdGrid, fast, lowSlow, slow - 1, lowSignal, highSignal, done);
        var signal := lowSignal;
        while signal <= highSignal
          invariant lowSignal <= signal && (signal <= highSignal + 1 || signal == lowSignal)
          invariant Best(bestPerformance, (bestFast, bestSlow, bestSignal)) == VisitRow3(cframe, lib, MacdGrid, fast, slow, lowSignal, signal - 1, block)
        {
          var profit := EvaluateTriple(cframe, lib, MacdGrid, (fast, slow, signal));
          if profit.Some? && bestPerformance < profit.value {
            bestPerformance, bestFast, bestSlow, bestSignal := profit.value, fast, slow, signal;
          }
          signal := signal + 1;
        }
        slow := slow + 1;
      }
      fast := fast + 1;
    }
  }

  /** optimizeRsi: the scan of period x buyThread x sellThread from (0, (14, 30, 70)).
      The thresholds, float64 values stepped by 1.0 in the source, are integers here. */
  method OptimizeRsi(cframe: CandleFrame, lib: Library, lowPeriod: int, highPeriod: int, lowBuyThread: int, highBuyThread: int, lowSellThread: int, highSellThread: int)
    returns (bestPerformance: real, bestPeriod: int, bestBuyThread: int, bestSellThread: int)
    ensures Best(bestPerformance, (bestPeriod, bestBuyThread, bestSellThread)) ==
            VisitTriples(cframe, lib, RsiGrid, lowPeriod, highPeriod, lowBuyThread, highBuyThread, lowSellThread, highSellThread, Best(0.0, (14, 30, 70)))
  {
    ghost var seed := Best(0.0, (14, 30, 70));
    bestPerformance, bestPeriod, bestBuyThread, bestSellThread := 0.0, 14, 30, 70;
    var period := lowPeriod;
    while period <= highPeriod
      invariant lowPeriod <= period && (period <= highPeriod + 1 || period == lowPeriod)
      invariant Best(bestPerformance, (bestPeriod, bestBuyThread, bestSellThread)) == VisitTriples(cframe, lib, RsiGrid, lowPeriod, period - 1, lowBuyThread, highBuyThread, lowSellThread, highSellThread, seed)
    {
      ghost var done := VisitTriples(cframe, lib, RsiGrid, lowPeriod, period - 1, lowBuyThread, highBuyThread, lowSellThread, highSellThread, seed);
      var buyThread := lowBuyThread;
      while buyThread <= highBuyThread
        invariant lowBuyThread <= buyThread && (buyThread <= highBuyThread + 1 || buyThread == lowBuyThread)
        invariant Best(bestPerformance, (bestPeriod, bestBuyThread, bestSellThread)) == VisitBlock3(cframe, lib, RsiGrid, period, lowBuyThread, buyThread - 1, lowSellThread, highSellThread, done)
      {
        ghost var block := VisitBlock3(cframe, lib, RsiGrid, period, lowBuyThread, buyThread - 1, lowSellThread, highSellThread, done);
        var sellThread := lowSellThread;
        while sellThread <= highSellThread
          invariant lowSellThread <= sellThread && (sellThread <= highSellThread + 1 || sellThread == lowSellThread)
          invariant Best(bestPerformance, (bestPeriod, bestBuyThread, bestSellThread)) == VisitRow3(cframe, lib, RsiGrid, period, buyThread, lowSellThread, sellThread - 1, block)
        {
          var profit := EvaluateTriple(cframe, lib, RsiGrid, (period, buyThread, sellThread));
          if profit.Some? && bestPerformance < profit.value {
            bestPerformance, bestPeriod, bestBuyThread, bestSellThread := profit.value, period, buyThread, sellThread;
          }
          sellThread := sellThread + 1;
        }
        buyThread := buyThread + 1;
      }
      period := period + 1;
    }
  }

  /** optimizeWillr: the scan of period x buyThread x sellThread from (0, (10, -20, -80)),
      with integer thresholds as for RSI. */
  method OptimizeWillr(cframe: CandleFrame, lib: Library, lowPeriod: int, highPeriod: int, lowBuyThread: int, highBuyThread: int, lowSellThread: int, highSellThread: int)
    returns (bestPerformance: real, bestPeriod: int, bestBuyThread: int, bestSellThread: int)
    ensures Best(bestPerformance, (bestPeriod, bestBuyThread, bestSellThread)) ==
            VisitTriples(cframe, lib, WillrGrid, lowPeriod, highPeriod, lowBuyThread, highBuyThread, lowSellThread, highSellThread, Best(0.0, (10, -20, -80)))
  {
    ghost var seed := Best(0.0, (10, -20, -80));
    bestPerformance, bestPeriod, bestBuyThread, bestSellThread := 0.0, 10, -20, -80;
    var period := lowPeriod;
    while period <= highPeriod
      invariant lowPeriod <= period && (period <= highPeriod + 1 || period == lowPeriod)
      invariant Best(bestPerformance, (bestPeriod, bestBuyThread, bestSellThread)) == VisitTriples(cframe, lib, WillrGrid, lowPeriod, period - 1, lowBuyThread, highBuyThread, lowSellThread, highSellThread, seed)
    {
      ghost var done := VisitTriples(cframe, lib, WillrGrid, lowPeriod, period - 1, lowBuyThread, highBuyThread, lowSellThread, highSellThread, seed);
      var buyThread := lowBuyThread;
      while buyThread <= highBuyThread
        invariant lowBuyThread <= buyThread && (buyThread <= highBuyThread + 1 || buyThread == lowBuyThread)
        invariant Best(bestPerformance, (bestPeriod, bestBuyThread, bestSellThread)) == VisitBlock3(cframe, lib, WillrGrid, period, lowBuyThread, buyThread - 1, lowSellThread, highSellThread, done)
      {
        ghost var block := VisitBlock3(cframe, lib, WillrGrid, period, lowBuyThread, buyThread - 1, lowSellThread, highSellThread, done);
        var sellThread := lowSellThread;
        while sellThread <= highSellThread
          invariant lowSellThread <= sellThread && (sellThread <= highSellThread + 1 || sellThread == lowSellThread)
          invariant Best(bestPerformance, (bestPeriod, bestBuyThread, bestSellThread)) == VisitRow3(cframe, lib, WillrGrid, period, buyThread, lowSellThread, sellThread - 1, block)
        {
          var profit := EvaluateTriple(cframe, lib, WillrGrid, (period, buyThread, sellThread));
          if profit.Some? && bestPerformance < profit.value {
            bestPerformance, bestPeriod, bestBuyThread, bestSellThread := profit.value, period, buyThread, sellThread;
          }
          sellThread := sellThread + 1;
        }
        buyThread := buyThread + 1;
      }
      period := period + 1;
    }
  }

  // ---------------------------------------------------------------------------
  // BackTest

  /** Go's math.Round: the nearest integer, halves rounded away from zero. */
  function Round(x: real): (r: int)
    ensures x >= 0.0 ==> x - 0.5 < r as real <= x + 0.5
    ensures x < 0.0 ==> x - 0.5 <= r as real < x + 0.5
  {
    if x >= 0.0 then (x + 0.5).Floor else -((-x + 0.5).Floor)
  }

  /** A performance as BackTest records it: math.Round(best) / 100. */
  function Performance(best: real): real {
    Round(best) as real / 100.0
  }

  /** The record BackTest builds: the five winners, their rounded performances and
      the signal lists of the re-runs with the winning parameters. */
  datatype OptimizedParam = OptimizedParam(
    timestamp: int, symbol: string,
    emaPerformance: real, emaShort: int, emaLong: int,
    bbPerformance: real, bbN: int, bbK: real,
    macdPerformance: real, macdFast: int, macdSlow: int, macdSignal: int,
    rsiPerformance: real, rsiPeriod: int, rsiBuyThread: real, rsiSellThread: real,
    willrPerformance: real, willrPeriod: int, willrBuyThread: real, willrSellThread: real,
    emaSignals: seq<Signal>, bbSignals: seq<Signal>, macdSignals: seq<Signal>,
    rsiSignals: seq<Signal>, willrSignals: seq<Signal>)

  /** The winners of the five searches over BackTest's fixed grids. */
  function EmaChoice(cframe: CandleFrame, lib: Library): Best<(int, int)> {
    VisitPairs(cframe, lib, EmaGrid, 5, 15, 12, 20, Best(0.0, (7, 14)))
  }

  function BBChoice(cframe: CandleFrame, lib: Library): Best<(int, int)> {
    VisitPairs(cframe, lib, BBGrid, 10, 20, 18, 22, Best(0.0, (20, 20)))
  }

  function MacdChoice(cframe: CandleFrame, lib: Library): Best<(int, int, int)> {
    VisitTriples(cframe, lib, MacdGrid, 10, 19, 20, 30, 5, 15, Best(0.0, (12, 26, 9)))
  }

  function RsiChoice(cframe: CandleFrame, lib: Library): Best<(int, int, int)> {
    VisitTriples(cframe, lib, RsiGrid, 6, 30, 25, 35, 75, 85, Best(0.0, (14, 30, 70)))
  }

  function WillrChoice(cframe: CandleFrame, lib: Library): Best<(int, int, int)> {
    VisitTriples(cframe, lib, WillrGrid, 5, 20, -25, -15, -85, -75, Best(0.0, (10, -20, -80)))
  }

  /** Each winner is the first best point of its grid, or the family's defaults when
      no point has a positive profit. */
  lemma ChoicesOptimal(cframe: CandleFrame, lib: Library)
    ensures Optimal2(EmaChoice(cframe, lib), 5, 15, 12, 20, PairScore(cframe, lib, EmaGrid), (7, 14))
    ensures Optimal2(BBChoice(cframe, lib), 10, 20, 18, 22, PairScore(cframe, lib, BBGrid), (20, 20))
    ensures Optimal3(MacdChoice(cframe, lib), 10, 19, 20, 30, 5, 15, TripleScore(cframe, lib, MacdGrid), (12, 26, 9))
    ensures Optimal3(RsiChoice(cframe, lib), 6, 30, 25, 35, 75, 85, TripleScore(cframe, lib, RsiGrid), (14, 30, 70))
    ensures Optimal3(WillrChoice(cframe, lib), 5, 20, -25, -15, -85, -75, TripleScore(cframe, lib, WillrGrid), (10, -20, -80))
  {
    VisitPairsOptimal(cframe, lib, EmaGrid, 5, 15, 12, 20, (7, 14));
    VisitPairsOptimal(cframe, lib, BBGrid, 10, 20, 18, 22, (20, 20));
    VisitTriplesOptimal(cframe, lib, MacdGrid, 10, 19, 20, 30, 5, 15, (12, 26, 9));
    VisitTriplesOptimal(cframe, lib, RsiGrid, 6, 30, 25, 35, 75, 85, (14, 30, 70));
    VisitTriplesOptimal(cframe, lib, WillrGrid, 5, 20, -25, -15, -85, -75, (10, -20, -80));
  }

  /** The five re-runs with the winning parameters. */
  function EmaWinner(cframe: CandleFrame, lib: Library): Rule { PairRule(EmaGrid, EmaChoice(cframe, lib).params) }
  function BBWinner(cframe: CandleFrame, lib: Library): Rule { PairRule(BBGrid, BBChoice(cframe, lib).params) }
  function MacdWinner(cframe: CandleFrame, lib: Library): Rule { TripleRule(MacdGrid, MacdChoice(cframe, lib).params) }
  function RsiWinner(cframe: CandleFrame, lib: Library): Rule { TripleRule(RsiGrid, RsiChoice(cframe, lib).params) }
  function WillrWinner(cframe: CandleFrame, lib: Library): Rule { TripleRule(WillrGrid, WillrChoice(cframe, lib).params) }

  /** Some re-run returns nil, and reading its signals dereferences nil. */
  predicate RerunFails(cframe: CandleFrame, lib: Library) {
    var n := |cframe.candles|;
    TooLong(EmaWinner(cframe, lib), n) || TooLong(BBWinner(cframe, lib), n) || TooLong(MacdWinner(cframe, lib), n) ||
    TooLong(RsiWinner(cframe, lib), n) || TooLong(WillrWinner(cframe, lib), n)
  }

  /** The record of a BackTest run whose five re-runs all succeed, with the given
      signal lists. */
  function Record(symbol: string, cframe: CandleFrame, lib: Library, nowUnix: int,
                  ema: seq<Signal>, bb: seq<Signal>, macd: seq<Signal>, rsi: seq<Signal>, willr: seq<Signal>): OptimizedParam
  {
    var e, b, m, r, w := EmaChoice(cframe, lib), BBChoice(cframe, lib), MacdChoice(cframe, lib),
                         RsiChoice(cframe, lib), WillrChoice(cframe, lib);
    OptimizedParam(nowUnix * 1000, symbol,
                   Performance(e.performance), e.params.0, e.params.1,
                   Performance(b.performance), b.params.0, b.params.1 as real / 10.0,
                   Performance(m.performance), m.params.0, m.params.1, m.params.2,
                   Performance(r.performance), r.params.0, r.params.1 as real, r.params.2 as real,
                   Performance(w.performance), w.params.0, w.params.1 as real, w.params.2 as real,
                   ema, bb, macd, rsi, willr)
  }

  /** What BackTest returns when no re-run fails. */
  function Recorded(symbol: string, cframe: CandleFrame, lib: Library, nowUnix: int): OptimizedParam {
    var n := |cframe.candles|;
    Record(symbol, cframe, lib, nowUnix,
           History(cframe, lib, EmaWinner(cframe, lib), n), History(cframe, lib, BBWinner(cframe, lib), n),
           History(cframe, lib, MacdWinner(cframe, lib), n), History(cframe, lib, RsiWinner(cframe, lib), n),
           History(cframe, lib, WillrWinner(cframe, lib), n))
  }

  /** BackTest: the five searches over the fixed grids, then the five re-runs with
      the winners. The candle frame, which the source loads from the database, and
      the clock reading are parameters. None stands for the nil dereference the
      source makes when a re-run returns nil. */
  method BackTest(symbol: string, cframe: CandleFrame, lib: Library, nowUnix: int) returns (r: Option<OptimizedParam>)
    ensures r.None? <==> RerunFails(cframe, lib)
    ensures r.Some? ==> r.value == Recorded(symbol, cframe, lib, nowUnix)
  {
    var bpEma, emaShort, emaLong := OptimizeEma(cframe, lib, 5, 15, 12, 20);
    var bpBB, bbN, bbKTenths := OptimizeBB(cframe, lib, 10, 20, 18, 22);
    var bpMacd, macdFast, macdSlow, macdSignal := OptimizeMacd(cframe, lib, 10, 19, 20, 30, 5, 15);
    var bpRsi, rsiPeriod, rsiBuy, rsiSell := OptimizeRsi(cframe, lib, 6, 30, 25, 35, 75, 85);
    var bpWillr, willrPeriod, willrBuy, willrSell := OptimizeWillr(cframe, lib, 5, 20, -25, -15, -85, -75);
    assert EmaWinner(cframe, lib) == EmaRule(emaShort, emaLong);
    assert BBWinner(cframe, lib) == BBRule(bbN, bbKTenths as real / 10.0);
    assert MacdWinner(cframe, lib) == MacdRule(macdFast, macdSlow, macdSignal);
    assert RsiWinner(cframe, lib) == RsiRule(rsiPeriod, rsiBuy as real, rsiSell as real);
    assert WillrWinner(cframe, lib) == WillrRule(willrPeriod, willrBuy as real, willrSell as real);

    var ema := BacktestEma(cframe, lib, emaShort, emaLong);
    if ema == null { return None; }
    var bb := BacktestBB(cframe, lib, bbN, bbKTenths as real / 10.0);
    if bb == null { return None; }
    var macd := BacktestMacd(cframe, lib, macdFast, macdSlow, macdSignal);
    if macd == null { return None; }
    var rsi := BacktestRsi(cframe, lib, rsiPeriod, rsiBuy as real, rsiSell as real);
    if rsi == null { return None; }
    var willr := BacktestWillr(cframe, lib, willrPeriod, willrBuy as real, willrSell as real);
    if willr == null { return None; }

    r := Some(OptimizedParam(nowUnix * 1000, symbol,
                             Performance(bpEma), emaShort, emaLong,
                             Performance(bpBB), bbN, bbKTenths as real / 10.0,
                             Performance(bpMacd), macdFast, macdSlow, macdSignal,
                             Performance(bpRsi), rsiPeriod, rsiBuy as real, rsiSell as real,
                             Performance(bpWillr), willrPeriod, willrBuy as real, willrSell as real,
                             ema.signals, bb.signals, macd.signals, rsi.signals, willr.signals));
  }

  /** The EMA part of RecordedIsConsistent. */
  lemma EmaRecorded(symbol: string, cframe: CandleFrame, lib: Library, nowUnix: int)
    requires !RerunFails(cframe, lib)
    ensures var r := Recorded(symbol, cframe, lib, nowUnix);
            || (r.emaPerformance == Performance(ProfitOf(r.emaSignals)) && 5 <= r.emaShort <= 15 && 12 <= r.emaLong <= 20)
            || (r.emaPerformance == 0.0 && r.emaShort == 7 && r.emaLong == 14)
  {
    PairWinner(cframe, lib, EmaGrid, 5, 15, 12, 20, (7, 14));
  }

  /** The Bollinger part of RecordedIsConsistent. */
  lemma BBRecorded(symbol: string, cframe: CandleFrame, lib: Library, nowUnix: int)
    requires !RerunFails(cframe, lib)
    ensures var r := Recorded(symbol, cframe, lib, nowUnix);
            || (r.bbPerformance == Performance(ProfitOf(r.bbSignals)) && 10 <= r.bbN <= 20 && 1.8 <= r.bbK <= 2.2)
            || (r.bbPerformance == 0.0 && r.bbN == 20 && r.bbK == 2.0)
  {
    PairWinner(cframe, lib, BBGrid, 10, 20, 18, 22, (20, 20));
  }

  /** The MACD part of RecordedIsConsistent. */
  lemma MacdRecorded(symbol: string, cframe: CandleFrame, lib: Library, nowUnix: int)
    requires !RerunFails(cframe, lib)
    ensures var r := Recorded(symbol, cframe, lib, nowUnix);
            || (r.macdPerformance == Performance(ProfitOf(r.macdSignals)) &&
                10 <= r.macdFast <= 19 && 20 <= r.macdSlow <= 30 && 5 <= r.macdSignal <= 15)
            || (r.macdPerformance == 0.0 && r.macdFast == 12 && r.macdSlow == 26 && r.macdSignal == 9)
  {
    TripleWinner(cframe, lib, MacdGrid, 10, 19, 20, 30, 5, 15, (12, 26, 9));
  }

  /** The RSI part of RecordedIsConsistent. */
  lemma RsiRecorded(symbol: string, cframe: CandleFrame, lib: Library, nowUnix: int)
    requires !RerunFails(cframe, lib)
    ensures var r := Recorded(symbol, cframe, lib, nowUnix);
            || (r.rsiPerformance == Performance(ProfitOf(r.rsiSignals)) &&
                6 <= r.rsiPeriod <= 30 && 25.0 <= r.rsiBuyThread <= 35.0 && 75.0 <= r.rsiSellThread <= 85.0)
            || (r.rsiPerformance == 0.0 && r.rsiPeriod == 14 && r.rsiBuyThread == 30.0 && r.rsiSellThread == 70.0)
  {
    TripleWinner(cframe, lib, RsiGrid, 6, 30, 25, 35, 75, 85, (14, 30, 70));
  }

  /** The Williams %R part of RecordedIsConsistent. */
  lemma WillrRecorded(symbol: string, cframe: CandleFrame, lib: Library, nowUnix: int)
    requires !RerunFails(cframe, lib)
    ensures var r := Recorded(symbol, cframe, lib, nowUnix);
            || (r.willrPerformance == Performance(ProfitOf(r.willrSignals)) &&
                5 <= r.willrPeriod <= 20 && -25.0 <= r.willrBuyThread <= -15.0 && -85.0 <= r.willrSellThread <= -75.0)
            || (r.willrPerformance == 0.0 && r.willrPeriod == 10 && r.willrBuyThread == -20.0 && r.willrSellThread == -80.0)
  {
    TripleWinner(cframe, lib, WillrGrid, 5, 20, -25, -15, -85, -75, (10, -20, -80));
  }

  /** The record keeps the optimizers' promise: for each family, either the stored
      performance is the rounded profit of the stored signal list and the stored
      parameters lie in the grid, or it is 0 and the parameters are the family's
      defaults. Every stored list alternates, starting with a Buy. */
  lemma RecordedIsConsistent(symbol: string, cframe: CandleFrame, lib: Library, nowUnix: int)
    requires !RerunFails(cframe, lib)
    ensures var r := Recorded(symbol, cframe, lib, nowUnix);
            || (r.emaPerformance == Performance(ProfitOf(r.emaSignals)) && 5 <= r.emaShort <= 15 && 12 <= r.emaLong <= 20)
            || (r.emaPerformance == 0.0 && r.emaShort == 7 && r.emaLong == 14)
    ensures var r := Recorded(symbol, cframe, lib, nowUnix);
            || (r.bbPerformance == Performance(ProfitOf(r.bbSignals)) && 10 <= r.bbN <= 20 && 1.8 <= r.bbK <= 2.2)
            || (r.bbPerformance == 0.0 && r.bbN == 20 && r.bbK == 2.0)
    ensures var r := Recorded(symbol, cframe, lib, nowUnix);
            || (r.macdPerformance == Performance(ProfitOf(r.macdSignals)) &&
                10 <= r.macdFast <= 19 && 20 <= r.macdSlow <= 30 && 5 <= r.macdSignal <= 15)
            || (r.macdPerformance == 0.0 && r.macdFast == 12 && r.macdSlow == 26 && r.macdSignal == 9)
    ensures var r := Recorded(symbol, cframe, lib, nowUnix);
            || (r.rsiPerformance == Performance(ProfitOf(r.rsiSignals)) &&
                6 <= r.rsiPeriod <= 30 && 25.0 <= r.rsiBuyThread <= 35.0 && 75.0 <= r.rsiSellThread <= 85.0)
            || (r.rsiPerformance == 0.0 && r.rsiPeriod == 14 && r.rsiBuyThread == 30.0 && r.rsiSellThread == 70.0)
    ensures var r := Recorded(symbol, cframe, lib, nowUnix);
            || (r.willrPerformance == Performance(ProfitOf(r.willrSignals)) &&
                5 <= r.willrPeriod <= 20 && -25.0 <= r.willrBuyThread <= -15.0 && -85.0 <= r.willrSellThread <= -75.0)
            || (r.willrPerformance == 0.0 && r.willrPeriod == 10 && r.willrBuyThread == -20.0 && r.willrSellThread == -80.0)
    ensures var r := Recorded(symbol, cframe, lib, nowUnix);
            && Alternating(r.emaSignals) && Alternating(r.bbSignals) && Alternating(r.macdSignals)
            && Alternating(r.rsiSignals) && Alternating(r.willrSignals)
  {
    var n := |cframe.candles|;
    EmaRecorded(symbol, cframe, lib, nowUnix);
    BBRecorded(symbol, cframe, lib, nowUnix);
    MacdRecorded(symbol, cframe, lib, nowUnix);
    RsiRecorded(symbol, cframe, lib, nowUnix);
    WillrRecorded(symbol, cframe, lib, nowUnix);
    HistoryAlternating(cframe, lib, EmaWinner(cframe, lib), n);
    HistoryAlternating(cframe, lib, BBWinner(cframe, lib), n);
    HistoryAlternating(cframe, lib, MacdWinner(cframe, lib), n);
    HistoryAlternating(cframe, lib, RsiWinner(cframe, lib), n);
    HistoryAlternating(cframe, lib, WillrWinner(cframe, lib), n);
  }

  // ---------------------------------------------------------------------------
  // The nil dereference: BackTest reads the signals of every re-run without
  // checking for nil

  /** When no MACD combination of the grid earns a profit, the defaults (12, 26, 9)
      are re-run; on a frame of at most 26 candles that re-run returns nil. */
  lemma UnprofitableMacdFails(cframe: CandleFrame, lib: Library)
    requires |cframe.candles| <= 26
    requires MacdChoice(cframe, lib).performance == 0.0
    ensures RerunFails(cframe, lib)
  {
    TripleWinner(cframe, lib, MacdGrid, 10, 19, 20, 30, 5, 15, (12, 26, 9));
  }

  /** On a frame of at most 20 candles every MACD grid point has slow >= 20 and
      returns nil, so nothing earns a profit and BackTest fails, whatever the
      prices. */
  lemma ShortFrameFails(cframe: CandleFrame, lib: Library)
    requires |cframe.candles| <= 20
    ensures RerunFails(cframe, lib)
  {
    TripleWinner(cframe, lib, MacdGrid, 10, 19, 20, 30, 5, 15, (12, 26, 9));
    UnprofitableMacdFails(cframe, lib);
  }

  /** A re-run's list, or no signals for a nil re-run. */
  function RerunSignals(cframe: CandleFrame, lib: Library, rule: Rule): (s: seq<Signal>)
    ensures Alternating(s)
    ensures TooLong(rule, |cframe.candles|) ==> s == []
  {
    HistoryAlternating(cframe, lib, rule, |cframe.candles|);
    if TooLong(rule, |cframe.candles|) then [] else History(cframe, lib, rule, |cframe.candles|)
  }

  /** One re-run of BackTest with the nil check the source omits: the family's
      generator with the given parameters, and no signals when it returns nil. */
  method RerunChecked(cframe: CandleFrame, lib: Library, rule: Rule) returns (s: seq<Signal>)
    ensures s == RerunSignals(cframe, lib, rule)
  {
    var signals;
    match rule {
      case EmaRule(short, long) => signals := BacktestEma(cframe, lib, short, long);
      case BBRule(n, k) => signals := BacktestBB(cframe, lib, n, k);
      case MacdRule(fast, slow, signal) => signals := BacktestMacd(cframe, lib, fast, slow, signal);
      case RsiRule(period, buyThread, sellThread) => signals := BacktestRsi(cframe, lib, period, buyThread, sellThread);
      case WillrRule(period, buyThread, sellThread) => signals := BacktestWillr(cframe, lib, period, buyThread, sellThread);
    }
    s := if signals == null then [] else signals.signals;
  }

  /** BackTest with each re-run checked for nil: a nil re-run stores no signals, and
      a record is always returned. */
  method BackTestGuarded(symbol: string, cframe: CandleFrame, lib: Library, nowUnix: int) returns (r: OptimizedParam)
    ensures r == Record(symbol, cframe, lib, nowUnix,
                        RerunSignals(cframe, lib, EmaWinner(cframe, lib)), RerunSignals(cframe, lib, BBWinner(cframe, lib)),
                        RerunSignals(cframe, lib, MacdWinner(cframe, lib)), RerunSignals(cframe, lib, RsiWinner(cframe, lib)),
                        RerunSignals(cframe, lib, WillrWinner(cframe, lib)))
    ensures !RerunFails(cframe, lib) ==> r == Recorded(symbol, cframe, lib, nowUnix)
  {
    var bpEma, emaShort, emaLong := OptimizeEma(cframe, lib, 5, 15, 12, 20);
    var bpBB, bbN, bbKTenths := OptimizeBB(cframe, lib, 10, 20, 18, 22);
    var bpMacd, macdFast, macdSlow, macdSignal := OptimizeMacd(cframe, lib, 10, 19, 20, 30, 5, 15);
    var bpRsi, rsiPeriod, rsiBuy, rsiSell := OptimizeRsi(cframe, lib, 6, 30, 25, 35, 75, 85);
    var bpWillr, willrPeriod, willrBuy, willrSell := OptimizeWillr(cframe, lib, 5, 20, -25, -15, -85, -75);

    var emaSignals := RerunChecked(cframe, lib, EmaRule(emaShort, emaLong));
    var bbSignals := RerunChecked(cframe, lib, BBRule(bbN, bbKTenths as real / 10.0));
    var macdSignals := RerunChecked(cframe, lib, MacdRule(macdFast, macdSlow, macdSignal));
    var rsiSignals := RerunChecked(cframe, lib, RsiRule(rsiPeriod, rsiBuy as real, rsiSell as real));
    var willrSignals := RerunChecked(cframe, lib, WillrRule(willrPeriod, willrBuy as real, willrSell as real));

    r := OptimizedParam(nowUnix * 1000, symbol,
                        Performance(bpEma), emaShort, emaLong,
                        Performance(bpBB), bbN, bbKTenths as real / 10.0,
                        Performance(bpMacd), macdFast, macdSlow, macdSignal,
                        Performance(bpRsi), rsiPeriod, rsiBuy as real, rsiSell as real,
                        Performance(bpWillr), willrPeriod, willrBuy as real, willrSell as real,
                        emaSignals, bbSignals, macdSignals, rsiSignals, willrSignals);
  }

}
