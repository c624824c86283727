/** The search policy shared by the five optimize* routines of app/models/backtest.go:
    combinations are visited in nested ascending loop order, infeasible ones are
    skipped, and the running best moves only on a strictly greater profit. */
module GridSearch {

  import opened Wrappers

  /** The running best: a performance and the parameters that reached it. */
  datatype Best<P> = Best(performance: real, params: P)

  /** One loop iteration: a feasible combination replaces the best only when
      `bestPerformance < profit`. */
  function Consider<P>(b: Best<P>, c: P, score: Option<real>): Best<P> {
    if score.Some? && b.performance < score.value then Best(score.value, c) else b
  }

  /** The best after visiting the candidates in order, starting from init. */
  function Scan<P>(cands: seq<P>, score: P -> Option<real>, init: Best<P>): Best<P>
    decreases |cands|
  {
    if cands == [] then init
    else Consider(Scan(cands[..|cands| - 1], score, init), cands[|cands| - 1], score(cands[|cands| - 1]))
  }

  /** Candidate i is the first, in visiting order, whose score reaches v. */
  ghost predicate FirstToReach<P>(cands: seq<P>, score: P -> Option<real>, i: int, v: real) {
    && 0 <= i < |cands|
    && score(cands[i]) == Some(v)
    && forall j :: 0 <= j < i ==> score(cands[j]).None? || score(cands[j]).value < v
  }

  lemma ScanSnoc<P>(cands: seq<P>, c: P, score: P -> Option<real>, init: Best<P>)
    ensures Scan(cands + [c], score, init) == Consider(Scan(cands, score, init), c, score(c))
  {
    assert (cands + [c])[..|cands|] == cands;
  }

  /** The result of a scan: at least the seed, at least every feasible score, and
      either the untouched seed or the first candidate that reaches the maximum. */
  lemma {:induction false} ScanResult<P>(cands: seq<P>, score: P -> Option<real>, init: Best<P>)
    ensures var b := Scan(cands, score, init);
      && b.performance >= init.performance
      && (forall j :: 0 <= j < |cands| && score(cands[j]).Some? ==> score(cands[j]).value <= b.performance)
      && (b.performance == init.performance ==> b == init)
      && (b.performance > init.performance ==>
            exists i :: FirstToReach(cands, score, i, b.performance) && cands[i] == b.params)
    decreases |cands|
  {
    if cands != [] {
      var p := cands[..|cands| - 1];
      var c := cands[|cands| - 1];
      ScanResult(p, score, init);
      var b0 := Scan(p, score, init);
      var b := Scan(cands, score, init);
      assert forall j :: 0 <= j < |p| ==> p[j] == cands[j];
      if b != b0 {
        assert b == Best(score(c).value, c);
        assert FirstToReach(cands, score, |cands| - 1, b.performance);
      } else if b.performance > init.performance {
        var i :| FirstToReach(p, score, i, b0.performance) && p[i] == b0.params;
        assert FirstToReach(cands, score, i, b.performance);
      }
    }
  }

  // ---------------------------------------------------------------------------
  // Nested ascending enumerations over inclusive ranges

  /** The inner loop `for b := lo; b <= hi; b++` with outer value a. */
  function Row2(a: int, lo: int, hi: int): seq<(int, int)>
    decreases hi - lo
  {
    if hi < lo then [] else Row2(a, lo, hi - 1) + [(a, hi)]
  }

  /** Two nested loops over [lo1, hi1] x [lo2, hi2], outer first. */
  function Pairs(lo1: int, hi1: int, lo2: int, hi2: int): seq<(int, int)>
    decreases hi1 - lo1
  {
    if hi1 < lo1 then [] else Pairs(lo1, hi1 - 1, lo2, hi2) + Row2(hi1, lo2, hi2)
  }

  /** The innermost loop over [lo, hi] with outer values a, b. */
  function Row3(a: int, b: int, lo: int, hi: int): seq<(int, int, int)>
    decreases hi - lo
  {
    if hi < lo then [] else Row3(a, b, lo, hi - 1) + [(a, b, hi)]
  }

  /** The two inner loops of a triple nest, with outer value a. */
  function Block3(a: int, lo2: int, hi2: int, lo3: int, hi3: int): seq<(int, int, int)>
    decreases hi2 - lo2
  {
    if hi2 < lo2 then [] else Block3(a, lo2, hi2 - 1, lo3, hi3) + Row3(a, hi2, lo3, hi3)
  }

  /** Three nested loops over [lo1, hi1] x [lo2, hi2] x [lo3, hi3], outer first. */
  function Triples(lo1: int, hi1: int, lo2: int, hi2: int, lo3: int, hi3: int): seq<(int, int, int)>
    decreases hi1 - lo1
  {
    if hi1 < lo1 then [] else Triples(lo1, hi1 - 1, lo2, hi2, lo3, hi3) + Block3(hi1, lo2, hi2, lo3, hi3)
  }

  predicate LexLess2(x: (int, int), y: (int, int)) {
    x.0 < y.0 || (x.0 == y.0 && x.1 < y.1)
  }

  predicate LexLess3(x: (int, int, int), y: (int, int, int)) {
    x.0 < y.0 || (x.0 == y.0 && (x.1 < y.1 || (x.1 == y.1 && x.2 < y.2)))
  }

  /** Strictly increasing in lexicographic order. */
  ghost predicate Sorted2(s: seq<(int, int)>) {
    forall i, j :: 0 <= i < j < |s| ==> LexLess2(s[i], s[j])
  }

  ghost predicate Sorted3(s: seq<(int, int, int)>) {
    forall i, j :: 0 <= i < j < |s| ==> LexLess3(s[i], s[j])
  }

  /** Two sorted runs, the first entirely before the second, make a sorted run. */
  lemma ConcatSorted2(p: seq<(int, int)>, r: seq<(int, int)>)
    requires Sorted2(p) && Sorted2(r)
    requires forall x, y :: x in p && y in r ==> LexLess2(x, y)
    ensures Sorted2(p + r)
  {
    var s := p + r;
    forall i, j | 0 <= i < j < |s| ensures LexLess2(s[i], s[j]) {
      if j < |p| {
        assert s[i] == p[i] && s[j] == p[j];
      } else if i >= |p| {
        assert s[i] == r[i - |p|] && s[j] == r[j - |p|];
      } else {
        assert s[i] == p[i] && s[j] == r[j - |p|];
        assert p[i] in p && r[j - |p|] in r;
      }
    }
  }

  lemma ConcatSorted3(p: seq<(int, int, int)>, r: seq<(int, int, int)>)
    requires Sorted3(p) && Sorted3(r)
    requires forall x, y :: x in p && y in r ==> LexLess3(x, y)
    ensures Sorted3(p + r)
  {
    var s := p + r;
    forall i, j | 0 <= i < j < |s| ensures LexLess3(s[i], s[j]) {
      if j < |p| {
        assert s[i] == p[i] && s[j] == p[j];
      } else if i >= |p| {
        assert s[i] == r[i - |p|] && s[j] == r[j - |p|];
      } else {
        assert s[i] == p[i] && s[j] == r[j - |p|];
        assert p[i] in p && r[j - |p|] in r;
      }
    }
  }

  /** In a sorted run, an element lexicographically below another sits before it. */
  lemma SortedBefore2(s: seq<(int, int)>, i: int, j: int)
    requires Sorted2(s) && 0 <= i < |s| && 0 <= j < |s|
    requires LexLess2(s[j], s[i])
    ensures j < i
  {
  }

  lemma SortedBefore3(s: seq<(int, int, int)>, i: int, j: int)
    requires Sorted3(s) && 0 <= i < |s| && 0 <= j < |s|
    requires LexLess3(s[j], s[i])
    ensures j < i
  {
  }

  lemma {:induction false} Row2Facts(a: int, lo: int, hi: int)
    ensures forall x :: x in Row2(a, lo, hi) <==> x.0 == a && lo <= x.1 <= hi
    ensures Sorted2(Row2(a, lo, hi))
    decreases hi - lo
  {
    if hi >= lo {
      Row2Facts(a, lo, hi - 1);
      ConcatSorted2(Row2(a, lo, hi - 1), [(a, hi)]);
    }
  }

  /** Pairs lists exactly the in-range pairs, in strictly increasing lexicographic
      order: the order of the two nested ascending loops. */
  lemma {:induction false} PairsFacts(lo1: int, hi1: int, lo2: int, hi2: int)
    ensures forall x :: x in Pairs(lo1, hi1, lo2, hi2) <==> lo1 <= x.0 <= hi1 && lo2 <= x.1 <= hi2
    ensures Sorted2(Pairs(lo1, hi1, lo2, hi2))
    decreases hi1 - lo1
  {
    if hi1 >= lo1 {
      PairsFacts(lo1, hi1 - 1, lo2, hi2);
      Row2Facts(hi1, lo2, hi2);
      ConcatSorted2(Pairs(lo1, hi1 - 1, lo2, hi2), Row2(hi1, lo2, hi2));
    }
  }

  lemma {:induction false} Row3Facts(a: int, b: int, lo: int, hi: int)
    ensures forall x :: x in Row3(a, b, lo, hi) <==> x.0 == a && x.1 == b && lo <= x.2 <= hi
    ensures Sorted3(Row3(a, b, lo, hi))
    decreases hi - lo
  {
    if hi >= lo {
      Row3Facts(a, b, lo, hi - 1);
      ConcatSorted3(Row3(a, b, lo, hi - 1), [(a, b, hi)]);
    }
  }

  lemma {:induction false} Block3Facts(a: int, lo2: int, hi2: int, lo3: int, hi3: int)
    ensures forall x :: x in Block3(a, lo2, hi2, lo3, hi3) <==> x.0 == a && lo2 <= x.1 <= hi2 && lo3 <= x.2 <= hi3
    ensures Sorted3(Block3(a, lo2, hi2, lo3, hi3))
    decreases hi2 - lo2
  {
    if hi2 >= lo2 {
      Block3Facts(a, lo2, hi2 - 1, lo3, hi3);
      Row3Facts(a, hi2, lo3, hi3);
      ConcatSorted3(Block3(a, lo2, hi2 - 1, lo3, hi3), Row3(a, hi2, lo3, hi3));
    }
  }

  /** Triples lists exactly the in-range triples, in strictly increasing
      lexicographic order: the order of the three nested ascending loops. */
  lemma {:induction false} TriplesFacts(lo1: int, hi1: int, lo2: int, hi2: int, lo3: int, hi3: int)
    ensures forall x :: x in Triples(lo1, hi1, lo2, hi2, lo3, hi3) <==>
      lo1 <= x.0 <= hi1 && lo2 <= x.1 <= hi2 && lo3 <= x.2 <= hi3
    ensures Sorted3(Triples(lo1, hi1, lo2, hi2, lo3, hi3))
    decreases hi1 - lo1
  {
    if hi1 >= lo1 {
      TriplesFacts(lo1, hi1 - 1, lo2, hi2, lo3, hi3);
      Block3Facts(hi1, lo2, hi2, lo3, hi3);
      ConcatSorted3(Triples(lo1, hi1 - 1, lo2, hi2, lo3, hi3), Block3(hi1, lo2, hi2, lo3, hi3));
    }
  }

  // ---------------------------------------------------------------------------
  // The same scans, one loop level at a time

  /** The inner loop over b in [lo, hi] with outer value a, continuing from init. */
  function ScanRow2(a: int, lo: int, hi: int, score: ((int, int)) -> Option<real>, init: Best<(int, int)>): Best<(int, int)>
    decreases hi - lo
  {
    if hi < lo then init else Consider(ScanRow2(a, lo, hi - 1, score, init), (a, hi), score((a, hi)))
  }

  /** The two nested loops, outer value in [lo1, hi1], from init. */
  function ScanPairs(lo1: int, hi1: int, lo2: int, hi2: int, score: ((int, int)) -> Option<real>,
                     init: Best<(int, int)>): Best<(int, int)>
    decreases hi1 - lo1
  {
    if hi1 < lo1 then init else ScanRow2(hi1, lo2, hi2, score, ScanPairs(lo1, hi1 - 1, lo2, hi2, score, init))
  }

  function ScanRow3(a: int, b: int, lo: int, hi: int, score: ((int, int, int)) -> Option<real>,
                    init: Best<(int, int, int)>): Best<(int, int, int)>
    decreases hi - lo
  {
    if hi < lo then init else Consider(ScanRow3(a, b, lo, hi - 1, score, init), (a, b, hi), score((a, b, hi)))
  }

  function ScanBlock3(a: int, lo2: int, hi2: int, lo3: int, hi3: int, score: ((int, int, int)) -> Option<real>,
                      init: Best<(int, int, int)>): Best<(int, int, int)>
    decreases hi2 - lo2
  {
    if hi2 < lo2 then init else ScanRow3(a, hi2, lo3, hi3, score, ScanBlock3(a, lo2, hi2 - 1, lo3, hi3, score, init))
  }

  function ScanTriples(lo1: int, hi1: int, lo2: int, hi2: int, lo3: int, hi3: int,
                       score: ((int, int, int)) -> Option<real>, init: Best<(int, int, int)>): Best<(int, int, int)>
    decreases hi1 - lo1
  {
    if hi1 < lo1 then init
    else ScanBlock3(hi1, lo2, hi2, lo3, hi3, score, ScanTriples(lo1, hi1 - 1, lo2, hi2, lo3, hi3, score, init))
  }

  /** Continuing a scan with a row is scanning the concatenation. */
  lemma {:induction false} ScanRow2Concat(d: seq<(int, int)>, a: int, lo: int, hi: int,
                                          score: ((int, int)) -> Option<real>, init: Best<(int, int)>)
    ensures ScanRow2(a, lo, hi, score, Scan(d, score, init)) == Scan(d + Row2(a, lo, hi), score, init)
    decreases hi - lo
  {
    if hi < lo {
      assert d + Row2(a, lo, hi) == d;
    } else {
      ScanRow2Concat(d, a, lo, hi - 1, score, init);
      assert d + Row2(a, lo, hi) == (d + Row2(a, lo, hi - 1)) + [(a, hi)];
      ScanSnoc(d + Row2(a, lo, hi - 1), (a, hi), score, init);
    }
  }

  /** The nested fold over two loops is the scan of their visiting order. */
  lemma {:induction false} ScanPairsIsScan(lo1: int, hi1: int, lo2: int, hi2: int,
                                           score: ((int, int)) -> Option<real>, init: Best<(int, int)>)
    ensures ScanPairs(lo1, hi1, lo2, hi2, score, init) == Scan(Pairs(lo1, hi1, lo2, hi2), score, init)
    decreases hi1 - lo1
  {
    if hi1 >= lo1 {
      ScanPairsIsScan(lo1, hi1 - 1, lo2, hi2, score, init);
      ScanRow2Concat(Pairs(lo1, hi1 - 1, lo2, hi2), hi1, lo2, hi2, score, init);
    }
  }

  lemma {:induction false} ScanRow3Concat(d: seq<(int, int, int)>, a: int, b: int, lo: int, hi: int,
                                          score: ((int, int, int)) -> Option<real>, init: Best<(int, int, int)>)
    ensures ScanRow3(a, b, lo, hi, score, Scan(d, score, init)) == Scan(d + Row3(a, b, lo, hi), score, init)
    decreases hi - lo
  {
    if hi < lo {
      assert d + Row3(a, b, lo, hi) == d;
    } else {
      ScanRow3Concat(d, a, b, lo, hi - 1, score, init);
      assert d + Row3(a, b, lo, hi) == (d + Row3(a, b, lo, hi - 1)) + [(a, b, hi)];
      ScanSnoc(d + Row3(a, b, lo, hi - 1), (a, b, hi), score, init);
    }
  }

  lemma Block3Snoc(d: seq<(int, int, int)>, a: int, lo2: int, hi2: int, lo3: int, hi3: int)
    requires lo2 <= hi2
    ensures d + Block3(a, lo2, hi2, lo3, hi3) == (d + Block3(a, lo2, hi2 - 1, lo3, hi3)) + Row3(a, hi2, lo3, hi3)
  {
  }

  lemma {:induction false} ScanBlock3Concat(d: seq<(int, int, int)>, a: int, lo2: int, hi2: int, lo3: int, hi3: int,
                                            score: ((int, int, int)) -> Option<real>, init: Best<(int, int, int)>)
    ensures ScanBlock3(a, lo2, hi2, lo3, hi3, score, Scan(d, score, init)) ==
            Scan(d + Block3(a, lo2, hi2, lo3, hi3), score, init)
    decreases hi2 - lo2
  {
    if hi2 < lo2 {
      assert d + Block3(a, lo2, hi2, lo3, hi3) == d;
    } else {
      ScanBlock3Concat(d, a, lo2, hi2 - 1, lo3, hi3, score, init);
      ScanRow3Concat(d + Block3(a, lo2, hi2 - 1, lo3, hi3), a, hi2, lo3, hi3, score, init);
      Block3Snoc(d, a, lo2, hi2, lo3, hi3);
    }
  }

  /** The nested fold over three loops is the scan of their visiting order. */
  lemma {:induction false} ScanTriplesIsScan(lo1: int, hi1: int, lo2: int, hi2: int, lo3: int, hi3: int,
                                             score: ((int, int, int)) -> Option<real>, init: Best<(int, int, int)>)
    ensures ScanTriples(lo1, hi1, lo2, hi2, lo3, hi3, score, init) == Scan(Triples(lo1, hi1, lo2, hi2, lo3, hi3), score, init)
    decreases hi1 - lo1
  {
    if hi1 >= lo1 {
      ScanTriplesIsScan(lo1, hi1 - 1, lo2, hi2, lo3, hi3, score, init);
      ScanBlock3Concat(Triples(lo1, hi1 - 1, lo2, hi2, lo3, hi3), hi1, lo2, hi2, lo3, hi3, score, init);
    }
  }

  // ---------------------------------------------------------------------------
  // The search over a two- or three-parameter grid, seeded with (0, defaults)

  /** The optimizer's promise over a two-parameter grid: the performance is at least
      0 and at least every feasible in-range profit; at 0 the defaults survive; above
      0 it is the profit of an in-range combination, and no combination earlier in
      loop order (lexicographically smaller) reaches it. */
  ghost predicate Optimal2(b: Best<(int, int)>, lo1: int, hi1: int, lo2: int, hi2: int,
                           score: ((int, int)) -> Option<real>, defaults: (int, int))
  {
    && b.performance >= 0.0
    && (forall x: (int, int) :: lo1 <= x.0 <= hi1 && lo2 <= x.1 <= hi2 && score(x).Some? ==>
          score(x).value <= b.performance)
    && (b.performance == 0.0 ==> b.params == defaults)
    && (b.performance > 0.0 ==>
          && lo1 <= b.params.0 <= hi1 && lo2 <= b.params.1 <= hi2
          && score(b.params) == Some(b.performance)
          && forall x: (int, int) :: lo1 <= x.0 <= hi1 && lo2 <= x.1 <= hi2 && LexLess2(x, b.params) ==>
               score(x).None? || score(x).value < b.performance)
  }

  /** The same promise over a three-parameter grid. */
  ghost predicate Optimal3(b: Best<(int, int, int)>, lo1: int, hi1: int, lo2: int, hi2: int, lo3: int, hi3: int,
                           score: ((int, int, int)) -> Option<real>, defaults: (int, int, int))
  {
    && b.performance >= 0.0
    && (forall x: (int, int, int) ::
          (lo1 <= x.0 <= hi1 && lo2 <= x.1 <= hi2 && lo3 <= x.2 <= hi3 && score(x).Some?) ==>
          score(x).value <= b.performance)
    && (b.performance == 0.0 ==> b.params == defaults)
    && (b.performance > 0.0 ==>
          && lo1 <= b.params.0 <= hi1 && lo2 <= b.params.1 <= hi2 && lo3 <= b.params.2 <= hi3
          && score(b.params) == Some(b.performance)
          && forall x: (int, int, int) ::
               (lo1 <= x.0 <= hi1 && lo2 <= x.1 <= hi2 && lo3 <= x.2 <= hi3 && LexLess3(x, b.params)) ==>
               score(x).None? || score(x).value < b.performance)
  }

  /** Scanning the two nested loops from (0, defaults) keeps the optimizer's promise. */
  lemma PairSearch(lo1: int, hi1: int, lo2: int, hi2: int,
                   score: ((int, int)) -> Option<real>, defaults: (int, int))
    ensures Optimal2(Scan(Pairs(lo1, hi1, lo2, hi2), score, Best(0.0, defaults)), lo1, hi1, lo2, hi2, score, defaults)
  {
    var cands := Pairs(lo1, hi1, lo2, hi2);
    var b := Scan(cands, score, Best(0.0, defaults));
    ScanResult(cands, score, Best(0.0, defaults));
    PairsFacts(lo1, hi1, lo2, hi2);
    PairUpper(cands, score, b.performance, lo1, hi1, lo2, hi2);
    if b.performance > 0.0 {
      var i :| FirstToReach(cands, score, i, b.performance) && cands[i] == b.params;
      assert cands[i] in cands;
      PairFirst(cands, score, i, b.performance, lo1, hi1, lo2, hi2);
    }
  }

  lemma PairUpper(cands: seq<(int, int)>, score: ((int, int)) -> Option<real>, v: real,
                  lo1: int, hi1: int, lo2: int, hi2: int)
    requires forall x :: x in cands <==> lo1 <= x.0 <= hi1 && lo2 <= x.1 <= hi2
    requires forall j :: 0 <= j < |cands| && score(cands[j]).Some? ==> score(cands[j]).value <= v
    ensures forall x: (int, int) :: lo1 <= x.0 <= hi1 && lo2 <= x.1 <= hi2 && score(x).Some? ==> score(x).value <= v
  {
    forall x: (int, int) | lo1 <= x.0 <= hi1 && lo2 <= x.1 <= hi2 && score(x).Some?
      ensures score(x).value <= v
    {
      assert x in cands;
      var j :| 0 <= j < |cands| && cands[j] == x;
    }
  }

  lemma PairFirst(cands: seq<(int, int)>, score: ((int, int)) -> Option<real>, i: int, v: real,
                  lo1: int, hi1: int, lo2: int, hi2: int)
    requires forall x :: x in cands <==> lo1 <= x.0 <= hi1 && lo2 <= x.1 <= hi2
    requires Sorted2(cands)
    requires FirstToReach(cands, score, i, v)
    ensures forall x: (int, int) :: lo1 <= x.0 <= hi1 && lo2 <= x.1 <= hi2 && LexLess2(x, cands[i]) ==>
      score(x).None? || score(x).value < v
  {
    forall x: (int, int) | lo1 <= x.0 <= hi1 && lo2 <= x.1 <= hi2 && LexLess2(x, cands[i])
      ensures score(x).None? || score(x).value < v
    {
      assert x in cands;
      var j :| 0 <= j < |cands| && cands[j] == x;
      SortedBefore2(cands, i, j);
    }
  }

  /** Scanning the three nested loops from (0, defaults) keeps the optimizer's promise. */
  lemma TripleSearch(lo1: int, hi1: int, lo2: int, hi2: int, lo3: int, hi3: int,
                     score: ((int, int, int)) -> Option<real>, defaults: (int, int, int))
    ensures Optimal3(Scan(Triples(lo1, hi1, lo2, hi2, lo3, hi3), score, Best(0.0, defaults)),
                     lo1, hi1, lo2, hi2, lo3, hi3, score, defaults)
  {
    var cands := Triples(lo1, hi1, lo2, hi2, lo3, hi3);
    var b := Scan(cands, score, Best(0.0, defaults));
    ScanResult(cands, score, Best(0.0, defaults));
    TriplesFacts(lo1, hi1, lo2, hi2, lo3, hi3);
    TripleUpper(cands, score, b.performance, lo1, hi1, lo2, hi2, lo3, hi3);
    if b.performance > 0.0 {
      var i :| FirstToReach(cands, score, i, b.performance) && cands[i] == b.params;
      assert cands[i] in cands;
      TripleFirst(cands, score, i, b.performance, lo1, hi1, lo2, hi2, lo3, hi3);
    }
  }

  lemma TripleUpper(cands: seq<(int, int, int)>, score: ((int, int, int)) -> Option<real>, v: real,
                    lo1: int, hi1: int, lo2: int, hi2: int, lo3: int, hi3: int)
    requires forall x :: x in cands <==> lo1 <= x.0 <= hi1 && lo2 <= x.1 <= hi2 && lo3 <= x.2 <= hi3
    requires forall j :: 0 <= j < |cands| && score(cands[j]).Some? ==> score(cands[j]).value <= v
    ensures forall x: (int, int, int) ::
      (lo1 <= x.0 <= hi1 && lo2 <= x.1 <= hi2 && lo3 <= x.2 <= hi3 && score(x).Some?) ==> score(x).value <= v
  {
    forall x: (int, int, int) | lo1 <= x.0 <= hi1 && lo2 <= x.1 <= hi2 && lo3 <= x.2 <= hi3 && score(x).Some?
      ensures score(x).value <= v
    {
      assert x in cands;
      var j :| 0 <= j < |cands| && cands[j] == x;
    }
  }

  lemma TripleFirst(cands: seq<(int, int, int)>, score: ((int, int, int)) -> Option<real>, i: int, v: real,
                    lo1: int, hi1: int, lo2: int, hi2: int, lo3: int, hi3: int)
    requires forall x :: x in cands <==> lo1 <= x.0 <= hi1 && lo2 <= x.1 <= hi2 && lo3 <= x.2 <= hi3
    requires Sorted3(cands)
    requires FirstToReach(cands, score, i, v)
    ensures forall x: (int, int, int) ::
      (lo1 <= x.0 <= hi1 && lo2 <= x.1 <= hi2 && lo3 <= x.2 <= hi3 && LexLess3(x, cands[i])) ==>
      score(x).None? || score(x).value < v
  {
    forall x: (int, int, int) | lo1 <= x.0 <= hi1 && lo2 <= x.1 <= hi2 && lo3 <= x.2 <= hi3 && LexLess3(x, cands[i])
      ensures score(x).None? || score(x).value < v
    {
      assert x in cands;
      var j :| 0 <= j < |cands| && cands[j] == x;
      SortedBefore3(cands, i, j);
    }
  }

  /** When no feasible combination scores above 0, the seed is returned unchanged. */
  lemma {:induction false} ScanKeepsSeed<P>(cands: seq<P>, score: P -> Option<real>, init: Best<P>)
    requires forall j :: 0 <= j < |cands| && score(cands[j]).Some? ==> score(cands[j]).value <= init.performance
    ensures Scan(cands, score, init) == init
  {
    ScanResult(cands, score, init);
  }
}
