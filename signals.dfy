/** The signal list of app/models/indicator/macd.go, used for every indicator family:
    a growable list of Buy/Sell events whose gates keep it strictly alternating,
    and the profit score of such a list. */
module Signals {

  datatype Action = Buy | Sell

  /** One recorded event (the database ID is not modelled). */
  datatype Signal = Signal(symbol: string, time: int, price: real, action: Action)

  /** Event i is a Buy when i is even and a Sell when i is odd. */
  ghost predicate Alternating(h: seq<Signal>) {
    forall i :: 0 <= i < |h| ==> h[i].action == (if i % 2 == 0 then Buy else Sell)
  }

  /** The Buy gate: the list is empty or its last action is a Sell. */
  predicate BuyAllowed(h: seq<Signal>) {
    |h| == 0 || h[|h| - 1].action == Sell
  }

  /** The Sell gate: the list is non-empty and its last action is a Buy. */
  predicate SellAllowed(h: seq<Signal>) {
    |h| != 0 && h[|h| - 1].action == Buy
  }

  /** The list after a Buy request: one Buy event appended when the gate allows it. */
  function TryBuy(h: seq<Signal>, symbol: string, time: int, price: real): seq<Signal> {
    if BuyAllowed(h) then h + [Signal(symbol, time, price, Buy)] else h
  }

  /** The list after a Sell request: one Sell event appended when the gate allows it. */
  function TrySell(h: seq<Signal>, symbol: string, time: int, price: real): seq<Signal> {
    if SellAllowed(h) then h + [Signal(symbol, time, price, Sell)] else h
  }

  /** The three accumulators of the profit walk. */
  datatype Tally = Tally(profit: real, afterSell: real, holding: bool)

  /** The accumulators after walking the events of h in order. */
  function TallyOf(h: seq<Signal>): Tally
    decreases |h|
  {
    if h == [] then Tally(0.0, 0.0, false)
    else
      var t := TallyOf(h[..|h| - 1]);
      var e := h[|h| - 1];
      match e.action
      case Buy => Tally(t.profit - e.price, t.afterSell, true)
      case Sell => Tally(t.profit + e.price, t.profit + e.price, false)
  }

  /** The score of a list: the running balance, or the balance at the last Sell
      when the walk ends holding a position. */
  function ProfitOf(h: seq<Signal>): real {
    var t := TallyOf(h);
    if t.holding then t.afterSell else t.profit
  }

  /** Reference definition: the sum of (sell price - buy price) over the complete
      pairs (h[0], h[1]), (h[2], h[3]), ...; a trailing unpaired event adds nothing. */
  function RoundTripSum(h: seq<Signal>): real
    decreases |h|
  {
    if |h| < 2 then 0.0 else (h[1].price - h[0].price) + RoundTripSum(h[2..])
  }

  /** A recorded Buy or Sell request, for replaying a sequence of calls. */
  datatype Request = BuyRequest(symbol: string, time: int, price: real)
                   | SellRequest(symbol: string, time: int, price: real)

  /** The list obtained by issuing the requests in order, starting from h. */
  function Replay(h: seq<Signal>, requests: seq<Request>): seq<Signal>
    decreases |requests|
  {
    if requests == [] then h
    else
      var r := requests[0];
      var h' := match r
        case BuyRequest(s, t, p) => TryBuy(h, s, t, p)
        case SellRequest(s, t, p) => TrySell(h, s, t, p);
      Replay(h', requests[1..])
  }

  // ---------------------------------------------------------------------------
  // Gates

  /** The two gates are complementary, and on an alternating list CanBuy holds
      exactly at even length (no open position). */
  lemma GatesOnAlternating(h: seq<Signal>)
    ensures Alternating(h) ==> (BuyAllowed(h) <==> |h| % 2 == 0)
    ensures Alternating(h) ==> (SellAllowed(h) <==> |h| % 2 == 1)
  {
    if |h| > 0 && Alternating(h) {
      assert h[|h| - 1].action == (if (|h| - 1) % 2 == 0 then Buy else Sell);
    }
  }

  /** The Buy gate is the negation of the Sell gate on every list. */
  lemma GatesComplementary(h: seq<Signal>)
    ensures BuyAllowed(h) <==> !SellAllowed(h)
  {
  }

  /** A gated Buy keeps the list alternating. */
  lemma TryBuyAlternating(h: seq<Signal>, symbol: string, time: int, price: real)
    requires Alternating(h)
    ensures Alternating(TryBuy(h, symbol, time, price))
  {
    GatesOnAlternating(h);
  }

  /** A gated Sell keeps the list alternating. */
  lemma TrySellAlternating(h: seq<Signal>, symbol: string, time: int, price: real)
    requires Alternating(h)
    ensures Alternating(TrySell(h, symbol, time, price))
  {
    GatesOnAlternating(h);
  }

  /** Any sequence of Buy/Sell calls made on an empty list leaves it alternating,
      beginning with a Buy. */
  lemma {:induction false} ReplayAlternating(h: seq<Signal>, requests: seq<Request>)
    requires Alternating(h)
    ensures Alternating(Replay(h, requests))
    decreases |requests|
  {
    if requests != [] {
      var h' := match requests[0]
        case BuyRequest(s, t, p) => TryBuy(h, s, t, p)
        case SellRequest(s, t, p) => TrySell(h, s, t, p);
      match requests[0] {
        case BuyRequest(s, t, p) => TryBuyAlternating(h, s, t, p);
        case SellRequest(s, t, p) => TrySellAlternating(h, s, t, p);
      }
      ReplayAlternating(h', requests[1..]);
    }
  }

  /** Alternating is the same as "the first action is Buy and no two consecutive
      actions are equal". */
  lemma {:induction false} AlternatingIff(h: seq<Signal>)
    ensures Alternating(h) <==>
      ((h != [] ==> h[0].action == Buy) &&
       forall i :: 0 < i < |h| ==> h[i].action != h[i - 1].action)
  {
    if (h != [] ==> h[0].action == Buy) && forall i :: 0 < i < |h| ==> h[i].action != h[i - 1].action {
      var k := 0;
      while k < |h|
        invariant 0 <= k <= |h|
        invariant forall i :: 0 <= i < k ==> h[i].action == (if i % 2 == 0 then Buy else Sell)
      {
        if k > 0 {
          assert h[k].action != h[k - 1].action;
        }
        k := k + 1;
      }
    }
    if Alternating(h) {
      forall i | 0 < i < |h| ensures h[i].action != h[i - 1].action {
        assert h[i].action == (if i % 2 == 0 then Buy else Sell);
        assert h[i - 1].action == (if (i - 1) % 2 == 0 then Buy else Sell);
      }
    }
  }

  // ---------------------------------------------------------------------------
  // Profit

  /** The empty list scores 0. */
  lemma ProfitEmpty()
    ensures ProfitOf([]) == 0.0
  {
  }

  /** One round trip scores its sell price minus its buy price. */
  lemma ProfitOneRoundTrip(buy: Signal, sell: Signal)
    requires buy.action == Buy && sell.action == Sell
    ensures ProfitOf([buy, sell]) == sell.price - buy.price
  {
    assert [buy, sell][..1] == [buy];
    assert [buy][..0] == [];
    assert TallyOf([buy]) == Tally(0.0 - buy.price, 0.0, true);
  }

  /** A trailing unmatched Buy is ignored by the score, whatever the list before it. */
  lemma ProfitIgnoresTrailingBuy(h: seq<Signal>, symbol: string, time: int, price: real)
    ensures ProfitOf(h + [Signal(symbol, time, price, Buy)]) == ProfitOf(h)
  {
    TallyOfSnoc(h, Signal(symbol, time, price, Buy));
  }

  lemma {:induction false} RoundTripSumAppendOne(h: seq<Signal>, e: Signal)
    requires |h| % 2 == 0
    ensures RoundTripSum(h + [e]) == RoundTripSum(h)
    decreases |h|
  {
    if |h| >= 2 {
      assert (h + [e])[2..] == h[2..] + [e];
      RoundTripSumAppendOne(h[2..], e);
    }
  }

  lemma {:induction false} RoundTripSumAppendPair(h: seq<Signal>, b: Signal, s: Signal)
    requires |h| % 2 == 0
    ensures RoundTripSum(h + [b, s]) == RoundTripSum(h) + (s.price - b.price)
    decreases |h|
  {
    if |h| >= 2 {
      assert (h + [b, s])[2..] == h[2..] + [b, s];
      RoundTripSumAppendPair(h[2..], b, s);
    } else {
      assert h == [];
      assert h + [b, s] == [b, s];
      assert [b, s][2..] == [];
    }
  }

  /** Walking one more event applies one step of the accumulator update. */
  lemma TallyOfSnoc(p: seq<Signal>, e: Signal)
    ensures TallyOf(p + [e]) ==
      (match e.action
       case Buy => Tally(TallyOf(p).profit - e.price, TallyOf(p).afterSell, true)
       case Sell => Tally(TallyOf(p).profit + e.price, TallyOf(p).profit + e.price, false))
  {
    assert (p + [e])[..|p|] == p;
  }

  /** Dropping the last event of an alternating list keeps it alternating. */
  lemma AlternatingPrefix(h: seq<Signal>)
    requires Alternating(h) && h != []
    ensures Alternating(h[..|h| - 1])
  {
    var p := h[..|h| - 1];
    forall i | 0 <= i < |p| ensures p[i].action == (if i % 2 == 0 then Buy else Sell) {
      assert p[i] == h[i];
    }
  }

  /** On an alternating list the accumulators are determined by the complete round trips. */
  lemma {:induction false} TallyOfAlternating(h: seq<Signal>)
    requires Alternating(h)
    ensures |h| % 2 == 0 ==> TallyOf(h) == Tally(RoundTripSum(h), RoundTripSum(h), false)
    ensures |h| % 2 == 1 ==>
      TallyOf(h) == Tally(RoundTripSum(h) - h[|h| - 1].price, RoundTripSum(h), true)
    decreases |h|
  {
    if h != [] {
      var p := h[..|h| - 1];
      var e := h[|h| - 1];
      assert p + [e] == h;
      AlternatingPrefix(h);
      TallyOfAlternating(p);
      TallyOfSnoc(p, e);
      if |h| % 2 == 1 {
        assert e.action == Buy;
        RoundTripSumAppendOne(p, e);
      } else {
        assert e.action == Sell;
        var q := p[..|p| - 1];
        var b := p[|p| - 1];
        assert q + [b] == p;
        assert q + [b, e] == h;
        RoundTripSumAppendOne(q, b);
        RoundTripSumAppendPair(q, b, e);
      }
    }
  }

  /** For an alternating list the score is the sum of (sell - buy) over its
      complete Buy/Sell pairs. */
  lemma ProfitIsRoundTripSum(h: seq<Signal>)
    requires Alternating(h)
    ensures ProfitOf(h) == RoundTripSum(h)
  {
    TallyOfAlternating(h);
  }

  // ---------------------------------------------------------------------------
  // The list object

  /** The MacdSignals struct: its one field is the slice of recorded events. */
  class SignalList {
    var signals: seq<Signal>

    /** The invariant every Buy/Sell call keeps. */
    ghost predicate Valid()
      reads this
    {
      Alternating(signals)
    }

    /** An empty list (the struct literal `indicator.MacdSignals{}`). */
    constructor ()
      ensures signals == [] && Valid()
    {
      signals := [];
    }

    /** CanBuy: true exactly when the list is empty or ends with a Sell; on a valid
        list that is exactly when it holds an even number of events. */
    function CanBuy(): (r: bool)
      reads this
      ensures r <==> (signals == [] || signals[|signals| - 1].action == Action.Sell)
      ensures Valid() ==> (r <==> |signals| % 2 == 0)
    {
      GatesOnAlternating(signals);
      BuyAllowed(signals)
    }

    /** CanSell: true exactly when the list is non-empty and ends with a Buy; it is
        always the negation of CanBuy. */
    function CanSell(): (r: bool)
      reads this
      ensures r <==> (signals != [] && signals[|signals| - 1].action == Action.Buy)
      ensures r <==> !CanBuy()
    {
      SellAllowed(signals)
    }

    /** Buy: appends one Buy event and answers true when CanBuy holds; otherwise
        answers false and leaves the list unchanged. */
    method Buy(symbol: string, time: int, price: real) returns (ok: bool)
      modifies this
      ensures ok == old(CanBuy())
      ensures ok ==> signals == old(signals) + [Signal(symbol, time, price, Action.Buy)]
      ensures !ok ==> signals == old(signals)
      ensures signals == TryBuy(old(signals), symbol, time, price)
      ensures old(Valid()) ==> Valid()
    {
      if !CanBuy() {
        return false;
      }
      if Valid() { TryBuyAlternating(signals, symbol, time, price); }
      signals := signals + [Signal(symbol, time, price, Action.Buy)];
      return true;
    }

    /** Sell: appends one Sell event and answers true when CanSell holds; otherwise
        answers false and leaves the list unchanged. */
    method Sell(symbol: string, time: int, price: real) returns (ok: bool)
      modifies this
      ensures ok == old(CanSell())
      ensures ok ==> signals == old(signals) + [Signal(symbol, time, price, Action.Sell)]
      ensures !ok ==> signals == old(signals)
      ensures signals == TrySell(old(signals), symbol, time, price)
      ensures old(Valid()) ==> Valid()
    {
      if !CanSell() {
        return false;
      }
      if Valid() { TrySellAlternating(signals, symbol, time, price); }
      signals := signals + [Signal(symbol, time, price, Action.Sell)];
      return true;
    }

    /** Profit: the walk over the events with a running balance, the balance at the
        last Sell and a holding flag; on a valid list it is the sum of the complete
        round trips. */
    method Profit() returns (p: real)
      ensures p == ProfitOf(signals)
      ensures Valid() ==> p == RoundTripSum(signals)
    {
      var profit := 0.0;
      var afterSell := 0.0;
      var isHolding := false;
      var i := 0;
      while i < |signals|
        invariant 0 <= i <= |signals|
        invariant TallyOf(signals[..i]) == Tally(profit, afterSell, isHolding)
      {
        var signal := signals[i];
        assert signals[..i + 1][..i] == signals[..i];
        if signal.action == Action.Buy {
          profit := profit - signal.price;
          isHolding := true;
        } else if signal.action == Action.Sell {
          profit := profit + signal.price;
          afterSell := profit;
          isHolding := false;
        }
        i := i + 1;
      }
      assert signals[..i] == signals;
      if Valid() { ProfitIsRoundTripSum(signals); }
      if isHolding {
        return afterSell;
      }
      return profit;
    }
  }
}
