/** First-in-first-out netting of whole-unit lots, the kernel below the ledger. */
module Fifo {
  import opened Orders

  datatype Lot = Lot(qty: int, price: real)

  datatype Netting = Netting(lots: seq<Lot>, realized: real)

  /** Value of a signed quantity at a price. */
  function Times(qty: int, price: real): real {
    qty as real * price
  }

  lemma TimesAdds(a: int, b: int, price: real)
    ensures Times(a + b, price) == Times(a, price) + Times(b, price)
    ensures Times(-a, price) == -Times(a, price)
  {
    assert (-a) as real == -(a as real) && (a + b) as real == a as real + b as real;
  }

  lemma TimesNone(price: real)
    ensures Times(0, price) == 0.0
    ensures Times(1, price) == price
  {}

  lemma TimesSpreads(a: int, p: real, q: real)
    ensures Times(a, p - q) == Times(a, p) - Times(a, q)
    ensures Times(-a, p - q) == Times(a, q - p)
  {
    assert (-a) as real == -(a as real);
  }

  predicate Live(lots: seq<Lot>) {
    forall k :: 0 <= k < |lots| ==> lots[k].qty != 0
  }

  /** What an open position looks like: nonempty lots, all long or all short. */
  predicate OneSided(lots: seq<Lot>) {
    && Live(lots)
    && forall j, k :: 0 <= j < k < |lots| ==> (lots[j].qty > 0) == (lots[k].qty > 0)
  }

  function DropZero(lots: seq<Lot>): (r: seq<Lot>)
    ensures Live(r)
  {
    if |lots| == 0 then []
    else DropZero(lots[..|lots| - 1]) + if lots[|lots| - 1].qty != 0 then [lots[|lots| - 1]] else []
  }

  function Qty(lots: seq<Lot>): int {
    if |lots| == 0 then 0 else lots[0].qty + Qty(lots[1..])
  }

  /** Signed cost of a list of lots. */
  function Cost(lots: seq<Lot>): real {
    if |lots| == 0 then 0.0 else Times(lots[0].qty, lots[0].price) + Cost(lots[1..])
  }

  /** Signed part of the oldest lot that an opposite trade closes. */
  function Matched(lot: int, trade: int): int {
    if Abs(lot) <= Abs(trade) then lot else -trade
  }

  function Head(lots: seq<Lot>, qty: int): seq<Lot>
    requires |lots| > 0
  {
    if qty == 0 then lots[1..] else lots[0 := lots[0].(qty := qty)]
  }

  predicate Opens(lots: seq<Lot>, trades: seq<Lot>)
    requires |trades| > 0
  {
    |lots| == 0 || (lots[0].qty > 0) == (trades[0].qty > 0)
  }

  /** The netting of a list of trades against open lots. */
  function Net(lots: seq<Lot>, trades: seq<Lot>): (r: Netting)
    requires Live(lots) && Live(trades)
    ensures Live(r.lots)
    decreases 2 * |trades| + |lots|
  {
    if |trades| == 0 then Netting(lots, 0.0)
    else if Opens(lots, trades) then Net(lots + [trades[0]], trades[1..])
    else
      var m := Matched(lots[0].qty, trades[0].qty);
      var rest := Net(Head(lots, lots[0].qty - m), Head(trades, trades[0].qty + m));
      Netting(rest.lots, Times(m, trades[0].price - lots[0].price) + rest.realized)
  }

  /** `calc_trade_pnl`, up to the final multiplication by the contract multiplier. */
  method CalcTradePnl(open: seq<Lot>, incoming: seq<Lot>) returns (lots: seq<Lot>, realized: real)
    ensures Netting(lots, realized) == Net(DropZero(open), DropZero(incoming))
  {
    hide Times, DropZero;
    var trades := DropZero(incoming);
    lots := DropZero(open);
    realized := 0.0;
    while |trades| > 0
      invariant Live(lots) && Live(trades)
      invariant var rest := Net(lots, trades);
                Netting(rest.lots, realized + rest.realized) == Net(DropZero(open), DropZero(incoming))
      decreases 2 * |trades| + |lots|
    {
      if |lots| == 0 || (lots[0].qty > 0) == (trades[0].qty > 0) {
        lots, trades := lots + [trades[0]], trades[1..];
      } else {
        var m := if Abs(lots[0].qty) <= Abs(trades[0].qty) then lots[0].qty else -trades[0].qty;
        realized := realized + Times(m, trades[0].price - lots[0].price);
        lots, trades := Head(lots, lots[0].qty - m), Head(trades, trades[0].qty + m);
      }
    }
  }

  lemma NetNothing(lots: seq<Lot>)
    requires Live(lots)
    ensures Net(lots, []) == Netting(lots, 0.0)
  {}

  lemma NetOpens(lots: seq<Lot>, trades: seq<Lot>)
    requires Live(lots) && Live(trades) && |trades| > 0 && Opens(lots, trades)
    ensures Live(lots + [trades[0]]) && Net(lots, trades) == Net(lots + [trades[0]], trades[1..])
  {}

  lemma NetCloses(lots: seq<Lot>, trades: seq<Lot>)
    requires Live(lots) && Live(trades) && |trades| > 0 && !Opens(lots, trades)
    ensures var m := Matched(lots[0].qty, trades[0].qty);
            var lots', trades' := Head(lots, lots[0].qty - m), Head(trades, trades[0].qty + m);
            && Live(lots') && Live(trades') && 2 * |trades'| + |lots'| < 2 * |trades| + |lots|
            && Net(lots, trades) == Netting(Net(lots', trades').lots,
                                            Times(m, trades[0].price - lots[0].price) + Net(lots', trades').realized)
  {
    hide Times;
  }

  // ---- Conservation ----

  lemma {:induction false} SumsAppend(a: seq<Lot>, b: seq<Lot>)
    ensures Qty(a + b) == Qty(a) + Qty(b) && Cost(a + b) == Cost(a) + Cost(b)
  {
    if |a| == 0 {
      assert a + b == b;
    } else {
      SumsAppend(a[1..], b);
      assert (a + b)[1..] == a[1..] + b;
    }
  }

  lemma HeadSums(lots: seq<Lot>, qty: int)
    requires |lots| > 0
    ensures Qty(Head(lots, qty)) == Qty(lots) - lots[0].qty + qty
    ensures Cost(Head(lots, qty)) == Cost(lots) - Times(lots[0].qty - qty, lots[0].price)
  {
    hide Times;
    TimesAdds(lots[0].qty - qty, qty, lots[0].price);
    TimesNone(lots[0].price);
    assert lots[0 := lots[0].(qty := qty)][1..] == lots[1..];
  }

  /** Netting conserves quantity, and cost up to what it realizes. */
  lemma {:induction false} NetConserves(lots: seq<Lot>, trades: seq<Lot>)
    requires Live(lots) && Live(trades)
    ensures var r := Net(lots, trades);
            && Qty(r.lots) == Qty(lots) + Qty(trades)
            && Cost(r.lots) == Cost(lots) + Cost(trades) + r.realized
    decreases 2 * |trades| + |lots|
  {
    hide Times, Net, Matched, Head;
    if |trades| == 0 {
      NetNothing(lots);
    } else if Opens(lots, trades) {
      NetOpens(lots, trades);
      NetConserves(lots + [trades[0]], trades[1..]);
      SumsAppend(lots, [trades[0]]);
    } else {
      NetCloses(lots, trades);
      var m := Matched(lots[0].qty, trades[0].qty);
      HeadSums(lots, lots[0].qty - m);
      HeadSums(trades, trades[0].qty + m);
      TimesAdds(m, 0, trades[0].price);
      TimesSpreads(m, trades[0].price, lots[0].price);
      NetConserves(Head(lots, lots[0].qty - m), Head(trades, trades[0].qty + m));
    }
  }

  lemma {:induction false} NetStaysOneSided(lots: seq<Lot>, trades: seq<Lot>)
    requires OneSided(lots) && Live(trades)
    ensures OneSided(Net(lots, trades).lots)
    decreases 2 * |trades| + |lots|
  {
    if |trades| == 0 {
    } else if Opens(lots, trades) {
      NetStaysOneSided(lots + [trades[0]], trades[1..]);
    } else {
      var m := Matched(lots[0].qty, trades[0].qty);
      NetStaysOneSided(Head(lots, lots[0].qty - m), Head(trades, trades[0].qty + m));
    }
  }

  /** An open position is flat only when no lot is left, so a flat position carries no cost. */
  lemma {:induction false} FlatIsEmpty(lots: seq<Lot>)
    requires OneSided(lots)
    ensures Qty(lots) == 0 <==> lots == []
    ensures |lots| > 0 ==> (Qty(lots) > 0) == (lots[0].qty > 0)
  {
    if |lots| > 1 {
      FlatIsEmpty(lots[1..]);
    }
  }

  /** Netting in batches is netting all at once. */
  lemma {:induction false} NetChains(lots: seq<Lot>, a: seq<Lot>, b: seq<Lot>)
    requires Live(lots) && Live(a) && Live(b)
    ensures var first := Net(lots, a); var second := Net(first.lots, b);
            Net(lots, a + b) == Netting(second.lots, first.realized + second.realized)
    decreases 2 * |a| + |lots|
  {
    hide Times, Net, Matched;
    if |a| == 0 {
      assert a + b == b;
      NetNothing(lots);
    } else if Opens(lots, a) {
      NetOpens(lots, a);
      NetOpens(lots, a + b);
      assert (a + b)[1..] == a[1..] + b;
      NetChains(lots + [a[0]], a[1..], b);
    } else {
      NetCloses(lots, a);
      NetCloses(lots, a + b);
      var m := Matched(lots[0].qty, a[0].qty);
      assert Head(a + b, a[0].qty + m) == Head(a, a[0].qty + m) + b;
      NetChains(Head(lots, lots[0].qty - m), Head(a, a[0].qty + m), b);
    }
  }

  // ---- Reference: one unit at a time ----

  datatype Unit = Unit(long: bool, price: real)

  datatype UnitBook = UnitBook(units: seq<Unit>, realized: real)

  function Copies(n: nat, u: Unit): (r: seq<Unit>)
    ensures |r| == n && forall k :: 0 <= k < n ==> r[k] == u
  {
    seq(n, _ => u)
  }

  /** A list of lots as single units, oldest first. */
  function Units(lots: seq<Lot>): seq<Unit> {
    if |lots| == 0 then []
    else Copies(Abs(lots[0].qty), Unit(lots[0].qty > 0, lots[0].price)) + Units(lots[1..])
  }

  function Gain(open: Unit, close: Unit): real {
    if open.long then close.price - open.price else open.price - close.price
  }

  /** A unit on the other side closes the oldest open unit; otherwise it opens a new one. */
  function MatchUnits(open: seq<Unit>, trades: seq<Unit>): UnitBook
    decreases |trades|
  {
    if |trades| == 0 then UnitBook(open, 0.0)
    else if |open| == 0 || open[0].long == trades[0].long then MatchUnits(open + [trades[0]], trades[1..])
    else
      var rest := MatchUnits(open[1..], trades[1..]);
      UnitBook(rest.units, Gain(open[0], trades[0]) + rest.realized)
  }

  lemma {:induction false} UnitsAppend(a: seq<Lot>, b: seq<Lot>)
    ensures Units(a + b) == Units(a) + Units(b)
  {
    hide Copies;
    if |a| == 0 {
      assert a + b == b;
    } else {
      UnitsAppend(a[1..], b);
      assert (a + b)[1..] == a[1..] + b;
      var front := Copies(Abs(a[0].qty), Unit(a[0].qty > 0, a[0].price));
      assert front + (Units(a[1..]) + Units(b)) == (front + Units(a[1..])) + Units(b);
    }
  }

  lemma NoUnits(open: seq<Unit>)
    ensures MatchUnits(open, []) == UnitBook(open, 0.0)
  {}

  lemma {:induction false} OpensUnits(open: seq<Unit>, n: nat, u: Unit, rest: seq<Unit>)
    requires |open| == 0 || open[0].long == u.long
    decreases n
    ensures MatchUnits(open, Copies(n, u) + rest) == MatchUnits(open + Copies(n, u), rest)
  {
    var all := Copies(n, u) + rest;
    if n == 0 {
      assert all == rest && open + Copies(n, u) == open;
    } else {
      assert all[1..] == Copies(n - 1, u) + rest;
      OpensUnits(open + [u], n - 1, u, rest);
      assert open + [u] + Copies(n - 1, u) == open + Copies(n, u);
    }
  }

  lemma {:induction false} ClosesUnits(n: nat, u: Unit, open: seq<Unit>, v: Unit, trades: seq<Unit>)
    requires u.long != v.long
    ensures var rest := MatchUnits(open, trades);
            MatchUnits(Copies(n, u) + open, Copies(n, v) + trades)
            == UnitBook(rest.units, Times(n, Gain(u, v)) + rest.realized)
  {
    hide Times, Gain;
    var a, b := Copies(n, u) + open, Copies(n, v) + trades;
    if n == 0 {
      TimesNone(Gain(u, v));
      assert a == open && b == trades;
    } else {
      assert a[1..] == Copies(n - 1, u) + open && b[1..] == Copies(n - 1, v) + trades;
      ClosesUnits(n - 1, u, open, v, trades);
      TimesAdds(n - 1, 1, Gain(u, v));
      TimesNone(Gain(u, v));
    }
  }

  /** Taking part of the oldest lot takes that many units from the front. */
  lemma HeadUnits(lots: seq<Lot>, part: int)
    requires |lots| > 0 && Within(part, lots[0].qty)
    ensures Units(lots) == Copies(Abs(part), Unit(lots[0].qty > 0, lots[0].price))
      + Units(Head(lots, lots[0].qty - part))
  {
    var rest := lots[0].qty - part;
    var u := Unit(lots[0].qty > 0, lots[0].price);
    assert Copies(Abs(lots[0].qty), u) == Copies(Abs(part), u) + Copies(Abs(rest), u);
    if rest != 0 {
      assert lots[0 := lots[0].(qty := rest)][1..] == lots[1..];
    }
  }

  /** The lot-wise kernel computes unit-by-unit first-in-first-out matching. */
  lemma {:induction false} NetIsFifo(lots: seq<Lot>, trades: seq<Lot>)
    requires Live(lots) && Live(trades)
    ensures MatchUnits(Units(lots), Units(trades))
      == UnitBook(Units(Net(lots, trades).lots), Net(lots, trades).realized)
    decreases 2 * |trades| + |lots|
  {
    hide Times, Gain, MatchUnits;
    if |trades| == 0 {
      NoUnits(Units(lots));
    } else if Opens(lots, trades) {
      var t := trades[0];
      OpensUnits(Units(lots), Abs(t.qty), Unit(t.qty > 0, t.price), Units(trades[1..]));
      UnitsAppend(lots, [t]);
      assert Units([t]) == Copies(Abs(t.qty), Unit(t.qty > 0, t.price));
      NetIsFifo(lots + [t], trades[1..]);
    } else {
      ClosingStep(lots, trades);
      var m := Matched(lots[0].qty, trades[0].qty);
      NetIsFifo(Head(lots, lots[0].qty - m), Head(trades, trades[0].qty + m));
    }
  }

  lemma ClosingStep(lots: seq<Lot>, trades: seq<Lot>)
    requires Live(lots) && Live(trades) && |trades| > 0 && !Opens(lots, trades)
    ensures var m := Matched(lots[0].qty, trades[0].qty);
            var rest := MatchUnits(Units(Head(lots, lots[0].qty - m)), Units(Head(trades, trades[0].qty + m)));
            MatchUnits(Units(lots), Units(trades))
            == UnitBook(rest.units, Times(m, trades[0].price - lots[0].price) + rest.realized)
  {
    hide Times, MatchUnits, Units, Head;
    var m := Matched(lots[0].qty, trades[0].qty);
    var u, v := Unit(lots[0].qty > 0, lots[0].price), Unit(trades[0].qty > 0, trades[0].price);
    HeadUnits(lots, m);
    HeadUnits(trades, -m);
    ClosesUnits(Abs(m), u, Units(Head(lots, lots[0].qty - m)), v, Units(Head(trades, trades[0].qty + m)));
    TimesSpreads(m, lots[0].price, trades[0].price);
  }
}
