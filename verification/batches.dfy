/** Preparing a batch for booking: time order, its symbols, and which calculation times are due. */
module Batches {
  import opened Grid
  import opened Orders
  import opened Flows
  import opened Fifo
  import opened SortedDicts
  import opened Valuation
  import opened ContractLedger
  import opened Options

  // ---- Sorting a batch by time ----

  function InsertByTime(sorted: seq<Trade>, t: Trade): (r: seq<Trade>) {
    if |sorted| == 0 || sorted[|sorted| - 1].timestamp <= t.timestamp then sorted + [t]
    else InsertByTime(sorted[..|sorted| - 1], t) + [sorted[|sorted| - 1]]
  }

  /** `sorted(trades, key=timestamp)`. */
  function SortByTime(trades: seq<Trade>): (r: seq<Trade>) {
    if |trades| == 0 then [] else InsertByTime(SortByTime(trades[..|trades| - 1]), trades[|trades| - 1])
  }

  lemma {:induction false} InsertPermutes(sorted: seq<Trade>, t: Trade)
    ensures multiset(InsertByTime(sorted, t)) == multiset(sorted) + multiset{t}
  {
    if |sorted| > 0 && sorted[|sorted| - 1].timestamp > t.timestamp {
      var n := |sorted| - 1;
      InsertPermutes(sorted[..n], t);
      assert sorted == sorted[..n] + [sorted[n]];
    }
  }

  lemma {:induction false} InsertBelow(sorted: seq<Trade>, t: Trade, last: int)
    requires t.timestamp <= last && forall k :: 0 <= k < |sorted| ==> sorted[k].timestamp <= last
    ensures forall k :: 0 <= k < |InsertByTime(sorted, t)| ==> InsertByTime(sorted, t)[k].timestamp <= last
  {
    if |sorted| > 0 && sorted[|sorted| - 1].timestamp > t.timestamp {
      InsertBelow(sorted[..|sorted| - 1], t, last);
    }
  }

  lemma OrderSnoc(a: seq<Trade>, t: Trade)
    requires InOrder(a) && forall k :: 0 <= k < |a| ==> a[k].timestamp <= t.timestamp
    ensures InOrder(a + [t])
  {}

  lemma OrderHead(a: seq<Trade>)
    requires InOrder(a) && |a| > 0
    ensures InOrder(a[..|a| - 1])
    ensures forall k :: 0 <= k < |a| ==> a[k].timestamp <= a[|a| - 1].timestamp
  {}

  lemma {:induction false} InsertOrders(sorted: seq<Trade>, t: Trade)
    requires InOrder(sorted)
    ensures InOrder(InsertByTime(sorted, t))
  {
    if |sorted| == 0 {
      OrderSnoc(sorted, t);
    } else {
      var n := |sorted| - 1;
      OrderHead(sorted);
      hide InOrder;
      if sorted[n].timestamp <= t.timestamp {
        OrderSnoc(sorted, t);
      } else {
        InsertOrders(sorted[..n], t);
        InsertBelow(sorted[..n], t, sorted[n].timestamp);
        OrderSnoc(InsertByTime(sorted[..n], t), sorted[n]);
      }
    }
  }

  /** `t` when it happened at `time`. */
  function OneAt(t: Trade, time: int): seq<Trade> {
    if t.timestamp == time then [t] else []
  }

  lemma {:induction false} InsertIsStable(sorted: seq<Trade>, t: Trade, time: int)
    ensures AtTime(InsertByTime(sorted, t), time) == AtTime(sorted, time) + OneAt(t, time)
  {
    hide AtTime, OneAt;
    if |sorted| == 0 || sorted[|sorted| - 1].timestamp <= t.timestamp {
      AtSnoc(sorted, t, time);
    } else {
      var head, last := sorted[..|sorted| - 1], sorted[|sorted| - 1];
      InsertIsStable(head, t, time);
      AtSnoc(InsertByTime(head, t), last, time);
      AtSnoc(head, last, time);
      assert sorted == head + [last];
      Swap(AtTime(head, time), t, last, time);
    }
  }

  /** Trades at different times change places freely. */
  lemma Swap(a: seq<Trade>, t: Trade, u: Trade, time: int)
    requires t.timestamp != u.timestamp
    ensures (a + OneAt(t, time)) + OneAt(u, time) == (a + OneAt(u, time)) + OneAt(t, time)
  {
    if t.timestamp == time {
      assert OneAt(u, time) == [];
    } else {
      assert OneAt(t, time) == [];
    }
  }

  lemma AtSnoc(a: seq<Trade>, t: Trade, time: int)
    ensures AtTime(a + [t], time) == AtTime(a, time) + OneAt(t, time)
  {
    assert (a + [t])[..|a|] == a;
  }

  lemma NothingToSort(time: int)
    ensures InOrder([]) && AtTime([], time) == []
  {}

  /** Sorting is exactly that: in time order, a permutation, and stable among equal times. */
  lemma {:induction false} SortSorts(trades: seq<Trade>, time: int)
    ensures InOrder(SortByTime(trades))
    ensures multiset(SortByTime(trades)) == multiset(trades)
    ensures AtTime(SortByTime(trades), time) == AtTime(trades, time)
  {
    hide InsertByTime, InOrder, AtTime, OneAt;
    if |trades| == 0 {
      NothingToSort(time);
    } else {
      var rest, t := trades[..|trades| - 1], trades[|trades| - 1];
      SortSorts(rest, time);
      InsertPermutes(SortByTime(rest), t);
      InsertOrders(SortByTime(rest), t);
      InsertIsStable(SortByTime(rest), t, time);
      AtSnoc(rest, t, time);
      assert trades == rest + [t];
    }
  }

  /** A batch of one moment is already sorted. */
  lemma {:induction false} OneMomentIsSorted(trades: seq<Trade>, now: int)
    requires forall k :: 0 <= k < |trades| ==> trades[k].timestamp == now
    ensures SortByTime(trades) == trades
  {
    if |trades| > 0 {
      var rest := trades[..|trades| - 1];
      OneMomentIsSorted(rest, now);
      assert trades == rest + [trades[|trades| - 1]];
    }
  }

  lemma {:induction false} InsertMarks(m: Market, sorted: seq<Trade>, t: Trade, time: int, i: nat)
    ensures MarkToMarket(m, InsertByTime(sorted, t), time, i) == MarkToMarket(m, sorted + [t], time, i)
  {
    hide Worth, MarkToMarket;
    MarkSnoc(m, sorted, t, time, i);
    if |sorted| > 0 && sorted[|sorted| - 1].timestamp > t.timestamp {
      var n := |sorted| - 1;
      InsertMarks(m, sorted[..n], t, time, i);
      MarkSnoc(m, sorted[..n], t, time, i);
      MarkSnoc(m, sorted[..n], sorted[n], time, i);
      MarkSnoc(m, InsertByTime(sorted[..n], t), sorted[n], time, i);
      assert sorted == sorted[..n] + [sorted[n]];
    }
  }

  /** The valuation does not depend on the order a batch was handed over in. */
  lemma {:induction false} SortMarks(m: Market, trades: seq<Trade>, time: int, i: nat)
    ensures MarkToMarket(m, SortByTime(trades), time, i) == MarkToMarket(m, trades, time, i)
  {
    hide Worth, MarkToMarket;
    if |trades| > 0 {
      var rest, t := trades[..|trades| - 1], trades[|trades| - 1];
      SortMarks(m, rest, time, i);
      InsertMarks(m, SortByTime(rest), t, time, i);
      MarkSnoc(m, SortByTime(rest), t, time, i);
      MarkSnoc(m, rest, t, time, i);
      assert trades == rest + [t];
    }
  }

  // ---- The symbols of a batch ----

  /** Keys of `trades_by_contract`: symbols in order of first appearance. */
  function NamesOf(trades: seq<Trade>): (r: seq<string>) {
    if |trades| == 0 then []
    else
      var rest := NamesOf(trades[..|trades| - 1]);
      var s := trades[|trades| - 1].contract.symbol;
      if s in rest then rest else rest + [s]
  }

  predicate HasSymbol(trades: seq<Trade>, symbol: string) {
    exists k :: 0 <= k < |trades| && trades[k].contract.symbol == symbol
  }

  lemma HasSymbolSnoc(trades: seq<Trade>, t: Trade, symbol: string)
    ensures HasSymbol(trades + [t], symbol) <==> HasSymbol(trades, symbol) || t.contract.symbol == symbol
  {
    var all := trades + [t];
    if HasSymbol(trades, symbol) {
      var k :| 0 <= k < |trades| && trades[k].contract.symbol == symbol;
      assert all[k].contract.symbol == symbol;
    }
    assert all[|trades|] == t;
  }

  lemma {:induction false} NamesFacts(trades: seq<Trade>)
    ensures Distinct(NamesOf(trades))
    ensures forall s :: s in NamesOf(trades) <==> HasSymbol(trades, s)
  {
    hide HasSymbol;
    if |trades| == 0 {
      NoSymbols();
    } else {
      var rest, t := trades[..|trades| - 1], trades[|trades| - 1];
      NamesFacts(rest);
      assert trades == rest + [t];
      forall s ensures s in NamesOf(trades) <==> HasSymbol(trades, s) {
        HasSymbolSnoc(rest, t, s);
      }
    }
  }

  lemma NoSymbols()
    ensures forall s :: !HasSymbol([], s)
  {}

  lemma {:induction false} NoneOf(trades: seq<Trade>, symbol: string)
    requires !HasSymbol(trades, symbol)
    ensures BySymbol(trades, symbol) == []
  {
    if |trades| > 0 {
      HasSymbolSnoc(trades[..|trades| - 1], trades[|trades| - 1], symbol);
      assert trades == trades[..|trades| - 1] + [trades[|trades| - 1]];
      NoneOf(trades[..|trades| - 1], symbol);
    }
  }

  lemma {:induction false} BySymbolInOrder(trades: seq<Trade>, symbol: string)
    requires InOrder(trades)
    ensures InOrder(BySymbol(trades, symbol))
  {
    if |trades| > 0 {
      BySymbolInOrder(trades[..|trades| - 1], symbol);
    }
  }

  // ---- Daily calculation times ----

  /** Calculation times after the last cached one, up to `t`, and `t` itself at the end. */
  function Elapsed(calcTimes: seq<int>, after: Option<int>, t: int): (r: seq<int>)
    requires Increasing(calcTimes)
    ensures forall c :: c in r <==> c in calcTimes && c <= t && (after.Some? ==> c > after.value)
    ensures Increasing(r)
  {
    if |calcTimes| == 0 then []
    else
      var n := |calcTimes| - 1;
      var c := calcTimes[n];
      assert calcTimes == calcTimes[..n] + [c];
      var before := Elapsed(calcTimes[..n], after, t);
      assert forall k :: 0 <= k < |before| ==> before[k] in before && before[k] in calcTimes[..n];
      before + if c <= t && (after.Some? ==> c > after.value) then [c] else []
  }

  /** The times, with `t` at the end. */
  function EndWith(times: seq<int>, t: int): (r: seq<int>)
    requires Increasing(times) && forall c :: c in times ==> c <= t
    ensures Increasing(r) && |r| > 0 && r[|r| - 1] == t
    ensures forall c :: c in r <==> c == t || c in times
  {
    assert forall k :: 0 <= k < |times| ==> times[k] in times;
    if |times| == 0 || times[|times| - 1] != t then times + [t] else times
  }

  function Due(calcTimes: seq<int>, after: Option<int>, t: int): (r: seq<int>)
    requires Increasing(calcTimes) && (after.Some? ==> after.value < t)
    ensures Increasing(r) && |r| > 0 && r[|r| - 1] == t
    ensures forall c :: c in r <==> c == t || (c in calcTimes && c <= t && (after.Some? ==> c > after.value))
  {
    EndWith(Elapsed(calcTimes, after, t), t)
  }
}
