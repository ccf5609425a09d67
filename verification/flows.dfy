/** Sums over executions: net and absolute quantity, by instrument, group or order, in a time window. */
module Flows {
  import opened Orders

  datatype Trade = Trade(
    order: int, contract: Contract, timestamp: int, qty: int, price: real, fee: real, commission: real)

  /** Which contracts a sum ranges over (`ControlLevel` and its key). */
  datatype Scope = Everything | InGroup(group: string) | InSymbol(symbol: string)
  {
    predicate Has(c: Contract) {
      match this
      case Everything => true
      case InGroup(g) => c.group == g
      case InSymbol(s) => c.symbol == s
    }
  }

  datatype Measure = Signed | Absolute
  {
    function Of(q: int): int {
      if Signed? then q else Abs(q)
    }
  }

  datatype Window = UpTo(last: int) | Between(first: int, last: int)
  {
    predicate Has(t: int) {
      t <= last && (Between? ==> first <= t)
    }
  }

  /** Sum of the trades in a scope and a window. */
  function Flow(trades: seq<Trade>, s: Scope, m: Measure, w: Window): int {
    if |trades| == 0 then 0
    else
      var t := trades[|trades| - 1];
      Flow(trades[..|trades| - 1], s, m, w)
      + if s.Has(t.contract) && w.Has(t.timestamp) then m.Of(t.qty) else 0
  }

  /** Sum of the trades of one order. */
  function OrderFlow(trades: seq<Trade>, order: int, m: Measure): int {
    if |trades| == 0 then 0
    else
      var t := trades[|trades| - 1];
      OrderFlow(trades[..|trades| - 1], order, m) + if t.order == order then m.Of(t.qty) else 0
  }

  lemma {:induction false} FlowAppend(a: seq<Trade>, b: seq<Trade>, s: Scope, m: Measure, w: Window)
    ensures Flow(a + b, s, m, w) == Flow(a, s, m, w) + Flow(b, s, m, w)
  {
    if |b| == 0 {
      assert a + b == a;
    } else {
      FlowAppend(a, b[..|b| - 1], s, m, w);
      assert (a + b)[..|a + b| - 1] == a + b[..|b| - 1];
    }
  }

  lemma {:induction false} OrderFlowAppend(a: seq<Trade>, b: seq<Trade>, order: int, m: Measure)
    ensures OrderFlow(a + b, order, m) == OrderFlow(a, order, m) + OrderFlow(b, order, m)
  {
    if |b| == 0 {
      assert a + b == a;
    } else {
      OrderFlowAppend(a, b[..|b| - 1], order, m);
      assert (a + b)[..|a + b| - 1] == a + b[..|b| - 1];
    }
  }

  /** A later window end adds nothing when no trade lies beyond the earlier one. */
  lemma {:induction false} FlowUpToSettles(trades: seq<Trade>, s: Scope, m: Measure, t: int, t': int)
    requires t <= t' && forall k :: 0 <= k < |trades| ==> trades[k].timestamp <= t
    ensures Flow(trades, s, m, UpTo(t)) == Flow(trades, s, m, UpTo(t'))
  {
    if |trades| > 0 {
      FlowUpToSettles(trades[..|trades| - 1], s, m, t, t');
    }
  }

  /** Sliding a trailing window forward never adds executed quantity. */
  lemma {:induction false} FlowSlides(trades: seq<Trade>, s: Scope, t: int, t': int, width: int)
    requires t <= t' && forall k :: 0 <= k < |trades| ==> trades[k].timestamp <= t
    ensures Flow(trades, s, Absolute, Between(t' - width, t')) <= Flow(trades, s, Absolute, Between(t - width, t))
  {
    if |trades| > 0 {
      FlowSlides(trades[..|trades| - 1], s, t, t', width);
    }
  }

  /** Per-order sums added over a list of orders. */
  function OrdersFlow(trades: seq<Trade>, orders: seq<OrderState>, ids: seq<nat>, s: Scope, m: Measure): int
    requires forall k :: 0 <= k < |ids| ==> ids[k] < |orders|
  {
    if |ids| == 0 then 0
    else
      var id := ids[|ids| - 1];
      OrdersFlow(trades, orders, ids[..|ids| - 1], s, m)
      + if s.Has(orders[id].contract) then OrderFlow(trades, id, m) else 0
  }

  lemma {:induction false} OrdersFlowDropsTrade(
    trades: seq<Trade>, orders: seq<OrderState>, ids: seq<nat>, s: Scope, m: Measure)
    requires |trades| > 0
    requires forall k :: 0 <= k < |ids| ==> ids[k] < |orders|
    requires forall j, k :: 0 <= j < k < |ids| ==> ids[j] != ids[k]
    ensures var t := trades[|trades| - 1]; var rest := trades[..|trades| - 1];
            OrdersFlow(trades, orders, ids, s, m) == OrdersFlow(rest, orders, ids, s, m)
            + if t.order in ids && s.Has(orders[t.order].contract) then m.Of(t.qty) else 0
  {
    if |ids| > 0 {
      OrdersFlowDropsTrade(trades, orders, ids[..|ids| - 1], s, m);
    }
  }

  /** A batch whose trades all belong to the listed orders sums to the sum over those orders. */
  lemma {:induction false} BatchByOrder(
    trades: seq<Trade>, orders: seq<OrderState>, ids: seq<nat>, s: Scope, m: Measure, w: Window)
    requires forall k :: 0 <= k < |ids| ==> ids[k] < |orders|
    requires forall j, k :: 0 <= j < k < |ids| ==> ids[j] != ids[k]
    requires forall k :: 0 <= k < |trades| ==>
      trades[k].order in ids && trades[k].contract == orders[trades[k].order].contract && w.Has(trades[k].timestamp)
    ensures Flow(trades, s, m, w) == OrdersFlow(trades, orders, ids, s, m)
  {
    if |trades| == 0 {
      NoTradesNoFlow(orders, ids, s, m);
    } else {
      BatchByOrder(trades[..|trades| - 1], orders, ids, s, m, w);
      OrdersFlowDropsTrade(trades, orders, ids, s, m);
    }
  }

  lemma NoTradesNoFlow(orders: seq<OrderState>, ids: seq<nat>, s: Scope, m: Measure)
    requires forall k :: 0 <= k < |ids| ==> ids[k] < |orders|
    ensures OrdersFlow([], orders, ids, s, m) == 0
  {}

  /** Fills that share one side add up in size: the absolute total is the size of the net total. */
  lemma {:induction false} OneSidedFlow(trades: seq<Trade>, order: int, side: int)
    requires forall k :: 0 <= k < |trades| && trades[k].order == order ==>
      trades[k].qty != 0 && (trades[k].qty > 0) == (side > 0)
    ensures OrderFlow(trades, order, Absolute) == Abs(OrderFlow(trades, order, Signed))
    ensures OrderFlow(trades, order, Signed) != 0 ==> (OrderFlow(trades, order, Signed) > 0) == (side > 0)
    ensures (exists k :: 0 <= k < |trades| && trades[k].order == order) <==> OrderFlow(trades, order, Signed) != 0
  {
    if |trades| > 0 {
      var rest := trades[..|trades| - 1];
      OneSidedFlow(rest, order, side);
      assert forall k :: 0 <= k < |rest| ==> rest[k] == trades[k];
      if trades[|trades| - 1].order == order {
        assert OrderFlow(trades, order, Signed) != 0;
      } else if exists k :: 0 <= k < |trades| && trades[k].order == order {
        var k :| 0 <= k < |trades| && trades[k].order == order;
        assert rest[k].order == order;
      } else {
        forall k | 0 <= k < |rest| ensures rest[k].order != order {
          assert trades[k].order != order;
        }
      }
    }
  }
}
