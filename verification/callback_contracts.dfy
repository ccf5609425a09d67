/** What the engine accepts back from rule and simulator callbacks. */
module CallbackContracts {
  import opened Orders
  import opened Flows

  /** One reported trade, judged with the quantities captured before the callback. */
  predicate TradeAdmissible(
    trades: seq<Trade>, k: nat, view: seq<nat>, before: seq<OrderState>, after: seq<OrderState>, now: int)
    requires k < |trades| && |before| == |after|
    requires forall j :: 0 <= j < |view| ==> view[j] < |before|
  {
    var t := trades[k];
    && t.order in view
    && t.contract == after[t.order].contract
    && after[t.order].timestamp <= t.timestamp == now
    && t.qty != 0
    && ((t.qty > 0) == (before[t.order].qty > 0))
    && Abs(OrderFlow(trades[..k + 1], t.order, Signed)) <= Abs(before[t.order].qty)
  }

  /** An order's fields must fit the trades reported for it: untouched, already filled, or cancelled. */
  predicate Reconciled(before: OrderState, after: OrderState, filled: int) {
    var rest := before.qty - filled;
    || (after.qty == before.qty && after.status == before.status)
    || (filled != 0 && after.qty == rest
        && (after.status == (if rest == 0 then Filled else PartiallyFilled) || after.status == Cancelled))
    || (filled == 0 && after.qty == before.qty && after.status == Cancelled)
  }

  predicate BatchAccepted(
    trades: seq<Trade>, view: seq<nat>, before: seq<OrderState>, after: seq<OrderState>, now: int)
    requires |before| == |after|
    requires forall j :: 0 <= j < |view| ==> view[j] < |before|
  {
    && (forall k :: 0 <= k < |trades| ==> TradeAdmissible(trades, k, view, before, after, now))
    && (forall j :: 0 <= j < |view| ==>
          Reconciled(before[view[j]], after[view[j]], OrderFlow(trades, view[j], Signed)))
  }

  /** The validator's two passes: accumulate fills trade by trade, then reconcile order by order. */
  method ValidateMarketTrades(
    trades: seq<Trade>, view: seq<nat>, before: seq<OrderState>, after: seq<OrderState>, now: int)
    returns (ok: bool, filled: map<int, int>)
    requires |before| == |after|
    requires forall j :: 0 <= j < |view| ==> view[j] < |before|
    ensures ok <==> BatchAccepted(trades, view, before, after, now)
    ensures ok ==> forall j :: 0 <= j < |view| ==>
      OrderFlow(trades, view[j], Signed) == if view[j] in filled then filled[view[j]] else 0
  {
    filled := map[];
    for k := 0 to |trades|
      invariant forall j :: 0 <= j < k ==> TradeAdmissible(trades, j, view, before, after, now)
      invariant forall id: int :: (if id in filled then filled[id] else 0) == OrderFlow(trades[..k], id, Signed)
    {
      var t := trades[k];
      assert trades[..k + 1][..k] == trades[..k];
      if t.order !in view || t.contract != after[t.order].contract || t.timestamp < after[t.order].timestamp
         || t.timestamp != now || t.qty == 0 || (t.qty > 0) != (before[t.order].qty > 0)
      {
        assert !TradeAdmissible(trades, k, view, before, after, now);
        return false, filled;
      }
      var total := (if t.order in filled then filled[t.order] else 0) + t.qty;
      assert total == OrderFlow(trades[..k + 1], t.order, Signed);
      if Abs(total) > Abs(before[t.order].qty) {
        assert !TradeAdmissible(trades, k, view, before, after, now);
        return false, filled;
      }
      filled := filled[t.order := total];
    }
    assert trades[..|trades|] == trades;
    for j := 0 to |view|
      invariant forall h :: 0 <= h < j ==>
        Reconciled(before[view[h]], after[view[h]], OrderFlow(trades, view[h], Signed))
    {
      var id := view[j];
      if !Reconciled(before[id], after[id], if id in filled then filled[id] else 0) {
        return false, filled;
      }
    }
    return true, filled;
  }

  /** Every accepted batch fills a listed order on its own side and no further than what remained of it. */
  lemma {:induction false} AcceptedFillsFit(
    trades: seq<Trade>, view: seq<nat>, before: seq<OrderState>, after: seq<OrderState>, now: int, id: nat)
    requires |before| == |after|
    requires forall j :: 0 <= j < |view| ==> view[j] < |before|
    requires BatchAccepted(trades, view, before, after, now)
    requires id < |before|
    ensures Within(OrderFlow(trades, id, Signed), before[id].qty)
    ensures OrderFlow(trades, id, Absolute) == Abs(OrderFlow(trades, id, Signed))
    ensures id !in view ==> OrderFlow(trades, id, Signed) == 0
    ensures OrderFlow(trades, id, Signed) == 0 ==> forall k :: 0 <= k < |trades| ==> trades[k].order != id
  {
    forall k | 0 <= k < |trades| && trades[k].order == id
      ensures trades[k].qty != 0 && (trades[k].qty > 0) == (before[id].qty > 0) && id in view
    {
      assert TradeAdmissible(trades, k, view, before, after, now);
    }
    OneSidedFlow(trades, id, before[id].qty);
    FillsStayWithin(trades, view, before, after, now, id, |trades|);
    assert trades[..|trades|] == trades;
  }

  /** Prefix form: the running total never passes the captured quantity. */
  lemma {:induction false} FillsStayWithin(
    trades: seq<Trade>, view: seq<nat>, before: seq<OrderState>, after: seq<OrderState>, now: int, id: nat, k: nat)
    requires |before| == |after|
    requires forall j :: 0 <= j < |view| ==> view[j] < |before|
    requires BatchAccepted(trades, view, before, after, now)
    requires id < |before| && k <= |trades|
    ensures Within(OrderFlow(trades[..k], id, Signed), before[id].qty)
  {
    if k > 0 {
      FillsStayWithin(trades, view, before, after, now, id, k - 1);
      assert trades[..k][..k - 1] == trades[..k - 1];
      assert TradeAdmissible(trades, k - 1, view, before, after, now);
    }
  }

  /** What a rule may return for one slot of its result. */
  datatype Submission =
    | Plain(contract: Contract, timestamp: int, qty: int, tif: TimeInForce, status: Status)
    | Roll(contract: Contract, reopen: Contract, timestamp: int, closeQty: int, reopenQty: int, tif: TimeInForce)
    | Malformed  // anything the validator refuses by type: not an order, a repeat, a stop-limit order, bad terms

  /** The orders one submission stands for; a roll becomes two market legs. */
  function ExpandOne(s: Submission, group: string, registered: set<Contract>, now: int): Result<seq<OrderState>> {
    match s
    case Malformed => Raise
    case Plain(c, ts, q, tif, status) =>
      if q == 0 || c.group != group || c !in registered || ts != now then Raise
      else Ok([OrderState(c, ts, tif, q, status)])
    case Roll(c, r, ts, cq, rq, tif) =>
      if c.group != group || c !in registered || ts != now || r !in registered then Raise
      else if cq == 0 || rq == 0 || r == c || r.group != c.group || ((cq > 0) == (rq > 0)) then Raise
      else Ok([OrderState(c, ts, tif, cq, Open), OrderState(r, ts, tif, rq, Open)])
  }

  function ExpandUpTo(subs: seq<Submission>, group: string, registered: set<Contract>, now: int, k: nat):
    Result<seq<OrderState>>
    requires k <= |subs|
  {
    if k == 0 then Ok([])
    else
      var done := ExpandUpTo(subs, group, registered, now, k - 1);
      var next := ExpandOne(subs[k - 1], group, registered, now);
      if done.Raise? || next.Raise? then Raise else Ok(done.value + next.value)
  }

  /** `validate_rule_orders`: the first refused submission refuses the batch. */
  method ValidateRuleOrders(subs: seq<Submission>, group: string, registered: set<Contract>, now: int)
    returns (r: Result<seq<OrderState>>)
    ensures r == ExpandUpTo(subs, group, registered, now, |subs|)
  {
    var orders: seq<OrderState> := [];
    for k := 0 to |subs|
      invariant ExpandUpTo(subs, group, registered, now, k) == Ok(orders)
    {
      var legs := ExpandOne(subs[k], group, registered, now);
      if legs.Raise? {
        RefusalSticks(subs, group, registered, now, k + 1, |subs|);
        return Raise;
      }
      orders := orders + legs.value;
    }
    return Ok(orders);
  }

  lemma {:induction false} RefusalSticks(
    subs: seq<Submission>, group: string, registered: set<Contract>, now: int, k: nat, n: nat)
    requires k <= n <= |subs| && ExpandUpTo(subs, group, registered, now, k).Raise?
    ensures ExpandUpTo(subs, group, registered, now, n).Raise?
  {
    if k < n {
      RefusalSticks(subs, group, registered, now, k, n - 1);
    }
  }

  /** An order taken from a rule: nonzero, in the rule's group, registered, submitted now. The rule chooses its
      status, which the validator only checks to be one. */
  predicate Fresh(o: OrderState, group: string, registered: set<Contract>, now: int) {
    o.qty != 0 && o.contract.group == group && o.contract in registered && o.timestamp == now
  }

  lemma {:induction false} ExpandedAreFresh(
    subs: seq<Submission>, group: string, registered: set<Contract>, now: int, k: nat)
    requires k <= |subs| && ExpandUpTo(subs, group, registered, now, k).Ok?
    ensures forall j :: 0 <= j < |ExpandUpTo(subs, group, registered, now, k).value| ==>
      Fresh(ExpandUpTo(subs, group, registered, now, k).value[j], group, registered, now)
  {
    if k > 0 {
      ExpandedAreFresh(subs, group, registered, now, k - 1);
    }
  }
}
