/** What one engine step may do to the orders and the account, and the sums this leaves bounded. */
module EngineSteps {
  import opened Grid
  import opened Orders
  import opened Flows
  import opened CallbackContracts
  import opened Risk
  import opened Engine

  /** The admissible evolution of one order while `filled` of it executes. */
  predicate Progress(before: OrderState, after: OrderState, filled: int) {
    && SameIdentity(before, after)
    && after.qty == before.qty - filled && Within(filled, before.qty)
    && (!before.IsOpen() ==> after == before && filled == 0)
    && (before.qty != 0 && after.IsOpen() ==> after.qty != 0)
    && (after.status == Filled ==> after.qty == 0 || after == before)
  }

  /** An order may execute at index `i`: its lag has passed, fill-or-kill exactly now, DAY on its own date. */
  predicate Tradable(cfg: Config, i: nat, o: OrderState)
    requires Increasing(cfg.times) && i < |cfg.times|
  {
    && SubmissionIndex(cfg, o) + cfg.lag <= i
    && (o.tif == FOK ==> i == SubmissionIndex(cfg, o) + cfg.lag)
    && (o.tif == DAY ==> Day(cfg.times[i]) == Day(o.timestamp))
  }

  /** The executions of one step: for open, tradable orders, now, on their own side. */
  ghost predicate BatchFits(cfg: Config, e: State, i: nat, batch: seq<Trade>)
    requires Increasing(cfg.times) && i < |cfg.times| && e.WellFormed()
  {
    forall k :: 0 <= k < |batch| ==>
      var t := batch[k];
      && t.order in e.current && e.orders[t.order].IsOpen()
      && t.contract == e.orders[t.order].contract && t.timestamp == cfg.times[i]
      && t.qty != 0 && ((t.qty > 0) == (e.orders[t.order].qty > 0))
      && Tradable(cfg, i, e.orders[t.order])
  }

  /** A step that books `batch` and moves every order accordingly, leaving the pending list alone. */
  ghost predicate Advances(cfg: Config, e: State, e': State, i: nat, batch: seq<Trade>)
    requires Increasing(cfg.times) && i < |cfg.times| && e.WellFormed()
  {
    && e'.proposed == e.proposed && e'.current == e.current && |e'.orders| == |e.orders|
    && e'.trades == e.trades + batch
    && BatchFits(cfg, e, i, batch)
    && forall id :: 0 <= id < |e.orders| ==> Progress(e.orders[id], e'.orders[id], OrderFlow(batch, id, Signed))
  }

  predicate Ascending(ids: seq<nat>) {
    forall j, k :: 0 <= j < k < |ids| ==> ids[j] < ids[k]
  }

  lemma {:induction false} KeepOpenSelects(orders: seq<OrderState>, ids: seq<nat>)
    requires forall k :: 0 <= k < |ids| ==> ids[k] < |orders|
    requires Ascending(ids)
    ensures Ascending(KeepOpen(orders, ids))
    ensures forall id :: id in KeepOpen(orders, ids) <==> id in ids && orders[id].IsOpen()
  {
    if |ids| > 0 {
      var n := |ids| - 1;
      KeepOpenSelects(orders, ids[..n]);
      assert ids == ids[..n] + [ids[n]];
      var kept := KeepOpen(orders, ids[..n]);
      forall j | 0 <= j < |kept| ensures kept[j] < ids[n] {
        assert kept[j] in kept;
        assert kept[j] in ids[..n];
      }
    }
  }

  lemma {:induction false} KeepListedSelects(ids: seq<nat>, keep: set<nat>)
    requires Ascending(ids)
    ensures Ascending(KeepListed(ids, keep))
    ensures forall id :: id in KeepListed(ids, keep) <==> id in ids && id in keep
  {
    if |ids| > 0 {
      var n := |ids| - 1;
      KeepListedSelects(ids[..n], keep);
      assert ids == ids[..n] + [ids[n]];
      var kept := KeepListed(ids[..n], keep);
      forall j | 0 <= j < |kept| ensures kept[j] < ids[n] {
        assert kept[j] in kept;
        assert kept[j] in ids[..n];
      }
    }
  }

  // ---- Each phase is such a step ----

  /** Pointwise effect of the expiry loop. */
  lemma {:induction false} ExpiryPointwise(cfg: Config, e: State, i: nat, k: nat)
    requires Increasing(cfg.times) && i < |cfg.times| && e.WellFormed() && k <= |e.current|
    requires Ascending(e.current)
    requires forall j :: 0 <= j < |e.current| ==> Placed(cfg, i, e.orders[e.current[j]])
    ensures ExpireUpTo(cfg, e, i, k).Done?
    ensures forall j :: 0 <= j < |e.current| ==>
      ExpireUpTo(cfg, e, i, k).state.orders[e.current[j]]
      == if j < k then Expire(cfg, i, e.orders[e.current[j]]) else e.orders[e.current[j]]
    ensures forall id :: 0 <= id < |e.orders| && id !in e.current ==>
      ExpireUpTo(cfg, e, i, k).state.orders[id] == e.orders[id]
  {
    hide Expire, Placed;
    if k > 0 {
      ExpiryPointwise(cfg, e, i, k - 1);
      var x := ExpireUpTo(cfg, e, i, k - 1).state;
      assert x.orders[e.current[k - 1]] == e.orders[e.current[k - 1]];
    }
  }

  lemma {:induction false} ExpiryAdvances(cfg: Config, e: State, i: nat)
    requires Increasing(cfg.times) && i < |cfg.times| && e.WellFormed()
    requires Ascending(e.current)
    requires forall j :: 0 <= j < |e.current| ==> Placed(cfg, i, e.orders[e.current[j]])
    ensures var r := ExpireUpTo(cfg, e, i, |e.current|);
            r.Done? && Advances(cfg, e, r.state, i, [])
            && (forall id :: id in EligibleUpTo(cfg, r.state, i, |r.state.current|) ==>
                  id in e.current && r.state.orders[id].IsOpen() && Tradable(cfg, i, r.state.orders[id]))
  {
    hide Expire, Tradable;
    ExpiryPointwise(cfg, e, i, |e.current|);
    var r := ExpireUpTo(cfg, e, i, |e.current|);
    assert r.state.trades == e.trades + [];
    forall id | 0 <= id < |e.orders|
      ensures Progress(e.orders[id], r.state.orders[id], OrderFlow([], id, Signed))
    {
      if id in e.current {
        var j :| 0 <= j < |e.current| && e.current[j] == id;
        ExpiryIsProgress(cfg, i, e.orders[id]);
      }
    }
    forall id | id in EligibleUpTo(cfg, r.state, i, |r.state.current|)
      ensures id in e.current && r.state.orders[id].IsOpen() && Tradable(cfg, i, r.state.orders[id])
    {
      var j :| 0 <= j < |e.current| && e.current[j] == id;
      ExpirySettles(cfg, i, e.orders[id]);
    }
  }

  lemma ExpiryIsProgress(cfg: Config, i: nat, o: OrderState)
    requires Increasing(cfg.times) && i < |cfg.times|
    ensures Progress(o, Expire(cfg, i, o), 0)
  {}

  /** After expiry, an order still open is never overdue. */
  lemma ExpirySettles(cfg: Config, i: nat, o: OrderState)
    requires Increasing(cfg.times) && i < |cfg.times| && Placed(cfg, i, o)
    ensures var o' := Expire(cfg, i, o);
            EligibleOrder(cfg, i, o') ==> Tradable(cfg, i, o')
  {
    var idx := SubmissionIndex(cfg, o);
    var o' := Expire(cfg, i, o);
    assert SubmissionIndex(cfg, o') == idx;
    if EligibleOrder(cfg, i, o') && o.tif == DAY {
      assert o.timestamp <= cfg.times[idx];
      assert cfg.times[idx] <= cfg.times[i];
      DayMonotone(o.timestamp, cfg.times[i]);
    }
  }

  lemma DayMonotone(a: int, b: int)
    requires a <= b
    ensures Day(a) <= Day(b)
  {}

  lemma {:induction false} SettledPointwise(
    before: seq<OrderState>, after: seq<OrderState>, trades: seq<Trade>, view: seq<nat>, k: nat)
    requires |before| == |after| && k <= |view| && Ascending(view)
    requires forall j :: 0 <= j < |view| ==> view[j] < |before|
    requires SettleUpTo(before, after, trades, view, k).Ok?
    ensures forall id :: 0 <= id < |before| ==>
      if id in view[..k] then
        SettleOrder(before[id], after[id], OrderFlow(trades, id, Signed))
          == Ok(SettleUpTo(before, after, trades, view, k).value[id])
      else SettleUpTo(before, after, trades, view, k).value[id] == after[id]
  {
    if k > 0 {
      SettledPointwise(before, after, trades, view, k - 1);
      assert view[..k] == view[..k - 1] + [view[k - 1]];
      assert view[k - 1] !in view[..k - 1];
    }
  }

  /** Reconciliation in its three accepted shapes always ends with exactly the reported fill applied. */
  lemma SettleIsProgress(before: OrderState, after: OrderState, filled: int)
    requires before.IsOpen() && SameIdentity(before, after) && Reconciled(before, after, filled)
    requires Within(filled, before.qty) && SettleOrder(before, after, filled).Ok?
    ensures Progress(before, SettleOrder(before, after, filled).value, filled)
  {
    FillConserves(after, filled);
  }

  /** An accepted simulator batch fits the engine's books. */
  lemma AcceptedBatchFits(cfg: Config, e: State, i: nat, eligible: set<nat>, after: seq<OrderState>, trades: seq<Trade>)
    requires Increasing(cfg.times) && i < |cfg.times| && e.WellFormed() && Ascending(e.current) && |after| == |e.orders|
    requires forall id :: id in e.current ==> e.orders[id].IsOpen()
    requires forall id :: id in eligible && id in e.current ==> Tradable(cfg, i, e.orders[id])
    requires SimGuardsHold(e, after, eligible)
    requires BatchAccepted(trades, KeepListed(e.current, eligible), e.orders, after, cfg.times[i])
    ensures BatchFits(cfg, e, i, trades)
  {
    var view := KeepListed(e.current, eligible);
    KeepListedSelects(e.current, eligible);
    forall k | 0 <= k < |trades|
      ensures trades[k].order in view
      ensures trades[k].contract == e.orders[trades[k].order].contract && trades[k].timestamp == cfg.times[i]
      ensures trades[k].qty != 0 && ((trades[k].qty > 0) == (e.orders[trades[k].order].qty > 0))
    {
      assert TradeAdmissible(trades, k, view, e.orders, after, cfg.times[i]);
      var id := trades[k].order;
      var j :| 0 <= j < |e.current| && e.current[j] == id;
      assert SameIdentity(e.orders[id], after[id]);
    }
  }

  lemma SimStepAdvances(cfg: Config, e: State, i: nat, eligible: set<nat>, script: SimScript)
    requires Increasing(cfg.times) && i < |cfg.times| && e.WellFormed() && Ascending(e.current)
    requires forall id :: id in eligible && id in e.current && e.orders[id].IsOpen() ==> Tradable(cfg, i, e.orders[id])
    ensures var r := SimStep(cfg, e, i, eligible, script);
            Advances(cfg, Prune(e), r.state, i, if r.Done? then script.trades else [])
  {
    hide Tradable, SettleUpTo, OrderFlow, BatchAccepted, KeepListed;
    var e1 := Prune(e);
    KeepOpenSelects(e.orders, e.current);
    hide KeepOpen;
    var r := SimStep(cfg, e, i, eligible, script);
    if r.Raised? {
      assert e1.trades == e1.trades + [];
      forall id | 0 <= id < |e1.orders| ensures Progress(e1.orders[id], e1.orders[id], OrderFlow([], id, Signed)) {
        IdleIsProgress(e1.orders[id], id);
      }
    } else {
      var view := KeepListed(e1.current, eligible);
      var after := Written(e1, script.writes);
      AcceptedBatchFits(cfg, e1, i, eligible, after, script.trades);
      forall id: nat | id < |e1.orders|
        ensures Progress(e1.orders[id], r.state.orders[id], OrderFlow(script.trades, id, Signed))
      {
        SettledProgress(cfg, e1, i, eligible, script, id);
      }
    }
  }

  lemma IdleIsProgress(o: OrderState, id: int)
    ensures Progress(o, o, OrderFlow([], id, Signed))
  {}

  /** After an accepted simulator call, every order has moved by exactly its reported fill. */
  lemma SettledProgress(cfg: Config, e: State, i: nat, eligible: set<nat>, script: SimScript, id: nat)
    requires i < |cfg.times| && e.WellFormed() && Ascending(e.current) && id < |e.orders|
    requires forall id :: id in e.current ==> e.orders[id].IsOpen()
    requires SimGuardsHold(e, Written(e, script.writes), eligible)
    requires BatchAccepted(script.trades, KeepListed(e.current, eligible), e.orders, Written(e, script.writes),
      cfg.times[i])
    requires SettleUpTo(e.orders, Written(e, script.writes), script.trades, KeepListed(e.current, eligible),
                        |KeepListed(e.current, eligible)|).Ok?
    ensures var view := KeepListed(e.current, eligible);
            var settled := SettleUpTo(e.orders, Written(e, script.writes), script.trades, view, |view|).value;
            Progress(e.orders[id], settled[id], OrderFlow(script.trades, id, Signed))
  {
    var view := KeepListed(e.current, eligible);
    var after := Written(e, script.writes);
    KeepListedSelects(e.current, eligible);
    SettledPointwise(e.orders, after, script.trades, view, |view|);
    assert view[..|view|] == view;
    AcceptedFillsFit(script.trades, view, e.orders, after, cfg.times[i], id);
    if id in view {
      var j :| 0 <= j < |view| && view[j] == id;
      var k :| 0 <= k < |e.current| && e.current[k] == id;
      SettleIsProgress(e.orders[id], after[id], OrderFlow(script.trades, id, Signed));
    } else if id in e.current {
      var k :| 0 <= k < |e.current| && e.current[k] == id;
      assert Unchanged(e.orders[id], after[id], false);
    }
  }

  lemma RuleAdvances(cfg: Config, e: State, i: nat, rule: RuleScript)
    requires Increasing(cfg.times) && i < |cfg.times| && e.WellFormed()
    ensures Advances(cfg, e, GetOrders(cfg, e, i, rule).state, i, [])
  {
    var r := GetOrders(cfg, e, i, rule).state;
    assert r.trades == e.trades + [];
    forall id | 0 <= id < |e.orders|
      ensures Progress(e.orders[id], r.orders[id], OrderFlow([], id, Signed))
    {
      if id in e.current {
        var k :| 0 <= k < |e.current| && e.current[k] == id;
      }
    }
  }

  // ---- The sums a step leaves bounded ----

  function Pending(e: State): seq<OrderState>
    requires e.WellFormed()
  {
    StatesOf(e.orders, e.current)
  }

  /** Orders that progress release at least the reservation their fills consume. */
  lemma {:induction false} ProgressReleases(
    before: seq<OrderState>, after: seq<OrderState>, batch: seq<Trade>, ids: seq<nat>, symbol: string, s: Scope)
    requires |before| == |after| && forall k :: 0 <= k < |ids| ==> ids[k] < |before|
    requires forall k :: 0 <= k < |ids| ==>
      && Progress(before[ids[k]], after[ids[k]], OrderFlow(batch, ids[k], Signed))
      && OrderFlow(batch, ids[k], Absolute) == Abs(OrderFlow(batch, ids[k], Signed))
    ensures var net := OrdersFlow(batch, before, ids, InSymbol(symbol), Signed);
            && PendingLow(StatesOf(before, ids), symbol) <= PendingLow(StatesOf(after, ids), symbol) + net
            && PendingHigh(StatesOf(after, ids), symbol) + net <= PendingHigh(StatesOf(before, ids), symbol)
    ensures PendingAbs(StatesOf(after, ids), s) + OrdersFlow(batch, before, ids, s, Absolute)
            <= PendingAbs(StatesOf(before, ids), s)
  {
    hide OrderFlow, Progress;
    if |ids| > 0 {
      var n := |ids| - 1;
      var id := ids[n];
      ProgressReleases(before, after, batch, ids[..n], symbol, s);
      ReleaseOne(before[id], after[id], OrderFlow(batch, id, Signed), symbol, s);
      assert StatesOf(before, ids)[..n] == StatesOf(before, ids[..n]);
      assert StatesOf(after, ids)[..n] == StatesOf(after, ids[..n]);
    }
  }

  /** One order's reservation shrinks by at least what it filled. */
  lemma ReleaseOne(before: OrderState, after: OrderState, filled: int, symbol: string, s: Scope)
    requires Progress(before, after, filled)
    ensures before.contract == after.contract
    ensures (if Reserves(before, symbol) then Min0(before.qty) else 0)
            <= (if Reserves(after, symbol) then Min0(after.qty) else 0)
               + if before.contract.symbol == symbol then filled else 0
    ensures (if Reserves(after, symbol) then Max0(after.qty) else 0)
      + (if before.contract.symbol == symbol then filled else 0)
            <= if Reserves(before, symbol) then Max0(before.qty) else 0
    ensures (if after.IsOpen() && s.Has(after.contract) then Abs(after.qty) else 0)
            + (if s.Has(before.contract) then Abs(filled) else 0)
            <= if before.IsOpen() && s.Has(before.contract) then Abs(before.qty) else 0
  {}

  lemma StatesAppend(orders: seq<OrderState>, ids: seq<nat>, id: nat)
    requires id < |orders| && forall k :: 0 <= k < |ids| ==> ids[k] < |orders|
    ensures StatesOf(orders, ids + [id]) == StatesOf(orders, ids) + [orders[id]]
  {
    assert (ids + [id])[..|ids|] == ids;
  }

  lemma {:induction false} PruneKeepsSums(orders: seq<OrderState>, ids: seq<nat>, symbol: string, s: Scope)
    requires forall k :: 0 <= k < |ids| ==> ids[k] < |orders|
    ensures SameSums(StatesOf(orders, KeepOpen(orders, ids)), StatesOf(orders, ids), symbol, s)
  {
    if |ids| > 0 {
      var n := |ids| - 1;
      var kept := KeepOpen(orders, ids[..n]);
      PruneKeepsSums(orders, ids[..n], symbol, s);
      SameSumsSnoc(StatesOf(orders, kept), StatesOf(orders, ids[..n]), orders[ids[n]], symbol, s);
      StatesAppend(orders, kept, ids[n]);
      assert KeepOpen(orders, ids) == if orders[ids[n]].IsOpen() then kept + [ids[n]] else kept;
    }
  }

  lemma SameSumsSnoc(a: seq<OrderState>, b: seq<OrderState>, o: OrderState, symbol: string, s: Scope)
    requires SameSums(a, b, symbol, s)
    ensures SameSums(if o.IsOpen() then a + [o] else a, b + [o], symbol, s)
  {
    assert (a + [o])[..|a|] == a;
    assert (b + [o])[..|b|] == b;
  }

  predicate SameSums(a: seq<OrderState>, b: seq<OrderState>, symbol: string, s: Scope) {
    && PendingLow(a, symbol) == PendingLow(b, symbol)
    && PendingHigh(a, symbol) == PendingHigh(b, symbol)
    && PendingAbs(a, s) == PendingAbs(b, s)
  }

  /** Position plus whatever may still fill, at the low and the high end, and the budget in use. */
  function Low(e: State, t: int, symbol: string): int
    requires e.WellFormed()
  {
    Flow(e.trades, InSymbol(symbol), Signed, UpTo(t)) + PendingLow(Pending(e), symbol)
  }

  function High(e: State, t: int, symbol: string): int
    requires e.WellFormed()
  {
    Flow(e.trades, InSymbol(symbol), Signed, UpTo(t)) + PendingHigh(Pending(e), symbol)
  }

  function BudgetUse(e: State, t: int, width: int, s: Scope): int
    requires e.WellFormed()
  {
    Flow(e.trades, s, Absolute, Between(t - width, t)) + PendingAbs(Pending(e), s)
  }

  /** The batch of a step, summed order by order. */
  lemma AdvanceFlows(
    cfg: Config, e: State, e': State, i: nat, batch: seq<Trade>, s: Scope, m: Measure, w: Window)
    requires Increasing(cfg.times) && i < |cfg.times| && e.WellFormed() && Ascending(e.current)
    requires Advances(cfg, e, e', i, batch) && w.Has(cfg.times[i])
    ensures Flow(e'.trades, s, m, w) == Flow(e.trades, s, m, w) + OrdersFlow(batch, e.orders, e.current, s, m)
  {
    FlowAppend(e.trades, batch, s, m, w);
    forall k | 0 <= k < |batch|
      ensures batch[k].order in e.current && batch[k].contract == e.orders[batch[k].order].contract
      ensures w.Has(batch[k].timestamp)
    {}
    BatchByOrder(batch, e.orders, e.current, s, m, w);
  }

  /** Fills of one step have one side per order. */
  lemma BatchOneSided(cfg: Config, e: State, i: nat, batch: seq<Trade>, id: nat)
    requires Increasing(cfg.times) && i < |cfg.times| && e.WellFormed()
    requires BatchFits(cfg, e, i, batch) && id < |e.orders|
    ensures OrderFlow(batch, id, Absolute) == Abs(OrderFlow(batch, id, Signed))
    ensures OrderFlow(batch, id, Signed) == 0 ==> forall k :: 0 <= k < |batch| ==> batch[k].order != id
  {
    OneSidedFlow(batch, id, e.orders[id].qty);
  }

  lemma StepReleases(
    cfg: Config, e: State, e': State, i: nat, batch: seq<Trade>, symbol: string, s: Scope)
    requires Increasing(cfg.times) && i < |cfg.times| && e.WellFormed() && e'.WellFormed()
    requires Advances(cfg, e, e', i, batch)
    ensures var net := OrdersFlow(batch, e.orders, e.current, InSymbol(symbol), Signed);
            && PendingLow(Pending(e), symbol) <= PendingLow(Pending(e'), symbol) + net
            && PendingHigh(Pending(e'), symbol) + net <= PendingHigh(Pending(e), symbol)
    ensures PendingAbs(Pending(e'), s) + OrdersFlow(batch, e.orders, e.current, s, Absolute)
            <= PendingAbs(Pending(e), s)
  {
    forall k | 0 <= k < |e.current|
      ensures OrderFlow(batch, e.current[k], Absolute) == Abs(OrderFlow(batch, e.current[k], Signed))
    {
      BatchOneSided(cfg, e, i, batch, e.current[k]);
    }
    ProgressReleases(e.orders, e'.orders, batch, e.current, symbol, s);
  }

  /** A step never widens the reachable range of any symbol and never raises the budget in use. */
  lemma AdvanceNarrows(
    cfg: Config, e: State, e': State, i: nat, batch: seq<Trade>, symbol: string, s: Scope, width: nat)
    requires Increasing(cfg.times) && i < |cfg.times| && e.WellFormed() && e'.WellFormed() && Ascending(e.current)
    requires Advances(cfg, e, e', i, batch)
    ensures Narrower(e, e', cfg.times[i], symbol, s, width)
  {
    hide BatchFits, Flow, OrdersFlow, PendingLow, PendingHigh, PendingAbs;
    var t := cfg.times[i];
    StepReleases(cfg, e, e', i, batch, symbol, s);
    AdvanceFlows(cfg, e, e', i, batch, s, Absolute, Between(t - width, t));
    AdvanceFlows(cfg, e, e', i, batch, InSymbol(symbol), Signed, UpTo(t));
  }

  predicate Narrower(e: State, e': State, t: int, symbol: string, s: Scope, width: nat)
    requires e.WellFormed() && e'.WellFormed()
  {
    && Low(e, t, symbol) <= Low(e', t, symbol)
    && High(e', t, symbol) <= High(e, t, symbol)
    && BudgetUse(e', t, width, s) <= BudgetUse(e, t, width, s)
  }
}
