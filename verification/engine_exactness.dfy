/** What the engine refuses, and nothing more: the converses of the safety results. */
module EngineExactness {
  import opened Grid
  import opened Orders
  import opened Flows
  import opened CallbackContracts
  import opened Risk
  import opened Engine
  import opened EngineSteps
  import opened EngineSafety

  // ---- Admission ----

  /** The first policy that objects settles the decision; an order is accepted exactly when none does. */
  lemma {:induction false} FirstObjectionDecides(
    order: OrderState, ctx: Context, policies: seq<Policy>, verdicts: seq<Verdict>, k: nat)
    requires k <= |policies|
    ensures var d := DecideFrom(order, ctx, policies, verdicts, k);
            && (d == Accepted <==>
                  forall j :: k <= j < |policies| ==>
                    Evaluate(policies[j], order, ctx, VerdictAt(verdicts, j)) == Accept)
            && (d.Rejected? ==>
                  && k <= d.policy < |policies|
                  && Evaluate(policies[d.policy], order, ctx, VerdictAt(verdicts, d.policy)) == Reject
                  && forall j :: k <= j < d.policy ==>
                    Evaluate(policies[j], order, ctx, VerdictAt(verdicts, j)) == Accept)
            && (d == Failed ==>
                  exists p :: k <= p < |policies|
                    && Evaluate(policies[p], order, ctx, VerdictAt(verdicts, p)) == Error
                    && forall j :: k <= j < p ==> Evaluate(policies[j], order, ctx, VerdictAt(verdicts, j)) == Accept)
    decreases |policies| - k
  {
    hide Evaluate;
    if k < |policies| {
      FirstObjectionDecides(order, ctx, policies, verdicts, k + 1);
    }
  }

  /** The position policy accepts an order exactly when no partial filling of it and of everything pending
      takes the position past the cap on the order's own side. */
  lemma CapRefusesOnlyReachableBreaches(m: real, order: OrderState, ctx: Context, v: Verdict)
    requires order.IsOpen() && order.qty != 0
    ensures Evaluate(MaxPositionQuantity(m), order, ctx, v) == Accept <==>
      forall fills :: PartialFills(ctx.open + [order], order.contract.symbol, fills) ==>
        WithinCap(m, order, Position(ctx, order.contract.symbol) + Total(fills))
  {
    var symbol := order.contract.symbol;
    var worst := if order.qty > 0 then Upper(ctx, order) else Lower(ctx, order);
    if Evaluate(MaxPositionQuantity(m), order, ctx, v) == Accept {
      forall fills | PartialFills(ctx.open + [order], symbol, fills)
        ensures WithinCap(m, order, Position(ctx, symbol) + Total(fills))
      {
        BoundsAreExact(ctx, order, Position(ctx, symbol) + Total(fills));
      }
    } else {
      PendingSigns(ctx.open, symbol);
      BoundsAreExact(ctx, order, worst);
      var fills :| PartialFills(ctx.open + [order], symbol, fills) && Position(ctx, symbol) + Total(fills) == worst;
      assert !WithinCap(m, order, Position(ctx, symbol) + Total(fills));
    }
  }

  predicate WithinCap(m: real, order: OrderState, position: int) {
    if order.qty > 0 then position as real <= m else position as real >= -m
  }

  // ---- Expiry and eligibility ----

  /** After the expiry loop the eligible orders are exactly those that were pending, open and not being
      cancelled, and may trade now; every order it leaves open it leaves untouched. */
  lemma EligibleIsExact(cfg: Config, e: State, i: nat, id: nat)
    requires Increasing(cfg.times) && i < |cfg.times| && e.WellFormed() && Ascending(e.current) && id < |e.orders|
    requires forall j :: 0 <= j < |e.current| ==> Placed(cfg, i, e.orders[e.current[j]])
    ensures var r := ExpireUpTo(cfg, e, i, |e.current|);
            var o := e.orders[id];
            && r.Done?
            && (id in EligibleUpTo(cfg, r.state, i, |e.current|) <==>
                  id in e.current && (o.status.Open? || o.status.PartiallyFilled?) && Tradable(cfg, i, o))
            && (r.state.orders[id].IsOpen() ==> r.state.orders[id] == o)
  {
    hide Tradable, Placed, Expire;
    ExpiryPointwise(cfg, e, i, |e.current|);
    var r := ExpireUpTo(cfg, e, i, |e.current|);
    EligibleSelects(cfg, r.state, i, |e.current|);
    if id in e.current {
      var j :| 0 <= j < |e.current| && e.current[j] == id;
      ExpiryLeavesTradable(cfg, i, e.orders[id]);
    } else {
      assert r.state.orders[id] == e.orders[id];
    }
  }

  lemma {:induction false} EligibleSelects(cfg: Config, e: State, i: nat, k: nat)
    requires Increasing(cfg.times) && e.WellFormed() && k <= |e.current|
    ensures forall id :: id in EligibleUpTo(cfg, e, i, k) <==>
      id in e.current[..k] && EligibleOrder(cfg, i, e.orders[id])
  {
    hide EligibleOrder;
    if k > 0 {
      EligibleSelects(cfg, e, i, k - 1);
      assert e.current[..k] == e.current[..k - 1] + [e.current[k - 1]];
    }
  }

  lemma ExpiryLeavesTradable(cfg: Config, i: nat, o: OrderState)
    requires Increasing(cfg.times) && i < |cfg.times| && Placed(cfg, i, o)
    ensures EligibleOrder(cfg, i, Expire(cfg, i, o)) <==>
      (o.status.Open? || o.status.PartiallyFilled?) && Tradable(cfg, i, o)
    ensures Expire(cfg, i, o).IsOpen() ==> Expire(cfg, i, o) == o
  {
    ExpirySettles(cfg, i, o);
  }

  // ---- Simulators ----

  /** An order the engine can fill: open, with no cancellation pending. */
  predicate Fillable(o: OrderState) {
    o.status.Open? || o.status.PartiallyFilled?
  }

  /** Everything asked of one simulator call. */
  predicate Acceptable(cfg: Config, e: State, i: nat, eligible: set<nat>, script: SimScript)
    requires i < |cfg.times| && e.WellFormed()
  {
    var e1 := Prune(e);
    var after := Written(e1, script.writes);
    && !script.raises && SimGuardsHold(e1, after, eligible)
    && BatchAccepted(script.trades, KeepListed(e1.current, eligible), e1.orders, after, cfg.times[i])
    && (script.trades == [] || script.accountAccepts)
  }

  /** A report is worth the same whether the simulator applied the fill itself or left it to the engine. */
  lemma BothReportingStylesAgree(before: OrderState, filled: int)
    requires Fillable(before) && filled != 0 && Within(filled, before.qty)
    ensures var rest := before.qty - filled;
            var applied := before.(qty := rest, status := if rest == 0 then Filled else PartiallyFilled);
            && Reconciled(before, before, filled) && Reconciled(before, applied, filled)
            && SettleOrder(before, before, filled) == SettleOrder(before, applied, filled) == Result.Ok(applied)
  {}

  lemma SettlingSucceeds(before: OrderState, after: OrderState, filled: int)
    requires Fillable(before) && Reconciled(before, after, filled) && Within(filled, before.qty)
    ensures SettleOrder(before, after, filled).Ok?
    ensures SettleOrder(before, after, filled).value.IsOpen() ==> Fillable(SettleOrder(before, after, filled).value)
  {}

  /** The engine's own fills never fail: on fillable orders an accepted report always settles. */
  lemma {:induction false} SettlingAllSucceeds(
    before: seq<OrderState>, after: seq<OrderState>, trades: seq<Trade>, view: seq<nat>, now: int, k: nat)
    requires |before| == |after| && k <= |view| && Ascending(view)
    requires forall j :: 0 <= j < |view| ==> view[j] < |before| && Fillable(before[view[j]])
    requires BatchAccepted(trades, view, before, after, now)
    ensures SettleUpTo(before, after, trades, view, k).Ok?
    ensures forall j :: 0 <= j < k && SettleUpTo(before, after, trades, view, k).value[view[j]].IsOpen() ==>
      Fillable(SettleUpTo(before, after, trades, view, k).value[view[j]])
    ensures forall id :: 0 <= id < |before| && id !in view[..k] ==>
      SettleUpTo(before, after, trades, view, k).value[id] == after[id]
  {
    hide Fillable, Reconciled, TradeAdmissible, SettleOrder;
    if k > 0 {
      SettlingAllSucceeds(before, after, trades, view, now, k - 1);
      var done := SettleUpTo(before, after, trades, view, k - 1).value;
      var id := view[k - 1];
      assert id !in view[..k - 1];
      AcceptedFillsFit(trades, view, before, after, now, id);
      SettlingSucceeds(before[id], after[id], OrderFlow(trades, id, Signed));
      assert view[..k] == view[..k - 1] + [id];
    }
  }

  /** A simulator call fails exactly when the simulator raises or breaks its contract, or the account refuses
      the trades; when it succeeds the trades are booked and no eligible order is left half cancelled. */
  lemma SimulatorFailsOnlyForCause(cfg: Config, e: State, i: nat, eligible: set<nat>, script: SimScript)
    requires i < |cfg.times| && e.WellFormed() && Ascending(e.current)
    requires forall id :: id in eligible && id in e.current && e.orders[id].IsOpen() ==> Fillable(e.orders[id])
    ensures var r := SimStep(cfg, e, i, eligible, script);
            && (r.Done? <==> Acceptable(cfg, e, i, eligible, script))
            && (r.Done? ==> r.state.trades == e.trades + script.trades)
            && (r.Raised? ==> r.state == Prune(e))
            && (forall id :: id in eligible && id in r.state.current && r.state.orders[id].IsOpen() ==>
                  Fillable(r.state.orders[id]))
  {
    hide Fillable, BatchAccepted, SimGuardsHold, SettleUpTo, KeepListed;
    var e1 := Prune(e);
    KeepOpenSelects(e.orders, e.current);
    hide KeepOpen;
    KeepListedSelects(e1.current, eligible);
    var view, after := KeepListed(e1.current, eligible), Written(e1, script.writes);
    if BatchAccepted(script.trades, view, e1.orders, after, cfg.times[i]) {
      forall j | 0 <= j < |view| ensures Fillable(e1.orders[view[j]]) {
        assert view[j] in view;
      }
      SettlingAllSucceeds(e1.orders, after, script.trades, view, cfg.times[i], |view|);
      assert view[..|view|] == view;
    }
    var r := SimStep(cfg, e, i, eligible, script);
    forall id | id in eligible && id in r.state.current && r.state.orders[id].IsOpen()
      ensures Fillable(r.state.orders[id])
    {
      if r.Done? {
        assert id in view;
        var j :| 0 <= j < |view| && view[j] == id;
      }
    }
  }

  /** What the engine keeps true of the eligible orders between two simulators. */
  ghost predicate Steady(e: State, eligible: set<nat>) {
    && e.WellFormed() && Ascending(e.current)
    && forall id :: id in eligible && id in e.current && e.orders[id].IsOpen() ==> Fillable(e.orders[id])
  }

  lemma StepKeepsSteady(cfg: Config, e: State, i: nat, eligible: set<nat>, script: SimScript)
    requires i < |cfg.times| && Steady(e, eligible)
    ensures Steady(SimStep(cfg, e, i, eligible, script).state, eligible)
    ensures SimStep(cfg, e, i, eligible, script).Done? <==> Acceptable(cfg, e, i, eligible, script)
  {
    SimulatorFailsOnlyForCause(cfg, e, i, eligible, script);
    StepKeepsAscending(cfg, e, i, eligible, script);
    hide SimStep, Acceptable, Fillable;
  }

  /** The `j`-th simulator of a pass keeps its contract, called in the state its predecessors leave. */
  predicate KeepsContract(cfg: Config, e: State, i: nat, eligible: set<nat>, scripts: seq<SimScript>, j: nat)
    requires i < |cfg.times| && e.WellFormed() && j < |scripts|
  {
    Acceptable(cfg, SimsUpTo(cfg, e, i, eligible, scripts, j).state, i, eligible, scripts[j])
  }

  /** The simulators of one market pass, from the state the expiry loop leaves. */
  lemma {:induction false} SimulatorsFailOnlyForCause(
    cfg: Config, e: State, i: nat, eligible: set<nat>, scripts: seq<SimScript>, k: nat)
    requires i < |cfg.times| && Steady(e, eligible) && k <= |scripts|
    ensures Steady(SimsUpTo(cfg, e, i, eligible, scripts, k).state, eligible)
    ensures SimsUpTo(cfg, e, i, eligible, scripts, k).Done? <==>
      forall j :: 0 <= j < k ==> KeepsContract(cfg, e, i, eligible, scripts, j)
  {
    hide KeepsContract, SimsUpTo;
    if k == 0 {
      NoneCalled(cfg, e, i, eligible, scripts);
    } else {
      SimulatorsFailOnlyForCause(cfg, e, i, eligible, scripts, k - 1);
      NextCalled(cfg, e, i, eligible, scripts, k - 1);
    }
  }

  lemma NoneCalled(cfg: Config, e: State, i: nat, eligible: set<nat>, scripts: seq<SimScript>)
    requires i < |cfg.times| && e.WellFormed()
    ensures SimsUpTo(cfg, e, i, eligible, scripts, 0) == Done(e)
  {}

  lemma NextCalled(cfg: Config, e: State, i: nat, eligible: set<nat>, scripts: seq<SimScript>, k: nat)
    requires i < |cfg.times| && e.WellFormed() && k < |scripts|
    requires Steady(SimsUpTo(cfg, e, i, eligible, scripts, k).state, eligible)
    ensures Steady(SimsUpTo(cfg, e, i, eligible, scripts, k + 1).state, eligible)
    ensures SimsUpTo(cfg, e, i, eligible, scripts, k + 1).Done? <==>
      SimsUpTo(cfg, e, i, eligible, scripts, k).Done? && KeepsContract(cfg, e, i, eligible, scripts, k)
  {
    StepKeepsSteady(cfg, SimsUpTo(cfg, e, i, eligible, scripts, k).state, i, eligible, scripts[k]);
    hide Steady, Acceptable, SimStep;
  }

  lemma StepKeepsAscending(cfg: Config, e: State, i: nat, eligible: set<nat>, script: SimScript)
    requires i < |cfg.times| && e.WellFormed() && Ascending(e.current)
    ensures Ascending(SimStep(cfg, e, i, eligible, script).state.current)
  {
    KeepOpenSelects(e.orders, e.current);
    hide KeepOpen, Judge;
  }

  /** In any state a run can reach, a market pass completes exactly when each of its simulators, called in
      turn on the state its predecessors leave, keeps its contract: no failure is the engine's own. */
  lemma MarketPassFailsOnlyForCause(
    cfg: Config, e: State, i: nat, scripts: seq<SimScript>, x: State, eligible: set<nat>)
    requires Increasing(cfg.times) && i < |cfg.times| && Sound(cfg, e, i)
    requires x == ExpireUpTo(cfg, e, i, |e.current|).state && eligible == EligibleUpTo(cfg, x, i, |x.current|)
    ensures ExpireUpTo(cfg, e, i, |e.current|).Done?
    ensures SimMarket(cfg, e, i, scripts).Done? <==>
      forall j :: 0 <= j < |scripts| ==> KeepsContract(cfg, x, i, eligible, scripts, j)
  {
    hide Placed, Expire, Tradable, KeepsContract, SimStep, Timely, Prune;
    forall j | 0 <= j < |e.current| ensures Placed(cfg, i, e.orders[e.current[j]]) {
      assert OrderSound(cfg, e, i, e.current[j]);
    }
    ExpiryPointwise(cfg, e, i, |e.current|);
    forall id: nat | id in eligible && id in x.current && x.orders[id].IsOpen() ensures Fillable(x.orders[id]) {
      EligibleIsExact(cfg, e, i, id);
    }
    SimulatorsFailOnlyForCause(cfg, x, i, eligible, scripts, |scripts|);
  }
}
