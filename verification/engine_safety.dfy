/** Safety of every run of the order engine, whatever its rules and simulators do. */
module EngineSafety {
  import opened Grid
  import opened Orders
  import opened Flows
  import opened CallbackContracts
  import opened Risk
  import opened Engine
  import opened EngineSteps

  // ---- Invariants ----

  /** An execution of an order submitted at index `s` happens at an index the order allows. */
  predicate Timely(cfg: Config, o: OrderState, t: Trade)
    requires Increasing(cfg.times)
  {
    var s, x := SubmissionIndex(cfg, o), SearchSorted(cfg.times, t.timestamp);
    && x < |cfg.times| && cfg.times[x] == t.timestamp
    && s + cfg.lag <= x
    && (o.tif == FOK ==> x == s + cfg.lag)
    && (o.tif == DAY ==> Day(t.timestamp) == Day(o.timestamp))
  }

  /** Quantity conservation and life cycle of one order. */
  predicate OrderSound(cfg: Config, e: State, i: nat, id: nat)
    requires Increasing(cfg.times) && e.WellFormed() && id < |e.orders|
  {
    var o, q := e.orders[id], e.proposed[id];
    && (o.IsOpen() ==> id in e.current && o.qty != 0)
    && (o.status == Filled ==> o.qty == 0 || o.qty == q)
    && Placed(cfg, i, o) && cfg.times[SubmissionIndex(cfg, o)] == o.timestamp && o.contract in cfg.contracts
    && q != 0 && Within(o.qty, q)
    && q == o.qty + OrderFlow(e.trades, id, Signed)
  }

  predicate TradeSound(cfg: Config, e: State, i: nat, t: Trade)
    requires Increasing(cfg.times) && i < |cfg.times| && e.WellFormed()
  {
    && t.timestamp <= cfg.times[i] && t.order < |e.orders|
    && (t.order >= 0 ==>
          && t.contract == e.orders[t.order].contract
          && t.qty != 0 && ((t.qty > 0) == (e.proposed[t.order] > 0))
          && Timely(cfg, e.orders[t.order], t))
  }

  ghost predicate Sound(cfg: Config, e: State, i: nat)
    requires Increasing(cfg.times) && i < |cfg.times|
  {
    && e.WellFormed() && Ascending(e.current)
    && (forall id :: 0 <= id < |e.orders| ==> OrderSound(cfg, e, i, id))
    && (forall k :: 0 <= k < |e.trades| ==> TradeSound(cfg, e, i, e.trades[k]))
  }

  /** Nothing about an order changes but its remainder and status; once closed it never changes or trades. */
  ghost predicate Later(e: State, e': State) {
    && e.WellFormed() && e'.WellFormed()
    && |e.orders| <= |e'.orders| && |e.trades| <= |e'.trades| && e'.trades[..|e.trades|] == e.trades
    && forall id :: 0 <= id < |e.orders| ==>
         && e'.proposed[id] == e.proposed[id]
         && SameIdentity(e.orders[id], e'.orders[id])
         && Within(e'.orders[id].qty, e.orders[id].qty)
         && (e'.orders[id].status == Filled ==> e'.orders[id].qty == 0 || e'.orders[id] == e.orders[id])
         && (!e.orders[id].IsOpen() ==>
               && e'.orders[id] == e.orders[id]
               && forall k :: |e.trades| <= k < |e'.trades| ==> e'.trades[k].order != id)
  }

  lemma LaterTransitive(a: State, b: State, c: State)
    requires Later(a, b) && Later(b, c)
    ensures Later(a, c)
  {
    assert c.trades[..|a.trades|] == c.trades[..|b.trades|][..|a.trades|];
    forall id | 0 <= id < |a.orders|
      ensures SameIdentity(a.orders[id], c.orders[id]) && Within(c.orders[id].qty, a.orders[id].qty)
      ensures c.orders[id].status == Filled ==> c.orders[id].qty == 0 || c.orders[id] == a.orders[id]
      ensures !a.orders[id].IsOpen() ==>
        c.orders[id] == a.orders[id] && forall k :: |a.trades| <= k < |c.trades| ==> c.trades[k].order != id
    {
      if !a.orders[id].IsOpen() {
        forall k | |a.trades| <= k < |c.trades| ensures c.trades[k].order != id {
          if k < |b.trades| {
            assert c.trades[k] == c.trades[..|b.trades|][k];
          }
        }
      }
    }
  }

  /** What a registered policy promises about the pending orders and the account. */
  datatype Guarantee =
    | NoPromise
    | PositionRange(symbol: string, maximum: real, lo: real, hi: real)
    | TradeBudget(maximum: real, width: nat, scope: Scope, limit: real)

  /** The policy is in force and the promised bound leaves room for its cap. */
  predicate Registered(g: Guarantee, policies: seq<Policy>) {
    match g
    case NoPromise => true
    case PositionRange(_, m, lo, hi) => MaxPositionQuantity(m) in policies && lo <= -m && m <= hi
    case TradeBudget(m, w, s, limit) => RollingTradeBudget(m, w, s) in policies && m <= limit
  }

  /** The promise over an account at time `t` and a list of orders that may still fill. */
  predicate HeldOver(g: Guarantee, trades: seq<Trade>, t: int, open: seq<OrderState>) {
    match g
    case NoPromise => true
    case PositionRange(s, _, lo, hi) =>
      && lo <= (Flow(trades, InSymbol(s), Signed, UpTo(t)) + PendingLow(open, s)) as real
      && (Flow(trades, InSymbol(s), Signed, UpTo(t)) + PendingHigh(open, s)) as real <= hi
    case TradeBudget(_, w, s, limit) =>
      (Flow(trades, s, Absolute, Between(t - w, t)) + PendingAbs(open, s)) as real <= limit
  }

  predicate Held(g: Guarantee, e: State, t: int)
    requires e.WellFormed()
  {
    HeldOver(g, e.trades, t, Pending(e))
  }

  /** Everything a step from `e` at index `i` must keep. */
  ghost predicate Keeps(cfg: Config, e: State, e': State, i: nat, g: Guarantee)
    requires Increasing(cfg.times) && i < |cfg.times|
  {
    Sound(cfg, e', i) && Later(e, e') && Held(g, e', cfg.times[i])
  }

  ghost predicate Ready(cfg: Config, e: State, i: nat, g: Guarantee)
    requires Increasing(cfg.times) && i < |cfg.times|
  {
    Sound(cfg, e, i) && Registered(g, cfg.policies) && Held(g, e, cfg.times[i])
  }

  // ---- Steps that advance orders ----

  lemma AdvanceTimely(cfg: Config, e: State, e': State, i: nat, batch: seq<Trade>)
    requires Increasing(cfg.times) && i < |cfg.times|
    requires Sound(cfg, e, i) && e'.WellFormed() && Advances(cfg, e, e', i, batch)
    ensures forall k :: 0 <= k < |e'.trades| ==> TradeSound(cfg, e', i, e'.trades[k])
  {
    forall k | 0 <= k < |e'.trades| ensures TradeSound(cfg, e', i, e'.trades[k]) {
      var t := e'.trades[k];
      if k < |e.trades| {
        assert t == e.trades[k];
        assert TradeSound(cfg, e, i, t);
        if t.order >= 0 {
          assert SameIdentity(e.orders[t.order], e'.orders[t.order]);
        }
      } else {
        assert t == batch[k - |e.trades|];
        SearchSortedFinds(cfg.times, i);
        assert OrderSound(cfg, e, i, t.order);
        assert SameIdentity(e.orders[t.order], e'.orders[t.order]);
      }
    }
  }

  lemma AdvanceOrderSound(cfg: Config, e: State, e': State, i: nat, batch: seq<Trade>, id: nat)
    requires Increasing(cfg.times) && i < |cfg.times|
    requires Sound(cfg, e, i) && e'.WellFormed() && Advances(cfg, e, e', i, batch) && id < |e.orders|
    ensures OrderSound(cfg, e', i, id)
  {
    assert OrderSound(cfg, e, i, id);
    OrderFlowAppend(e.trades, batch, id, Signed);
    assert Progress(e.orders[id], e'.orders[id], OrderFlow(batch, id, Signed));
  }

  lemma AdvanceSound(cfg: Config, e: State, e': State, i: nat, batch: seq<Trade>)
    requires Increasing(cfg.times) && i < |cfg.times|
    requires Sound(cfg, e, i) && e'.WellFormed() && Advances(cfg, e, e', i, batch)
    ensures Sound(cfg, e', i)
  {
    AdvanceTimely(cfg, e, e', i, batch);
    forall id: nat | id < |e.orders| ensures OrderSound(cfg, e', i, id) {
      AdvanceOrderSound(cfg, e, e', i, batch, id);
    }
    hide OrderSound, TradeSound;
  }

  lemma AdvanceHeld(cfg: Config, e: State, e': State, i: nat, batch: seq<Trade>, g: Guarantee)
    requires Increasing(cfg.times) && i < |cfg.times|
    requires Sound(cfg, e, i) && Held(g, e, cfg.times[i]) && e'.WellFormed() && Advances(cfg, e, e', i, batch)
    ensures Held(g, e', cfg.times[i])
  {
    hide OrderSound, TradeSound, Flow, PendingLow, PendingHigh, PendingAbs, Advances;
    match g
    case NoPromise =>
    case PositionRange(s, _, _, _) => AdvanceNarrows(cfg, e, e', i, batch, s, Everything, 0);
    case TradeBudget(_, w, s, _) => AdvanceNarrows(cfg, e, e', i, batch, "", s, w);
  }

  lemma AdvanceKeeps(cfg: Config, e: State, e': State, i: nat, batch: seq<Trade>, g: Guarantee)
    requires Increasing(cfg.times) && i < |cfg.times|
    requires Ready(cfg, e, i, g) && e'.WellFormed() && Advances(cfg, e, e', i, batch)
    ensures Keeps(cfg, e, e', i, g)
  {
    hide Sound, Held, Later, Advances;
    assert e.WellFormed() by {
      SoundIsWellFormed(cfg, e, i);
    }
    AdvanceSound(cfg, e, e', i, batch);
    AdvanceHeld(cfg, e, e', i, batch, g);
    AdvanceLater(cfg, e, e', i, batch);
  }

  lemma SoundIsWellFormed(cfg: Config, e: State, i: nat)
    requires Increasing(cfg.times) && i < |cfg.times| && Sound(cfg, e, i)
    ensures e.WellFormed()
  {}

  lemma AdvanceLater(cfg: Config, e: State, e': State, i: nat, batch: seq<Trade>)
    requires Increasing(cfg.times) && i < |cfg.times|
    requires e.WellFormed() && e'.WellFormed() && Advances(cfg, e, e', i, batch)
    ensures Later(e, e')
  {
    forall id: nat | id < |e.orders| && !e.orders[id].IsOpen()
      ensures forall k :: |e.trades| <= k < |e'.trades| ==> e'.trades[k].order != id
    {
      forall k | |e.trades| <= k < |e'.trades| ensures e'.trades[k].order != id {
        assert e'.trades[k] == batch[k - |e.trades|];
      }
    }
  }

  lemma PruneKeeps(cfg: Config, e: State, i: nat, g: Guarantee)
    requires Increasing(cfg.times) && i < |cfg.times| && Ready(cfg, e, i, g)
    ensures Keeps(cfg, e, Prune(e), i, g)
  {
    KeepOpenSelects(e.orders, e.current);
    var e' := Prune(e);
    forall id: nat | id < |e.orders| ensures OrderSound(cfg, e', i, id) {
      assert OrderSound(cfg, e, i, id);
    }
    forall k | 0 <= k < |e'.trades| ensures TradeSound(cfg, e', i, e'.trades[k]) {
      assert TradeSound(cfg, e, i, e.trades[k]);
    }
    match g
    case NoPromise =>
    case PositionRange(s, _, _, _) => PruneKeepsSums(e.orders, e.current, s, Everything);
    case TradeBudget(_, _, s, _) => PruneKeepsSums(e.orders, e.current, "", s);
  }

  // ---- Admission ----

  /** An accepted order keeps the promise, counted together with everything already pending. */
  lemma AcceptKeeps(order: OrderState, ctx: Context, policies: seq<Policy>, verdicts: seq<Verdict>, g: Guarantee)
    requires Registered(g, policies)
    requires Decide(order, ctx, policies, verdicts) == Accepted
    requires HeldOver(g, ctx.trades, ctx.now, ctx.open)
    ensures HeldOver(g, ctx.trades, ctx.now, ctx.open + [order])
  {
    match g
    case NoPromise =>
    case PositionRange(s, m, lo, hi) =>
      var j :| 0 <= j < |policies| && policies[j] == MaxPositionQuantity(m);
      AcceptedByAll(order, ctx, policies, verdicts, 0, j);
      PendingSnoc(ctx.open, order, s, Everything);
    case TradeBudget(m, w, s, limit) =>
      var j :| 0 <= j < |policies| && policies[j] == RollingTradeBudget(m, w, s);
      AcceptedByAll(order, ctx, policies, verdicts, 0, j);
      PendingSnoc(ctx.open, order, "", s);
  }

  lemma {:induction false} AdmitKeeps(cfg: Config, e: State, i: nat, batch: seq<OrderState>,
                                      verdicts: seq<seq<Verdict>>, k: nat, g: Guarantee)
    requires Increasing(cfg.times) && i < |cfg.times| && e.WellFormed() && k <= |batch|
    requires Registered(g, cfg.policies) && Held(g, e, cfg.times[i])
    requires AdmitUpTo(cfg, e, i, batch, verdicts, k).Ok?
    ensures HeldOver(g, e.trades, cfg.times[i],
                     Pending(e) + AcceptedOf(batch, AdmitUpTo(cfg, e, i, batch, verdicts, k).value))
  {
    hide HeldOver, Decide, StatesOf, Registered;
    if k == 0 {
      assert Pending(e) + [] == Pending(e);
    } else {
      AdmitKeeps(cfg, e, i, batch, verdicts, k - 1, g);
      var before := AdmitUpTo(cfg, e, i, batch, verdicts, k - 1).value;
      var flags := AdmitUpTo(cfg, e, i, batch, verdicts, k).value;
      assert flags[..k - 1] == before;
      if flags[k - 1] {
        var ctx := DecisionContext(cfg, e, i, batch, before);
        AcceptKeeps(batch[k - 1], ctx, cfg.policies, VerdictsAt(verdicts, k - 1), g);
        assert AcceptedOf(batch, flags) == AcceptedOf(batch, before) + [batch[k - 1]];
        assert ctx.open + [batch[k - 1]] == Pending(e) + AcceptedOf(batch, flags);
      } else {
        assert AcceptedOf(batch, flags) == AcceptedOf(batch, before);
      }
    }
  }

  lemma {:induction false} StatesConcat(orders: seq<OrderState>, a: seq<nat>, b: seq<nat>)
    requires forall k :: 0 <= k < |a| ==> a[k] < |orders|
    requires forall k :: 0 <= k < |b| ==> b[k] < |orders|
    ensures StatesOf(orders, a + b) == StatesOf(orders, a) + StatesOf(orders, b)
  {}

  /** The ids given to the accepted members of a batch name exactly those members. */
  lemma {:induction false} AcceptedIdsName(
    all: seq<OrderState>, first: nat, batch: seq<OrderState>, flags: seq<bool>)
    requires |flags| <= |batch| && first + |batch| == |all|
    requires forall k :: 0 <= k < |flags| && flags[k] ==> all[first + k] == batch[k]
    ensures StatesOf(all, AcceptedIds(first, flags)) == AcceptedOf(batch, flags)
  {
    if |flags| > 0 {
      var n := |flags| - 1;
      var ids := AcceptedIds(first, flags[..n]);
      AcceptedIdsName(all, first, batch, flags[..n]);
      if flags[n] {
        hide StatesOf;
        StatesAppend(all, ids, first + n);
      } else {
        assert AcceptedIds(first, flags) == ids;
      }
    }
  }

  lemma {:induction false} AcceptedIdsAscend(first: nat, flags: seq<bool>)
    ensures Ascending(AcceptedIds(first, flags))
    ensures forall j :: 0 <= j < |flags| && flags[j] ==> first + j in AcceptedIds(first, flags)
  {
    if |flags| > 0 {
      var n := |flags| - 1;
      AcceptedIdsAscend(first, flags[..n]);
      var ids := AcceptedIds(first, flags[..n]);
      forall j | 0 <= j < |flags| && flags[j] ensures first + j in AcceptedIds(first, flags) {
        if j < n {
          assert flags[..n][j];
          assert first + j in ids;
        }
      }
    }
  }

  lemma SubmitPending(e: State, batch: seq<OrderState>, flags: seq<bool>)
    requires e.WellFormed() && |flags| == |batch|
    ensures Pending(Submit(e, batch, flags)) == Pending(e) + AcceptedOf(batch, flags)
  {
    hide AcceptedIds, AcceptedOf, StatesOf;
    var e' := Submit(e, batch, flags);
    AcceptedIdsName(e'.orders, |e.orders|, batch, flags);
    StatesConcat(e'.orders, e.current, AcceptedIds(|e.orders|, flags));
    StatesPrefix(e.orders, Decided(batch, flags), e.current);
  }

  lemma {:induction false} StatesPrefix(orders: seq<OrderState>, more: seq<OrderState>, ids: seq<nat>)
    requires forall k :: 0 <= k < |ids| ==> ids[k] < |orders|
    ensures StatesOf(orders + more, ids) == StatesOf(orders, ids)
  {}

  lemma SubmitCurrent(e: State, batch: seq<OrderState>, flags: seq<bool>)
    requires e.WellFormed() && |flags| == |batch|
    ensures Ascending(e.current) ==> Ascending(Submit(e, batch, flags).current)
    ensures forall id :: id in e.current ==> id in Submit(e, batch, flags).current
    ensures forall j :: 0 <= j < |flags| && flags[j] ==> |e.orders| + j in Submit(e, batch, flags).current
  {
    hide StatesOf;
    AcceptedIdsAscend(|e.orders|, flags);
    hide AcceptedIds;
  }

  lemma {:induction false} UnusedIdHasNoFlow(trades: seq<Trade>, id: int, m: Measure)
    requires forall k :: 0 <= k < |trades| ==> trades[k].order != id
    ensures OrderFlow(trades, id, m) == 0
  {
    if |trades| > 0 {
      UnusedIdHasNoFlow(trades[..|trades| - 1], id, m);
    }
  }

  /** A fresh order enters with its whole quantity outstanding. */
  lemma FreshOrderSound(cfg: Config, e: State, i: nat, group: string, batch: seq<OrderState>, flags: seq<bool>, k: nat)
    requires Increasing(cfg.times) && i < |cfg.times| && e.WellFormed() && |flags| == |batch| && k < |batch|
    requires Fresh(batch[k], group, cfg.contracts, cfg.times[i])
    requires forall j :: 0 <= j < |e.trades| ==> e.trades[j].order < |e.orders|
    ensures OrderSound(cfg, Submit(e, batch, flags), i, |e.orders| + k)
  {
    hide AcceptedIds, AcceptedOf, StatesOf, Flow;
    SearchSortedFinds(cfg.times, i);
    SubmitCurrent(e, batch, flags);
    UnusedIdHasNoFlow(e.trades, |e.orders| + k, Signed);
  }

  lemma SubmitSound(cfg: Config, e: State, i: nat, group: string, batch: seq<OrderState>, flags: seq<bool>)
    requires Increasing(cfg.times) && i < |cfg.times| && Sound(cfg, e, i) && |flags| == |batch|
    requires forall k :: 0 <= k < |batch| ==> Fresh(batch[k], group, cfg.contracts, cfg.times[i])
    ensures Sound(cfg, Submit(e, batch, flags), i)
  {
    hide AcceptedIds, StatesOf, OrderFlow, Timely;
    var e' := Submit(e, batch, flags);
    SubmitCurrent(e, batch, flags);
    forall k | 0 <= k < |e'.trades|
      ensures TradeSound(cfg, e', i, e'.trades[k]) && e.trades[k].order < |e.orders|
    {
      SubmitTradeSound(cfg, e, i, batch, flags, e.trades[k]);
    }
    forall id: nat | id < |e'.orders| ensures OrderSound(cfg, e', i, id) {
      if id < |e.orders| {
        assert OrderSound(cfg, e, i, id);
      } else {
        FreshOrderSound(cfg, e, i, group, batch, flags, id - |e.orders|);
      }
    }
  }

  lemma SubmitTradeSound(cfg: Config, e: State, i: nat, batch: seq<OrderState>, flags: seq<bool>, t: Trade)
    requires Increasing(cfg.times) && i < |cfg.times| && e.WellFormed() && |flags| == |batch|
    requires TradeSound(cfg, e, i, t)
    ensures TradeSound(cfg, Submit(e, batch, flags), i, t)
  {
    hide AcceptedIds, Timely;
  }

  lemma SubmitKeeps(
    cfg: Config, e: State, i: nat, group: string, batch: seq<OrderState>, flags: seq<bool>, g: Guarantee)
    requires Increasing(cfg.times) && i < |cfg.times| && |flags| == |batch|
    requires e.WellFormed() && Sound(cfg, e, i)
    requires forall k :: 0 <= k < |batch| ==> Fresh(batch[k], group, cfg.contracts, cfg.times[i])
    requires HeldOver(g, e.trades, cfg.times[i], Pending(e) + AcceptedOf(batch, flags))
    ensures Keeps(cfg, e, Submit(e, batch, flags), i, g)
  {
    hide Sound, Later, HeldOver, AcceptedIds, AcceptedOf, StatesOf, Fresh;
    SubmitSound(cfg, e, i, group, batch, flags);
    SubmitLater(e, batch, flags);
    SubmitPending(e, batch, flags);
  }

  lemma SubmitLater(e: State, batch: seq<OrderState>, flags: seq<bool>)
    requires e.WellFormed() && |flags| == |batch|
    ensures Later(e, Submit(e, batch, flags))
  {
    hide AcceptedIds;
  }

  // ---- Whole functions of the engine ----

  lemma KeepsReflexive(cfg: Config, e: State, i: nat, g: Guarantee)
    requires Increasing(cfg.times) && i < |cfg.times| && Ready(cfg, e, i, g)
    ensures Keeps(cfg, e, e, i, g)
  {
    LaterReflexive(e);
  }

  lemma KeepsTransitive(cfg: Config, a: State, b: State, c: State, i: nat, g: Guarantee)
    requires Increasing(cfg.times) && i < |cfg.times|
    requires Keeps(cfg, a, b, i, g) && Keeps(cfg, b, c, i, g)
    ensures Keeps(cfg, a, c, i, g)
  {
    hide Sound, Held;
    LaterTransitive(a, b, c);
  }

  lemma {:induction false} SimsKeep(
    cfg: Config, e: State, i: nat, eligible: set<nat>, scripts: seq<SimScript>, k: nat, g: Guarantee)
    requires Increasing(cfg.times) && i < |cfg.times| && k <= |scripts|
    requires e.WellFormed() && Ready(cfg, e, i, g)
    requires forall id :: id in eligible ==> id < |e.orders| && Tradable(cfg, i, e.orders[id])
    ensures Keeps(cfg, e, SimsUpTo(cfg, e, i, eligible, scripts, k).state, i, g)
  {
    hide Sound, Later, Held, Tradable, SimStep;
    if k == 0 {
      KeepsReflexive(cfg, e, i, g);
    } else {
      SimsKeep(cfg, e, i, eligible, scripts, k - 1, g);
      var x := SimsUpTo(cfg, e, i, eligible, scripts, k - 1);
      if x.Done? {
        StillTradable(cfg, e, x.state, i, eligible);
        SimStepKeeps(cfg, x.state, i, eligible, scripts[k - 1], g);
        KeepsTransitive(cfg, e, x.state, SimStep(cfg, x.state, i, eligible, scripts[k - 1]).state, i, g);
      }
    }
  }

  lemma StillTradable(cfg: Config, e: State, e': State, i: nat, ids: set<nat>)
    requires Increasing(cfg.times) && i < |cfg.times| && Later(e, e')
    requires forall id :: id in ids ==> id < |e.orders| && Tradable(cfg, i, e.orders[id])
    ensures forall id :: id in ids && id < |e'.orders| ==> Tradable(cfg, i, e'.orders[id])
  {
    forall id | id in ids && id < |e'.orders| ensures Tradable(cfg, i, e'.orders[id]) {
      assert SameIdentity(e.orders[id], e'.orders[id]);
    }
  }

  lemma LaterReflexive(e: State)
    requires e.WellFormed()
    ensures Later(e, e)
  {}

  lemma SimStepKeeps(cfg: Config, e: State, i: nat, eligible: set<nat>, script: SimScript, g: Guarantee)
    requires Increasing(cfg.times) && i < |cfg.times| && Ready(cfg, e, i, g)
    requires forall id :: id in eligible && id < |e.orders| ==> Tradable(cfg, i, e.orders[id])
    ensures Keeps(cfg, e, SimStep(cfg, e, i, eligible, script).state, i, g)
  {
    var r := SimStep(cfg, e, i, eligible, script);
    PruneKeeps(cfg, e, i, g);
    SimStepAdvances(cfg, e, i, eligible, script);
    AdvanceKeeps(cfg, Prune(e), r.state, i, if r.Done? then script.trades else [], g);
    LaterTransitive(e, Prune(e), r.state);
  }

  /** The market pass keeps every promise, and its chronology assertion cannot fail. */
  lemma SimMarketKeeps(cfg: Config, e: State, i: nat, scripts: seq<SimScript>, g: Guarantee)
    requires Increasing(cfg.times) && i < |cfg.times| && Ready(cfg, e, i, g)
    ensures ExpireUpTo(cfg, e, i, |e.current|).Done?
    ensures Keeps(cfg, e, SimMarket(cfg, e, i, scripts).state, i, g)
  {
    forall j | 0 <= j < |e.current| ensures Placed(cfg, i, e.orders[e.current[j]]) {
      assert OrderSound(cfg, e, i, e.current[j]);
    }
    ExpiryAdvances(cfg, e, i);
    var x := ExpireUpTo(cfg, e, i, |e.current|).state;
    AdvanceKeeps(cfg, e, x, i, [], g);
    var eligible := EligibleUpTo(cfg, x, i, |x.current|);
    SimsKeep(cfg, x, i, eligible, scripts, |scripts|, g);
    var y := SimsUpTo(cfg, x, i, eligible, scripts, |scripts|);
    LaterTransitive(e, x, y.state);
    if y.Done? {
      PruneKeeps(cfg, y.state, i, g);
      LaterTransitive(e, y.state, Prune(y.state));
    }
  }

  lemma RuleStepKeeps(cfg: Config, e: State, i: nat, rule: RuleScript, g: Guarantee)
    requires Increasing(cfg.times) && i < |cfg.times| && e.WellFormed() && Ready(cfg, e, i, g)
    ensures Keeps(cfg, e, RuleStep(cfg, e, i, rule).state, i, g)
  {
    hide Sound, Later, Held, GetOrders, AdmitUpTo, Submit, SimMarket, Prune;
    var p := GetOrders(cfg, e, i, rule);
    RuleAdvances(cfg, e, i, rule);
    AdvanceKeeps(cfg, e, p.state, i, [], g);
    if p.batch.Ok? {
      var batch := p.batch.value;
      ProposedAreFresh(cfg, e, i, rule);
      var admitted := AdmitUpTo(cfg, p.state, i, batch, rule.verdicts, |batch|);
      if admitted.Ok? {
        BatchKeeps(cfg, p.state, i, rule, batch, g);
        var e2 := Submit(p.state, batch, admitted.value);
        KeepsTransitive(cfg, e, p.state, e2, i, g);
        if cfg.lag == 0 {
          SimMarketKeeps(cfg, e2, i, rule.sims, g);
        } else {
          PruneKeeps(cfg, e2, i, g);
        }
        KeepsTransitive(cfg, e, e2, RuleStep(cfg, e, i, rule).state, i, g);
      }
    }
  }

  /** Deciding and recording a whole batch keeps the promise. */
  lemma BatchKeeps(cfg: Config, e: State, i: nat, rule: RuleScript, batch: seq<OrderState>, g: Guarantee)
    requires Increasing(cfg.times) && i < |cfg.times| && e.WellFormed() && Ready(cfg, e, i, g)
    requires forall k :: 0 <= k < |batch| ==> Fresh(batch[k], rule.group, cfg.contracts, cfg.times[i])
    requires AdmitUpTo(cfg, e, i, batch, rule.verdicts, |batch|).Ok?
    ensures Keeps(cfg, e, Submit(e, batch, AdmitUpTo(cfg, e, i, batch, rule.verdicts, |batch|).value), i, g)
  {
    hide Sound, Later, HeldOver, AdmitUpTo, Submit, StatesOf;
    AdmitKeeps(cfg, e, i, batch, rule.verdicts, |batch|, g);
    SubmitKeeps(cfg, e, i, rule.group, batch, AdmitUpTo(cfg, e, i, batch, rule.verdicts, |batch|).value, g);
  }

  lemma ProposedAreFresh(cfg: Config, e: State, i: nat, rule: RuleScript)
    requires i < |cfg.times| && e.WellFormed() && GetOrders(cfg, e, i, rule).batch.Ok?
    ensures var batch := GetOrders(cfg, e, i, rule).batch.value;
            forall k :: 0 <= k < |batch| ==> Fresh(batch[k], rule.group, cfg.contracts, cfg.times[i])
  {
    var subs := rule.submissions;
    if ExpandUpTo(subs, rule.group, cfg.contracts, cfg.times[i], |subs|).Ok? {
      ExpandedAreFresh(subs, rule.group, cfg.contracts, cfg.times[i], |subs|);
    }
  }

  lemma {:induction false} RulesKeep(cfg: Config, e: State, i: nat, rules: seq<RuleScript>, k: nat, g: Guarantee)
    requires Increasing(cfg.times) && i < |cfg.times| && k <= |rules|
    requires e.WellFormed() && Ready(cfg, e, i, g)
    ensures Keeps(cfg, e, RulesUpTo(cfg, e, i, rules, k).state, i, g)
  {
    hide Sound, Later, Held, RuleStep;
    if k == 0 {
      KeepsReflexive(cfg, e, i, g);
    } else {
      RulesKeep(cfg, e, i, rules, k - 1, g);
      var x := RulesUpTo(cfg, e, i, rules, k - 1);
      if x.Done? {
        RuleStepKeeps(cfg, x.state, i, rules[k - 1], g);
        KeepsTransitive(cfg, e, x.state, RuleStep(cfg, x.state, i, rules[k - 1]).state, i, g);
      }
    }
  }

  lemma IterationKeeps(cfg: Config, e: State, it: Iteration, g: Guarantee)
    requires Increasing(cfg.times) && it.index < |cfg.times| && Ready(cfg, e, it.index, g)
    ensures Keeps(cfg, e, RunIteration(cfg, e, it).state, it.index, g)
  {
    SimMarketKeeps(cfg, e, it.index, it.sims, g);
    var x := SimMarket(cfg, e, it.index, it.sims);
    if x.Done? {
      RulesKeep(cfg, x.state, it.index, it.rules, |it.rules|, g);
      LaterTransitive(e, x.state, RunIteration(cfg, e, it).state);
    }
  }

  /** The clock only relaxes the invariants: nothing traded later than it, and a trailing window slides on. */
  lemma ClockKeeps(cfg: Config, e: State, i: nat, i': nat, g: Guarantee)
    requires Increasing(cfg.times) && i <= i' < |cfg.times| && Ready(cfg, e, i, g)
    ensures Ready(cfg, e, i', g)
  {
    var t, t' := cfg.times[i], cfg.times[i'];
    assert t <= t';
    forall k | 0 <= k < |e.trades|
      ensures TradeSound(cfg, e, i', e.trades[k]) && e.trades[k].timestamp <= t
    {
      assert TradeSound(cfg, e, i, e.trades[k]);
    }
    forall id: nat | id < |e.orders| ensures OrderSound(cfg, e, i', id) {
      assert OrderSound(cfg, e, i, id);
    }
    match g
    case NoPromise =>
    case PositionRange(s, _, _, _) => FlowUpToSettles(e.trades, InSymbol(s), Signed, t, t');
    case TradeBudget(_, w, s, _) => FlowSlides(e.trades, s, t, t', w);
  }

  /** The indices of a run never go back. */
  ghost predicate Forward(cfg: Config, start: nat, its: seq<Iteration>) {
    && start < |cfg.times|
    && (forall k :: 0 <= k < |its| ==> start <= its[k].index < |cfg.times|)
    && (forall j, k :: 0 <= j < k < |its| ==> its[j].index <= its[k].index)
  }

  function LastIndex(start: nat, its: seq<Iteration>): nat {
    if |its| == 0 then start else its[|its| - 1].index
  }

  /** Main induction: every run keeps the books sound, the orders monotone and the promise held. */
  lemma {:induction false} RunKeeps(cfg: Config, e: State, start: nat, its: seq<Iteration>, g: Guarantee)
    requires Increasing(cfg.times) && Forward(cfg, start, its) && e.WellFormed() && Ready(cfg, e, start, g)
    ensures Keeps(cfg, e, Run(cfg, e, its), LastIndex(start, its), g)
  {
    hide Sound, Later, Held, RunIteration;
    if |its| == 0 {
      KeepsReflexive(cfg, e, start, g);
    } else {
      var n := |its| - 1;
      RunKeeps(cfg, e, start, its[..n], g);
      var x := Run(cfg, e, its[..n]);
      ClockKeeps(cfg, x, LastIndex(start, its[..n]), its[n].index, g);
      IterationKeeps(cfg, x, its[n], g);
      LaterTransitive(e, x, Run(cfg, e, its));
    }
  }
}
