/** When "filled" means that the whole quantity traded: exactly when no rule hands in an order already marked so. */
module FilledOrders {
  import opened Grid
  import opened Orders
  import opened Flows
  import opened CallbackContracts
  import opened Risk
  import opened Engine
  import opened EngineSteps
  import opened EngineSafety
  import opened EngineTheorems
  import FillOrKill

  /** No filled order has anything left. */
  predicate FilledIsEmpty(e: State) {
    forall id :: 0 <= id < |e.orders| && e.orders[id].status == Filled ==> e.orders[id].qty == 0
  }

  predicate NoneFilled(batch: seq<OrderState>) {
    forall k :: 0 <= k < |batch| ==> batch[k].status != Filled
  }

  /** The rule hands in no order already marked filled. */
  predicate HandsInNoneFilled(rule: RuleScript) {
    forall k :: 0 <= k < |rule.submissions| && rule.submissions[k].Plain? ==> rule.submissions[k].status != Filled
  }

  predicate NoRuleFills(its: seq<Iteration>) {
    forall n, k :: 0 <= n < |its| && 0 <= k < |its[n].rules| ==> HandsInNoneFilled(its[n].rules[k])
  }

  /** In every run whose rules hand in no order already marked filled, a filled order has traded all of it. */
  lemma FilledMeansTraded(cfg: Config, e: State, start: nat, its: seq<Iteration>, id: nat)
    requires LegalRun(cfg, e, start, its) && NoRuleFills(its)
    requires id < |Run(cfg, e, its).orders| && Run(cfg, e, its).orders[id].status == Filled
    ensures OrderFlow(Run(cfg, e, its).trades, id, Signed) == Run(cfg, e, its).proposed[id]
  {
    hide Run, OrderFlow, NoRuleFills;
    QuantityIsConserved(cfg, e, start, its, id);
    FreshIsSound(cfg, e, start);
    RunFills(cfg, e, start, its);
  }

  /** One rule, its decisions and the market pass after it, from a state whose filled orders are empty: they stay
      so if and only if no order it proposed came marked filled. */
  lemma RuleFillsExactly(cfg: Config, e: State, i: nat, rule: RuleScript)
    requires Increasing(cfg.times) && i < |cfg.times| && Sound(cfg, e, i) && FilledIsEmpty(e)
    requires RuleStep(cfg, e, i, rule).Done?
    ensures FilledIsEmpty(RuleStep(cfg, e, i, rule).state) <==> NoneFilled(GetOrders(cfg, e, i, rule).batch.value)
  {
    hide Sound, GetOrders, AdmitUpTo, Submit, SimMarket, FilledIsEmpty, NoneFilled, Later;
    SoundIsWellFormed(cfg, e, i);
    var p, r := GetOrders(cfg, e, i, rule), RuleStep(cfg, e, i, rule);
    RuleAdvances(cfg, e, i, rule);
    AdvanceKeeps(cfg, e, p.state, i, [], NoPromise);
    LaterFills(e, p.state);
    ProposedAreFresh(cfg, e, i, rule);
    var flags := AdmitUpTo(cfg, p.state, i, p.batch.value, rule.verdicts, |p.batch.value|).value;
    BatchKeeps(cfg, p.state, i, rule, p.batch.value, NoPromise);
    var e2 := Submit(p.state, p.batch.value, flags);
    SubmitFills(p.state, p.batch.value, flags);
    if cfg.lag == 0 {
      SimMarketKeeps(cfg, e2, i, rule.sims, NoPromise);
    } else {
      PruneKeeps(cfg, e2, i, NoPromise);
    }
    LaterFills(e2, r.state);
  }

  /** Later states fill orders only by trading them, and closed orders stay as they are. */
  lemma LaterFills(a: State, b: State)
    requires Later(a, b) && |a.orders| == |b.orders|
    ensures FilledIsEmpty(a) <==> FilledIsEmpty(b)
  {
    forall id | 0 <= id < |a.orders|
      ensures b.orders[id].status == Filled ==> b.orders[id].qty == 0 || b.orders[id] == a.orders[id]
      ensures a.orders[id].status == Filled ==> b.orders[id] == a.orders[id]
    {}
  }

  lemma SubmitFills(e: State, batch: seq<OrderState>, flags: seq<bool>)
    requires e.WellFormed() && |flags| == |batch| && FilledIsEmpty(e)
    requires forall k :: 0 <= k < |batch| ==> batch[k].qty != 0
    ensures FilledIsEmpty(Submit(e, batch, flags)) <==> NoneFilled(batch)
  {
    hide AcceptedIds;
    var r := Submit(e, batch, flags);
    forall k | 0 <= k < |batch|
      ensures r.orders[|e.orders| + k].qty == batch[k].qty
      ensures r.orders[|e.orders| + k].status == Filled <==> batch[k].status == Filled
    {
      assert r.orders[|e.orders| + k] == Decided(batch, flags)[k];
    }
    forall id | 0 <= id < |e.orders| ensures r.orders[id] == e.orders[id] {}
  }

  // ---- Whole runs ----

  lemma {:induction false} ExpandedStatus(
    subs: seq<Submission>, group: string, registered: set<Contract>, now: int, k: nat)
    requires k <= |subs| && ExpandUpTo(subs, group, registered, now, k).Ok?
    requires forall j :: 0 <= j < |subs| && subs[j].Plain? ==> subs[j].status != Filled
    ensures NoneFilled(ExpandUpTo(subs, group, registered, now, k).value)
  {
    if k > 0 {
      ExpandedStatus(subs, group, registered, now, k - 1);
    }
  }

  /** A rule that hands in none leaves none, also when it fails. */
  lemma RuleFills(cfg: Config, e: State, i: nat, rule: RuleScript)
    requires Increasing(cfg.times) && i < |cfg.times| && Sound(cfg, e, i) && FilledIsEmpty(e)
    requires HandsInNoneFilled(rule)
    ensures FilledIsEmpty(RuleStep(cfg, e, i, rule).state)
  {
    hide Sound, AdmitUpTo, Submit, SimMarket, FilledIsEmpty, Later, Flow;
    SoundIsWellFormed(cfg, e, i);
    var p, r := GetOrders(cfg, e, i, rule), RuleStep(cfg, e, i, rule);
    RuleAdvances(cfg, e, i, rule);
    AdvanceKeeps(cfg, e, p.state, i, [], NoPromise);
    LaterFills(e, p.state);
    if p.batch.Ok? {
      ProposedAreFresh(cfg, e, i, rule);
      if ExpandUpTo(rule.submissions, rule.group, cfg.contracts, cfg.times[i], |rule.submissions|).Ok? {
        ExpandedStatus(rule.submissions, rule.group, cfg.contracts, cfg.times[i], |rule.submissions|);
      }
      assert NoneFilled(p.batch.value);
      if AdmitUpTo(cfg, p.state, i, p.batch.value, rule.verdicts, |p.batch.value|).Ok? {
        RestFills(cfg, p.state, i, rule, p.batch.value);
      }
    }
  }

  /** What follows the proposal. */
  lemma RestFills(cfg: Config, e: State, i: nat, rule: RuleScript, batch: seq<OrderState>)
    requires Increasing(cfg.times) && i < |cfg.times| && e.WellFormed() && Sound(cfg, e, i) && FilledIsEmpty(e)
    requires NoneFilled(batch)
    requires forall k :: 0 <= k < |batch| ==> Fresh(batch[k], rule.group, cfg.contracts, cfg.times[i])
    requires AdmitUpTo(cfg, e, i, batch, rule.verdicts, |batch|).Ok?
    ensures var e2 := Submit(e, batch, AdmitUpTo(cfg, e, i, batch, rule.verdicts, |batch|).value);
            FilledIsEmpty(SimMarket(cfg, e2, i, rule.sims).state) && FilledIsEmpty(Prune(e2))
  {
    hide Sound, AdmitUpTo, Submit, SimMarket, FilledIsEmpty, Later, NoneFilled;
    var flags := AdmitUpTo(cfg, e, i, batch, rule.verdicts, |batch|).value;
    BatchKeeps(cfg, e, i, rule, batch, NoPromise);
    var e2 := Submit(e, batch, flags);
    SubmitFills(e, batch, flags);
    SimMarketKeeps(cfg, e2, i, rule.sims, NoPromise);
    PruneKeeps(cfg, e2, i, NoPromise);
    LaterFills(e2, SimMarket(cfg, e2, i, rule.sims).state);
    LaterFills(e2, Prune(e2));
  }

  lemma {:induction false} RulesFill(cfg: Config, e: State, i: nat, rules: seq<RuleScript>, k: nat)
    requires Increasing(cfg.times) && i < |cfg.times| && k <= |rules|
    requires e.WellFormed() && Sound(cfg, e, i) && FilledIsEmpty(e)
    requires forall j :: 0 <= j < |rules| ==> HandsInNoneFilled(rules[j])
    ensures FilledIsEmpty(RulesUpTo(cfg, e, i, rules, k).state)
  {
    hide Sound, RuleStep, FilledIsEmpty, HandsInNoneFilled, Later;
    if k > 0 {
      RulesFill(cfg, e, i, rules, k - 1);
      RulesKeep(cfg, e, i, rules, k - 1, NoPromise);
      var x := RulesUpTo(cfg, e, i, rules, k - 1);
      if x.Done? {
        RuleFills(cfg, x.state, i, rules[k - 1]);
      }
    }
  }

  lemma {:induction false} RunFills(cfg: Config, e: State, start: nat, its: seq<Iteration>)
    requires Increasing(cfg.times) && Forward(cfg, start, its)
    requires e.WellFormed() && Sound(cfg, e, start) && FilledIsEmpty(e)
    requires NoRuleFills(its)
    ensures FilledIsEmpty(Run(cfg, e, its))
  {
    hide Sound, Later, FilledIsEmpty, HandsInNoneFilled, SimMarket, RulesUpTo;
    if |its| > 0 {
      var n := |its| - 1;
      RunFills(cfg, e, start, its[..n]);
      RunKeeps(cfg, e, start, its[..n], NoPromise);
      var x, it := Run(cfg, e, its[..n]), its[n];
      ClockKeeps(cfg, x, LastIndex(start, its[..n]), it.index, NoPromise);
      SimMarketKeeps(cfg, x, it.index, it.sims, NoPromise);
      var y := SimMarket(cfg, x, it.index, it.sims);
      LaterFills(x, y.state);
      if y.Done? {
        RulesFill(cfg, y.state, it.index, it.rules, |it.rules|);
      }
    }
  }

  // ---- A run that hands one in ----

  const MARKED: OrderState := OrderState(FillOrKill.CONTRACT, 0, GTC, 1, Filled)
  const RULE: RuleScript :=
    RuleScript("G", NoFilter, map[], false, [Plain(FillOrKill.CONTRACT, 0, 1, GTC, Filled)], [], [])

  /** One iteration whose rule hands in an order for one unit, already marked filled. */
  const MARKS: seq<Iteration> := [Iteration(0, [], [RULE])]

  /** The order is recorded as filled, and none of it ever traded. */
  lemma MarkedRun()
    ensures LegalRun(FillOrKill.DEMO, FillOrKill.NOTHING, 0, MARKS)
    ensures Run(FillOrKill.DEMO, FillOrKill.NOTHING, MARKS) == State([MARKED], [1], [], [])
    ensures OrderFlow([], 0, Signed) != 1
  {
    var cfg, e, r := FillOrKill.DEMO, FillOrKill.NOTHING, State([MARKED], [1], [], []);
    assert Forward(cfg, 0, MARKS);
    assert LegalRun(cfg, e, 0, MARKS);
    FillOrKill.QuietPass();
    MarkedProposed();
    MarkedAdmitted();
    MarkedPass();
    hide SimMarket, GetOrders, AdmitUpTo, Submit;
    assert RuleStep(cfg, e, 0, RULE) == Done(r);
    hide RuleStep, LegalRun, Forward, OrderFlow;
    assert RulesUpTo(cfg, e, 0, [RULE], 0) == Done(e);
    assert RulesUpTo(cfg, e, 0, [RULE], 1) == Done(r);
    assert RunIteration(cfg, e, MARKS[0]) == Done(r);
    assert MARKS[..0] == [];
    assert Run(cfg, e, []) == e;
  }

  lemma MarkedProposed()
    ensures GetOrders(FillOrKill.DEMO, FillOrKill.NOTHING, 0, RULE)
         == Proposal(FillOrKill.NOTHING, Result.Ok([MARKED]))
  {
    var cfg, subs := FillOrKill.DEMO, RULE.submissions;
    assert ExpandUpTo(subs, "G", cfg.contracts, 0, 0) == Result.Ok([]);
    assert [] + [MARKED] == [MARKED];
    assert ExpandUpTo(subs, "G", cfg.contracts, 0, 1) == Result.Ok([MARKED]);
    hide ExpandUpTo, Flow;
    assert Written(FillOrKill.NOTHING, map[]) == [];
  }

  lemma MarkedAdmitted()
    ensures AdmitUpTo(FillOrKill.DEMO, FillOrKill.NOTHING, 0, [MARKED], [], 1) == Result.Ok([true])
    ensures Submit(FillOrKill.NOTHING, [MARKED], [true]) == State([MARKED], [1], [0], [])
  {
    FillOrKill.AdmitsOne(MARKED);
    FillOrKill.SubmitsOne(MARKED);
    hide AdmitUpTo, Submit;
  }

  /** No simulator runs; the pass only drops the closed order from the pending ones. */
  lemma MarkedPass()
    ensures SimMarket(FillOrKill.DEMO, State([MARKED], [1], [0], []), 0, [])
         == Done(State([MARKED], [1], [], []))
  {
    var cfg, e := FillOrKill.DEMO, State([MARKED], [1], [0], []);
    assert ExpireUpTo(cfg, e, 0, 0) == Done(e);
    assert ExpireUpTo(cfg, e, 0, 1) == Done(e);
    assert [0][..0] == [];
    assert KeepOpen([MARKED], []) == [] && KeepOpen([MARKED], [0]) == [];
  }
}
