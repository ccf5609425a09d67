/** What a fill-or-kill order is promised: one index to trade at, not to be filled whole. */
module FillOrKill {
  import opened Grid
  import opened Orders
  import opened Flows
  import opened CallbackContracts
  import opened Risk
  import opened Engine
  import opened EngineSteps
  import opened EngineSafety
  import opened EngineTheorems

  /** Every fill-or-kill order of this quantity, in every run, trades all of it or nothing. */
  ghost predicate AllOrNothing(q: int) {
    forall cfg: Config, e: State, start: nat, its: seq<Iteration>, id: nat ::
      LegalRun(cfg, e, start, its) && id < |Run(cfg, e, its).orders|
      && Run(cfg, e, its).orders[id].tif == FOK && Run(cfg, e, its).proposed[id] == q
      ==> OrderFlow(Run(cfg, e, its).trades, id, Signed) in {0, q}
  }

  /** A fill-or-kill order is all-or-nothing in every run if and only if it is for a single unit. */
  lemma OnlySingleUnitsAreAllOrNothing(q: int)
    requires q != 0
    ensures AllOrNothing(q) <==> Abs(q) == 1
  {
    if Abs(q) == 1 {
      forall cfg: Config, e: State, start: nat, its: seq<Iteration>, id: nat |
        LegalRun(cfg, e, start, its) && id < |Run(cfg, e, its).orders|
        && Run(cfg, e, its).orders[id].tif == FOK && Run(cfg, e, its).proposed[id] == q
        ensures OrderFlow(Run(cfg, e, its).trades, id, Signed) in {0, q}
      {
        QuantityIsConserved(cfg, e, start, its, id);
      }
    } else {
      PartialRun(q);
      hide AllOrNothing, LegalRun, Run;
      if AllOrNothing(q) {
        Promised(q, DEMO, NOTHING, 0, Demo(q), 0);
      }
    }
  }

  lemma Promised(q: int, cfg: Config, e: State, start: nat, its: seq<Iteration>, id: nat)
    requires AllOrNothing(q) && LegalRun(cfg, e, start, its) && id < |Run(cfg, e, its).orders|
    requires Run(cfg, e, its).orders[id].tif == FOK && Run(cfg, e, its).proposed[id] == q
    ensures OrderFlow(Run(cfg, e, its).trades, id, Signed) in {0, q}
  {
    hide Run, LegalRun;
  }

  // ---- The partial run ----

  const CONTRACT: Contract := Contract("A", "G")
  const DEMO: Config := Config([0], 0, {CONTRACT}, [])
  const NOTHING: State := State([], [], [], [])

  /** One unit on the order's side. */
  function Unit(q: int): int {
    if q > 0 then 1 else -1
  }

  function Order0(q: int): OrderState {
    OrderState(CONTRACT, 0, FOK, q, Open)
  }

  function Fill0(q: int): Trade {
    Trade(0, CONTRACT, 0, Unit(q), 1.0, 0.0, 0.0)
  }

  function Sim(q: int): SimScript {
    SimScript(map[], false, [Fill0(q)], true)
  }

  function Rule(q: int): RuleScript {
    RuleScript("G", NoFilter, map[], false, [Plain(CONTRACT, 0, q, FOK, Open)], [], [Sim(q)])
  }

  /** One iteration: a rule submits the order, and the market pass after it reports one unit. */
  function Demo(q: int): seq<Iteration> {
    [Iteration(0, [], [Rule(q)])]
  }

  /** The engine with the order pending. */
  function Pending0(q: int): State {
    State([Order0(q)], [q], [0], [])
  }

  function Partly(q: int): State {
    State([Order0(q).(qty := q - Unit(q), status := PartiallyFilled)], [q], [0], [Fill0(q)])
  }

  /** Two units or more can be filled in part. */
  lemma PartialRun(q: int)
    requires Abs(q) >= 2
    ensures LegalRun(DEMO, NOTHING, 0, Demo(q))
    ensures Run(DEMO, NOTHING, Demo(q)) == Partly(q)
    ensures OrderFlow([Fill0(q)], 0, Signed) == Unit(q)
  {
    assert Forward(DEMO, 0, Demo(q));
    OneFill(q);
    QuietPass();
    RulePasses(q);
    hide SimMarket, RuleStep;
    var rules := [Rule(q)];
    assert RulesUpTo(DEMO, NOTHING, 0, rules, 0) == Done(NOTHING);
    assert RulesUpTo(DEMO, NOTHING, 0, rules, 1) == Done(Partly(q));
    assert RunIteration(DEMO, NOTHING, Demo(q)[0]) == Done(Partly(q));
    assert Demo(q)[..0] == [];
    assert Run(DEMO, NOTHING, []) == NOTHING;
  }

  lemma OneFill(q: int)
    ensures OrderFlow([Fill0(q)], 0, Signed) == Unit(q) && OrderFlow([], 0, Signed) == 0
    ensures [Fill0(q)][..1] == [Fill0(q)]
  {
    assert [Fill0(q)][..0] == [];
  }

  lemma QuietPass()
    ensures SimMarket(DEMO, NOTHING, 0, []) == Done(NOTHING)
  {
    assert ExpireUpTo(DEMO, NOTHING, 0, 0) == Done(NOTHING);
  }

  lemma RulePasses(q: int)
    requires Abs(q) >= 2
    ensures RuleStep(DEMO, NOTHING, 0, Rule(q)) == Done(Partly(q))
  {
    Proposes(q);
    Admits(q);
    MarketFills(q);
    hide GetOrders, AdmitUpTo, Submit, SimMarket;
  }

  lemma Proposes(q: int)
    requires q != 0
    ensures GetOrders(DEMO, NOTHING, 0, Rule(q)) == Proposal(NOTHING, Result.Ok([Order0(q)]))
  {
    var subs := Rule(q).submissions;
    assert ExpandUpTo(subs, "G", DEMO.contracts, 0, 0) == Result.Ok([]);
    assert [] + [Order0(q)] == [Order0(q)];
    assert ExpandUpTo(subs, "G", DEMO.contracts, 0, 1) == Result.Ok([Order0(q)]);
    hide ExpandUpTo, Flow;
    assert Written(NOTHING, map[]) == [];
  }

  /** With no policy registered and nothing pending, a nonzero order is accepted. */
  lemma NobodyObjects(o: OrderState, ctx: Context)
    requires o.qty != 0 && ctx.open == []
    ensures Decide(o, ctx, [], []) == Accepted
  {}

  lemma AdmitsOne(o: OrderState)
    requires o.qty != 0
    ensures AdmitUpTo(DEMO, NOTHING, 0, [o], [], 1) == Result.Ok([true])
  {
    NobodyObjects(o, DecisionContext(DEMO, NOTHING, 0, [o], []));
    hide Decide, DecisionContext;
    assert AdmitUpTo(DEMO, NOTHING, 0, [o], [], 0) == Result.Ok([]);
    assert [] + [true] == [true];
  }

  lemma SubmitsOne(o: OrderState)
    ensures Submit(NOTHING, [o], [true]) == State([o], [o.qty], [0], [])
  {
    assert [true][..0] == [];
    assert AcceptedIds(0, []) == [] && AcceptedIds(0, [true]) == [0];
    assert Decided([o], [true]) == [o];
    hide AcceptedIds, Decided;
    assert seq(1, k requires 0 <= k < 1 => [o][k].qty) == [o.qty];
  }

  lemma Admits(q: int)
    requires q != 0
    ensures AdmitUpTo(DEMO, NOTHING, 0, [Order0(q)], [], 1) == Result.Ok([true])
    ensures Submit(NOTHING, [Order0(q)], [true]) == Pending0(q)
  {
    AdmitsOne(Order0(q));
    SubmitsOne(Order0(q));
    hide AdmitUpTo, Submit;
  }

  lemma MarketFills(q: int)
    requires Abs(q) >= 2
    ensures SimMarket(DEMO, Pending0(q), 0, [Sim(q)]) == Done(Partly(q))
  {
    var e := Pending0(q);
    Waits(q);
    FillStep(q);
    KeepsOpen([Order0(q).(qty := q - Unit(q), status := PartiallyFilled)]);
    hide ExpireUpTo, EligibleUpTo, SimStep, KeepOpen;
    assert SimsUpTo(DEMO, e, 0, {0}, [Sim(q)], 0) == Done(e);
    assert SimsUpTo(DEMO, e, 0, {0}, [Sim(q)], 1) == Done(Partly(q));
  }

  lemma KeepsOpen(orders: seq<OrderState>)
    requires |orders| == 1 && orders[0].IsOpen()
    ensures KeepOpen(orders, [0]) == [0]
  {
    assert [0][..0] == [];
    assert KeepOpen(orders, []) == [];
  }

  /** The order is eligible at once: the lag is zero. */
  lemma Waits(q: int)
    ensures ExpireUpTo(DEMO, Pending0(q), 0, 1) == Done(Pending0(q))
    ensures EligibleUpTo(DEMO, Pending0(q), 0, 1) == {0}
  {
    var e := Pending0(q);
    SplitIs(DEMO.times, 0, 0);
    assert Expire(DEMO, 0, Order0(q)) == Order0(q);
    assert ExpireUpTo(DEMO, e, 0, 0) == Done(e) && EligibleUpTo(DEMO, e, 0, 0) == {};
    assert e.orders[0 := Order0(q)] == e.orders;
  }

  lemma FillStep(q: int)
    requires Abs(q) >= 2
    ensures SimStep(DEMO, Pending0(q), 0, {0}, Sim(q)) == Done(Partly(q))
  {
    var e, trades := Pending0(q), [Fill0(q)];
    KeepsOpen(e.orders);
    assert [0][..0] == [];
    assert KeepListed([], {0}) == [] && KeepListed([0], {0}) == [0];
    assert Written(e, map[]) == e.orders;
    OneFill(q);
    assert trades[..0 + 1] == trades;
    assert TradeAdmissible(trades, 0, [0], e.orders, e.orders, 0);
    assert BatchAccepted(trades, [0], e.orders, e.orders, 0);
    assert FillOrder(Order0(q), Unit(q)) == Result.Ok(Partly(q).orders[0]);
    assert e.orders[0 := Partly(q).orders[0]] == Partly(q).orders;
    assert SettleUpTo(e.orders, e.orders, trades, [0], 0) == Result.Ok(e.orders);
    assert SettleUpTo(e.orders, e.orders, trades, [0], 1) == Result.Ok(Partly(q).orders);
    hide BatchAccepted, SettleUpTo, KeepListed, KeepOpen, OrderFlow;
    assert SimGuardsHold(e, e.orders, {0});
    assert e.trades + trades == trades;
  }
}
