/** The order engine as functions on values: one iteration of the backtest loop, callbacks included.
    A callback is an arbitrary script: what it writes to the pending orders, whether it raises, and
    what it returns. */
module Engine {
  import opened Grid
  import opened Orders
  import opened Flows
  import opened CallbackContracts
  import opened Risk

  datatype Config = Config(times: seq<int>, lag: nat, contracts: set<Contract>, policies: seq<Policy>)

  /** An order's identity is its place in `orders`; `proposed` keeps the quantity it was decided on. */
  datatype State = State(orders: seq<OrderState>, proposed: seq<int>, current: seq<nat>, trades: seq<Trade>)
  {
    predicate WellFormed() {
      |proposed| == |orders| && forall k :: 0 <= k < |current| ==> current[k] < |orders|
    }
  }

  /** Either the step completed or a callback failed; both leave a state behind. */
  datatype Outcome = Done(state: State) | Raised(state: State)

  /** A simulator call: what it writes, whether it raises, what it reports, and whether the account then takes
      what it reported (in module StrategyObject, the account's own answer). */
  datatype SimScript = SimScript(
    writes: map<nat, OrderState>, raises: bool, trades: seq<Trade>, accountAccepts: bool)

  datatype PositionFilter = NoFilter | Zero | Nonzero | Positive | Negative

  datatype RuleScript = RuleScript(
    group: string, filter: PositionFilter, writes: map<nat, OrderState>, raises: bool,
    submissions: seq<Submission>, verdicts: seq<seq<Verdict>>, sims: seq<SimScript>)

  datatype Iteration = Iteration(index: nat, sims: seq<SimScript>, rules: seq<RuleScript>)

  /** The states of the listed orders. */
  function StatesOf(orders: seq<OrderState>, ids: seq<nat>): (r: seq<OrderState>)
    requires forall k :: 0 <= k < |ids| ==> ids[k] < |orders|
    ensures |r| == |ids| && forall k :: 0 <= k < |ids| ==> r[k] == orders[ids[k]]
  {
    if |ids| == 0 then []
    else StatesOf(orders, ids[..|ids| - 1]) + [orders[ids[|ids| - 1]]]
  }

  function KeepOpen(orders: seq<OrderState>, ids: seq<nat>): (r: seq<nat>)
    requires forall k :: 0 <= k < |ids| ==> ids[k] < |orders|
    ensures forall k :: 0 <= k < |r| ==> r[k] < |orders|
  {
    if |ids| == 0 then []
    else
      var id := ids[|ids| - 1];
      KeepOpen(orders, ids[..|ids| - 1]) + if orders[id].IsOpen() then [id] else []
  }

  function KeepListed(ids: seq<nat>, keep: set<nat>): (r: seq<nat>)
    ensures forall k :: 0 <= k < |r| ==> r[k] in ids && r[k] in keep
  {
    if |ids| == 0 then []
    else
      var id := ids[|ids| - 1];
      KeepListed(ids[..|ids| - 1], keep) + if id in keep then [id] else []
  }

  /** `_update_current_orders`. */
  function Prune(e: State): (r: State)
    requires e.WellFormed()
    ensures r.WellFormed() && r == e.(current := r.current)
  {
    e.(current := KeepOpen(e.orders, e.current))
  }

  // ---- Market simulation ----

  function SubmissionIndex(cfg: Config, o: OrderState): nat
    requires Increasing(cfg.times)
  {
    SearchSorted(cfg.times, o.timestamp)
  }

  /** The engine's assertion: the order was submitted on the grid, not after the current index. */
  predicate Placed(cfg: Config, i: nat, o: OrderState)
    requires Increasing(cfg.times)
  {
    SubmissionIndex(cfg, o) < |cfg.times| && SubmissionIndex(cfg, o) <= i
  }

  /** Requested cancellations, DAY expiry and fill-or-kill expiry, before any simulator runs. */
  function Expire(cfg: Config, i: nat, o: OrderState): OrderState
    requires Increasing(cfg.times) && i < |cfg.times|
  {
    var a := if o.status == CancelRequested then CancelOrder(o) else o;
    var b := if o.tif == DAY && Day(cfg.times[i]) > Day(o.timestamp) then CancelOrder(a) else a;
    if i - SubmissionIndex(cfg, o) > cfg.lag && o.tif == FOK then CancelOrder(b) else b
  }

  predicate EligibleOrder(cfg: Config, i: nat, o: OrderState)
    requires Increasing(cfg.times)
  {
    i - SubmissionIndex(cfg, o) >= cfg.lag && o.IsOpen()
  }

  /** The expiry loop over the first `k` pending orders. */
  function ExpireUpTo(cfg: Config, e: State, i: nat, k: nat): (r: Outcome)
    requires Increasing(cfg.times) && i < |cfg.times| && e.WellFormed() && k <= |e.current|
    ensures r.state.WellFormed() && |r.state.orders| == |e.orders| && r.state == e.(orders := r.state.orders)
  {
    if k == 0 then Done(e)
    else
      match ExpireUpTo(cfg, e, i, k - 1)
      case Raised(x) => Raised(x)
      case Done(x) =>
        var id := e.current[k - 1];
        if Placed(cfg, i, x.orders[id]) then Done(x.(orders := x.orders[id := Expire(cfg, i, x.orders[id])]))
        else Raised(x)
  }

  /** Identities of the orders that may trade at index `i`, among the first `k` pending ones. */
  function EligibleUpTo(cfg: Config, e: State, i: nat, k: nat): (r: set<nat>)
    requires Increasing(cfg.times) && e.WellFormed() && k <= |e.current|
    ensures forall id :: id in r ==> id < |e.orders| && id in e.current && EligibleOrder(cfg, i, e.orders[id])
  {
    if k == 0 then {}
    else
      var id := e.current[k - 1];
      EligibleUpTo(cfg, e, i, k - 1) + if EligibleOrder(cfg, i, e.orders[id]) then {id} else {}
  }

  /** The pending orders' fields after a callback has written what it likes to them. */
  function Written(e: State, writes: map<nat, OrderState>): (r: seq<OrderState>)
    ensures |r| == |e.orders|
  {
    seq(|e.orders|, j requires 0 <= j < |e.orders| => if j in e.current && j in writes then writes[j] else e.orders[j])
  }

  /** The guards checked after a simulator: eligible orders keep their identity, others keep everything. */
  predicate SimGuardsHold(e: State, after: seq<OrderState>, eligible: set<nat>)
    requires e.WellFormed() && |after| == |e.orders|
  {
    forall k :: 0 <= k < |e.current| ==>
      var id := e.current[k];
      if id in eligible then SameIdentity(e.orders[id], after[id]) else Unchanged(e.orders[id], after[id], false)
  }

  /** One order after reconciliation: the engine applies a reported fill the simulator left unapplied. */
  function SettleOrder(before: OrderState, after: OrderState, filled: int): Result<OrderState> {
    if after.qty == before.qty && filled != 0 then FillOrder(after, filled) else Ok(after)
  }

  function SettleUpTo(before: seq<OrderState>, after: seq<OrderState>, trades: seq<Trade>, view: seq<nat>, k: nat):
    (r: Result<seq<OrderState>>)
    requires |before| == |after| && k <= |view|
    requires forall j :: 0 <= j < |view| ==> view[j] < |before|
    ensures r.Ok? ==> |r.value| == |after|
  {
    if k == 0 then Ok(after)
    else
      match SettleUpTo(before, after, trades, view, k - 1)
      case Raise => Raise
      case Ok(done) =>
        var id := view[k - 1];
        match SettleOrder(before[id], done[id], OrderFlow(trades, id, Signed))
        case Raise => Raise
        case Ok(o) => Ok(done[id := o])
  }

  /** Judge what a simulator left behind: the settled orders, or a refusal. */
  function Judge(cfg: Config, e: State, i: nat, eligible: set<nat>, script: SimScript): (r: Result<seq<OrderState>>)
    requires i < |cfg.times| && e.WellFormed()
    ensures r.Ok? ==> |r.value| == |e.orders|
  {
    var view := KeepListed(e.current, eligible);
    var after := Written(e, script.writes);
    if script.raises || !SimGuardsHold(e, after, eligible) then Raise
    else if !BatchAccepted(script.trades, view, e.orders, after, cfg.times[i]) then Raise
    else
      var settled := SettleUpTo(e.orders, after, script.trades, view, |view|);
      if |script.trades| > 0 && !script.accountAccepts then Raise else settled
  }

  /** One simulator call: prune, expose the eligible orders, judge the result, book the trades. Any
      failure restores every pending order to its captured fields. */
  function SimStep(cfg: Config, e: State, i: nat, eligible: set<nat>, script: SimScript): (r: Outcome)
    requires i < |cfg.times| && e.WellFormed()
    ensures r.state.WellFormed() && |r.state.orders| == |e.orders| && r.state.proposed == e.proposed
  {
    var e1 := Prune(e);
    match Judge(cfg, e1, i, eligible, script)
    case Raise => Raised(e1)
    case Ok(settled) => Done(e1.(orders := settled, trades := e1.trades + script.trades))
  }

  function SimsUpTo(cfg: Config, e: State, i: nat, eligible: set<nat>, scripts: seq<SimScript>, k: nat): (r: Outcome)
    requires i < |cfg.times| && e.WellFormed() && k <= |scripts|
    ensures r.state.WellFormed() && |r.state.orders| == |e.orders| && r.state.proposed == e.proposed
  {
    if k == 0 then Done(e)
    else
      match SimsUpTo(cfg, e, i, eligible, scripts, k - 1)
      case Raised(x) => Raised(x)
      case Done(x) => SimStep(cfg, x, i, eligible, scripts[k - 1])
  }

  /** `_sim_market`. */
  function SimMarket(cfg: Config, e: State, i: nat, scripts: seq<SimScript>): (r: Outcome)
    requires Increasing(cfg.times) && i < |cfg.times| && e.WellFormed()
    ensures r.state.WellFormed() && |r.state.orders| == |e.orders| && r.state.proposed == e.proposed
  {
    match ExpireUpTo(cfg, e, i, |e.current|)
    case Raised(x) => Raised(x)
    case Done(x) =>
      match SimsUpTo(cfg, x, i, EligibleUpTo(cfg, x, i, |x.current|), scripts, |scripts|)
      case Raised(y) => Raised(y)
      case Done(y) => Done(Prune(y))
  }

  // ---- Rules ----

  predicate FilterPasses(f: PositionFilter, position: int) {
    match f
    case NoFilter => true
    case Zero => position == 0
    case Nonzero => position != 0
    case Positive => position > 0
    case Negative => position < 0
  }

  predicate RuleGuardsHold(e: State, after: seq<OrderState>)
    requires e.WellFormed() && |after| == |e.orders|
  {
    forall k :: 0 <= k < |e.current| ==> Unchanged(e.orders[e.current[k]], after[e.current[k]], true)
  }

  datatype Proposal = Proposal(state: State, batch: Result<seq<OrderState>>)

  /** `_get_orders`: the orders a rule proposes, and the pending orders it moved towards cancellation. */
  function GetOrders(cfg: Config, e: State, i: nat, rule: RuleScript): (r: Proposal)
    requires i < |cfg.times| && e.WellFormed()
    ensures r.state.WellFormed() && |r.state.orders| == |e.orders| && r.state == e.(orders := r.state.orders)
  {
    if !FilterPasses(rule.filter, Flow(e.trades, InGroup(rule.group), Signed, UpTo(cfg.times[i]))) then
      Proposal(e, Ok([]))
    else
      var after := Written(e, rule.writes);
      var batch := ExpandUpTo(rule.submissions, rule.group, cfg.contracts, cfg.times[i], |rule.submissions|);
      if rule.raises || !RuleGuardsHold(e, after) || batch.Raise? then Proposal(e, Raise)
      else Proposal(e.(orders := after), batch)
  }

  /** The accepted members of a decided batch. */
  function AcceptedOf(batch: seq<OrderState>, flags: seq<bool>): seq<OrderState>
    requires |flags| <= |batch|
  {
    if |flags| == 0 then []
    else
      var n := |flags| - 1;
      AcceptedOf(batch, flags[..n]) + if flags[n] then [batch[n]] else []
  }

  function AcceptedIds(first: nat, flags: seq<bool>): (r: seq<nat>)
    ensures forall k :: 0 <= k < |r| ==> first <= r[k] < first + |flags|
  {
    if |flags| == 0 then []
    else
      var n := |flags| - 1;
      AcceptedIds(first, flags[..n]) + if flags[n] then [first + n] else []
  }

  /** What the policies see for the next order of a batch: pending orders and those accepted before it. */
  function DecisionContext(cfg: Config, e: State, i: nat, batch: seq<OrderState>, flags: seq<bool>): Context
    requires i < |cfg.times| && e.WellFormed() && |flags| <= |batch|
  {
    Context(e.trades, cfg.times[i], StatesOf(e.orders, e.current) + AcceptedOf(batch, flags))
  }

  function VerdictsAt(verdicts: seq<seq<Verdict>>, k: nat): seq<Verdict> {
    if k < |verdicts| then verdicts[k] else []
  }

  /** Decisions on the first `k` orders of a batch, each seeing the ones accepted before it. */
  function AdmitUpTo(cfg: Config, e: State, i: nat, batch: seq<OrderState>, verdicts: seq<seq<Verdict>>, k: nat):
    (r: Result<seq<bool>>)
    requires i < |cfg.times| && e.WellFormed() && k <= |batch|
    ensures r.Ok? ==> |r.value| == k
  {
    if k == 0 then Ok([])
    else
      match AdmitUpTo(cfg, e, i, batch, verdicts, k - 1)
      case Raise => Raise
      case Ok(flags) =>
        match Decide(batch[k - 1], DecisionContext(cfg, e, i, batch, flags), cfg.policies, VerdictsAt(verdicts, k - 1))
        case Accepted => Ok(flags + [true])
        case Rejected(_) => Ok(flags + [false])
        case Failed => Raise
  }

  function Decided(batch: seq<OrderState>, flags: seq<bool>): (r: seq<OrderState>)
    requires |flags| == |batch|
    ensures |r| == |batch|
    ensures forall k :: 0 <= k < |batch| ==> r[k] == if flags[k] then batch[k] else CancelOrder(batch[k])
  {
    seq(|batch|, k requires 0 <= k < |batch| => if flags[k] then batch[k] else CancelOrder(batch[k]))
  }

  /** Record a decided batch: rejected orders are cancelled, accepted ones become pending. */
  function Submit(e: State, batch: seq<OrderState>, flags: seq<bool>): (r: State)
    requires e.WellFormed() && |flags| == |batch|
    ensures r.WellFormed()
  {
    State(
      e.orders + Decided(batch, flags),
      e.proposed + seq(|batch|, k requires 0 <= k < |batch| => batch[k].qty),
      e.current + AcceptedIds(|e.orders|, flags),
      e.trades)
  }

  /** One rule, its decisions, and the market pass or prune that follows it. */
  function RuleStep(cfg: Config, e: State, i: nat, rule: RuleScript): (r: Outcome)
    requires Increasing(cfg.times) && i < |cfg.times| && e.WellFormed()
    ensures r.state.WellFormed()
  {
    var p := GetOrders(cfg, e, i, rule);
    match p.batch
    case Raise => Raised(p.state)
    case Ok(batch) =>
      match AdmitUpTo(cfg, p.state, i, batch, rule.verdicts, |batch|)
      case Raise => Raised(p.state)
      case Ok(flags) =>
        var e2 := Submit(p.state, batch, flags);
        if cfg.lag == 0 then SimMarket(cfg, e2, i, rule.sims) else Done(Prune(e2))
  }

  function RulesUpTo(cfg: Config, e: State, i: nat, rules: seq<RuleScript>, k: nat): (r: Outcome)
    requires Increasing(cfg.times) && i < |cfg.times| && e.WellFormed() && k <= |rules|
    ensures r.state.WellFormed()
  {
    if k == 0 then Done(e)
    else
      match RulesUpTo(cfg, e, i, rules, k - 1)
      case Raised(x) => Raised(x)
      case Done(x) => RuleStep(cfg, x, i, rules[k - 1])
  }

  /** `_run_iteration`. */
  function RunIteration(cfg: Config, e: State, it: Iteration): (r: Outcome)
    requires Increasing(cfg.times) && it.index < |cfg.times| && e.WellFormed()
    ensures r.state.WellFormed()
  {
    match SimMarket(cfg, e, it.index, it.sims)
    case Raised(x) => Raised(x)
    case Done(x) => RulesUpTo(cfg, x, it.index, it.rules, |it.rules|)
  }

  /** A run: iterations in order; after a failure a later call may resume from the state left behind. */
  function Run(cfg: Config, e: State, its: seq<Iteration>): (r: State)
    requires Increasing(cfg.times) && e.WellFormed()
    requires forall k :: 0 <= k < |its| ==> its[k].index < |cfg.times|
    ensures r.WellFormed()
  {
    if |its| == 0 then e
    else RunIteration(cfg, Run(cfg, e, its[..|its| - 1]), its[|its| - 1]).state
  }
}
