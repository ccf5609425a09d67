/** Booking, seen from the engine: what the account is handed, and why it can refuse it only while pricing. */
module Booking {
  import opened Grid
  import opened Orders
  import opened Flows
  import opened CallbackContracts
  import opened Engine
  import opened EngineSteps
  import EngineSafety

  /** The same call, whatever the account answered. */
  predicate SameCall(a: SimScript, b: SimScript) {
    a == b.(accountAccepts := a.accountAccepts)
  }

  predicate SameCalls(a: seq<SimScript>, b: seq<SimScript>) {
    |a| == |b| && forall k :: 0 <= k < |a| ==> SameCall(a[k], b[k])
  }

  /** The same call with the account taking whatever it is handed. */
  function Willing(script: SimScript): (r: SimScript)
    ensures SameCall(r, script) && r.accountAccepts
  {
    script.(accountAccepts := true)
  }

  /** The account's answer matters only when there is something to book, and then it decides. */
  lemma BookingDecides(cfg: Config, e: State, i: nat, eligible: set<nat>, script: SimScript, ok: bool)
    requires i < |cfg.times| && e.WellFormed()
    ensures Judge(cfg, e, i, eligible, script.(accountAccepts := ok))
         == if ok || |script.trades| == 0 then Judge(cfg, e, i, eligible, Willing(script)) else Raise
  {
    hide BatchAccepted, SettleUpTo, SimGuardsHold, KeepListed, Written;
  }

  predicate SameRule(a: RuleScript, b: RuleScript) {
    a == b.(sims := a.sims) && SameCalls(a.sims, b.sims)
  }

  predicate SameRules(a: seq<RuleScript>, b: seq<RuleScript>) {
    |a| == |b| && forall k :: 0 <= k < |a| ==> SameRule(a[k], b[k])
  }

  /** The account takes every batch these calls hand it. */
  predicate AllTaken(scripts: seq<SimScript>) {
    forall k :: 0 <= k < |scripts| ==> scripts[k].accountAccepts
  }

  predicate AllRulesTaken(rules: seq<RuleScript>) {
    forall k :: 0 <= k < |rules| ==> AllTaken(rules[k].sims)
  }

  /** Calls that are never made are never refused. */
  function Unmade(scripts: seq<SimScript>): (r: seq<SimScript>)
    ensures SameCalls(r, scripts) && AllTaken(r)
  {
    seq(|scripts|, k requires 0 <= k < |scripts| => Willing(scripts[k]))
  }

  function UnmadeRule(rule: RuleScript): (r: RuleScript)
    ensures SameRule(r, rule) && AllTaken(r.sims)
  {
    rule.(sims := Unmade(rule.sims))
  }

  function UnmadeRules(rules: seq<RuleScript>): (r: seq<RuleScript>)
    ensures SameRules(r, rules) && AllRulesTaken(r)
  {
    seq(|rules|, k requires 0 <= k < |rules| => UnmadeRule(rules[k]))
  }

  lemma CallsNext(said: seq<SimScript>, one: SimScript, scripts: seq<SimScript>, k: nat)
    requires k < |scripts| && SameCalls(said, scripts[..k]) && SameCall(one, scripts[k])
    ensures SameCalls(said + [one], scripts[..k + 1])
    ensures AllTaken(said) && one.accountAccepts ==> AllTaken(said + [one])
  {}

  lemma RestUnmade(said: seq<SimScript>, scripts: seq<SimScript>, k: nat)
    requires k <= |scripts| && SameCalls(said, scripts[..k])
    ensures |said + Unmade(scripts[k..])| == |scripts| && SameCalls(said + Unmade(scripts[k..]), scripts)
    ensures AllTaken(said) ==> AllTaken(said + Unmade(scripts[k..]))
  {
    hide Unmade, SameCall;
    var all, rest := said + Unmade(scripts[k..]), scripts[k..];
    forall j | 0 <= j < |scripts| ensures SameCall(all[j], scripts[j]) {
      if j < k {
        assert all[j] == said[j] && scripts[j] == scripts[..k][j];
      } else {
        assert all[j] == Unmade(rest)[j - k] && scripts[j] == rest[j - k];
      }
    }
  }

  lemma RulesTakenNext(said: seq<RuleScript>, one: RuleScript, rules: seq<RuleScript>, k: nat)
    requires k < |rules| && SameRules(said, rules[..k]) && SameRule(one, rules[k])
    ensures SameRules(said + [one], rules[..k + 1])
    ensures AllRulesTaken(said) && AllTaken(one.sims) ==> AllRulesTaken(said + [one])
  {}

  lemma RulesUnmade(said: seq<RuleScript>, rules: seq<RuleScript>, k: nat)
    requires k <= |rules| && SameRules(said, rules[..k])
    ensures |said + UnmadeRules(rules[k..])| == |rules| && SameRules(said + UnmadeRules(rules[k..]), rules)
    ensures AllRulesTaken(said) ==> AllRulesTaken(said + UnmadeRules(rules[k..]))
  {
    hide UnmadeRules, SameRule, AllTaken;
    var all, rest := said + UnmadeRules(rules[k..]), rules[k..];
    forall j | 0 <= j < |rules| ensures SameRule(all[j], rules[j]) {
      if j < k {
        assert all[j] == said[j] && rules[j] == rules[..k][j];
      } else {
        assert all[j] == UnmadeRules(rest)[j - k] && rules[j] == rest[j - k];
      }
    }
  }

  /** Every order names a registered contract and nothing has been booked after now. */
  predicate UpToDate(cfg: Config, e: State, i: nat)
    requires i < |cfg.times|
  {
    && (forall id :: 0 <= id < |e.orders| ==> e.orders[id].contract in cfg.contracts)
    && (forall k :: 0 <= k < |e.trades| ==> e.trades[k].timestamp <= cfg.times[i])
  }

  /** Every state a run reaches is up to date. */
  lemma SoundIsUpToDate(cfg: Config, e: State, i: nat)
    requires Increasing(cfg.times) && i < |cfg.times| && EngineSafety.Sound(cfg, e, i)
    ensures UpToDate(cfg, e, i)
  {
    forall id | 0 <= id < |e.orders| ensures e.orders[id].contract in cfg.contracts {
      assert EngineSafety.OrderSound(cfg, e, i, id);
    }
    forall k | 0 <= k < |e.trades| ensures e.trades[k].timestamp <= cfg.times[i] {
      assert EngineSafety.TradeSound(cfg, e, i, e.trades[k]);
    }
  }

  /** What an accepted batch holds: executions of now, nonzero, in the contracts of listed orders. */
  lemma AcceptedIsNow(
    batch: seq<Trade>, view: seq<nat>, before: seq<OrderState>, after: seq<OrderState>, now: int)
    requires |before| == |after| && forall j :: 0 <= j < |view| ==> view[j] < |before|
    requires BatchAccepted(batch, view, before, after, now)
    ensures forall k :: 0 <= k < |batch| ==>
      && batch[k].timestamp == now && batch[k].qty != 0
      && batch[k].order in view && batch[k].contract == after[batch[k].order].contract
  {
    forall k | 0 <= k < |batch|
      ensures batch[k].timestamp == now && batch[k].qty != 0
      ensures batch[k].order in view && batch[k].contract == after[batch[k].order].contract
    {
      assert TradeAdmissible(batch, k, view, before, after, now);
    }
  }

  /** An accepted batch names registered contracts, whatever the simulator wrote to the orders. */
  lemma AcceptedIsRegistered(
    cfg: Config, e: State, i: nat, eligible: set<nat>, after: seq<OrderState>, batch: seq<Trade>)
    requires i < |cfg.times| && e.WellFormed() && |after| == |e.orders| && UpToDate(cfg, e, i)
    requires SimGuardsHold(e, after, eligible)
    requires BatchAccepted(batch, KeepListed(e.current, eligible), e.orders, after, cfg.times[i])
    ensures forall k :: 0 <= k < |batch| ==> batch[k].contract in cfg.contracts
  {
    hide BatchAccepted;
    AcceptedIsNow(batch, KeepListed(e.current, eligible), e.orders, after, cfg.times[i]);
    forall k | 0 <= k < |batch| ensures batch[k].contract in cfg.contracts {
      var j :| 0 <= j < |e.current| && e.current[j] == batch[k].order;
      assert SameIdentity(e.orders[e.current[j]], after[e.current[j]]);
    }
  }

  // ---- Every step leaves the state up to date ----

  lemma {:induction false} ExpiryUpToDate(cfg: Config, e: State, i: nat, k: nat)
    requires Increasing(cfg.times) && i < |cfg.times| && e.WellFormed() && k <= |e.current| && UpToDate(cfg, e, i)
    ensures UpToDate(cfg, ExpireUpTo(cfg, e, i, k).state, i)
  {
    if k > 0 {
      ExpiryUpToDate(cfg, e, i, k - 1);
    }
  }

  lemma {:induction false} SettlingKeepsContracts(
    before: seq<OrderState>, after: seq<OrderState>, trades: seq<Trade>, view: seq<nat>, k: nat)
    requires |before| == |after| && k <= |view| && forall j :: 0 <= j < |view| ==> view[j] < |before|
    requires SettleUpTo(before, after, trades, view, k).Ok?
    ensures forall id :: 0 <= id < |after| ==>
      SettleUpTo(before, after, trades, view, k).value[id].contract == after[id].contract
  {
    hide OrderFlow;
    if k > 0 {
      SettlingKeepsContracts(before, after, trades, view, k - 1);
    }
  }

  lemma SimStepUpToDate(cfg: Config, e: State, i: nat, eligible: set<nat>, script: SimScript)
    requires i < |cfg.times| && e.WellFormed() && UpToDate(cfg, e, i)
    ensures UpToDate(cfg, SimStep(cfg, e, i, eligible, script).state, i)
  {
    hide BatchAccepted, SettleUpTo, KeepListed, KeepOpen;
    var e1 := Prune(e);
    var r := SimStep(cfg, e, i, eligible, script);
    if r.Done? {
      var view, after := KeepListed(e1.current, eligible), Written(e1, script.writes);
      AcceptedIsNow(script.trades, view, e1.orders, after, cfg.times[i]);
      SettlingKeepsContracts(e1.orders, after, script.trades, view, |view|);
      forall id | 0 <= id < |e1.orders| ensures r.state.orders[id].contract in cfg.contracts {
        if id in e1.current {
          var j :| 0 <= j < |e1.current| && e1.current[j] == id;
          assert SameIdentity(e1.orders[id], after[id]);
        }
      }
    }
  }

  lemma {:induction false} SimsUpToDate(
    cfg: Config, e: State, i: nat, eligible: set<nat>, scripts: seq<SimScript>, k: nat)
    requires i < |cfg.times| && e.WellFormed() && k <= |scripts| && UpToDate(cfg, e, i)
    ensures UpToDate(cfg, SimsUpTo(cfg, e, i, eligible, scripts, k).state, i)
  {
    hide UpToDate, SimStep;
    if k > 0 {
      SimsUpToDate(cfg, e, i, eligible, scripts, k - 1);
      var x := SimsUpTo(cfg, e, i, eligible, scripts, k - 1);
      if x.Done? {
        SimStepUpToDate(cfg, x.state, i, eligible, scripts[k - 1]);
      }
    }
  }

  lemma SimMarketUpToDate(cfg: Config, e: State, i: nat, scripts: seq<SimScript>)
    requires Increasing(cfg.times) && i < |cfg.times| && e.WellFormed() && UpToDate(cfg, e, i)
    ensures UpToDate(cfg, SimMarket(cfg, e, i, scripts).state, i)
  {
    hide ExpireUpTo, SimsUpTo, EligibleUpTo, KeepOpen;
    ExpiryUpToDate(cfg, e, i, |e.current|);
    var x := ExpireUpTo(cfg, e, i, |e.current|).state;
    SimsUpToDate(cfg, x, i, EligibleUpTo(cfg, x, i, |x.current|), scripts, |scripts|);
  }

  lemma ProposalUpToDate(cfg: Config, e: State, i: nat, rule: RuleScript)
    requires i < |cfg.times| && e.WellFormed() && UpToDate(cfg, e, i)
    ensures UpToDate(cfg, GetOrders(cfg, e, i, rule).state, i)
    ensures GetOrders(cfg, e, i, rule).batch.Ok? ==>
      forall k :: 0 <= k < |GetOrders(cfg, e, i, rule).batch.value| ==>
        GetOrders(cfg, e, i, rule).batch.value[k].contract in cfg.contracts
  {
    hide ExpandUpTo, Flow;
    var p := GetOrders(cfg, e, i, rule);
    if p.batch.Ok? {
      EngineSafety.ProposedAreFresh(cfg, e, i, rule);
      forall id | 0 <= id < |e.orders| ensures p.state.orders[id].contract in cfg.contracts {
        if id in e.current {
          var j :| 0 <= j < |e.current| && e.current[j] == id;
        }
      }
    }
  }

  /** The state a rule leaves for the market pass that follows it. */
  lemma SubmitUpToDate(cfg: Config, e: State, i: nat, batch: seq<OrderState>, flags: seq<bool>)
    requires i < |cfg.times| && e.WellFormed() && |flags| == |batch| && UpToDate(cfg, e, i)
    requires forall k :: 0 <= k < |batch| ==> batch[k].contract in cfg.contracts
    ensures UpToDate(cfg, Submit(e, batch, flags), i)
  {}

  lemma RuleStepUpToDate(cfg: Config, e: State, i: nat, rule: RuleScript)
    requires Increasing(cfg.times) && i < |cfg.times| && e.WellFormed() && UpToDate(cfg, e, i)
    ensures UpToDate(cfg, RuleStep(cfg, e, i, rule).state, i)
  {
    hide GetOrders, AdmitUpTo, Submit, SimMarket, UpToDate;
    ProposalUpToDate(cfg, e, i, rule);
    var p := GetOrders(cfg, e, i, rule);
    if p.batch.Ok? && AdmitUpTo(cfg, p.state, i, p.batch.value, rule.verdicts, |p.batch.value|).Ok? {
      var e2 := Submit(p.state, p.batch.value,
                       AdmitUpTo(cfg, p.state, i, p.batch.value, rule.verdicts, |p.batch.value|).value);
      SubmitUpToDate(cfg, p.state, i, p.batch.value,
                     AdmitUpTo(cfg, p.state, i, p.batch.value, rule.verdicts, |p.batch.value|).value);
      if cfg.lag == 0 {
        SimMarketUpToDate(cfg, e2, i, rule.sims);
      } else {
        PruneUpToDate(cfg, e2, i);
      }
    }
  }

  lemma PruneUpToDate(cfg: Config, e: State, i: nat)
    requires i < |cfg.times| && e.WellFormed() && UpToDate(cfg, e, i)
    ensures UpToDate(cfg, Prune(e), i)
  {}

  lemma {:induction false} RulesUpToDate(cfg: Config, e: State, i: nat, rules: seq<RuleScript>, k: nat)
    requires Increasing(cfg.times) && i < |cfg.times| && e.WellFormed() && k <= |rules| && UpToDate(cfg, e, i)
    ensures UpToDate(cfg, RulesUpTo(cfg, e, i, rules, k).state, i)
  {
    hide UpToDate, RuleStep;
    if k > 0 {
      RulesUpToDate(cfg, e, i, rules, k - 1);
      var x := RulesUpTo(cfg, e, i, rules, k - 1);
      if x.Done? {
        RuleStepUpToDate(cfg, x.state, i, rules[k - 1]);
      }
    }
  }
}
