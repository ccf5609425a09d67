/** The engine as the program runs it: order objects mutated in place, guarded around every callback, trades
    booked by the account, proved step by step to compute the functions of module Engine. What the account
    answered is reported back as the `accountAccepts` of the calls. */
module StrategyObject {
  import opened Grid
  import opened Orders
  import opened Flows
  import opened CallbackContracts
  import opened Risk
  import opened Engine
  import opened EngineSteps
  import opened Accounts
  import opened Batches
  import opened Booking
  import ContractLedger

  /** Identities of a list of orders. */
  function Ids(list: seq<Order>): (r: seq<nat>)
    ensures |r| == |list| && forall k :: 0 <= k < |list| ==> r[k] == list[k].id
  {
    seq(|list|, k requires 0 <= k < |list| => list[k].id)
  }

  class Strategy {
    const cfg: Config
    const account: Account
    var orders: seq<Order>
    var proposed: seq<int>
    var current: seq<Order>

    /** The ledgers the account owns. */
    ghost function Ledgers(): set<ContractLedger.ContractPnl>
      reads account
    {
      account.pnls.Values
    }

    /** The account is consistent and knows the grid and the contracts. */
    ghost predicate Booked()
      reads account, Ledgers()
    {
      && account.Valid() && account.grid == cfg.times
      && forall c :: c in cfg.contracts ==>
           c.group in account.groups && c.symbol in account.registry && account.registry[c.symbol] == c
    }

    ghost predicate Valid()
      reads this
    {
      && Increasing(cfg.times)
      && |proposed| == |orders|
      && (forall j :: 0 <= j < |orders| ==> orders[j].id == j)
      && (forall k :: 0 <= k < |current| ==> current[k].id < |orders| && orders[current[k].id] == current[k])
      && Ascending(Ids(current))
    }

    function States(): (r: seq<OrderState>)
      reads this, orders
      ensures |r| == |orders| && forall j :: 0 <= j < |orders| ==> r[j] == orders[j].State()
    {
      seq(|orders|, j requires 0 <= j < |orders| reads this, orders => orders[j].State())
    }

    ghost function Abstract(): (r: State)
      reads this, orders, account`trades
      requires Valid()
      ensures r.WellFormed() && Ascending(r.current)
    {
      State(States(), proposed, Ids(current), account.trades)
    }

    /** The order objects this engine owns. */
    ghost function Owned(): set<Order>
      reads this
    {
      set o | o in orders
    }

    /** Everything but order fields is as before the call. */
    twostate predicate OnlyFields()
      reads this
    {
      orders == old(orders) && proposed == old(proposed) && current == old(current)
    }

    constructor (cfg: Config, account: Account)
      requires Increasing(cfg.times) && account.Valid() && account.grid == cfg.times
      requires forall c :: c in cfg.contracts ==>
        c.group in account.groups && c.symbol in account.registry && account.registry[c.symbol] == c
      ensures Valid() && Booked() && this.cfg == cfg && this.account == account
      ensures Abstract() == State([], [], [], account.trades)
    {
      this.cfg, this.account := cfg, account;
      orders, proposed, current := [], [], [];
    }

    method UpdateCurrentOrders()
      requires Valid()
      modifies this`current
      ensures Valid() && Abstract() == Prune(old(Abstract()))
    {
      hide Ascending, KeepOpen;
      ghost var e := Abstract();
      var kept: seq<Order> := [];
      KeepOpenStarts(e.orders, Ids(current));
      for k := 0 to |current|
        invariant current == old(current)
        invariant Ids(kept) == KeepOpen(e.orders, Ids(current)[..k])
        invariant forall j :: 0 <= j < |kept| ==> kept[j].id < |orders| && orders[kept[j].id] == kept[j]
      {
        KeepOpenNext(e.orders, Ids(current), k);
        if current[k].IsOpen() {
          kept := kept + [current[k]];
        }
      }
      assert Ids(current)[..|current|] == Ids(current);
      KeepOpenSelects(e.orders, Ids(current));
      current := kept;
    }

    /** Cancellation requests, DAY and fill-or-kill expiry of one pending order. */
    method ExpireOrder(order: Order, i: nat) returns (eligible: bool)
      requires Increasing(cfg.times) && i < |cfg.times|
      modifies order
      ensures order.State() == Expire(cfg, i, old(order.State()))
      ensures eligible == EligibleOrder(cfg, i, order.State())
    {
      var idx := SearchSorted(cfg.times, order.timestamp);
      if order.status == CancelRequested {
        order.Cancel();
      }
      if order.timeInForce == DAY {
        if Day(cfg.times[i]) > Day(order.timestamp) {
          order.Cancel();
        }
      }
      var age := i - idx;
      if age > cfg.lag && order.timeInForce == FOK {
        order.Cancel();
      }
      eligible := age >= cfg.lag && order.IsOpen();
    }

    /** One turn of the expiry loop. */
    method ExpireAt(i: nat, k: nat) returns (placed: bool, eligible: bool)
      requires Valid() && i < |cfg.times| && k < |current|
      modifies current[k]
      ensures Valid() && OnlyFields()
      ensures placed == Placed(cfg, i, old(current[k].State()))
      ensures placed ==> eligible == EligibleOrder(cfg, i, current[k].State())
      ensures Abstract() == if !placed then old(Abstract()) else
        old(Abstract()).(orders := old(States())[current[k].id := Expire(cfg, i, old(current[k].State()))])
    {
      hide Ascending, Expire, EligibleOrder;
      var order := current[k];
      ghost var before := States();
      var idx := SearchSorted(cfg.times, order.timestamp);
      if idx >= |cfg.times| || idx > i {
        return false, false;
      }
      eligible := ExpireOrder(order, i);
      placed := true;
      assert States() == before[order.id := order.State()];
    }

    method ExpireCurrent(i: nat) returns (ok: bool, eligible: set<nat>)
      requires Valid() && i < |cfg.times|
      modifies Owned()
      ensures Valid() && OnlyFields()
      ensures ExpireUpTo(cfg, old(Abstract()), i, |current|) == if ok then Done(Abstract()) else Raised(Abstract())
      ensures ok ==> eligible == EligibleUpTo(cfg, Abstract(), i, |current|)
    {
      hide Ascending, Increasing, Expire, EligibleOrder, Placed, ExpireUpTo, EligibleUpTo;
      ghost var e := Abstract();
      eligible := {};
      NothingExpired(cfg, e, i);
      for k := 0 to |current|
        invariant Valid() && OnlyFields()
        invariant ExpireUpTo(cfg, e, i, k) == Done(Abstract())
        invariant eligible == EligibleUpTo(cfg, Abstract(), i, k)
      {
        ExpireOne(cfg, e, Abstract(), i, k);
        var placed, mayTrade := ExpireAt(i, k);
        if !placed {
          ExpiryStops(cfg, e, i, k + 1, |current|);
          return false, {};
        }
        if mayTrade {
          eligible := eligible + {current[k].id};
        }
      }
      return true, eligible;
    }

    /** A callback's writes reach the pending orders. */
    method Write(writes: map<nat, OrderState>)
      requires Valid()
      modifies Owned()
      ensures Valid() && OnlyFields()
      ensures Abstract() == old(Abstract()).(orders := Written(old(Abstract()), writes))
    {
      ghost var e := Abstract();
      for k := 0 to |current|
        invariant Valid() && OnlyFields()
        invariant forall j :: 0 <= j < |orders| ==>
          orders[j].State() == if j in Ids(current)[..k] && j in writes then writes[j] else e.orders[j]
      {
        var order := current[k];
        assert Ids(current)[..k + 1] == Ids(current)[..k] + [order.id];
        if order.id in writes {
          order.Assign(writes[order.id]);
        }
      }
      assert Ids(current)[..|current|] == Ids(current);
    }

    /** Every pending order returns to its captured fields; nothing else had been touched. */
    method Restore(captured: seq<OrderState>)
      requires Valid() && |captured| == |orders|
      requires forall j :: 0 <= j < |orders| && j !in Ids(current) ==> orders[j].State() == captured[j]
      modifies Owned()
      ensures Valid() && OnlyFields()
      ensures Abstract() == old(Abstract()).(orders := captured)
    {
      hide Ascending;
      for k := 0 to |current|
        invariant Valid() && OnlyFields()
        invariant forall j :: 0 <= j < |orders| && j !in Ids(current) ==> orders[j].State() == captured[j]
        invariant forall h :: 0 <= h < k ==> current[h].State() == captured[current[h].id]
      {
        var order := current[k];
        order.Assign(captured[order.id]);
      }
      forall j | 0 <= j < |orders| ensures orders[j].State() == captured[j] {
        if j in Ids(current) {
          var h :| 0 <= h < |current| && Ids(current)[h] == j;
          assert current[h] == orders[j];
        }
      }
    }

    method CheckSimGuards(captured: seq<OrderState>, eligible: set<nat>, ghost e: State) returns (ok: bool)
      requires Valid() && e.WellFormed() && captured == e.orders && |captured| == |orders| && e.current == Ids(current)
      ensures ok == SimGuardsHold(e, States(), eligible)
    {
      for k := 0 to |current|
        invariant forall j :: 0 <= j < k ==>
          var id := e.current[j];
          if id in eligible then SameIdentity(e.orders[id], States()[id])
            else Unchanged(e.orders[id], States()[id], false)
      {
        var order := current[k];
        assert e.current[k] == order.id;
        var fine := if order.id in eligible then SameIdentity(captured[order.id], order.State())
                    else Unchanged(captured[order.id], order.State(), false);
        if !fine {
          return false;
        }
      }
      return true;
    }

    method CheckRuleGuards(captured: seq<OrderState>, ghost e: State) returns (ok: bool)
      requires Valid() && e.WellFormed() && captured == e.orders && |captured| == |orders| && e.current == Ids(current)
      ensures ok == RuleGuardsHold(e, States())
    {
      for k := 0 to |current|
        invariant forall j :: 0 <= j < k ==> Unchanged(e.orders[e.current[j]], States()[e.current[j]], true)
      {
        var order := current[k];
        assert e.current[k] == order.id;
        if !Unchanged(captured[order.id], order.State(), true) {
          return false;
        }
      }
      return true;
    }

    method EligibleView(eligible: set<nat>) returns (view: seq<nat>)
      requires Valid()
      ensures view == KeepListed(Ids(current), eligible)
    {
      view := [];
      for k := 0 to |current|
        invariant view == KeepListed(Ids(current)[..k], eligible)
      {
        assert Ids(current)[..k + 1][..k] == Ids(current)[..k];
        if current[k].id in eligible {
          view := view + [current[k].id];
        }
      }
      assert Ids(current)[..|current|] == Ids(current);
    }

    /** A reported fill that the simulator left to the engine is applied. */
    method ApplyFill(captured: OrderState, id: nat, reported: int) returns (ok: bool)
      requires Valid() && id < |orders|
      modifies orders[id]
      ensures Valid() && OnlyFields()
      ensures ok == SettleOrder(captured, old(orders[id].State()), reported).Ok?
      ensures States() == if ok then old(States())[id := SettleOrder(captured, old(orders[id].State()), reported).value]
                          else old(States())
    {
      hide Ascending;
      ghost var before := States();
      var order := orders[id];
      ok := true;
      if order.qty == captured.qty && reported != 0 {
        ok := order.Fill(reported);
      }
      assert States() == before[id := order.State()];
    }

    /** All of them, in the order of the view. */
    method ApplyFills(captured: seq<OrderState>, view: seq<nat>, filled: map<int, int>, ghost batch: seq<Trade>)
      returns (ok: bool)
      requires Valid() && |captured| == |orders|
      requires forall j :: 0 <= j < |view| ==> view[j] < |orders| && view[j] in Ids(current)
      requires forall j :: 0 <= j < |view| ==>
        OrderFlow(batch, view[j], Signed) == if view[j] in filled then filled[view[j]] else 0
      modifies Owned()
      ensures Valid() && OnlyFields()
      ensures forall j :: 0 <= j < |orders| && j !in Ids(current) ==> orders[j].State() == old(orders[j].State())
      ensures ok == SettleUpTo(captured, old(States()), batch, view, |view|).Ok?
      ensures ok ==> States() == SettleUpTo(captured, old(States()), batch, view, |view|).value
    {
      hide Ascending, SettleOrder, SettleUpTo, OrderFlow, Ids;
      ghost var after := States();
      SettleNone(captured, after, batch, view);
      for k := 0 to |view|
        invariant Valid() && OnlyFields()
        invariant forall j :: 0 <= j < |orders| && j !in Ids(current) ==> States()[j] == after[j]
        invariant SettleUpTo(captured, after, batch, view, k) == Result.Ok(States())
      {
        SettleOne(captured, after, batch, view, k, States());
        ok := ApplyFill(captured[view[k]], view[k], if view[k] in filled then filled[view[k]] else 0);
        if !ok {
          SettleStops(captured, after, batch, view, k + 1, |view|);
          return false;
        }
      }
      return true;
    }

    /** The account would take this batch if every price it asks for came back. */
    ghost predicate Takes(batch: seq<Trade>, i: nat)
      reads account, Ledgers()
      requires i < |cfg.times|
    {
      && (forall k :: 0 <= k < |batch| ==>
            batch[k].timestamp == cfg.times[i] && batch[k].qty != 0 && batch[k].contract in cfg.contracts)
      && (forall k :: 0 <= k < |account.trades| ==> account.trades[k].timestamp <= cfg.times[i])
    }

    /** Such a batch passes both checks the account makes before it books anything. */
    lemma TakenIsBookable(batch: seq<Trade>, i: nat)
      requires Booked() && i < |cfg.times| && Takes(batch, i)
      ensures account.AllAdmissible(batch) && Chronological(account.trades, SortByTime(batch))
    {
      hide Chronological, SortByTime, Account.Linked;
      assert cfg.times[i] in cfg.times;
      OneMomentIsSorted(batch, cfg.times[i]);
      account.LaterIsChronological(batch, cfg.times[i]);
    }

    /** Hand a whole batch of one moment to the account, which books it or refuses it without a trace. */
    method Book(i: nat, batch: seq<Trade>, fuse: ContractLedger.Fuse) returns (ok: bool, left: ContractLedger.Fuse)
      requires Booked() && i < |cfg.times| && forall k :: 0 <= k < |batch| ==> batch[k].timestamp == cfg.times[i]
      modifies account, Ledgers()
      ensures Booked() && fresh(Ledgers() - old(Ledgers()))
      ensures account.trades == old(account.trades) + if ok then batch else []
      ensures fuse.Never? ==> left.Never? && (old(Takes(batch, i)) ==> ok)
    {
      hide Account.Valid, SortByTime, Chronological, Takes;
      OneMomentIsSorted(batch, cfg.times[i]);
      if Takes(batch, i) {
        TakenIsBookable(batch, i);
      }
      ok, left := account.AddTrades(batch, fuse);
      assert account.trades == old(account.trades) + if ok then batch else [];
    }

    /** Guards, validation and reconciliation of what a simulator left behind: everything but the booking. */
    method Settle(i: nat, eligible: set<nat>, script: SimScript, captured: seq<OrderState>, view: seq<nat>,
                  ghost e: State)
      returns (ok: bool)
      requires Valid() && i < |cfg.times| && e.WellFormed() && captured == e.orders
      requires view == KeepListed(Ids(current), eligible)
      requires Abstract() == e.(orders := Written(e, script.writes))
      modifies Owned()
      ensures Valid() && OnlyFields()
      ensures forall j :: 0 <= j < |orders| && j !in Ids(current) ==> orders[j].State() == old(orders[j].State())
      ensures match Judge(cfg, e, i, eligible, Willing(script))
              case Raise => !ok
              case Ok(settled) => ok && States() == settled
    {
      hide Ascending, Written, KeepListed, SettleUpTo, BatchAccepted, SimGuardsHold, OrderFlow;
      if script.raises {
        return false;
      }
      ok := CheckSimGuards(captured, eligible, e);
      if !ok {
        return false;
      }
      var filled: map<int, int>;
      ok, filled := ValidateMarketTrades(script.trades, view, captured, States(), cfg.times[i]);
      if !ok {
        return false;
      }
      ok := ApplyFills(captured, view, filled, script.trades);
    }

    /** The same and the booking: a batch the account refuses fails the call. */
    method JudgeCall(i: nat, eligible: set<nat>, script: SimScript, fuse: ContractLedger.Fuse,
                     captured: seq<OrderState>, view: seq<nat>, ghost e: State)
      returns (ok: bool, left: ContractLedger.Fuse, ghost said: SimScript)
      requires Valid() && Booked() && i < |cfg.times| && e.WellFormed() && captured == e.orders
      requires view == KeepListed(Ids(current), eligible)
      requires Abstract() == e.(orders := Written(e, script.writes))
      modifies Owned(), account, Ledgers()
      ensures Valid() && OnlyFields()
      ensures Booked() && fresh(Ledgers() - old(Ledgers())) && SameCall(said, script)
      ensures forall j :: 0 <= j < |orders| && j !in Ids(current) ==> orders[j].State() == old(orders[j].State())
      ensures match Judge(cfg, e, i, eligible, said)
              case Raise => !ok && account.trades == old(account.trades)
              case Ok(settled) => ok && States() == settled && account.trades == old(account.trades) + script.trades
      ensures fuse.Never? ==> left.Never? && (UpToDate(cfg, e, i) ==> said.accountAccepts)
    {
      hide Ascending, Written, KeepListed, Judge, Booked, UpToDate, Takes;
      left, said := fuse, Willing(script);
      ok := Settle(i, eligible, script, captured, view, e);
      BookingDecides(cfg, e, i, eligible, script, true);
      if ok && |script.trades| > 0 {
        Handed(i, eligible, script, e);
        ok, left := Book(i, script.trades, left);
        said := script.(accountAccepts := ok);
        BookingDecides(cfg, e, i, eligible, script, ok);
      }
    }

    /** A batch that passes validation is of now; in an up-to-date state the account would take it. */
    lemma Handed(i: nat, eligible: set<nat>, script: SimScript, e: State)
      requires i < |cfg.times| && e.WellFormed() && e.trades == account.trades
      requires Judge(cfg, e, i, eligible, Willing(script)).Ok?
      ensures forall k :: 0 <= k < |script.trades| ==> script.trades[k].timestamp == cfg.times[i]
      ensures UpToDate(cfg, e, i) ==> Takes(script.trades, i)
    {
      hide BatchAccepted, SimGuardsHold, KeepListed, Written, SettleUpTo;
      var view, after := KeepListed(e.current, eligible), Written(e, script.writes);
      AcceptedIsNow(script.trades, view, e.orders, after, cfg.times[i]);
      if UpToDate(cfg, e, i) {
        AcceptedIsRegistered(cfg, e, i, eligible, after, script.trades);
      }
    }

    /** Expose the eligible orders, call the simulator, judge what it left, and roll back if that is refused. */
    method Simulate(i: nat, eligible: set<nat>, script: SimScript, fuse: ContractLedger.Fuse)
      returns (ok: bool, left: ContractLedger.Fuse, ghost said: SimScript)
      requires Valid() && Booked() && i < |cfg.times|
      modifies Owned(), account, Ledgers()
      ensures Valid() && OnlyFields() && Booked() && fresh(Ledgers() - old(Ledgers())) && SameCall(said, script)
      ensures match Judge(cfg, old(Abstract()), i, eligible, said)
              case Raise => !ok && Abstract() == old(Abstract())
              case Ok(settled) =>
                ok && Abstract() == old(Abstract()).(orders := settled, trades := old(account.trades) + script.trades)
      ensures fuse.Never? ==> left.Never? && (UpToDate(cfg, old(Abstract()), i) ==> said.accountAccepts)
    {
      hide Ascending, Judge, KeepListed, Booked, UpToDate, SameCall;
      ghost var e := Abstract();
      var captured := States();
      var view := EligibleView(eligible);
      KeepListedSelects(Ids(current), eligible);
      Write(script.writes);
      ok, left, said := JudgeCall(i, eligible, script, fuse, captured, view, e);
      if !ok {
        Restore(captured);
      }
    }

    /** One simulator call; in an up-to-date state the account refuses nothing unless valuing raises. */
    method CallSimulator(i: nat, eligible: set<nat>, script: SimScript, fuse: ContractLedger.Fuse)
      returns (ok: bool, left: ContractLedger.Fuse, ghost said: SimScript)
      requires Valid() && Booked() && i < |cfg.times|
      modifies this, Owned(), account, Ledgers()
      ensures Valid() && orders == old(orders) && Booked() && fresh(Ledgers() - old(Ledgers()))
      ensures SameCall(said, script)
      ensures SimStep(cfg, old(Abstract()), i, eligible, said) == if ok then Done(Abstract()) else Raised(Abstract())
      ensures fuse.Never? ==> left.Never? && (UpToDate(cfg, old(Abstract()), i) ==> said.accountAccepts)
    {
      hide Ascending, Judge, KeepOpen, Booked, UpToDate;
      ghost var e := Abstract();
      UpdateCurrentOrders();
      if UpToDate(cfg, e, i) {
        PruneUpToDate(cfg, e, i);
      }
      ok, left, said := Simulate(i, eligible, script, fuse);
    }

    /** The simulators one after another. */
    method RunSims(i: nat, eligible: set<nat>, scripts: seq<SimScript>, fuse: ContractLedger.Fuse)
      returns (ok: bool, left: ContractLedger.Fuse, ghost said: seq<SimScript>)
      requires Valid() && Booked() && i < |cfg.times|
      modifies this, Owned(), account, Ledgers()
      ensures Valid() && orders == old(orders) && Booked() && fresh(Ledgers() - old(Ledgers()))
      ensures SameCalls(said, scripts)
      ensures SimsUpTo(cfg, old(Abstract()), i, eligible, said, |said|)
           == if ok then Done(Abstract()) else Raised(Abstract())
      ensures fuse.Never? ==> left.Never? && (UpToDate(cfg, old(Abstract()), i) ==> AllTaken(said))
    {
      hide Ascending, SimStep, SimsUpTo, Ids, SameCall, SameCalls, AllTaken, Booked, UpToDate, Unmade;
      ghost var x := Abstract();
      left, said := fuse, [];
      NoCalls(cfg, x, i, eligible, scripts);
      for k := 0 to |scripts|
        invariant Valid() && orders == old(orders) && Booked() && fresh(Ledgers() - old(Ledgers()))
        invariant |said| == k && SameCalls(said, scripts[..k])
        invariant SimsUpTo(cfg, x, i, eligible, said, k) == Done(Abstract())
        invariant fuse.Never? ==> left.Never? && (UpToDate(cfg, x, i) ==> AllTaken(said))
      {
        ghost var one;
        if UpToDate(cfg, x, i) {
          SimsUpToDate(cfg, x, i, eligible, said, k);
        }
        ghost var was := said;
        ok, left, one := CallSimulator(i, eligible, scripts[k], left);
        said := was + [one];
        SimsNext(cfg, x, i, eligible, was, one);
        CallsNext(was, one, scripts, k);
        if !ok {
          said := was + [one] + Unmade(scripts[k + 1..]);
          RestUnmade(was + [one], scripts, k + 1);
          SimsPrefix(cfg, x, i, eligible, was + [one], said, k + 1);
          SimsStop(cfg, x, i, eligible, said, k + 1, |scripts|);
          return false, left, said;
        }
      }
      assert scripts[..|scripts|] == scripts;
      return true, left, said;
    }

    /** `_sim_market`. */
    method SimMarket(i: nat, scripts: seq<SimScript>, fuse: ContractLedger.Fuse)
      returns (ok: bool, left: ContractLedger.Fuse, ghost said: seq<SimScript>)
      requires Valid() && Booked() && i < |cfg.times|
      modifies this, Owned(), account, Ledgers()
      ensures Valid() && orders == old(orders) && Booked() && fresh(Ledgers() - old(Ledgers()))
      ensures SameCalls(said, scripts)
      ensures Engine.SimMarket(cfg, old(Abstract()), i, said) == if ok then Done(Abstract()) else Raised(Abstract())
      ensures fuse.Never? ==> left.Never? && (UpToDate(cfg, old(Abstract()), i) ==> AllTaken(said))
    {
      hide Ascending, Increasing, ExpireUpTo, EligibleUpTo, SimsUpTo, KeepOpen, Ids, SameCalls, AllTaken;
      hide Booked, UpToDate, Unmade;
      ghost var e := Abstract();
      left, said := fuse, Unmade(scripts);
      var eligible;
      ok, eligible := ExpireCurrent(i);
      if !ok {
        return false, left, said;
      }
      if UpToDate(cfg, e, i) {
        ExpiryUpToDate(cfg, e, i, |e.current|);
      }
      ok, left, said := RunSims(i, eligible, scripts, fuse);
      if ok {
        UpdateCurrentOrders();
      }
    }

    /** `_get_orders`. */
    method GetOrders(i: nat, rule: RuleScript) returns (batch: Result<seq<OrderState>>)
      requires Valid() && i < |cfg.times|
      modifies Owned()
      ensures Valid() && OnlyFields()
      ensures Engine.GetOrders(cfg, old(Abstract()), i, rule) == Proposal(Abstract(), batch)
    {
      ghost var e := Abstract();
      if !FilterPasses(rule.filter, Flow(account.trades, InGroup(rule.group), Signed, UpTo(cfg.times[i]))) {
        return Result.Ok([]);
      }
      var captured := States();
      Write(rule.writes);
      var ok := !rule.raises;
      if ok {
        ok := CheckRuleGuards(captured, e);
      }
      if ok {
        batch := ValidateRuleOrders(rule.submissions, rule.group, cfg.contracts, cfg.times[i]);
        ok := batch.Ok?;
      }
      if !ok {
        Restore(captured);
        assert Abstract() == e;
        batch := Raise;
      }
    }

    /** Pending orders as the policies see them. */
    method PendingStates() returns (r: seq<OrderState>)
      requires Valid()
      ensures r == StatesOf(States(), Ids(current))
    {
      r := seq(|current|, k requires 0 <= k < |current| reads this, current => current[k].State());
    }

    /** Decisions on a batch, in order; each sees the orders accepted before it. Rejected orders are
        cancelled at once. Nothing the engine owns changes yet. */
    method DecideBatch(i: nat, batch: seq<OrderState>, verdicts: seq<seq<Verdict>>)
      returns (ok: bool, decided: seq<Order>, accepted: seq<Order>, ghost flags: seq<bool>)
      requires Valid() && i < |cfg.times|
      ensures ok == AdmitUpTo(cfg, Abstract(), i, batch, verdicts, |batch|).Ok?
      ensures ok ==>
        && AdmitUpTo(cfg, Abstract(), i, batch, verdicts, |batch|) == Result.Ok(flags)
        && Built(decided, |orders|, batch, flags) && |flags| == |batch|
        && Chosen(accepted, decided, |orders|, flags)
      ensures fresh(decided)
    {
      hide Ascending, Decide, AdmitUpTo, AcceptedOf, AcceptedIds, StatesOf, Built, Chosen;
      ghost var e := Abstract();
      var pending := PendingStates();
      var seen: seq<OrderState> := [];
      decided, accepted, flags := [], [], [];
      NothingAdmitted(cfg, e, i, batch, verdicts);
      for k := 0 to |batch|
        invariant |flags| == k && AdmitUpTo(cfg, e, i, batch, verdicts, k) == Result.Ok(flags)
        invariant seen == AcceptedOf(batch, flags)
        invariant Built(decided, |orders|, batch, flags) && fresh(decided)
        invariant Chosen(accepted, decided, |orders|, flags)
      {
        var ctx := Context(account.trades, cfg.times[i], pending + seen);
        var decision := DecideOrder(batch[k], ctx, cfg.policies, VerdictsAt(verdicts, k));
        AdmitOne(cfg, e, i, batch, verdicts, k, flags);
        AcceptOne(batch, |orders|, flags);
        if decision == Failed {
          AdmissionStops(cfg, e, i, batch, verdicts, k + 1, |batch|);
          return false, decided, accepted, flags;
        }
        var order := new Order(|orders| + k, batch[k]);
        if decision == Accepted {
          seen := seen + [batch[k]];
        } else {
          order.Cancel();
        }
        BuiltNext(decided, |orders|, batch, flags, order, decision == Accepted);
        ChosenNext(accepted, decided, |orders|, flags, order, decision == Accepted);
        decided := decided + [order];
        accepted := accepted + if decision == Accepted then [order] else [];
        flags := flags + [decision == Accepted];
      }
      return true, decided, accepted, flags;
    }

    /** `_orders += orders; _current_orders += accepted_orders`. */
    method Enlist(batch: seq<OrderState>, decided: seq<Order>, accepted: seq<Order>, ghost flags: seq<bool>)
      requires Valid() && |flags| == |batch|
      requires Built(decided, |orders|, batch, flags) && Chosen(accepted, decided, |orders|, flags)
      modifies this
      ensures Valid() && orders == old(orders) + decided
      ensures Abstract() == Submit(old(Abstract()), batch, flags)
    {
      hide Ascending, AcceptedIds, Decided;
      ghost var e := Abstract();
      SubmitAscends(|orders|, Ids(current), flags);
      orders, proposed, current :=
        orders + decided, proposed + seq(|batch|, k requires 0 <= k < |batch| => batch[k].qty), current + accepted;
      assert Ids(current) == e.current + AcceptedIds(|e.orders|, flags);
      assert States() == e.orders + Decided(batch, flags);
    }

    /** Decide a batch and record it, or nothing of it when a policy raises. */
    method Admit(i: nat, batch: seq<OrderState>, verdicts: seq<seq<Verdict>>) returns (ok: bool)
      requires Valid() && i < |cfg.times|
      modifies this
      ensures Valid()
      ensures fresh(Owned() - old(Owned()))
      ensures match AdmitUpTo(cfg, old(Abstract()), i, batch, verdicts, |batch|)
              case Raise => !ok && Abstract() == old(Abstract())
              case Ok(flags) => ok && Abstract() == Submit(old(Abstract()), batch, flags)
    {
      hide Ascending, AdmitUpTo, Submit, Built, Chosen;
      var decided: seq<Order>, accepted: seq<Order>;
      ghost var flags;
      ok, decided, accepted, flags := DecideBatch(i, batch, verdicts);
      if ok {
        Enlist(batch, decided, accepted, flags);
      }
    }

    method RunRule(i: nat, rule: RuleScript, fuse: ContractLedger.Fuse)
      returns (ok: bool, left: ContractLedger.Fuse, ghost said: RuleScript)
      requires Valid() && Booked() && i < |cfg.times|
      modifies this, Owned(), account, Ledgers()
      ensures Valid() && Booked() && fresh(Ledgers() - old(Ledgers())) && fresh(Owned() - old(Owned()))
      ensures SameRule(said, rule)
      ensures RuleStep(cfg, old(Abstract()), i, said) == if ok then Done(Abstract()) else Raised(Abstract())
      ensures fuse.Never? ==> left.Never? && (UpToDate(cfg, old(Abstract()), i) ==> AllTaken(said.sims))
    {
      hide Booked, Ascending, SameCalls, AllTaken, UpToDate, Unmade;
      hide Engine.GetOrders, AdmitUpTo, Submit, Engine.SimMarket, KeepOpen;
      ghost var e := Abstract();
      left, said := fuse, UnmadeRule(rule);
      var batch := GetOrders(i, rule);
      GetOrdersIgnoresSims(cfg, e, i, rule);
      if batch.Raise? {
        return false, left, said;
      }
      ghost var e1 := Abstract();
      ok := Admit(i, batch.value, rule.verdicts);
      if !ok {
        return false, left, said;
      }
      if cfg.lag == 0 {
        if UpToDate(cfg, e, i) {
          ProposalUpToDate(cfg, e, i, rule);
          SubmitUpToDate(cfg, e1, i, batch.value,
            AdmitUpTo(cfg, e1, i, batch.value, rule.verdicts, |batch.value|).value);
        }
        ghost var sims;
        ok, left, sims := SimMarket(i, rule.sims, left);
        said := rule.(sims := sims);
      } else {
        UpdateCurrentOrders();
      }
    }

    /** The rules one after another. */
    method RunRules(i: nat, rules: seq<RuleScript>, fuse: ContractLedger.Fuse)
      returns (ok: bool, left: ContractLedger.Fuse, ghost said: seq<RuleScript>)
      requires Valid() && Booked() && i < |cfg.times|
      modifies this, Owned(), account, Ledgers()
      ensures Valid() && Booked() && fresh(Ledgers() - old(Ledgers())) && fresh(Owned() - old(Owned()))
      ensures SameRules(said, rules)
      ensures RulesUpTo(cfg, old(Abstract()), i, said, |said|) == if ok then Done(Abstract()) else Raised(Abstract())
      ensures fuse.Never? ==> left.Never? && (UpToDate(cfg, old(Abstract()), i) ==> AllRulesTaken(said))
    {
      hide RuleStep, RulesUpTo, Ascending, Booked, Ids, UpToDate;
      hide SameCalls, SameRule, SameRules, AllTaken, AllRulesTaken, UnmadeRules;
      ghost var x := Abstract();
      left, said := fuse, [];
      NoRules(cfg, x, i, rules);
      for k := 0 to |rules|
        invariant Valid() && Booked() && fresh(Ledgers() - old(Ledgers())) && fresh(Owned() - old(Owned()))
        invariant |said| == k && SameRules(said, rules[..k])
        invariant RulesUpTo(cfg, x, i, said, k) == Done(Abstract())
        invariant fuse.Never? ==> left.Never? && (UpToDate(cfg, x, i) ==> AllRulesTaken(said))
      {
        ghost var one;
        if UpToDate(cfg, x, i) {
          RulesUpToDate(cfg, x, i, said, k);
        }
        ghost var was := said;
        ok, left, one := RunRule(i, rules[k], left);
        said := was + [one];
        RulesNext(cfg, x, i, was, one);
        RulesTakenNext(was, one, rules, k);
        if !ok {
          said := was + [one] + UnmadeRules(rules[k + 1..]);
          RulesUnmade(was + [one], rules, k + 1);
          RulesPrefix(cfg, x, i, was + [one], said, k + 1);
          RulesStop(cfg, x, i, said, k + 1, |rules|);
          return false, left, said;
        }
      }
      assert rules[..|rules|] == rules;
      return true, left, said;
    }

    /** `_run_iteration`. In an up-to-date state the account refuses no batch unless valuing raises. */
    method RunIteration(it: Iteration, fuse: ContractLedger.Fuse)
      returns (ok: bool, left: ContractLedger.Fuse, ghost said: Iteration)
      requires Valid() && Booked() && it.index < |cfg.times|
      modifies this, Owned(), account, Ledgers()
      ensures Valid() && Booked() && fresh(Ledgers() - old(Ledgers())) && fresh(Owned() - old(Owned()))
      ensures said.index == it.index && SameCalls(said.sims, it.sims) && SameRules(said.rules, it.rules)
      ensures Engine.RunIteration(cfg, old(Abstract()), said) == if ok then Done(Abstract()) else Raised(Abstract())
      ensures fuse.Never? ==>
        left.Never? && (UpToDate(cfg, old(Abstract()), it.index) ==> AllTaken(said.sims) && AllRulesTaken(said.rules))
    {
      hide Engine.SimMarket, RulesUpTo, Ascending, Booked, UpToDate;
      hide SameCalls, SameRules, AllTaken, AllRulesTaken, UnmadeRules;
      ghost var e := Abstract();
      ghost var sims, rules;
      ok, left, sims := SimMarket(it.index, it.sims, fuse);
      said := Iteration(it.index, sims, UnmadeRules(it.rules));
      if !ok {
        return false, left, said;
      }
      if UpToDate(cfg, e, it.index) {
        SimMarketUpToDate(cfg, e, it.index, sims);
      }
      ok, left, rules := RunRules(it.index, it.rules, left);
      said := Iteration(it.index, sims, rules);
    }
  }

  // ---- Calls and rules one by one ----

  lemma NoCalls(cfg: Config, e: State, i: nat, eligible: set<nat>, scripts: seq<SimScript>)
    requires i < |cfg.times| && e.WellFormed()
    ensures SimsUpTo(cfg, e, i, eligible, [], 0) == Done(e) && AllTaken([]) && SameCalls([], scripts[..0])
  {}

  lemma NoRules(cfg: Config, e: State, i: nat, rules: seq<RuleScript>)
    requires Increasing(cfg.times) && i < |cfg.times| && e.WellFormed()
    ensures RulesUpTo(cfg, e, i, [], 0) == Done(e) && AllRulesTaken([]) && SameRules([], rules[..0])
  {}

  lemma GetOrdersIgnoresSims(cfg: Config, e: State, i: nat, rule: RuleScript)
    requires i < |cfg.times| && e.WellFormed()
    ensures forall sims :: Engine.GetOrders(cfg, e, i, rule.(sims := sims)) == Engine.GetOrders(cfg, e, i, rule)
  {}

  lemma {:induction false} SimsPrefix(
    cfg: Config, e: State, i: nat, eligible: set<nat>, a: seq<SimScript>, b: seq<SimScript>, k: nat)
    requires i < |cfg.times| && e.WellFormed() && k <= |a| && k <= |b| && a[..k] == b[..k]
    ensures SimsUpTo(cfg, e, i, eligible, a, k) == SimsUpTo(cfg, e, i, eligible, b, k)
  {
    hide SimStep;
    if k > 0 {
      assert a[..k - 1] == a[..k][..k - 1] && b[..k - 1] == b[..k][..k - 1];
      assert a[k - 1] == a[..k][k - 1] && b[k - 1] == b[..k][k - 1];
      SimsPrefix(cfg, e, i, eligible, a, b, k - 1);
    }
  }

  lemma SimsNext(cfg: Config, e: State, i: nat, eligible: set<nat>, scripts: seq<SimScript>, one: SimScript)
    requires i < |cfg.times| && e.WellFormed() && SimsUpTo(cfg, e, i, eligible, scripts, |scripts|).Done?
    ensures SimsUpTo(cfg, e, i, eligible, scripts, |scripts|).state.WellFormed()
    ensures SimsUpTo(cfg, e, i, eligible, scripts + [one], |scripts| + 1)
         == SimStep(cfg, SimsUpTo(cfg, e, i, eligible, scripts, |scripts|).state, i, eligible, one)
  {
    hide SimStep;
    assert (scripts + [one])[..|scripts|] == scripts == scripts[..|scripts|];
    SimsPrefix(cfg, e, i, eligible, scripts, scripts + [one], |scripts|);
  }

  lemma {:induction false} RulesPrefix(
    cfg: Config, e: State, i: nat, a: seq<RuleScript>, b: seq<RuleScript>, k: nat)
    requires Increasing(cfg.times) && i < |cfg.times| && e.WellFormed()
    requires k <= |a| && k <= |b| && a[..k] == b[..k]
    ensures RulesUpTo(cfg, e, i, a, k) == RulesUpTo(cfg, e, i, b, k)
  {
    hide RuleStep;
    if k > 0 {
      assert a[..k - 1] == a[..k][..k - 1] && b[..k - 1] == b[..k][..k - 1];
      assert a[k - 1] == a[..k][k - 1] && b[k - 1] == b[..k][k - 1];
      RulesPrefix(cfg, e, i, a, b, k - 1);
    }
  }

  lemma RulesNext(cfg: Config, e: State, i: nat, rules: seq<RuleScript>, one: RuleScript)
    requires Increasing(cfg.times) && i < |cfg.times| && e.WellFormed()
    requires RulesUpTo(cfg, e, i, rules, |rules|).Done?
    ensures RulesUpTo(cfg, e, i, rules, |rules|).state.WellFormed()
    ensures RulesUpTo(cfg, e, i, rules + [one], |rules| + 1)
         == RuleStep(cfg, RulesUpTo(cfg, e, i, rules, |rules|).state, i, one)
  {
    hide RuleStep;
    assert (rules + [one])[..|rules|] == rules == rules[..|rules|];
    RulesPrefix(cfg, e, i, rules, rules + [one], |rules|);
  }

  /** Eligibility of the first pending orders depends on those orders only. */
  lemma {:induction false} EligibleFrame(cfg: Config, a: State, b: State, i: nat, k: nat)
    requires Increasing(cfg.times) && a.WellFormed() && b.WellFormed() && a.current == b.current && k <= |a.current|
    requires forall j :: 0 <= j < k ==> a.orders[a.current[j]] == b.orders[a.current[j]]
    ensures EligibleUpTo(cfg, a, i, k) == EligibleUpTo(cfg, b, i, k)
  {
    if k > 0 {
      EligibleFrame(cfg, a, b, i, k - 1);
    }
  }

  /** The order objects standing for the first decided members of a batch. */
  ghost predicate Built(decided: seq<Order>, first: nat, batch: seq<OrderState>, flags: seq<bool>)
    reads decided
  {
    && |decided| == |flags| <= |batch|
    && forall j :: 0 <= j < |flags| ==>
         decided[j].id == first + j && decided[j].State() == if flags[j] then batch[j] else CancelOrder(batch[j])
  }

  /** The accepted ones among them. */
  ghost predicate Chosen(accepted: seq<Order>, decided: seq<Order>, first: nat, flags: seq<bool>) {
    && |decided| == |flags|
    && Ids(accepted) == AcceptedIds(first, flags)
    && forall j :: 0 <= j < |accepted| ==>
         first <= accepted[j].id < first + |flags| && decided[accepted[j].id - first] == accepted[j]
  }

  lemma BuiltNext(decided: seq<Order>, first: nat, batch: seq<OrderState>, flags: seq<bool>, order: Order, yes: bool)
    requires Built(decided, first, batch, flags) && |flags| < |batch| && order.id == first + |flags|
    requires order.State() == if yes then batch[|flags|] else CancelOrder(batch[|flags|])
    ensures Built(decided + [order], first, batch, flags + [yes])
  {}

  lemma ChosenNext(accepted: seq<Order>, decided: seq<Order>, first: nat, flags: seq<bool>, order: Order, yes: bool)
    requires Chosen(accepted, decided, first, flags) && order.id == first + |flags|
    ensures Chosen(accepted + if yes then [order] else [], decided + [order], first, flags + [yes])
  {
    assert (flags + [yes])[..|flags|] == flags;
    var more := accepted + if yes then [order] else [];
    assert Ids(more) == Ids(accepted) + if yes then [order.id] else [];
  }

  lemma NothingAdmitted(cfg: Config, e: State, i: nat, batch: seq<OrderState>, verdicts: seq<seq<Verdict>>)
    requires i < |cfg.times| && e.WellFormed()
    ensures AdmitUpTo(cfg, e, i, batch, verdicts, 0) == Result.Ok([])
    ensures AcceptedOf(batch, []) == []
    ensures Built([], |e.orders|, batch, []) && Chosen([], [], |e.orders|, [])
  {}

  lemma AdmitOne(cfg: Config, e: State, i: nat, batch: seq<OrderState>, verdicts: seq<seq<Verdict>>, k: nat,
                 flags: seq<bool>)
    requires i < |cfg.times| && e.WellFormed() && k < |batch| && |flags| == k
    requires AdmitUpTo(cfg, e, i, batch, verdicts, k) == Result.Ok(flags)
    ensures var ctx := Context(e.trades, cfg.times[i], StatesOf(e.orders, e.current) + AcceptedOf(batch, flags));
            var d := Decide(batch[k], ctx, cfg.policies, VerdictsAt(verdicts, k));
            && (d == Failed ==> AdmitUpTo(cfg, e, i, batch, verdicts, k + 1).Raise?)
            && (d != Failed ==> AdmitUpTo(cfg, e, i, batch, verdicts, k + 1) == Result.Ok(flags + [d == Accepted]))
  {
    hide Decide, StatesOf, AcceptedOf, VerdictsAt;
  }

  lemma AcceptOne(batch: seq<OrderState>, first: nat, flags: seq<bool>)
    requires |flags| < |batch|
    ensures AcceptedOf(batch, flags + [true]) == AcceptedOf(batch, flags) + [batch[|flags|]]
    ensures AcceptedOf(batch, flags + [false]) == AcceptedOf(batch, flags)
    ensures AcceptedIds(first, flags + [true]) == AcceptedIds(first, flags) + [first + |flags|]
    ensures AcceptedIds(first, flags + [false]) == AcceptedIds(first, flags)
  {
    assert (flags + [true])[..|flags|] == flags && (flags + [false])[..|flags|] == flags;
  }

  lemma KeepOpenStarts(orders: seq<OrderState>, ids: seq<nat>)
    requires forall k :: 0 <= k < |ids| ==> ids[k] < |orders|
    ensures KeepOpen(orders, ids[..0]) == []
  {}

  lemma KeepOpenNext(orders: seq<OrderState>, ids: seq<nat>, k: nat)
    requires forall k :: 0 <= k < |ids| ==> ids[k] < |orders|
    requires k < |ids|
    ensures KeepOpen(orders, ids[..k + 1])
         == KeepOpen(orders, ids[..k]) + if orders[ids[k]].IsOpen() then [ids[k]] else []
  {
    assert ids[..k + 1][..k] == ids[..k];
  }

  lemma NothingExpired(cfg: Config, e: State, i: nat)
    requires Increasing(cfg.times) && i < |cfg.times| && e.WellFormed()
    ensures ExpireUpTo(cfg, e, i, 0) == Done(e) && EligibleUpTo(cfg, e, i, 0) == {}
  {}

  /** One turn of the expiry loop, on values. */
  lemma ExpireOne(cfg: Config, e: State, x: State, i: nat, k: nat)
    requires Increasing(cfg.times) && i < |cfg.times| && e.WellFormed() && k < |e.current| && Ascending(e.current)
    requires ExpireUpTo(cfg, e, i, k) == Done(x)
    ensures x.WellFormed() && x.current == e.current && |x.orders| == |e.orders|
    ensures var id := e.current[k];
            var y := x.(orders := x.orders[id := Expire(cfg, i, x.orders[id])]);
            if Placed(cfg, i, x.orders[id]) then
              && ExpireUpTo(cfg, e, i, k + 1) == Done(y)
              && EligibleUpTo(cfg, y, i, k + 1)
                 == EligibleUpTo(cfg, x, i, k) + if EligibleOrder(cfg, i, y.orders[id]) then {id} else {}
            else ExpireUpTo(cfg, e, i, k + 1) == Raised(x)
  {
    hide Expire, Placed, EligibleOrder;
    var id := e.current[k];
    assert forall j :: 0 <= j < k ==> e.current[j] < id;
    EligibleFrame(cfg, x, x.(orders := x.orders[id := Expire(cfg, i, x.orders[id])]), i, k);
  }

  // ---- A failure part-way settles the whole loop ----

  lemma {:induction false} ExpiryStops(cfg: Config, e: State, i: nat, k: nat, n: nat)
    requires Increasing(cfg.times) && i < |cfg.times| && e.WellFormed() && k <= n <= |e.current|
    requires ExpireUpTo(cfg, e, i, k).Raised?
    ensures ExpireUpTo(cfg, e, i, n) == ExpireUpTo(cfg, e, i, k)
  {
    if k < n {
      ExpiryStops(cfg, e, i, k, n - 1);
    }
  }

  lemma SettleNone(before: seq<OrderState>, after: seq<OrderState>, batch: seq<Trade>, view: seq<nat>)
    requires |before| == |after| && forall j :: 0 <= j < |view| ==> view[j] < |before|
    ensures SettleUpTo(before, after, batch, view, 0) == Result.Ok(after)
  {}

  lemma SettleOne(
    before: seq<OrderState>, after: seq<OrderState>, batch: seq<Trade>, view: seq<nat>, k: nat, done: seq<OrderState>)
    requires |before| == |after| && k < |view| && forall j :: 0 <= j < |view| ==> view[j] < |before|
    requires SettleUpTo(before, after, batch, view, k) == Result.Ok(done)
    ensures |done| == |after|
    ensures SettleUpTo(before, after, batch, view, k + 1) ==
      var id := view[k];
      match SettleOrder(before[id], done[id], OrderFlow(batch, id, Signed))
      case Raise => Raise
      case Ok(o) => Result.Ok(done[id := o])
  {}

  lemma {:induction false} SettleStops(
    before: seq<OrderState>, after: seq<OrderState>, batch: seq<Trade>, view: seq<nat>, k: nat, n: nat)
    requires |before| == |after| && k <= n <= |view| && forall j :: 0 <= j < |view| ==> view[j] < |before|
    requires SettleUpTo(before, after, batch, view, k).Raise?
    ensures SettleUpTo(before, after, batch, view, n).Raise?
  {
    if k < n {
      SettleStops(before, after, batch, view, k, n - 1);
    }
  }

  lemma {:induction false} SimsStop(
    cfg: Config, e: State, i: nat, eligible: set<nat>, scripts: seq<SimScript>, k: nat, n: nat)
    requires i < |cfg.times| && e.WellFormed() && k <= n <= |scripts|
    requires SimsUpTo(cfg, e, i, eligible, scripts, k).Raised?
    ensures SimsUpTo(cfg, e, i, eligible, scripts, n) == SimsUpTo(cfg, e, i, eligible, scripts, k)
  {
    hide SimStep;
    if k < n {
      SimsStop(cfg, e, i, eligible, scripts, k, n - 1);
    }
  }

  lemma {:induction false} AdmissionStops(
    cfg: Config, e: State, i: nat, batch: seq<OrderState>, verdicts: seq<seq<Verdict>>, k: nat, n: nat)
    requires i < |cfg.times| && e.WellFormed() && k <= n <= |batch|
    requires AdmitUpTo(cfg, e, i, batch, verdicts, k).Raise?
    ensures AdmitUpTo(cfg, e, i, batch, verdicts, n).Raise?
  {
    if k < n {
      AdmissionStops(cfg, e, i, batch, verdicts, k, n - 1);
    }
  }

  lemma {:induction false} RulesStop(cfg: Config, e: State, i: nat, rules: seq<RuleScript>, k: nat, n: nat)
    requires Increasing(cfg.times) && i < |cfg.times| && e.WellFormed() && k <= n <= |rules|
    requires RulesUpTo(cfg, e, i, rules, k).Raised?
    ensures RulesUpTo(cfg, e, i, rules, n) == RulesUpTo(cfg, e, i, rules, k)
  {
    hide RuleStep;
    if k < n {
      RulesStop(cfg, e, i, rules, k, n - 1);
    }
  }

  /** New identities follow all old ones. */
  lemma {:induction false} SubmitAscends(first: nat, ids: seq<nat>, flags: seq<bool>)
    requires Ascending(ids) && forall k :: 0 <= k < |ids| ==> ids[k] < first
    ensures Ascending(ids + AcceptedIds(first, flags))
  {
    if |flags| == 0 {
      assert ids + AcceptedIds(first, flags) == ids;
    } else {
      var n := |flags| - 1;
      SubmitAscends(first, ids, flags[..n]);
      if flags[n] {
        assert ids + AcceptedIds(first, flags) == (ids + AcceptedIds(first, flags[..n])) + [first + n];
      } else {
        assert AcceptedIds(first, flags) == AcceptedIds(first, flags[..n]);
      }
    }
  }
}
