/** The engine's promises, stated for every run from every legal start. */
module EngineTheorems {
  import opened Grid
  import opened Orders
  import opened Flows
  import opened CallbackContracts
  import opened Risk
  import opened Engine
  import opened EngineSteps
  import opened EngineSafety

  /** A strategy about to run: no orders yet, an account that may hold earlier trades of its own. */
  ghost predicate FreshStart(cfg: Config, e: State, start: nat)
    requires Increasing(cfg.times) && start < |cfg.times|
  {
    && e.orders == [] && e.proposed == [] && e.current == []
    && forall k :: 0 <= k < |e.trades| ==> e.trades[k].order < 0 && e.trades[k].timestamp <= cfg.times[start]
  }

  /** A legal run: a forward schedule from a fresh start, whatever the callbacks do. */
  ghost predicate LegalRun(cfg: Config, e: State, start: nat, its: seq<Iteration>) {
    Increasing(cfg.times) && Forward(cfg, start, its) && FreshStart(cfg, e, start)
  }

  lemma FreshIsSound(cfg: Config, e: State, start: nat)
    requires Increasing(cfg.times) && start < |cfg.times| && FreshStart(cfg, e, start)
    ensures e.WellFormed() && Sound(cfg, e, start) && Pending(e) == []
  {}

  function Held0(e: State, symbol: string, t: int): int {
    Flow(e.trades, InSymbol(symbol), Signed, UpTo(t))
  }

  /** Position cap: whichever pending orders fill, in whatever part, no symbol leaves the range spanned by
      the cap and where it started; in particular a start inside the cap stays inside it. */
  lemma PositionStaysCapped(
    cfg: Config, e: State, start: nat, its: seq<Iteration>, m: real, symbol: string, fills: seq<int>)
    requires LegalRun(cfg, e, start, its) && MaxPositionQuantity(m) in cfg.policies && m > 0.0
    requires PartialFills(Pending(Run(cfg, e, its)), symbol, fills)
    ensures var p0 := Held0(e, symbol, cfg.times[start]) as real;
            var p := (Held0(Run(cfg, e, its), symbol, cfg.times[LastIndex(start, its)]) + Total(fills)) as real;
            (if p0 < -m then p0 else -m) <= p <= (if p0 > m then p0 else m)
  {
    hide Run, Sound, Later, Flow;
    FreshIsSound(cfg, e, start);
    var p0 := Held0(e, symbol, cfg.times[start]) as real;
    var lo, hi := if p0 < -m then p0 else -m, if p0 > m then p0 else m;
    RunKeeps(cfg, e, start, its, PositionRange(symbol, m, lo, hi));
    FillsStayInside(Pending(Run(cfg, e, its)), symbol, fills);
  }

  /** In every run from here, whichever pending orders fill, the position stays within the cap. */
  ghost predicate CappedAlways(cfg: Config, e: State, start: nat, m: real, symbol: string) {
    forall its: seq<Iteration>, fills: seq<int> ::
      LegalRun(cfg, e, start, its) && PartialFills(Pending(Run(cfg, e, its)), symbol, fills)
      ==> -m <= PositionAfter(cfg, e, start, its, symbol, fills) <= m
  }

  /** Position at the end of a run once its pending orders have filled in these parts. */
  function PositionAfter(
    cfg: Config, e: State, start: nat, its: seq<Iteration>, symbol: string, fills: seq<int>): real
    requires LegalRun(cfg, e, start, its)
  {
    (Held0(Run(cfg, e, its), symbol, cfg.times[LastIndex(start, its)]) + Total(fills)) as real
  }

  /** The cap holds throughout every run if and only if it held at the start. */
  lemma CapHoldsExactlyFromInside(cfg: Config, e: State, start: nat, m: real, symbol: string)
    requires Increasing(cfg.times) && start < |cfg.times| && FreshStart(cfg, e, start)
    requires MaxPositionQuantity(m) in cfg.policies && m > 0.0
    ensures CappedAlways(cfg, e, start, m, symbol) <==> -m <= Held0(e, symbol, cfg.times[start]) as real <= m
  {
    hide Flow;
    if -m <= Held0(e, symbol, cfg.times[start]) as real <= m {
      forall its: seq<Iteration>, fills: seq<int> |
        LegalRun(cfg, e, start, its) && PartialFills(Pending(Run(cfg, e, its)), symbol, fills)
        ensures -m <= PositionAfter(cfg, e, start, its, symbol, fills) <= m
      {
        PositionStaysCapped(cfg, e, start, its, m, symbol, fills);
      }
    } else {
      EmptyRun(cfg, e, start, symbol);
      hide CappedAlways, LegalRun, PositionAfter, Run;
      if CappedAlways(cfg, e, start, m, symbol) {
        CappedHere(cfg, e, start, m, symbol, [], []);
      }
    }
  }

  lemma EmptyRun(cfg: Config, e: State, start: nat, symbol: string)
    requires Increasing(cfg.times) && start < |cfg.times| && FreshStart(cfg, e, start)
    ensures LegalRun(cfg, e, start, []) && PartialFills(Pending(Run(cfg, e, [])), symbol, [])
    ensures PositionAfter(cfg, e, start, [], symbol, []) == Held0(e, symbol, cfg.times[start]) as real
  {}

  lemma CappedHere(
    cfg: Config, e: State, start: nat, m: real, symbol: string, its: seq<Iteration>, fills: seq<int>)
    requires CappedAlways(cfg, e, start, m, symbol)
    requires LegalRun(cfg, e, start, its) && PartialFills(Pending(Run(cfg, e, its)), symbol, fills)
    ensures -m <= PositionAfter(cfg, e, start, its, symbol, fills) <= m
  {
    hide PositionAfter, LegalRun, Run;
  }

  /** Trade budget: executed quantity in the trailing window plus everything still open never exceeds it. */
  lemma BudgetIsNeverExceeded(
    cfg: Config, e: State, start: nat, its: seq<Iteration>, m: real, width: nat, s: Scope)
    requires LegalRun(cfg, e, start, its) && RollingTradeBudget(m, width, s) in cfg.policies
    requires BudgetUse(e, cfg.times[start], width, s) as real <= m
    ensures BudgetUse(Run(cfg, e, its), cfg.times[LastIndex(start, its)], width, s) as real <= m
  {
    hide Run, Sound, Later, Flow, PendingAbs, StatesOf;
    FreshIsSound(cfg, e, start);
    RunKeeps(cfg, e, start, its, TradeBudget(m, width, s, m));
  }

  lemma BooksStaySound(cfg: Config, e: State, start: nat, its: seq<Iteration>)
    requires LegalRun(cfg, e, start, its)
    ensures Sound(cfg, Run(cfg, e, its), LastIndex(start, its)) && Later(e, Run(cfg, e, its))
  {
    hide Run, Sound, Later;
    FreshIsSound(cfg, e, start);
    RunKeeps(cfg, e, start, its, NoPromise);
  }

  /** Conservation and exactly-once booking: what an order was decided on is what remains of it plus the
      account's executions of it, all on its own side; this holds after every failure as well. A filled order
      has traded all of that, or nothing. */
  lemma QuantityIsConserved(cfg: Config, e: State, start: nat, its: seq<Iteration>, id: nat)
    requires LegalRun(cfg, e, start, its)
    requires id < |Run(cfg, e, its).orders|
    ensures var r := Run(cfg, e, its);
            && r.proposed[id] == r.orders[id].qty + OrderFlow(r.trades, id, Signed)
            && Within(r.orders[id].qty, r.proposed[id])
            && (forall k :: 0 <= k < |r.trades| && r.trades[k].order == id ==>
                  && r.trades[k].qty != 0 && ((r.trades[k].qty > 0) == (r.proposed[id] > 0))
                  && r.trades[k].contract == r.orders[id].contract)
            && (r.orders[id].status == Filled ==> OrderFlow(r.trades, id, Signed) in {0, r.proposed[id]})
  {
    hide Run, Later, OrderFlow;
    BooksStaySound(cfg, e, start, its);
    var r := Run(cfg, e, its);
    assert OrderSound(cfg, r, LastIndex(start, its), id);
    forall k | 0 <= k < |r.trades| && r.trades[k].order == id
      ensures r.trades[k].qty != 0 && ((r.trades[k].qty > 0) == (r.proposed[id] > 0))
      ensures r.trades[k].contract == r.orders[id].contract
    {
      assert TradeSound(cfg, r, LastIndex(start, its), r.trades[k]);
    }
  }

  /** Timing: with `s` and `x` the grid indices of an order's submission and of one of its executions,
      `x` is at least `s` plus the lag, exactly that for fill-or-kill, and on the same date for DAY. */
  lemma TradesAreTimely(cfg: Config, e: State, start: nat, its: seq<Iteration>, k: nat)
    requires LegalRun(cfg, e, start, its)
    requires k < |Run(cfg, e, its).trades| && Run(cfg, e, its).trades[k].order >= 0
    ensures var r := Run(cfg, e, its);
            var t := r.trades[k];
            && t.order < |r.orders|
            && exists s, x ::
                 && 0 <= s < |cfg.times| && cfg.times[s] == r.orders[t.order].timestamp
                 && 0 <= x < |cfg.times| && cfg.times[x] == t.timestamp
                 && s + cfg.lag <= x
                 && (r.orders[t.order].tif == FOK ==> x == s + cfg.lag)
                 && (r.orders[t.order].tif == DAY ==> Day(cfg.times[x]) == Day(cfg.times[s]))
  {
    BooksStaySound(cfg, e, start, its);
    var r := Run(cfg, e, its);
    var t := r.trades[k];
    assert TradeSound(cfg, r, LastIndex(start, its), t);
    var o := r.orders[t.order];
    assert OrderSound(cfg, r, LastIndex(start, its), t.order);
    var s, x := SubmissionIndex(cfg, o), SearchSorted(cfg.times, t.timestamp);
    assert cfg.times[s] == o.timestamp && cfg.times[x] == t.timestamp;
  }

  lemma {:induction false} RunSplits(cfg: Config, e: State, its: seq<Iteration>, n: nat)
    requires Increasing(cfg.times) && e.WellFormed() && n <= |its|
    requires forall k :: 0 <= k < |its| ==> its[k].index < |cfg.times|
    ensures Run(cfg, e, its) == Run(cfg, Run(cfg, e, its[..n]), its[n..])
  {
    hide RunIteration;
    if n == |its| {
      assert its[..n] == its;
    } else {
      var m := |its| - 1;
      RunSplits(cfg, e, its[..m], n);
      assert its[..m][..n] == its[..n];
      assert its[n..][..|its[n..]| - 1] == its[..m][n..];
    }
  }

  /** An order found filled or cancelled at any point of a run keeps its state and never trades again. */
  lemma ClosedOrdersRest(cfg: Config, e: State, start: nat, its: seq<Iteration>, n: nat, id: nat)
    requires LegalRun(cfg, e, start, its) && n <= |its|
    requires id < |Run(cfg, e, its[..n]).orders| && !Run(cfg, e, its[..n]).orders[id].IsOpen()
    ensures var mid, end := Run(cfg, e, its[..n]), Run(cfg, e, its);
            && id < |end.orders| && end.orders[id] == mid.orders[id]
            && OrderFlow(end.trades, id, Signed) == OrderFlow(mid.trades, id, Signed)
            && |mid.trades| <= |end.trades| && end.trades[..|mid.trades|] == mid.trades
            && forall k :: |mid.trades| <= k < |end.trades| ==> end.trades[k].order != id
  {
    hide Run, Sound, Later;
    var mid := Run(cfg, e, its[..n]);
    BooksStaySound(cfg, e, start, its[..n]);
    RunSplits(cfg, e, its, n);
    RunKeeps(cfg, mid, LastIndex(start, its[..n]), its[n..], NoPromise);
    LaterRests(mid, Run(cfg, e, its), id);
  }

  lemma LaterRests(mid: State, end: State, id: nat)
    requires Later(mid, end) && id < |mid.orders| && !mid.orders[id].IsOpen()
    ensures id < |end.orders| && end.orders[id] == mid.orders[id]
    ensures OrderFlow(end.trades, id, Signed) == OrderFlow(mid.trades, id, Signed)
    ensures |mid.trades| <= |end.trades| && end.trades[..|mid.trades|] == mid.trades
    ensures forall k :: |mid.trades| <= k < |end.trades| ==> end.trades[k].order != id
  {
    OrderFlowAppend(mid.trades, end.trades[|mid.trades|..], id, Signed);
    assert mid.trades + end.trades[|mid.trades|..] == end.trades;
    UnusedIdHasNoFlow(end.trades[|mid.trades|..], id, Signed);
  }

  /** The engine's chronology assertion never fires in a forward run: a market pass that starts from any
      reachable state completes its expiry loop. */
  lemma ChronologyAssertionHolds(cfg: Config, e: State, start: nat, its: seq<Iteration>, i: nat)
    requires LegalRun(cfg, e, start, its) && LastIndex(start, its) <= i < |cfg.times|
    ensures var r := Run(cfg, e, its);
            ExpireUpTo(cfg, r, i, |r.current|).Done?
  {
    RunKeeps(cfg, e, start, its, NoPromise);
    var r := Run(cfg, e, its);
    ClockKeeps(cfg, r, LastIndex(start, its), i, NoPromise);
    SimMarketKeeps(cfg, r, i, [], NoPromise);
  }
}
