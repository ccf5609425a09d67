/** Pre-trade policies: what an order may add to a position, given everything that may still fill. */
module Risk {
  import opened Orders
  import opened Flows

  datatype Context = Context(trades: seq<Trade>, now: int, open: seq<OrderState>)

  datatype Policy =
    | MaxOrderQuantity(maximum: real)
    | MaxPositionQuantity(maximum: real)
    | RollingTradeBudget(maximum: real, window: int, scope: Scope)
    | OtherPolicy  // a user policy: it may accept, reject or raise

  datatype Verdict = Accept | Reject | Error

  function Min0(q: int): int {
    if q < 0 then q else 0
  }

  function Max0(q: int): int {
    if q > 0 then q else 0
  }

  predicate Reserves(o: OrderState, symbol: string) {
    o.IsOpen() && o.contract.symbol == symbol
  }

  /** Most negative total the pending orders of a symbol can still add. */
  function PendingLow(open: seq<OrderState>, symbol: string): int {
    if |open| == 0 then 0
    else
      var o := open[|open| - 1];
      PendingLow(open[..|open| - 1], symbol) + if Reserves(o, symbol) then Min0(o.qty) else 0
  }

  /** Most positive total the pending orders of a symbol can still add. */
  function PendingHigh(open: seq<OrderState>, symbol: string): int {
    if |open| == 0 then 0
    else
      var o := open[|open| - 1];
      PendingHigh(open[..|open| - 1], symbol) + if Reserves(o, symbol) then Max0(o.qty) else 0
  }

  /** Absolute quantity still open in a scope. */
  function PendingAbs(open: seq<OrderState>, s: Scope): nat {
    if |open| == 0 then 0
    else
      var o := open[|open| - 1];
      PendingAbs(open[..|open| - 1], s) + if o.IsOpen() && s.Has(o.contract) then Abs(o.qty) else 0
  }

  function Position(ctx: Context, symbol: string): int {
    Flow(ctx.trades, InSymbol(symbol), Signed, UpTo(ctx.now))
  }

  function Lower(ctx: Context, o: OrderState): int {
    Position(ctx, o.contract.symbol) + Min0(o.qty) + PendingLow(ctx.open, o.contract.symbol)
  }

  function Upper(ctx: Context, o: OrderState): int {
    Position(ctx, o.contract.symbol) + Max0(o.qty) + PendingHigh(ctx.open, o.contract.symbol)
  }

  /** `RiskContext.position_bounds`. */
  method PositionBounds(ctx: Context, order: OrderState) returns (lower: int, upper: int)
    ensures lower == Lower(ctx, order) && upper == Upper(ctx, order)
  {
    var current := Position(ctx, order.contract.symbol);
    lower, upper := current + Min0(order.qty), current + Max0(order.qty);
    for k := 0 to |ctx.open|
      invariant lower == current + Min0(order.qty) + PendingLow(ctx.open[..k], order.contract.symbol)
      invariant upper == current + Max0(order.qty) + PendingHigh(ctx.open[..k], order.contract.symbol)
    {
      var pending := ctx.open[k];
      assert ctx.open[..k + 1][..k] == ctx.open[..k];
      if pending.IsOpen() && pending.contract.symbol == order.contract.symbol {
        lower := lower + Min0(pending.qty);
        upper := upper + Max0(pending.qty);
      }
    }
    assert ctx.open[..|ctx.open|] == ctx.open;
  }

  // ---- The bounds are exactly the reachable positions ----

  /** One way the listed orders may fill: each reserving order by some part of its remainder. */
  predicate PartialFills(open: seq<OrderState>, symbol: string, fills: seq<int>) {
    && |fills| == |open|
    && forall k :: 0 <= k < |open| ==>
         if Reserves(open[k], symbol) then Within(fills[k], open[k].qty) else fills[k] == 0
  }

  function Total(fills: seq<int>): int {
    if |fills| == 0 then 0 else Total(fills[..|fills| - 1]) + fills[|fills| - 1]
  }

  lemma {:induction false} FillsStayInside(open: seq<OrderState>, symbol: string, fills: seq<int>)
    requires PartialFills(open, symbol, fills)
    ensures PendingLow(open, symbol) <= Total(fills) <= PendingHigh(open, symbol)
  {
    if |open| > 0 {
      FillsStayInside(open[..|open| - 1], symbol, fills[..|open| - 1]);
    }
  }

  lemma {:induction false} PendingSigns(open: seq<OrderState>, symbol: string)
    ensures PendingLow(open, symbol) <= 0 <= PendingHigh(open, symbol)
  {
    if |open| > 0 {
      PendingSigns(open[..|open| - 1], symbol);
    }
  }

  lemma {:induction false} FillsReach(open: seq<OrderState>, symbol: string, v: int) returns (fills: seq<int>)
    requires PendingLow(open, symbol) <= v <= PendingHigh(open, symbol)
    ensures PartialFills(open, symbol, fills) && Total(fills) == v
  {
    if |open| == 0 {
      fills := [];
    } else {
      var n := |open| - 1;
      var rest := open[..n];
      PendingSigns(rest, symbol);
      var low, high := PendingLow(rest, symbol), PendingHigh(rest, symbol);
      var part := if v < low then v - low else if v > high then v - high else 0;
      var before := FillsReach(rest, symbol, v - part);
      fills := before + [part];
      assert fills[..n] == before;
    }
  }

  /** A change in position is reachable by some partial filling of the pending orders and the proposal
      if and only if it lies within the computed bounds. */
  lemma BoundsAreExact(ctx: Context, order: OrderState, position: int)
    requires order.IsOpen()
    ensures Lower(ctx, order) <= position <= Upper(ctx, order) <==>
      exists fills :: PartialFills(ctx.open + [order], order.contract.symbol, fills)
                      && Position(ctx, order.contract.symbol) + Total(fills) == position
  {
    var all := ctx.open + [order];
    var s := order.contract.symbol;
    assert all[..|all| - 1] == ctx.open;
    if Lower(ctx, order) <= position <= Upper(ctx, order) {
      var fills := FillsReach(all, s, position - Position(ctx, s));
    }
    forall fills | PartialFills(all, s, fills) && Position(ctx, s) + Total(fills) == position
      ensures Lower(ctx, order) <= position <= Upper(ctx, order)
    {
      FillsStayInside(all, s, fills);
    }
  }

  // ---- Decisions ----

  function Evaluate(p: Policy, order: OrderState, ctx: Context, verdict: Verdict): Verdict {
    match p
    case MaxOrderQuantity(m) => if Abs(order.qty) as real > m then Reject else Accept
    case MaxPositionQuantity(m) =>
      if order.qty > 0 then if Upper(ctx, order) as real <= m then Accept else Reject
      else if Lower(ctx, order) as real >= -m then Accept else Reject
    case RollingTradeBudget(m, w, s) =>
      var executed := Flow(ctx.trades, s, Absolute, Between(ctx.now - w, ctx.now));
      if (executed + PendingAbs(ctx.open, s) + Abs(order.qty)) as real > m then Reject else Accept
    case OtherPolicy => verdict
  }

  datatype Decision = Accepted | Rejected(policy: nat) | Failed

  /** The verdict a user policy gives at its place in the list; built-in policies ignore it. */
  function VerdictAt(verdicts: seq<Verdict>, k: nat): Verdict {
    if k < |verdicts| then verdicts[k] else Accept
  }

  /** Policies from `k` on, in order; the first that does not accept settles the decision. */
  function DecideFrom(order: OrderState, ctx: Context, policies: seq<Policy>, verdicts: seq<Verdict>, k: nat): Decision
    requires k <= |policies|
    decreases |policies| - k
  {
    if k == |policies| then Accepted
    else
      match Evaluate(policies[k], order, ctx, VerdictAt(verdicts, k))
      case Accept => DecideFrom(order, ctx, policies, verdicts, k + 1)
      case Reject => Rejected(k)
      case Error => Failed
  }

  /** `decide_order`: whole-unit checks on the order and everything still pending, then the policies. */
  function Decide(order: OrderState, ctx: Context, policies: seq<Policy>, verdicts: seq<Verdict>): Decision {
    if order.qty == 0 || exists k :: 0 <= k < |ctx.open| && ctx.open[k].IsOpen() && ctx.open[k].qty == 0
    then Failed
    else DecideFrom(order, ctx, policies, verdicts, 0)
  }

  method DecideOrder(order: OrderState, ctx: Context, policies: seq<Policy>, verdicts: seq<Verdict>)
    returns (d: Decision)
    ensures d == Decide(order, ctx, policies, verdicts)
  {
    if order.qty == 0 {
      return Failed;
    }
    for k := 0 to |ctx.open|
      invariant forall j :: 0 <= j < k ==> !(ctx.open[j].IsOpen() && ctx.open[j].qty == 0)
    {
      if ctx.open[k].IsOpen() && ctx.open[k].qty == 0 {
        return Failed;
      }
    }
    for k := 0 to |policies|
      invariant Decide(order, ctx, policies, verdicts) == DecideFrom(order, ctx, policies, verdicts, k)
    {
      var result: Verdict;
      match policies[k] {
        case MaxOrderQuantity(m) =>
          result := if Abs(order.qty) as real > m then Reject else Accept;
        case MaxPositionQuantity(m) =>
          var lower, upper := PositionBounds(ctx, order);
          var within := if order.qty > 0 then upper as real <= m else lower as real >= -m;
          result := if within then Accept else Reject;
        case RollingTradeBudget(_, _, _) =>
          result := Evaluate(policies[k], order, ctx, Accept);
        case OtherPolicy =>
          result := VerdictAt(verdicts, k);
      }
      if result == Reject {
        return Rejected(k);
      } else if result == Error {
        return Failed;
      }
    }
    return Accepted;
  }

  /** Acceptance means every registered policy accepted. */
  lemma {:induction false} AcceptedByAll(
    order: OrderState, ctx: Context, policies: seq<Policy>, verdicts: seq<Verdict>, k: nat, j: nat)
    requires k <= j < |policies|
    requires DecideFrom(order, ctx, policies, verdicts, k) == Accepted
    ensures Evaluate(policies[j], order, ctx, VerdictAt(verdicts, j)) == Accept
    decreases j - k
  {
    if k < j {
      AcceptedByAll(order, ctx, policies, verdicts, k + 1, j);
    }
  }

  // ---- How pending sums respond to changes ----

  lemma PendingSnoc(a: seq<OrderState>, o: OrderState, symbol: string, s: Scope)
    ensures PendingLow(a + [o], symbol) == PendingLow(a, symbol) + if Reserves(o, symbol) then Min0(o.qty) else 0
    ensures PendingHigh(a + [o], symbol) == PendingHigh(a, symbol) + if Reserves(o, symbol) then Max0(o.qty) else 0
    ensures PendingAbs(a + [o], s) == PendingAbs(a, s) + if o.IsOpen() && s.Has(o.contract) then Abs(o.qty) else 0
  {
    assert (a + [o])[..|a|] == a;
  }
}
