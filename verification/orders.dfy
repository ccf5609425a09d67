/** The order entity, its status machine, and the capture/restore guard around callbacks. */
module Orders {

  datatype Contract = Contract(symbol: string, group: string)

  datatype Status = Open | PartiallyFilled | Filled | CancelRequested | Cancelled

  datatype TimeInForce = FOK | GTC | DAY

  datatype Result<+T> = Ok(value: T) | Raise

  /** The engine-owned fields of an order: what a callback guard captures. */
  datatype OrderState = OrderState(
    contract: Contract, timestamp: int, tif: TimeInForce, qty: int, status: Status)
  {
    predicate IsOpen() {
      status.Open? || status.CancelRequested? || status.PartiallyFilled?
    }
  }

  function Abs(x: int): nat {
    if x < 0 then -x else x
  }

  function CancelOrder(o: OrderState): OrderState {
    if o.status.Filled? || o.status.Cancelled? then o else o.(status := Cancelled)
  }

  function RequestCancelOrder(o: OrderState): OrderState {
    if o.status.Filled? || o.status.Cancelled? || o.status.CancelRequested? then o
    else o.(status := CancelRequested)
  }

  /** `Order.fill`, with every refusal it makes. */
  function FillOrder(o: OrderState, fill: int): Result<OrderState> {
    if !o.status.Open? && !o.status.PartiallyFilled? then Raise
    else if fill == 0 then Raise
    else if o.qty * fill < 0 then Raise
    else if Abs(fill) > Abs(o.qty) then Raise
    else
      var rest := o.qty - fill;
      Ok(o.(qty := rest, status := if rest == 0 then Filled else PartiallyFilled))
  }

  /** A remaining quantity lies between nothing and the quantity it came from. */
  predicate Within(part: int, whole: int) {
    0 <= part <= whole || whole <= part <= 0
  }

  /** An accepted fill conserves quantity, never changes side, and closes the order exactly when
      nothing remains; it is accepted exactly for a fillable order and a nonzero part of what remains. */
  lemma FillConserves(o: OrderState, fill: int)
    ensures FillOrder(o, fill).Ok? <==>
      (o.status.Open? || o.status.PartiallyFilled?) && fill != 0 && Within(fill, o.qty)
    ensures FillOrder(o, fill).Ok? ==>
      var o' := FillOrder(o, fill).value;
      && o'.qty + fill == o.qty && Within(o'.qty, o.qty) && Abs(o'.qty) + Abs(fill) == Abs(o.qty)
      && (o'.IsOpen() <==> o'.qty != 0)
  {
    if fill != 0 && o.qty != 0 {
      if (fill > 0) == (o.qty > 0) {
        assert o.qty * fill > 0;
      } else {
        assert o.qty * fill < 0;
      }
    }
  }

  /** `OrderCallbackState.validate_identity`. */
  predicate SameIdentity(before: OrderState, after: OrderState) {
    before.contract == after.contract && before.timestamp == after.timestamp && before.tif == after.tif
  }

  /** `OrderCallbackState.validate_unchanged`; a rule may move an open order towards cancellation. */
  predicate Unchanged(before: OrderState, after: OrderState, allowCancel: bool) {
    && SameIdentity(before, after)
    && before.qty == after.qty
    && (|| before.status == after.status
        || (allowCancel && before.IsOpen() && (after.status.CancelRequested? || after.status.Cancelled?)))
  }

  class Order {
    const id: nat  // the object's identity
    var contract: Contract
    var timestamp: int
    var timeInForce: TimeInForce
    var qty: int
    var status: Status

    constructor (id: nat, s: OrderState)
      ensures this.id == id && State() == s
    {
      this.id := id;
      contract, timestamp, timeInForce, qty, status := s.contract, s.timestamp, s.tif, s.qty, s.status;
    }

    function State(): OrderState
      reads this
    {
      OrderState(contract, timestamp, timeInForce, qty, status)
    }

    predicate IsOpen()
      reads this
    {
      State().IsOpen()
    }

    method Cancel()
      modifies this
      ensures State() == CancelOrder(old(State()))
    {
      if status == Filled || status == Cancelled {
        return;
      }
      status := Cancelled;
    }

    method RequestCancel()
      modifies this
      ensures State() == RequestCancelOrder(old(State()))
    {
      if status == Filled || status == Cancelled || status == CancelRequested {
        return;
      }
      status := CancelRequested;
    }

    method Fill(fill: int) returns (ok: bool)
      modifies this
      ensures ok == FillOrder(old(State()), fill).Ok?
      ensures State() == if ok then FillOrder(old(State()), fill).value else old(State())
    {
      if status != Open && status != PartiallyFilled {
        return false;
      }
      if fill == 0 || qty * fill < 0 || Abs(fill) > Abs(qty) {
        return false;
      }
      qty := qty - fill;
      status := if qty == 0 then Filled else PartiallyFilled;
      return true;
    }

    /** `OrderCallbackState.restore`; also how a callback's writes reach the fields. */
    method Assign(s: OrderState)
      modifies this
      ensures State() == s
    {
      contract, timestamp, timeInForce, qty, status := s.contract, s.timestamp, s.tif, s.qty, s.status;
    }
  }
}
