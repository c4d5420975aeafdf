/** The `orders` and `order_items` tables as the checkout page and the payment
    success route use them: inserts that may fail, and a status update keyed by
    order id. Settlement, the one status change the payment flow makes, is the
    function `Settle`. */
module Orders {
  import opened Wrappers
  import opened Domain

  /** Whether the gateway's callback status counts as a validated payment. */
  predicate IsValidated(status: Option<string>) {
    status == Some("VALID") || status == Some("VALIDATED")
  }

  /** An update of the status column filtered on `id`: it touches the row with
      that id if there is one, and nothing otherwise (an absent id, as for a
      missing form field, matches no row). */
  function SetStatus(orders: map<OrderId, Order>, id: Option<OrderId>, status: OrderStatus): (r: map<OrderId, Order>)
    ensures r.Keys == orders.Keys
    ensures forall k :: k in orders && Some(k) != id ==> r[k] == orders[k]
    ensures id.Some? && id.value in orders ==> r[id.value] == orders[id.value].(status := status)
  {
    if id.Some? && id.value in orders then orders[id.value := orders[id.value].(status := status)] else orders
  }

  /** The success callback's effect on the orders: the order named by the
      transaction id becomes `Paid`, and only when the status is validated. */
  function Settle(orders: map<OrderId, Order>, tranId: Option<OrderId>, status: Option<string>): (r: map<OrderId, Order>)
    ensures r.Keys == orders.Keys
    ensures !IsValidated(status) ==> r == orders
    ensures forall k :: k in orders && Some(k) != tranId ==> r[k] == orders[k]
    ensures forall k :: k in orders && Some(k) == tranId ==>
      r[k] == if IsValidated(status) then orders[k].(status := Paid) else orders[k]
  {
    if IsValidated(status) then SetStatus(orders, tranId, Paid) else orders
  }

  /** A second delivery of the same callback changes nothing more. */
  lemma SettleIdempotent(orders: map<OrderId, Order>, tranId: Option<OrderId>, status: Option<string>)
    ensures Settle(Settle(orders, tranId, status), tranId, status) == Settle(orders, tranId, status)
  {
    var once := Settle(orders, tranId, status);
    var twice := Settle(once, tranId, status);
    assert forall k :: k in twice ==> twice[k] == once[k];
  }

  /** A callback for an order that does not exist changes no order. */
  lemma SettleUnknownIsNoOp(orders: map<OrderId, Order>, tranId: Option<OrderId>, status: Option<string>)
    requires tranId.None? || tranId.value !in orders
    ensures Settle(orders, tranId, status) == orders
  {
  }

  /** Settlement is the only way into `Paid`: an order is `Paid` afterwards
      exactly when it was before, or it is the validated transaction's order. */
  lemma SettleOnlyPays(orders: map<OrderId, Order>, tranId: Option<OrderId>, status: Option<string>, k: OrderId)
    requires k in orders
    ensures var r := Settle(orders, tranId, status);
      r[k].status == Paid <==> orders[k].status == Paid || (IsValidated(status) && tranId == Some(k))
  {
  }

  /** The two tables. Each write either succeeds or fails, as its `fails`
      argument says; a failed write changes nothing. */
  class OrderTable {
    var orders: map<OrderId, Order>
    var lines: seq<OrderItem>

    ghost predicate Valid()
      reads this
    {
      forall k :: k in orders ==> orders[k].id == k
    }

    constructor (orders: map<OrderId, Order>, lines: seq<OrderItem>)
      requires forall k :: k in orders ==> orders[k].id == k
      ensures Valid() && this.orders == orders && this.lines == lines
    {
      this.orders := orders;
      this.lines := lines;
    }

    /** Inserts one order row. A row whose id is taken is refused, like any
        failed insert. */
    method InsertOrder(o: Order, fails: bool) returns (outcome: Outcome<string>)
      requires Valid()
      modifies this`orders
      ensures Valid()
      ensures outcome.Pass? <==> !fails && o.id !in old(orders)
      ensures orders == if outcome.Pass? then old(orders)[o.id := o] else old(orders)
    {
      if fails || o.id in orders {
        return Fail("orderError");
      }
      orders := orders[o.id := o];
      outcome := Pass;
    }

    /** Inserts several order lines in one statement: all of them or none. */
    method InsertLines(rows: seq<OrderItem>, fails: bool) returns (outcome: Outcome<string>)
      modifies this`lines
      ensures outcome.Pass? <==> !fails
      ensures lines == if outcome.Pass? then old(lines) + rows else old(lines)
    {
      if fails {
        return Fail("itemsError");
      }
      lines := lines + rows;
      outcome := Pass;
    }

    /** Updates the status of the order with that id. */
    method UpdateStatus(id: Option<OrderId>, status: OrderStatus, fails: bool) returns (outcome: Outcome<string>)
      requires Valid()
      modifies this`orders
      ensures Valid()
      ensures outcome.Pass? <==> !fails
      ensures orders == if outcome.Pass? then SetStatus(old(orders), id, status) else old(orders)
    {
      if fails {
        return Fail("update error");
      }
      orders := SetStatus(orders, id, status);
      outcome := Pass;
    }
  }
}
