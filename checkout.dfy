/** The checkout page (app/checkout/page.tsx): it turns the cart into an order
    and its lines, asks the payment initiation route for a gateway session,
    empties the cart, and sends the browser to the gateway. Identity, the
    database and the gateway are arguments of `HandleSubmit`. */
module Checkout {
  import opened Wrappers
  import opened Domain
  import Cart
  import Pricing
  import Orders
  import PaymentInit

  /** The identity state the page reads: loaded, signed in, and the user. */
  datatype Auth = Auth(isLoaded: bool, isSignedIn: bool, user: Option<UserId>)

  /** The user who may check out, if any. */
  function Shopper(auth: Auth): (r: Option<UserId>)
    ensures r.Some? <==> auth.isLoaded && auth.isSignedIn && auth.user.Some?
    ensures r.Some? ==> r == auth.user
  {
    if auth.isLoaded && auth.isSignedIn then auth.user else None
  }

  /** The order row the page inserts; the database assigns `id`. */
  function NewOrder(id: OrderId, uid: UserId, total: real, c: PaymentInit.Customer): (o: Order)
    ensures o.id == id && o.userId == uid && o.totalAmount == total && o.status == Pending
    ensures o.shippingAddress == c.address && o.shippingCity == c.city
    ensures o.shippingPostalCode == c.postalCode && o.shippingCountry == c.country
  {
    Order(id, uid, total, Pending, c.address, c.city, c.postalCode, c.country)
  }

  /** The order line made from one cart line. */
  function OrderLine(orderId: OrderId, item: CartItem): OrderItem {
    OrderItem(orderId, item.productId, item.quantity, Cart.UnitPrice(item))
  }

  /** One order line per cart line, in cart order. */
  function OrderLines(orderId: OrderId, items: seq<CartItem>): (r: seq<OrderItem>)
    ensures |r| == |items|
    ensures forall i :: 0 <= i < |r| ==>
      r[i].orderId == orderId && r[i].productId == items[i].productId &&
      r[i].quantity == items[i].quantity && r[i].price == Cart.UnitPrice(items[i])
  {
    seq(|items|, i requires 0 <= i < |items| => OrderLine(orderId, items[i]))
  }

  /** What the order's lines are worth: price times quantity, summed from the left. */
  function LinesValue(lines: seq<OrderItem>): real
    decreases |lines|
  {
    if lines == [] then 0.0
    else LinesValue(lines[..|lines| - 1]) + lines[|lines| - 1].price * lines[|lines| - 1].quantity as real
  }

  /** The lines of an order are worth exactly the cart's subtotal, so the
      order's total is the checkout formula applied to its own lines. */
  lemma {:induction false} OrderLinesMatchSubtotal(orderId: OrderId, items: seq<CartItem>)
    ensures LinesValue(OrderLines(orderId, items)) == Cart.TotalPrice(items)
    ensures Pricing.OrderTotal(LinesValue(OrderLines(orderId, items))) == Pricing.OrderTotal(Cart.TotalPrice(items))
    decreases |items|
  {
    if items != [] {
      var n := |items| - 1;
      var lines := OrderLines(orderId, items);
      OrderLinesMatchSubtotal(orderId, items[..n]);
      assert lines[..n] == OrderLines(orderId, items[..n]);
    }
  }

  /** Whether the init route's HTTP status is a success (2xx). */
  predicate HttpOk(status: int) {
    200 <= status < 300
  }

  const SignInAlert: string := "Please sign in to complete your order"
  const FailureAlert: string := "Failed to process checkout. Please try again."

  /** The page's state: the submit flag, the router's last target, the
      browser's location once the page assigns it, and the alerts shown. */
  class CheckoutPage {
    var loading: bool
    var route: Option<string>
    var location: Option<string>
    var alerts: seq<string>
    const cart: Cart.CartStore
    const table: Orders.OrderTable

    constructor (cart: Cart.CartStore, table: Orders.OrderTable)
      ensures this.cart == cart && this.table == table
      ensures !loading && route.None? && location.None? && alerts == []
    {
      this.cart := cart;
      this.table := table;
      loading := false;
      route := None;
      location := None;
      alerts := [];
    }

    /** The submit handler. `form` is the shipping form; `newOrderId` is the id
        the database gives the order; `orderFails`, `linesFail` and `clearFails`
        say whether those writes fail; `env` and `gateway` feed the payment
        initiation route. `sent` is the body posted to that route, if any. */
    method HandleSubmit(auth: Auth, form: PaymentInit.Customer, newOrderId: OrderId,
                        orderFails: bool, linesFail: bool,
                        env: PaymentInit.Env, gateway: PaymentInit.GatewayCall, clearFails: bool)
      returns (sent: Option<PaymentInit.InitBody>)
      requires cart.Valid() && table.Valid()
      modifies this`loading, this`route, this`location, this`alerts
      modifies cart`items, cart`local, cart`db, table`orders, table`lines
      ensures cart.Valid() && table.Valid() && !loading
      // Without a signed-in user nothing is written and the shopper is sent to sign in.
      ensures Shopper(auth).None? ==>
        route == Some("/sign-in") && alerts == old(alerts) + [SignInAlert] && sent.None? &&
        table.orders == old(table.orders) && table.lines == old(table.lines) && location == old(location) &&
        cart.items == old(cart.items) && cart.local == old(cart.local) && cart.db == old(cart.db)
      ensures Shopper(auth).Some? ==> route == old(route)
      // The order row: pending, for the shopper, at the checkout formula's total.
      ensures var inserted := Shopper(auth).Some? && !orderFails && newOrderId !in old(table.orders);
        table.orders == if inserted then
          old(table.orders)[newOrderId := NewOrder(newOrderId, Shopper(auth).value,
                                                   Pricing.OrderTotal(Cart.TotalPrice(old(cart.items))), form)]
        else old(table.orders)
      // Its lines, one per cart line, only after the order row.
      ensures var inserted := Shopper(auth).Some? && !orderFails && newOrderId !in old(table.orders);
        table.lines == if inserted && !linesFail then old(table.lines) + OrderLines(newOrderId, old(cart.items))
        else old(table.lines)
      // Payment is requested only after both writes, for this order and this total.
      ensures sent.Some? <==> Shopper(auth).Some? && !orderFails && newOrderId !in old(table.orders) && !linesFail
      ensures sent.Some? ==>
        sent.value == PaymentInit.InitBody(newOrderId, Pricing.OrderTotal(Cart.TotalPrice(old(cart.items))), Some(form))
      // The cart is emptied only after an ok answer, whether or not it holds a URL.
      ensures var ok := sent.Some? && HttpOk(PaymentInit.Classify(gateway).status);
        !ok ==> cart.items == old(cart.items) && cart.local == old(cart.local) && cart.db == old(cart.db)
      ensures var ok := sent.Some? && HttpOk(PaymentInit.Classify(gateway).status);
        ok && !(cart.user.Some? && clearFails) ==> cart.items == [] && cart.local.None?
      ensures var ok := sent.Some? && HttpOk(PaymentInit.Classify(gateway).status);
        ok ==> cart.db == if cart.user.Some? && !clearFails then Cart.DbWithoutUser(old(cart.db), cart.user.value)
                          else old(cart.db)
      // A signed-in clear that fails leaves the cart as it was (the page does not check).
      ensures var ok := sent.Some? && HttpOk(PaymentInit.Classify(gateway).status);
        ok && cart.user.Some? && clearFails ==> cart.items == old(cart.items) && cart.local == old(cart.local)
      // The browser goes to the gateway only with a non-empty URL (an empty string
      // is falsy); every other failure alerts.
      ensures var ok := sent.Some? && HttpOk(PaymentInit.Classify(gateway).status);
        var url := PaymentInit.Classify(gateway).url;
        location == if ok && url.Some? && url.value != "" then url else old(location)
      ensures var ok := sent.Some? && HttpOk(PaymentInit.Classify(gateway).status);
        var url := PaymentInit.Classify(gateway).url;
        Shopper(auth).Some? ==>
          alerts == if ok && url.Some? && url.value != "" then old(alerts) else old(alerts) + [FailureAlert]
    {
      loading := true;
      sent := None;
      var uid := Shopper(auth);
      if uid.None? {
        alerts := alerts + [SignInAlert];
        route := Some("/sign-in");
        loading := false;
        return;
      }
      var subtotal := Cart.TotalPrice(cart.items);
      var shipping := Pricing.Shipping(subtotal);
      var tax := Pricing.Tax(subtotal);
      var total := subtotal + shipping + tax;
      assert total == Pricing.OrderTotal(subtotal);
      var order := NewOrder(newOrderId, uid.value, total, form);
      var inserted := table.InsertOrder(order, orderFails);
      if inserted.Fail? {
        alerts := alerts + [FailureAlert];
        loading := false;
        return;
      }
      var linesInserted := table.InsertLines(OrderLines(order.id, cart.items), linesFail);
      if linesInserted.Fail? {
        alerts := alerts + [FailureAlert];
        loading := false;
        return;
      }
      var body := PaymentInit.InitBody(order.id, total, Some(form));
      sent := Some(body);
      var response, _ := PaymentInit.Handle(Some(body), env, gateway);
      assert response == PaymentInit.Classify(gateway);
      if !HttpOk(response.status) {
        alerts := alerts + [FailureAlert];
        loading := false;
        return;
      }
      var _ := cart.ClearCart(clearFails);
      if response.url.Some? && response.url.value != "" {
        location := response.url;
      } else {
        alerts := alerts + [FailureAlert];
      }
      loading := false;
    }

    /** The page's effect: once not submitting, an empty cart sends the shopper
        back to the cart page (while the cart is empty the page renders nothing). */
    method RedirectIfEmpty()
      modifies this`route
      ensures route == if !loading && cart.items == [] then Some("/cart") else old(route)
    {
      if !loading && |cart.items| == 0 {
        route := Some("/cart");
      }
    }
  }
}
