// Order pricing shared by the cart page and the checkout page, and the
// derived values the cart page shows for each line.

module Pricing {
  import opened Wrappers
  import opened Domain
  import Cart

  /** Subtotals at or above this ship for free. */
  const FreeShippingFrom: real := 100.0
  /** Flat shipping fee below the threshold. */
  const FlatShipping: real := 10.0
  /** Tax is this fraction of the subtotal. */
  const TaxRate: real := 0.1

  /** The checkout page's shipping charge. */
  function Shipping(subtotal: real): (r: real)
    ensures r == 0.0 <==> subtotal >= 100.0
    ensures r != 0.0 ==> r == 10.0
  {
    if subtotal >= FreeShippingFrom then 0.0 else FlatShipping
  }

  /** The checkout page's tax: ten percent of the subtotal. */
  function Tax(subtotal: real): (r: real)
    ensures 10.0 * r == subtotal
  {
    subtotal * TaxRate
  }

  /** The amount the checkout page charges: subtotal, shipping and tax. */
  function OrderTotal(subtotal: real): (r: real)
    ensures subtotal >= 100.0 ==> 10.0 * r == 11.0 * subtotal
    ensures subtotal < 100.0 ==> 10.0 * r == 11.0 * subtotal + 100.0
    ensures subtotal >= 0.0 ==> r >= subtotal
  {
    subtotal + Shipping(subtotal) + Tax(subtotal)
  }

  /** The cart page's summary total, written there as its own expression;
      it always equals the amount the checkout page charges. */
  function SummaryTotal(totalPrice: real): (r: real)
    ensures r == OrderTotal(totalPrice)
  {
    totalPrice + (if totalPrice >= 100.0 then 0.0 else 10.0) + totalPrice * 0.1
  }

  /** The shipping label of the cart summary. */
  function ShippingLabel(totalPrice: real): (r: string)
    ensures r == "FREE" <==> Shipping(totalPrice) == 0.0
    ensures r != "FREE" ==> r == "$10.00"
  {
    if totalPrice >= 100.0 then "FREE" else "$10.00"
  }

  /** Whether the free-shipping banner is shown. */
  function ShowsFreeShippingBanner(totalPrice: real): (r: bool)
    ensures r <==> Shipping(totalPrice) == 0.0
  {
    totalPrice >= 100.0
  }

  /** Whether the cart page shows its empty state instead of the lines. */
  function ShowsEmptyState(items: seq<CartItem>): (r: bool)
    ensures r ==> Cart.TotalItems(items) == 0 && Cart.TotalPrice(items) == 0.0
    ensures r <==> items == []
  {
    |items| == 0
  }

  /** The stock figure the plus button compares against: a missing stock,
      like a stock of 0, reads as 0. */
  function StockOrZero(item: CartItem): (r: int)
    ensures item.product.Some? && item.product.value.stock.Some? ==> r == item.product.value.stock.value
    ensures item.product.None? || item.product.value.stock.None? ==> r == 0
  {
    match item.product
    case Some(p) => (match p.stock case Some(s) => s case None => 0)
    case None => 0
  }

  /** Whether the plus button of a line is disabled. */
  function PlusDisabled(item: CartItem): (r: bool)
    ensures item.product.None? ==> (r <==> item.quantity >= 0)
    ensures item.product.Some? && item.product.value.stock.Some? ==>
      (r <==> item.quantity >= item.product.value.stock.value)
    ensures item.product.Some? && item.product.value.stock.None? ==> (r <==> item.quantity >= 0)
  {
    item.quantity >= StockOrZero(item)
  }

  /** The quantity the minus button asks for. */
  function MinusTarget(item: CartItem): int {
    item.quantity - 1
  }

  /** The quantity the plus button asks for. */
  function PlusTarget(item: CartItem): int {
    item.quantity + 1
  }

  /** Pressing minus on a line of quantity 1 removes that line. */
  lemma MinusOnSingleRemoves(items: seq<CartItem>, k: nat)
    requires k < |items| && items[k].quantity == 1 && Cart.UniqueIds(items)
    ensures var r := Cart.UpdateLines(items, items[k].id, MinusTarget(items[k]));
      r == Cart.WithoutItem(items, items[k].id) && r == items[..k] + items[k + 1..]
  {
    Cart.RemoveExactlyThatLine(items, k);
  }

  /** Pressing plus on a line raises only that line's quantity by one, and
      the cart's item count by one. */
  lemma PlusRaisesByOne(items: seq<CartItem>, k: nat)
    requires k < |items| && items[k].quantity >= 0 && Cart.UniqueIds(items)
    ensures var r := Cart.UpdateLines(items, items[k].id, PlusTarget(items[k]));
      |r| == |items| && r[k].quantity == items[k].quantity + 1 &&
      Cart.TotalItems(r) == Cart.TotalItems(items) + 1
  {
    Cart.UpdateMovesTotals(items, k, PlusTarget(items[k]));
  }

  /** The total shown beside a line, its price (or 0) times its quantity;
      over the cart these add up to the subtotal. */
  lemma {:induction false} LineTotalsSumToSubtotal(items: seq<CartItem>)
    ensures Cart.TotalPrice(items) == Sum(seq(|items|, i requires 0 <= i < |items| => Cart.LineTotal(items[i])))
  {
    if items != [] {
      var n := |items| - 1;
      LineTotalsSumToSubtotal(items[..n]);
      var all := seq(|items|, i requires 0 <= i < |items| => Cart.LineTotal(items[i]));
      var front := seq(n, i requires 0 <= i < n => Cart.LineTotal(items[..n][i]));
      assert all[..n] == front;
    }
  }

  /** The sum of a sequence of amounts, folded from the left. */
  function Sum(amounts: seq<real>): real {
    if amounts == [] then 0.0 else Sum(amounts[..|amounts| - 1]) + amounts[|amounts| - 1]
  }

  /** A cart of two units at 40.00 pays 10.00 shipping and 8.00 tax: 98.00. */
  lemma SmallCartTotal(p: Product)
    requires p.price == 40.0
    ensures var items := [Cart.LocalLine(p, 2, "line")];
      Cart.TotalPrice(items) == 80.0 && OrderTotal(Cart.TotalPrice(items)) == 98.0
  {
    var items := [Cart.LocalLine(p, 2, "line")];
    assert items[..0] == [];
  }

  /** A cart of two units at 60.00 ships for free and pays 12.00 tax: 132.00. */
  lemma LargeCartTotal(p: Product)
    requires p.price == 60.0
    ensures var items := [Cart.LocalLine(p, 2, "line")];
      Cart.TotalPrice(items) == 120.0 && OrderTotal(Cart.TotalPrice(items)) == 132.0
  {
    var items := [Cart.LocalLine(p, 2, "line")];
    assert items[..0] == [];
  }
}
