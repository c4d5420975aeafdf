/** The records of the storefront's database (products, cart lines, orders and
    order lines), with money as exact reals. */
module Domain {
  import opened Wrappers

  type ProductId = string
  type ItemId = string
  type UserId = string
  type OrderId = string

  datatype Product = Product(
    id: ProductId,
    name: string,
    description: Option<string>,
    price: real,
    imageUrl: Option<string>,
    stock: Option<int>)

  /** One cart line; `product` is the product row joined in by the query, absent
      when the product no longer exists. */
  datatype CartItem = CartItem(
    id: ItemId,
    userId: UserId,
    productId: ProductId,
    quantity: int,
    product: Option<Product>)

  /** Order status as the payment routes use it. `Paid` is written by the success
      callback although the declared union (`DeclaredStatus`) has no such value. */
  datatype OrderStatus = Pending | Processing | Shipped | Delivered | Cancelled | Paid

  /** The status union as declared for the order record. */
  datatype DeclaredStatus = DPending | DProcessing | DShipped | DDelivered | DCancelled

  /** Reads a stored status back through the declared union. */
  function AsDeclared(s: OrderStatus): (r: Option<DeclaredStatus>)
    ensures r.None? <==> s == Paid
  {
    match s
    case Pending => Some(DPending)
    case Processing => Some(DProcessing)
    case Shipped => Some(DShipped)
    case Delivered => Some(DDelivered)
    case Cancelled => Some(DCancelled)
    case Paid => None
  }

  datatype Order = Order(
    id: OrderId,
    userId: UserId,
    totalAmount: real,
    status: OrderStatus,
    shippingAddress: string,
    shippingCity: string,
    shippingPostalCode: string,
    shippingCountry: string)

  /** An order line: a snapshot of the cart line's product, quantity and unit price. */
  datatype OrderItem = OrderItem(
    orderId: OrderId,
    productId: ProductId,
    quantity: int,
    price: real)
}
