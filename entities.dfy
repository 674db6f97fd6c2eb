/** The records the pages read by field name, as typed values. A `createdAt`
    date is its timestamp (what `new Date(createdAt)` yields), and a JavaScript
    number that the pages use as money is an exact `real`. */
module Entities {
  import opened Wrappers

  /** An entry of products.json. */
  datatype Product = Product(
    id: int,
    title: string,
    description: string,
    price: real,
    inventory: int,
    images: seq<string>,
    status: string,
    createdAt: int)

  /** One line of an order: the product's `Id` as `productId`, with the title,
      unit price and quantity copied from the cart. */
  datatype LineItem = LineItem(productId: int, title: string, price: real, quantity: int)

  datatype Address = Address(address: string, city: string, state: string, zipCode: string, country: string)

  /** An entry of orders.json. */
  datatype Order = Order(
    id: int,
    customerName: string,
    customerEmail: string,
    items: seq<LineItem>,
    total: real,
    status: string,
    shippingAddress: Address,
    createdAt: int)

  /** An entry of customers.json. `orders` and `totalSpent` may be missing, which
      the customer page reads as no orders and as 0. */
  datatype Customer = Customer(
    id: int,
    name: string,
    email: string,
    orders: Option<seq<int>>,
    totalSpent: Option<real>,
    createdAt: int)

  /** The `Id` of a product, as a key. */
  function ProductId(p: Product): int { p.id }

  /** The `Id` of an order, as a key. */
  function OrderId(o: Order): int { o.id }
}
