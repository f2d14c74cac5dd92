/** The records the screens receive from the backend or pass to each other
    through navigation parameters. Fields the source reads with a fallback
    (`??`, `||`, a default in a destructuring) are optional here; fields it
    reads unguarded are plain values. */
module Store {
  import opened Common

  /** A catalogue product as the listing, detail and cart payloads carry it. */
  datatype Product = Product(
    id: string,
    name: string,
    price: int,
    sellingPrice: Option<int>,
    originalPrice: Option<int>,
    mrp: Option<int>,
    images: seq<string>)

  /** One entry of the `selectedItems` navigation parameter: a product and a
      quantity (a cart line or the single Buy Now line). */
  datatype Line = Line(product: Product, quantity: int)

  /** The body of an add-to-cart request. */
  datatype AddToCartRequest = AddToCartRequest(productId: string, quantity: int)

  /** The part of the signed-in user that checkout reads. */
  datatype UserAddress = UserAddress(
    street: Option<string>,
    city: Option<string>,
    state: Option<string>,
    zipCode: Option<string>)

  datatype User = User(id: string, address: Option<UserAddress>)

  /** What a successful OTP verification returns: the session token and the
      signed-in user. */
  datatype Session = Session(token: string, user: User)

  /** One line of a placed order, as the order endpoints return it. */
  datatype OrderItem = OrderItem(
    name: Option<string>,
    price: Option<int>,
    sellingPrice: Option<int>,
    quantity: Option<int>,
    image: Option<string>)

  /** A placed order, as the order endpoints return it; timestamps are
      integers. */
  datatype Order = Order(
    id: Option<string>,
    orderItems: Option<seq<OrderItem>>,
    status: Option<string>,
    paymentMethod: Option<string>,
    createdAt: Option<int>,
    orderDate: Option<int>,
    totalAmount: Option<int>)
}
