/** The payment step: the method picker and the order request built when the
    user places the order. */
module Payment {
  import opened Common
  import opened Money
  import opened Store

  /** 5% tax on the order amount, rounded to the nearest rupee. */
  function Tax(totalAmount: int): (r: int)
    ensures 40 * r - 20 <= 2 * totalAmount < 40 * r + 20
    ensures totalAmount >= 0 ==> 0 <= r <= totalAmount
  {
    FivePercent(totalAmount)
  }

  /** The total the screen shows: the amount plus its tax. */
  function GrandTotal(totalAmount: int): (r: int)
    ensures r - totalAmount == Tax(totalAmount)
    ensures totalAmount >= 0 ==> totalAmount <= r <= 2 * totalAmount
  {
    totalAmount + Tax(totalAmount)
  }

  /** The navigation parameters the step is opened with; either may be missing. */
  datatype RouteParams = RouteParams(selectedItems: Option<seq<Line>>, totalAmount: Option<int>)

  /** `const { selectedItems = [], totalAmount = 0 } = route.params || {}`. */
  function ItemsParam(params: Option<RouteParams>): (r: seq<Line>)
    ensures params.None? ==> r == []
    ensures params.Some? && params.value.selectedItems.Some? ==> r == params.value.selectedItems.value
    ensures params.Some? && params.value.selectedItems.None? ==> r == []
  {
    if params.Some? && params.value.selectedItems.Some? then params.value.selectedItems.value else []
  }

  function AmountParam(params: Option<RouteParams>): (r: int)
    ensures params.None? ==> r == 0
    ensures params.Some? && params.value.totalAmount.Some? ==> r == params.value.totalAmount.value
    ensures params.Some? && params.value.totalAmount.None? ==> r == 0
  {
    if params.Some? && params.value.totalAmount.Some? then params.value.totalAmount.value else 0
  }

  const DefaultMethod: string := "COD"

  /** One line of the order request. */
  datatype OrderLine = OrderLine(product: string, name: string, quantity: int, price: int, image: Option<string>)

  /** `images?.[0]`. */
  function FirstImage(images: seq<string>): (r: Option<string>)
    ensures images == [] <==> r.None?
    ensures images != [] ==> r.value == images[0]
  {
    if images == [] then None else Some(images[0])
  }

  function OrderLineOf(line: Line): OrderLine
  {
    OrderLine(line.product.id, line.product.name, line.quantity, line.product.price, FirstImage(line.product.images))
  }

  /** One order line per selected line, in the same order. */
  function OrderLines(items: seq<Line>): (r: seq<OrderLine>)
    ensures |r| == |items|
    ensures forall i :: 0 <= i < |items| ==>
      r[i].product == items[i].product.id && r[i].name == items[i].product.name &&
      r[i].quantity == items[i].quantity && r[i].price == items[i].product.price &&
      r[i].image == FirstImage(items[i].product.images)
  {
    if items == [] then [] else [OrderLineOf(items[0])] + OrderLines(items[1..])
  }

  /** Mapping the lines commutes with concatenation: a split selection maps
      to the split order lines. */
  lemma {:induction false} OrderLinesAppend(a: seq<Line>, b: seq<Line>)
    ensures OrderLines(a + b) == OrderLines(a) + OrderLines(b)
  {
    if a == [] {
      assert a + b == b;
    } else {
      assert (a + b)[1..] == a[1..] + b;
      OrderLinesAppend(a[1..], b);
    }
  }

  datatype ShippingAddress = ShippingAddress(
    street: string, city: string, state: string, zipCode: string, country: string, isDefault: bool)

  /** `x || fallback` on an optional address field. */
  function FieldOr(field: Option<string>, fallback: string): (r: string)
    ensures Truthy(field) ==> r == field.value
    ensures !Truthy(field) ==> r == fallback
  {
    if Truthy(field) then field.value else fallback
  }

  /** The shipping address sent: each field of the profile address, or its
      placeholder when the field (or the whole address) is missing or empty. */
  function ShippingFor(address: Option<UserAddress>): (r: ShippingAddress)
    ensures r.country == "India" && r.isDefault
    ensures address.None? ==>
      r == ShippingAddress("Default Street", "Your City", "Your State", "000000", "India", true)
    ensures address.Some? ==>
      r.street == FieldOr(address.value.street, "Default Street") &&
      r.city == FieldOr(address.value.city, "Your City") &&
      r.state == FieldOr(address.value.state, "Your State") &&
      r.zipCode == FieldOr(address.value.zipCode, "000000")
  {
    match address
    case None => ShippingAddress("Default Street", "Your City", "Your State", "000000", "India", true)
    case Some(a) =>
      ShippingAddress(FieldOr(a.street, "Default Street"), FieldOr(a.city, "Your City"),
                      FieldOr(a.state, "Your State"), FieldOr(a.zipCode, "000000"), "India", true)
  }

  datatype PaymentInfo = PaymentInfo(id: string, status: string)

  /** Cash on delivery is pending; every other method is recorded as paid. */
  function PaymentInfoFor(paymentMethod: string): (r: PaymentInfo)
    ensures paymentMethod == "COD" <==> r == PaymentInfo("COD-PAYMENT", "Pending")
    ensures paymentMethod != "COD" <==> r == PaymentInfo("ONLINE-PAYMENT", "Paid")
  {
    if paymentMethod == "COD" then PaymentInfo("COD-PAYMENT", "Pending")
    else PaymentInfo("ONLINE-PAYMENT", "Paid")
  }

  datatype OrderPayload = OrderPayload(
    user: string,
    orderItems: seq<OrderLine>,
    shippingAddress: ShippingAddress,
    paymentMethod: string,
    paymentInfo: PaymentInfo,
    itemsPrice: int,
    taxPrice: int,
    shippingPrice: int,
    totalPrice: int)

  /** Why no order request was sent. */
  datatype Refusal = LoginRequired | NoItems

  datatype PlaceOrderOutcome = Refused(reason: Refusal) | Request(payload: OrderPayload)

  /** `handlePlaceOrder` up to the request: the login check comes first, then
      the empty-selection check; otherwise the payload. */
  function PlaceOrder(token: Option<string>, user: Option<User>, items: seq<Line>,
                      totalAmount: int, paymentMethod: string): (r: PlaceOrderOutcome)
    ensures !Truthy(token) || user.None? ==> r == Refused(LoginRequired)
    ensures Truthy(token) && user.Some? && items == [] ==> r == Refused(NoItems)
    ensures Truthy(token) && user.Some? && items != [] ==>
      r.Request? &&
      r.payload.user == user.value.id &&
      r.payload.orderItems == OrderLines(items) &&
      r.payload.shippingAddress == ShippingFor(user.value.address) &&
      r.payload.paymentMethod == paymentMethod &&
      r.payload.paymentInfo == PaymentInfoFor(paymentMethod) &&
      r.payload.itemsPrice == totalAmount &&
      r.payload.taxPrice == Tax(totalAmount) &&
      r.payload.shippingPrice == 0 &&
      r.payload.totalPrice == r.payload.itemsPrice + r.payload.taxPrice
  {
    if !Truthy(token) || user.None? then Refused(LoginRequired)
    else if |items| == 0 then Refused(NoItems)
    else
      var tax := Tax(totalAmount);
      Request(OrderPayload(
        user.value.id,
        OrderLines(items),
        ShippingFor(user.value.address),
        paymentMethod,
        PaymentInfoFor(paymentMethod),
        totalAmount,
        tax,
        0,
        totalAmount + tax))
  }

  /** What the order charges is what the screen showed: the payload's total
      is the displayed grand total, and free shipping adds nothing. */
  lemma ChargedIsShown(token: Option<string>, user: Option<User>, items: seq<Line>,
                       totalAmount: int, paymentMethod: string)
    requires PlaceOrder(token, user, items, totalAmount, paymentMethod).Request?
    ensures PlaceOrder(token, user, items, totalAmount, paymentMethod).payload.totalPrice == GrandTotal(totalAmount)
    ensures |PlaceOrder(token, user, items, totalAmount, paymentMethod).payload.orderItems| == |items|
  {
  }

  /** A request is made exactly when someone is signed in and something was
      selected. */
  lemma RequestIffSignedInWithItems(token: Option<string>, user: Option<User>, items: seq<Line>,
                                    totalAmount: int, paymentMethod: string)
    ensures PlaceOrder(token, user, items, totalAmount, paymentMethod).Request?
      <==> Truthy(token) && user.Some? && items != []
  {
  }

  class PaymentScreen {
    const selectedItems: seq<Line>
    const totalAmount: int
    var selectedPayment: string

    constructor (params: Option<RouteParams>)
      ensures selectedItems == ItemsParam(params) && totalAmount == AmountParam(params)
      ensures selectedPayment == DefaultMethod
    {
      selectedItems := ItemsParam(params);
      totalAmount := AmountParam(params);
      selectedPayment := DefaultMethod;
    }

    /** Tapping one of the method cards (COD, UPI, CARD, NETBANKING). */
    method SelectPayment(paymentMethod: string)
      modifies this`selectedPayment
      ensures selectedPayment == paymentMethod
    {
      selectedPayment := paymentMethod;
    }

    /** The reply to the order request only decides where the user is sent;
        the screen's own state never changes. */
    method HandlePlaceOrder(token: Option<string>, user: Option<User>) returns (r: PlaceOrderOutcome)
      ensures r == PlaceOrder(token, user, selectedItems, totalAmount, selectedPayment)
    {
      r := PlaceOrder(token, user, selectedItems, totalAmount, selectedPayment);
    }
  }
}
