/** The order detail screen: the summary card (id suffix, total, status
    badge), the three-step progress tracker and the item list. */
module OrderDetails {
  import opened Common
  import opened Text
  import opened Store

  /** What the screen reads from the order, each field defaulted when the
      order or the field is missing. */
  datatype OrderView = OrderView(id: string, items: seq<OrderItem>, paymentMethod: string, status: string)

  function StringOr(s: Option<string>, fallback: string): (r: string)
    ensures s.Some? ==> r == s.value
    ensures s.None? ==> r == fallback
  {
    if s.Some? then s.value else fallback
  }

  /** The destructuring with defaults: a missing order, or a missing field,
      yields "" for the texts and no items. */
  function ViewOf(order: Option<Order>): (v: OrderView)
    ensures order.None? ==> v == OrderView("", [], "", "")
    ensures order.Some? ==>
      v.id == StringOr(order.value.id, "") &&
      v.status == StringOr(order.value.status, "") &&
      v.paymentMethod == StringOr(order.value.paymentMethod, "") &&
      (order.value.orderItems.Some? ==> v.items == order.value.orderItems.value) &&
      (order.value.orderItems.None? ==> v.items == [])
  {
    match order
    case None => OrderView("", [], "", "")
    case Some(o) =>
      OrderView(StringOr(o.id, ""),
                if o.orderItems.Some? then o.orderItems.value else [],
                StringOr(o.paymentMethod, ""),
                StringOr(o.status, ""))
  }

  /** What one item contributes: `(sellingPrice || price || 0) * (quantity || 1)`. */
  function ItemAmount(item: OrderItem): (r: int)
    ensures TruthyInt(item.sellingPrice) ==> r == item.sellingPrice.value * OrInt(item.quantity, 1)
    ensures !TruthyInt(item.sellingPrice) ==> r == OrInt(item.price, 0) * OrInt(item.quantity, 1)
  {
    OrInt(item.sellingPrice, OrInt(item.price, 0)) * OrInt(item.quantity, 1)
  }

  /** Prices and quantities as the server sends them: never negative. */
  predicate NonNegativeItem(item: OrderItem)
  {
    (item.sellingPrice.Some? ==> item.sellingPrice.value >= 0) &&
    (item.price.Some? ==> item.price.value >= 0) &&
    (item.quantity.Some? ==> item.quantity.value >= 0)
  }

  /** The `reduce` over the items, from the left, starting at 0. */
  function Total(items: seq<OrderItem>): (r: int)
    ensures items == [] ==> r == 0
    ensures (forall i :: 0 <= i < |items| ==> NonNegativeItem(items[i])) ==> r >= 0
  {
    if items == [] then 0 else Total(items[..|items| - 1]) + ItemAmount(items[|items| - 1])
  }

  /** The total of a concatenation is the sum of the totals, so every item
      contributes its own amount exactly once. */
  lemma {:induction false} TotalAppend(a: seq<OrderItem>, b: seq<OrderItem>)
    ensures Total(a + b) == Total(a) + Total(b)
    decreases |b|
  {
    if b == [] {
      assert a + b == a;
    } else {
      assert (a + b)[..|a + b| - 1] == a + b[..|b| - 1];
      TotalAppend(a, b[..|b| - 1]);
    }
  }

  /** An item with no price at all and no quantity adds nothing; one with a
      price and no quantity counts once. */
  lemma ItemAmountFallbacks(name: Option<string>, price: int)
    ensures ItemAmount(OrderItem(name, None, None, None, None)) == 0
    ensures ItemAmount(OrderItem(name, Some(price), None, None, None)) == price
  {
  }

  const StatusSteps: seq<string> := ["Processing", "Shipped", "Delivered"]

  /** `s.indexOf(x)`: the first position of `x`, or -1. */
  function IndexOf(s: seq<string>, x: string): (r: int)
    ensures -1 <= r < |s|
    ensures r == -1 <==> x !in s
    ensures r >= 0 ==> s[r] == x && forall j :: 0 <= j < r ==> s[j] != x
  {
    if s == [] then -1
    else if s[0] == x then 0
    else
      var k := IndexOf(s[1..], x);
      assert x in s[1..] <==> x in s;
      if k == -1 then -1 else k + 1
  }

  /** How far along the tracker the order is: the step naming its status,
      or -1 for any other status. */
  function ActiveStep(status: string): (r: int)
    ensures -1 <= r < |StatusSteps|
    ensures r >= 0 ==> StatusSteps[r] == status
    ensures r == -1 <==> status !in StatusSteps
  {
    IndexOf(StatusSteps, status)
  }

  /** The circle and the label of step `index` are drawn active. */
  predicate StepReached(status: string, index: int)
  {
    index <= ActiveStep(status)
  }

  /** The circle of step `index` carries a checkmark. */
  predicate StepDone(status: string, index: int)
  {
    index < ActiveStep(status)
  }

  /** A connector follows every step but the last. */
  predicate HasConnector(index: int)
  {
    index < |StatusSteps| - 1
  }

  /** The connector after step `index` is drawn active. */
  predicate ConnectorActive(status: string, index: int)
  {
    HasConnector(index) && index < ActiveStep(status)
  }

  /** An order whose status is step `k` shows steps 0..k reached, the steps
      before `k` ticked, and the connectors before `k` active. */
  lemma ProgressAtStep(k: int, index: int)
    requires 0 <= k < |StatusSteps| && 0 <= index < |StatusSteps|
    ensures StepReached(StatusSteps[k], index) <==> index <= k
    ensures StepDone(StatusSteps[k], index) <==> index < k
    ensures ConnectorActive(StatusSteps[k], index) <==> index < k
  {
  }

  /** Any other status (cancelled, empty, unknown) shows no progress at all. */
  lemma NoProgressForOtherStatus(status: string, index: int)
    requires status !in StatusSteps && 0 <= index
    ensures !StepReached(status, index) && !StepDone(status, index) && !ConnectorActive(status, index)
  {
  }

  /** A ticked step is always also reached, and two steps carry connectors. */
  lemma DoneImpliesReached(status: string, index: int)
    ensures StepDone(status, index) ==> StepReached(status, index)
    ensures HasConnector(0) && HasConnector(1) && !HasConnector(2)
  {
  }

  /** The status badge colour. */
  function StatusColor(s: string): (r: string)
    ensures s == "Processing" ==> r == "#F57C00"
    ensures s == "Shipped" ==> r == "#1976D2"
    ensures s == "Delivered" ==> r == "#388E3C"
    ensures s != "Processing" && s != "Shipped" && s != "Delivered" ==> r == "#757575"
  {
    if s == "Processing" then "#F57C00"
    else if s == "Shipped" then "#1976D2"
    else if s == "Delivered" then "#388E3C"
    else "#757575"
  }

  /** Each tracked status has its own colour, and none of them is the grey of
      the others. */
  lemma StatusColorsDistinct(s: string, t: string)
    requires s in StatusSteps && t in StatusSteps && s != t
    ensures StatusColor(s) != StatusColor(t)
    ensures StatusColor(s) != "#757575"
  {
  }

  /** The item-name truncation: longer than `n` characters becomes the first
      `n - 1` characters and "...", otherwise the name is kept; a missing
      name stays missing. */
  function Truncate(str: Option<string>, n: nat): (r: Option<string>)
    ensures str.None? ==> r.None?
    ensures str.Some? && |str.value| <= n ==> r == str
    ensures str.Some? && |str.value| > n ==>
      r.Some? && r.value == FirstN(str.value, if n == 0 then 0 else n - 1) + "..."
  {
    match str
    case None => None
    case Some(s) =>
      if |s| > n then Some(FirstN(s, if n == 0 then 0 else n - 1) + "...") else str
  }

  /** A truncated name is exactly `n + 2` characters long (for n >= 1) and
      starts with the name's own beginning. */
  lemma TruncateLength(s: string, n: nat)
    requires n >= 1 && |s| > n
    ensures |Truncate(Some(s), n).value| == n + 2
    ensures Truncate(Some(s), n).value[..n - 1] == s[..n - 1]
  {
  }

  /** The order number shown: the last 8 characters of the id. */
  function DisplayId(view: OrderView): (r: string)
    ensures |view.id| <= 8 ==> r == view.id
    ensures |view.id| > 8 ==> |r| == 8 && r == view.id[|view.id| - 8..]
  {
    LastN(view.id, 8)
  }
}
