/** The order history: the fetched orders, newest first, each as a card with
    a status colour and a total, opening a screen chosen by its status. */
module Orders {
  import opened Common
  import opened Store

  /** The sort key: `createdAt || orderDate || 0`. */
  function SortKey(o: Order): (r: int)
    ensures TruthyInt(o.createdAt) ==> r == o.createdAt.value
    ensures !TruthyInt(o.createdAt) && TruthyInt(o.orderDate) ==> r == o.orderDate.value
    ensures !TruthyInt(o.createdAt) && !TruthyInt(o.orderDate) ==> r == 0
  {
    OrInt(o.createdAt, OrInt(o.orderDate, 0))
  }

  /** No order is newer than one listed before it. */
  predicate NewestFirst(s: seq<Order>)
  {
    forall i, j :: 0 <= i < j < |s| ==> SortKey(s[i]) >= SortKey(s[j])
  }

  /** The comparator sort on the fetched array, in place: afterwards the
      array holds the same orders, newest first. */
  method SortNewestFirst(a: array<Order>)
    modifies a
    ensures NewestFirst(a[..])
    ensures multiset(a[..]) == multiset(old(a[..]))
  {
    var i := 0;
    while i < a.Length
      invariant 0 <= i <= a.Length
      invariant NewestFirst(a[..i])
      invariant multiset(a[..]) == multiset(old(a[..]))
    {
      SinkInto(a, i);
      i := i + 1;
    }
    assert a[..a.Length] == a[..];
  }

  /** One insertion step: the order at `i` moves down past every older order
      before it, so that the first `i + 1` orders are newest first. */
  method SinkInto(a: array<Order>, i: int)
    requires 0 <= i < a.Length
    requires NewestFirst(a[..i])
    modifies a
    ensures NewestFirst(a[..i + 1])
    ensures multiset(a[..]) == multiset(old(a[..]))
  {
    var j := i;
    while j > 0 && SortKey(a[j - 1]) < SortKey(a[j])
      invariant 0 <= j <= i
      invariant multiset(a[..]) == multiset(old(a[..]))
      invariant SortedAround(a[..i + 1], j)
    {
      ghost var before := a[..i + 1];
      SwapDown(a, j);
      assert a[..i + 1] == before[j - 1 := before[j]][j := before[j - 1]];
      SortedAroundStep(before, j);
      j := j - 1;
    }
    SortedAroundDone(a[..i + 1], j);
  }

  /** The first orders are newest first except for the one at `j`, which is
      newer than every order after it. */
  predicate SortedAround(s: seq<Order>, j: int)
  {
    0 <= j < |s| &&
    (forall p, q :: 0 <= p < q < |s| && p != j && q != j ==> SortKey(s[p]) >= SortKey(s[q])) &&
    (forall q :: j < q < |s| ==> SortKey(s[j]) > SortKey(s[q]))
  }

  /** Exchanges the orders at `j - 1` and `j`. */
  method SwapDown(a: array<Order>, j: int)
    requires 0 < j < a.Length
    modifies a
    ensures a[..] == old(a[..])[j - 1 := old(a[j])][j := old(a[j - 1])]
    ensures multiset(a[..]) == multiset(old(a[..]))
  {
    a[j - 1], a[j] := a[j], a[j - 1];
  }

  /** Exchanging the order at `j` with an older one just before it moves
      the out-of-place order one position down. */
  lemma SortedAroundStep(s: seq<Order>, j: int)
    requires SortedAround(s, j) && j > 0 && SortKey(s[j - 1]) < SortKey(s[j])
    ensures SortedAround(s[j - 1 := s[j]][j := s[j - 1]], j - 1)
  {
  }

  /** Once the order at `j` is no newer than the one before it, the whole
      prefix is newest first. */
  lemma SortedAroundDone(s: seq<Order>, j: int)
    requires SortedAround(s, j)
    requires j == 0 || SortKey(s[j - 1]) >= SortKey(s[j])
    ensures NewestFirst(s)
  {
    forall p, q | 0 <= p < q < |s|
      ensures SortKey(s[p]) >= SortKey(s[q])
    {
      if q == j && p < j - 1 {
        assert SortKey(s[p]) >= SortKey(s[j - 1]);
      }
    }
  }

  /** The total of one card's items: `(price || 0) * (quantity || 1)` summed
      from the left. */
  function ItemsTotal(items: seq<OrderItem>): (r: int)
    ensures items == [] ==> r == 0
  {
    if items == [] then 0
    else ItemsTotal(items[..|items| - 1]) + OrInt(items[|items| - 1].price, 0) * OrInt(items[|items| - 1].quantity, 1)
  }

  lemma {:induction false} ItemsTotalAppend(a: seq<OrderItem>, b: seq<OrderItem>)
    ensures ItemsTotal(a + b) == ItemsTotal(a) + ItemsTotal(b)
    decreases |b|
  {
    if b == [] {
      assert a + b == a;
    } else {
      assert (a + b)[..|a + b| - 1] == a + b[..|b| - 1];
      ItemsTotalAppend(a, b[..|b| - 1]);
    }
  }

  /** The card total: the order's own `totalAmount` when it is truthy,
      otherwise the sum over its items. An order with neither a total nor an
      item list makes the `reduce` throw; that is `None`. */
  function CardTotal(o: Order): (r: Option<int>)
    ensures TruthyInt(o.totalAmount) ==> r == Some(o.totalAmount.value)
    ensures !TruthyInt(o.totalAmount) && o.orderItems.Some? ==> r == Some(ItemsTotal(o.orderItems.value))
    ensures !TruthyInt(o.totalAmount) && o.orderItems.None? ==> r.None?
  {
    if TruthyInt(o.totalAmount) then Some(o.totalAmount.value)
    else if o.orderItems.Some? then Some(ItemsTotal(o.orderItems.value))
    else None
  }

  /** A stored total of 0 is falsy, so it is recomputed from the items. */
  lemma ZeroTotalFallsBack(o: Order, items: seq<OrderItem>)
    requires o.totalAmount == Some(0) && o.orderItems == Some(items)
    ensures CardTotal(o) == Some(ItemsTotal(items))
  {
  }

  /** The status text colour on a card. */
  function StatusStyle(status: Option<string>): (r: string)
    ensures status == Some("Delivered") ==> r == "#2e7d32"
    ensures status == Some("Processing") ==> r == "#c4a314"
    ensures status == Some("Cancelled") ==> r == "#F44336"
    ensures status != Some("Delivered") && status != Some("Processing") && status != Some("Cancelled") ==> r == "#777"
  {
    match status
    case Some(s) =>
      if s == "Delivered" then "#2e7d32"
      else if s == "Processing" then "#c4a314"
      else if s == "Cancelled" then "#F44336"
      else "#777"
    case None => "#777"
  }

  /** The three styled statuses are told apart from each other and from the
      default. */
  lemma StatusStylesDistinct()
    ensures StatusStyle(Some("Delivered")) != StatusStyle(Some("Processing"))
    ensures StatusStyle(Some("Delivered")) != StatusStyle(Some("Cancelled"))
    ensures StatusStyle(Some("Processing")) != StatusStyle(Some("Cancelled"))
    ensures forall s :: StatusStyle(Some(s)) == "#777" <==> s != "Delivered" && s != "Processing" && s != "Cancelled"
  {
  }

  datatype Destination = OrderDone | OrderDetails

  /** Tapping a card: delivered orders open the completion screen, every
      other order the detail screen. */
  function Route(o: Order): (r: Destination)
    ensures r == OrderDone <==> o.status == Some("Delivered")
  {
    if o.status == Some("Delivered") then OrderDone else OrderDetails
  }

  class OrdersScreen {
    var orders: seq<Order>
    var loading: bool
    var error: Option<string>

    constructor ()
      ensures orders == [] && loading && error.None?
    {
      orders, loading, error := [], true, None;
    }

    /** The fetch on mount. Without a token nothing is requested and the
        spinner stays on. A success stores the fetched orders newest first; a
        failure reply stores its message (or a fallback) and an exception a
        fixed message; the spinner is off after any reply. */
    method FetchOrders(token: Option<string>, reply: Reply<seq<Order>>)
      modifies this`orders, this`loading, this`error
      ensures !Truthy(token) ==> orders == old(orders) && loading == old(loading) && error == old(error)
      ensures Truthy(token) ==> !loading
      ensures Truthy(token) && reply.Success? ==>
        NewestFirst(orders) && multiset(orders) == multiset(reply.data) && error == old(error)
      ensures Truthy(token) && reply.Failure? ==>
        orders == old(orders) && error == Some(if Truthy(reply.message) then reply.message.value else "Failed to fetch orders")
      ensures Truthy(token) && reply.Thrown? ==>
        orders == old(orders) && error == Some("Something went wrong while fetching orders.")
    {
      if !Truthy(token) {
        return;
      }
      match reply {
        case Success(data) =>
          var a := new Order[|data|](i requires 0 <= i < |data| => data[i]);
          assert a[..] == data;
          SortNewestFirst(a);
          orders := a[..];
        case Failure(message) =>
          error := Some(if Truthy(message) then message.value else "Failed to fetch orders");
        case Thrown =>
          error := Some("Something went wrong while fetching orders.");
      }
      loading := false;
    }
  }
}
