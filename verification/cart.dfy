/** The cart screen: the fetched line items, the ids the user has ticked,
    quantity steppers, removal, the coupon box and the price summary. */
module Cart {
  import opened Common
  import opened Text
  import opened Money
  import opened Store

  /** A cart line as the cart endpoint returns it. */
  datatype CartItem = CartItem(id: string, product: Product, quantity: int)

  function ItemId(item: CartItem): string
  {
    item.id
  }

  function SameId(id: string): string
  {
    id
  }

  /** The line total a cart item contributes: price times quantity. */
  function Amount(item: CartItem): int
  {
    item.product.price * item.quantity
  }

  /** No two lines share an id (the server keys cart lines by id). */
  predicate DistinctIds(cart: seq<CartItem>)
  {
    forall i, j :: 0 <= i < j < |cart| ==> cart[i].id != cart[j].id
  }

  /** Every line holds at least one unit. */
  predicate QuantitiesPositive(cart: seq<CartItem>)
  {
    forall i :: 0 <= i < |cart| ==> cart[i].quantity >= 1
  }

  const DeliveryCharge: int := 0
  const TenPercentCap: int := 100
  const Save50Discount: int := 50

  // ---------------------------------------------------------------------------
  // Selection
  // ---------------------------------------------------------------------------

  /** `items.map(item => item._id)`: the selection made on load. */
  function Ids(items: seq<CartItem>): (r: seq<string>)
    ensures |r| == |items|
    ensures forall i :: 0 <= i < |items| ==> r[i] == items[i].id
  {
    if items == [] then [] else [items[0].id] + Ids(items[1..])
  }

  /** `toggleSelect`: a present id is removed (every occurrence), an absent
      one is appended at the end. */
  function Toggled(selected: seq<string>, id: string): (r: seq<string>)
    ensures id in selected ==> id !in r && forall x :: x in r <==> x in selected && x != id
    ensures id !in selected ==> r == selected + [id]
  {
    if id in selected then RemoveWhere(selected, SameId, id) else selected + [id]
  }

  /** Toggling the same id twice restores whether it is selected; when it
      was not selected, the selection list itself comes back unchanged. */
  lemma ToggleTwice(selected: seq<string>, id: string)
    ensures (id in Toggled(Toggled(selected, id), id)) == (id in selected)
    ensures id !in selected ==> Toggled(Toggled(selected, id), id) == selected
  {
    if id !in selected {
      RemoveWhereAppend(selected, [id], SameId, id);
    }
  }

  /** Every selected id names a line of the cart: the screen renders one
      checkbox per line, so only ids of lines can be toggled on. */
  predicate SelectionWithin(cart: seq<CartItem>, selected: seq<string>)
  {
    forall x :: x in selected ==> exists i :: 0 <= i < |cart| && cart[i].id == x
  }

  /** Loading selects exactly the ids of the loaded lines. */
  lemma LoadedSelectionWithin(cart: seq<CartItem>)
    ensures SelectionWithin(cart, Ids(cart))
  {
    forall x | x in Ids(cart) ensures exists i :: 0 <= i < |cart| && cart[i].id == x {
      var k :| 0 <= k < |Ids(cart)| && Ids(cart)[k] == x;
      assert cart[k].id == x;
    }
  }

  /** Toggling the id of a line keeps the selection within the cart. */
  lemma ToggleKeepsSelectionWithin(cart: seq<CartItem>, selected: seq<string>, id: string)
    requires SelectionWithin(cart, selected)
    requires exists i :: 0 <= i < |cart| && cart[i].id == id
    ensures SelectionWithin(cart, Toggled(selected, id))
  {
  }

  /** `cart.filter(item => selectedItems.includes(item._id))`. */
  function SelectedItems(cart: seq<CartItem>, selected: seq<string>): (r: seq<CartItem>)
    ensures |r| <= |cart|
    ensures forall x :: x in r <==> x in cart && x.id in selected
    ensures selected == [] ==> r == []
  {
    if cart == [] then []
    else (if cart[0].id in selected then [cart[0]] else []) + SelectedItems(cart[1..], selected)
  }

  /** When every line is selected (as right after loading), the filter keeps
      the whole cart, in order. */
  lemma {:induction false} SelectAllKeepsCart(cart: seq<CartItem>, selected: seq<string>)
    requires forall i :: 0 <= i < |cart| ==> cart[i].id in selected
    ensures SelectedItems(cart, selected) == cart
  {
    if cart != [] {
      SelectAllKeepsCart(cart[1..], selected);
    }
  }

  /** The filter works line by line, so the selected lines of a joined cart
      are those of each part, in cart order. */
  lemma {:induction false} SelectedItemsAppend(a: seq<CartItem>, b: seq<CartItem>, selected: seq<string>)
    ensures SelectedItems(a + b, selected) == SelectedItems(a, selected) + SelectedItems(b, selected)
  {
    if a == [] {
      assert a + b == b;
    } else {
      assert (a + b)[1..] == a[1..] + b;
      SelectedItemsAppend(a[1..], b, selected);
    }
  }

  // ---------------------------------------------------------------------------
  // Quantity steppers
  // ---------------------------------------------------------------------------

  /** `increaseQty`: every line with that id gains one unit; nothing else
      changes. */
  function Incremented(cart: seq<CartItem>, id: string): (r: seq<CartItem>)
    ensures |r| == |cart|
    ensures forall i :: 0 <= i < |cart| ==>
      r[i].id == cart[i].id && r[i].product == cart[i].product
      && r[i].quantity == cart[i].quantity + (if cart[i].id == id then 1 else 0)
  {
    if cart == [] then []
    else
      var head := if cart[0].id == id then cart[0].(quantity := cart[0].quantity + 1) else cart[0];
      [head] + Incremented(cart[1..], id)
  }

  /** `decreaseQty`: a line with that id loses one unit only when it holds
      more than one; nothing else changes. */
  function Decremented(cart: seq<CartItem>, id: string): (r: seq<CartItem>)
    ensures |r| == |cart|
    ensures forall i :: 0 <= i < |cart| ==>
      r[i].id == cart[i].id && r[i].product == cart[i].product
      && r[i].quantity == cart[i].quantity - (if cart[i].id == id && cart[i].quantity > 1 then 1 else 0)
    ensures QuantitiesPositive(cart) ==> QuantitiesPositive(r)
  {
    if cart == [] then []
    else
      var head := if cart[0].id == id && cart[0].quantity > 1 then cart[0].(quantity := cart[0].quantity - 1) else cart[0];
      [head] + Decremented(cart[1..], id)
  }

  /** The steppers change quantities only, so a selection within the cart
      stays within it. */
  lemma SteppersKeepSelectionWithin(cart: seq<CartItem>, selected: seq<string>, id: string)
    requires SelectionWithin(cart, selected)
    ensures SelectionWithin(Incremented(cart, id), selected)
    ensures SelectionWithin(Decremented(cart, id), selected)
  {
  }

  /** Removing a line and its id from the selection keeps the selection
      within the cart. */
  lemma RemoveKeepsSelectionWithin(cart: seq<CartItem>, selected: seq<string>, id: string)
    requires SelectionWithin(cart, selected)
    ensures SelectionWithin(RemoveWhere(cart, ItemId, id), RemoveWhere(selected, SameId, id))
  {
    var c := RemoveWhere(cart, ItemId, id);
    forall x | x in RemoveWhere(selected, SameId, id) ensures exists j :: 0 <= j < |c| && c[j].id == x {
      var i :| 0 <= i < |cart| && cart[i].id == x;
      assert cart[i] in c;
      var j :| 0 <= j < |c| && c[j] == cart[i];
    }
  }

  /** Decreasing right after increasing restores the cart. */
  lemma DecreaseUndoesIncrease(cart: seq<CartItem>, id: string)
    requires QuantitiesPositive(cart)
    ensures Decremented(Incremented(cart, id), id) == cart
  {
    var r := Decremented(Incremented(cart, id), id);
    forall i | 0 <= i < |cart| ensures r[i] == cart[i] {
      assert r[i].quantity == cart[i].quantity;
    }
  }

  /** At quantity 1 the minus button does nothing. */
  lemma DecreaseAtOneIsNoOp(cart: seq<CartItem>, id: string)
    requires forall i :: 0 <= i < |cart| && cart[i].id == id ==> cart[i].quantity <= 1
    ensures Decremented(cart, id) == cart
  {
    var r := Decremented(cart, id);
    forall i | 0 <= i < |cart| ensures r[i] == cart[i] {
      assert r[i].quantity == cart[i].quantity;
    }
  }

  // ---------------------------------------------------------------------------
  // Pricing
  // ---------------------------------------------------------------------------

  /** `items.reduce((total, item) => total + item.product.price * item.quantity, 0)`,
      folded from the left as `reduce` does. */
  function LineTotal(items: seq<CartItem>): (r: int)
    ensures (forall i :: 0 <= i < |items| ==> items[i].product.price >= 0 && items[i].quantity >= 0) ==> r >= 0
  {
    if items == [] then 0 else LineTotal(items[..|items| - 1]) + Amount(items[|items| - 1])
  }

  lemma {:induction false} LineTotalAppend(a: seq<CartItem>, b: seq<CartItem>)
    ensures LineTotal(a + b) == LineTotal(a) + LineTotal(b)
  {
    if b != [] {
      assert (a + b)[..|a + b| - 1] == a + b[..|b| - 1];
      LineTotalAppend(a, b[..|b| - 1]);
    } else {
      assert a + b == a;
    }
  }

  lemma LineTotalCons(x: CartItem, rest: seq<CartItem>)
    ensures LineTotal([x] + rest) == Amount(x) + LineTotal(rest)
  {
    LineTotalAppend([x], rest);
    assert [x][..0] == [];
  }

  /** `getSubtotal`: the price of the selected lines only. */
  function SelectedSubtotal(cart: seq<CartItem>, selected: seq<string>): (r: int)
  {
    LineTotal(SelectedItems(cart, selected))
  }

  /** With nothing selected the subtotal is 0. */
  lemma SubtotalOfEmptySelection(cart: seq<CartItem>)
    ensures SelectedSubtotal(cart, []) == 0
  {
  }

  /** Subtotal splits at the head of the cart. */
  lemma SubtotalCons(cart: seq<CartItem>, selected: seq<string>)
    requires cart != []
    ensures SelectedSubtotal(cart, selected)
         == (if cart[0].id in selected then Amount(cart[0]) else 0) + SelectedSubtotal(cart[1..], selected)
  {
    var rest := SelectedItems(cart[1..], selected);
    if cart[0].id in selected {
      assert SelectedItems(cart, selected) == [cart[0]] + rest;
      LineTotalCons(cart[0], rest);
    } else {
      assert SelectedItems(cart, selected) == [] + rest;
      assert [] + rest == rest;
    }
  }

  /** The price of the line with that id, or 0 when there is none. */
  function PriceOf(cart: seq<CartItem>, id: string): int
  {
    if cart == [] then 0 else if cart[0].id == id then cart[0].product.price else PriceOf(cart[1..], id)
  }

  /** The line total of the line with that id, or 0 when there is none. */
  function AmountOf(cart: seq<CartItem>, id: string): int
  {
    if cart == [] then 0 else if cart[0].id == id then Amount(cart[0]) else AmountOf(cart[1..], id)
  }

  /** The tail of a cart with distinct ids has distinct ids, none of them
      the head's. */
  lemma DistinctTail(cart: seq<CartItem>)
    requires DistinctIds(cart) && cart != []
    ensures DistinctIds(cart[1..])
    ensures forall i :: 0 <= i < |cart[1..]| ==> cart[1..][i].id != cart[0].id
  {
    forall i, j | 0 <= i < j < |cart[1..]| ensures cart[1..][i].id != cart[1..][j].id {
      assert cart[1..][i] == cart[i + 1] && cart[1..][j] == cart[j + 1];
    }
    forall i | 0 <= i < |cart[1..]| ensures cart[1..][i].id != cart[0].id {
      assert cart[1..][i] == cart[i + 1];
    }
  }

  /** One more unit adds the unit price to the line total. */
  lemma OneMoreUnit(x: CartItem)
    ensures Amount(x.(quantity := x.quantity + 1)) == Amount(x) + x.product.price
  {
    assert x.product.price * (x.quantity + 1) == x.product.price * x.quantity + x.product.price;
  }

  /** Stepping up an id no line carries changes nothing. */
  lemma IncrementAbsent(cart: seq<CartItem>, id: string)
    requires forall i :: 0 <= i < |cart| ==> cart[i].id != id
    ensures Incremented(cart, id) == cart
  {
    var r := Incremented(cart, id);
    forall i | 0 <= i < |cart| ensures r[i] == cart[i] {
      assert r[i].quantity == cart[i].quantity;
    }
  }

  /** `Incremented` works line by line from the head. */
  lemma IncrementedCons(cart: seq<CartItem>, id: string)
    requires cart != []
    ensures Incremented(cart, id)
         == [if cart[0].id == id then cart[0].(quantity := cart[0].quantity + 1) else cart[0]] + Incremented(cart[1..], id)
  {
  }

  /** `SubtotalCons` for a cart given as its first line and the rest. */
  lemma SubtotalConsOf(x: CartItem, rest: seq<CartItem>, selected: seq<string>)
    ensures SelectedSubtotal([x] + rest, selected)
         == (if x.id in selected then Amount(x) else 0) + SelectedSubtotal(rest, selected)
  {
    assert ([x] + rest)[1..] == rest;
    SubtotalCons([x] + rest, selected);
  }

  /** One more unit of a selected line raises the subtotal by exactly its
      price; an unselected line leaves the subtotal alone. */
  lemma {:induction false} IncreaseQtySubtotal(cart: seq<CartItem>, selected: seq<string>, id: string)
    requires DistinctIds(cart)
    ensures SelectedSubtotal(Incremented(cart, id), selected)
         == SelectedSubtotal(cart, selected) + (if id in selected then PriceOf(cart, id) else 0)
  {
    if cart != [] {
      var head := if cart[0].id == id then cart[0].(quantity := cart[0].quantity + 1) else cart[0];
      var tail := Incremented(cart[1..], id);
      IncrementedCons(cart, id);
      SubtotalConsOf(head, tail, selected);
      SubtotalCons(cart, selected);
      DistinctTail(cart);
      if cart[0].id == id {
        IncrementAbsent(cart[1..], id);
        OneMoreUnit(cart[0]);
      } else {
        IncreaseQtySubtotal(cart[1..], selected, id);
      }
    }
  }

  /** Removing a line (from the cart and from the selection) takes exactly
      its line total off the subtotal when it was selected. */
  lemma {:induction false} RemoveItemSubtotal(cart: seq<CartItem>, selected: seq<string>, id: string)
    requires DistinctIds(cart)
    ensures SelectedSubtotal(RemoveWhere(cart, ItemId, id), RemoveWhere(selected, SameId, id))
         == SelectedSubtotal(cart, selected) - (if id in selected then AmountOf(cart, id) else 0)
    decreases |cart|, 1
  {
    if cart != [] {
      SubtotalCons(cart, selected);
      if cart[0].id == id {
        RemoveHeadLine(cart, selected, id);
      } else {
        RemoveOtherLine(cart, selected, id);
      }
    }
  }

  lemma RemoveHeadLine(cart: seq<CartItem>, selected: seq<string>, id: string)
    requires DistinctIds(cart) && cart != [] && cart[0].id == id
    ensures SelectedSubtotal(RemoveWhere(cart, ItemId, id), RemoveWhere(selected, SameId, id))
         == SelectedSubtotal(cart[1..], selected)
  {
    assert forall i :: 0 <= i < |cart[1..]| ==> cart[1..][i].id != id by {
      forall i | 0 <= i < |cart[1..]| ensures cart[1..][i].id != id {
        assert cart[1..][i] == cart[i + 1];
      }
    }
    assert RemoveWhere(cart, ItemId, id) == cart[1..];
    RemoveSelectionKeepsOthers(cart[1..], selected, id);
  }

  lemma {:induction false} RemoveOtherLine(cart: seq<CartItem>, selected: seq<string>, id: string)
    requires DistinctIds(cart) && cart != [] && cart[0].id != id
    ensures SelectedSubtotal(RemoveWhere(cart, ItemId, id), RemoveWhere(selected, SameId, id))
         == (if cart[0].id in selected then Amount(cart[0]) else 0)
          + SelectedSubtotal(cart[1..], selected) - (if id in selected then AmountOf(cart[1..], id) else 0)
    decreases |cart|, 0
  {
    var sel' := RemoveWhere(selected, SameId, id);
    var rest := RemoveWhere(cart[1..], ItemId, id);
    var c' := RemoveWhere(cart, ItemId, id);
    assert c' == [cart[0]] + rest;
    assert c'[1..] == rest;
    SubtotalCons(c', sel');
    assert (cart[0].id in sel') == (cart[0].id in selected);
    DistinctTail(cart);
    RemoveItemSubtotal(cart[1..], selected, id);
  }

  /** Dropping an id from the selection does not change the price of lines
      that carry other ids. */
  lemma {:induction false} RemoveSelectionKeepsOthers(cart: seq<CartItem>, selected: seq<string>, id: string)
    requires forall i :: 0 <= i < |cart| ==> cart[i].id != id
    ensures SelectedSubtotal(cart, RemoveWhere(selected, SameId, id)) == SelectedSubtotal(cart, selected)
  {
    if cart != [] {
      SubtotalCons(cart, selected);
      SubtotalCons(cart, RemoveWhere(selected, SameId, id));
      RemoveSelectionKeepsOthers(cart[1..], selected, id);
    }
  }

  /** `getTotal`: subtotal plus delivery minus the coupon, never below 0. */
  function GrandTotal(subtotal: int, couponDiscount: int): (r: int)
    ensures r >= 0
    ensures r >= subtotal + DeliveryCharge - couponDiscount
    ensures r == 0 || r == subtotal + DeliveryCharge - couponDiscount
  {
    Max(subtotal + DeliveryCharge - couponDiscount, 0)
  }

  // ---------------------------------------------------------------------------
  // Coupons
  // ---------------------------------------------------------------------------

  /** What `applyCoupon` stores: the discount and the message under the box. */
  datatype Coupon = Coupon(discount: int, message: string)

  const PleaseEnterMessage: string := "Please enter a coupon code."
  const Save50Message: string := "\U{1F389} Coupon applied! You saved \U{20B9}50."
  const InvalidMessage: string := "\U{274C} Invalid coupon code."

  function TenPercentMessage(amount: int): string
  {
    "\U{1F389} 10% off applied! You saved \U{20B9}" + IntToString(amount) + "."
  }

  /** The message is drawn in red exactly when it starts with the cross mark. */
  predicate IsErrorMessage(message: string)
  {
    |message| > 0 && message[0] == '\U{274C}'
  }

  /** `couponCode.trim().toUpperCase()`. */
  function NormalizeCode(raw: string): (code: string)
    ensures |code| <= |raw|
  {
    ToUpper(Trim(raw))
  }

  /** `applyCoupon`: the two hard-coded codes, checked after trimming and
      upper-casing; the 10% discount is computed from the subtotal passed in,
      i.e. the one at the moment the button is pressed. */
  function ResolveCoupon(raw: string, subtotal: int): (r: Coupon)
    ensures NormalizeCode(raw) == "" ==> r == Coupon(0, PleaseEnterMessage)
    ensures NormalizeCode(raw) == "SAVE50" ==> r == Coupon(Save50Discount, Save50Message)
    ensures NormalizeCode(raw) == "DISCOUNT10" ==>
      r.discount == Min(TenPercent(subtotal), TenPercentCap) && r.message == TenPercentMessage(r.discount)
    ensures NormalizeCode(raw) != "" && NormalizeCode(raw) != "SAVE50" && NormalizeCode(raw) != "DISCOUNT10" ==> r == Coupon(0, InvalidMessage)
  {
    var code := NormalizeCode(raw);
    if code == "" then Coupon(0, PleaseEnterMessage)
    else if code == "SAVE50" then Coupon(Save50Discount, Save50Message)
    else if code == "DISCOUNT10" then
      var tenPercent := Min(TenPercent(subtotal), TenPercentCap);
      Coupon(tenPercent, TenPercentMessage(tenPercent))
    else Coupon(0, InvalidMessage)
  }

  /** For a non-negative subtotal every coupon discount lies in 0..100, and
      the 10% coupon never exceeds the subtotal. */
  lemma CouponDiscountBounds(raw: string, subtotal: int)
    requires subtotal >= 0
    ensures 0 <= ResolveCoupon(raw, subtotal).discount <= TenPercentCap
    ensures NormalizeCode(raw) == "DISCOUNT10" ==> ResolveCoupon(raw, subtotal).discount <= subtotal
  {
  }

  /** The message is shown as an error exactly for a non-empty code that is
      neither of the two known ones. */
  lemma CouponErrorIffUnknown(raw: string, subtotal: int)
    ensures IsErrorMessage(ResolveCoupon(raw, subtotal).message)
        <==> NormalizeCode(raw) != "" && NormalizeCode(raw) != "SAVE50" && NormalizeCode(raw) != "DISCOUNT10"
  {
    var code := NormalizeCode(raw);
    if code == "DISCOUNT10" {
      var m := ResolveCoupon(raw, subtotal).message;
      assert m[0] == '\U{1F389}';
    }
  }

  /** A code with no outer white space and no lower-case letter is used as typed. */
  lemma NormalizeKeepsCanonicalCode(code: string)
    requires code == [] || (!IsSpace(code[0]) && !IsSpace(code[|code| - 1]))
    requires forall i :: 0 <= i < |code| ==> !('a' <= code[i] <= 'z')
    ensures NormalizeCode(code) == code
  {
    assert TrimStart(code) == code;
    assert TrimEnd(code) == code;
  }

  /** The two known codes are written as the normalisation leaves them, so
      typing either one exactly as printed applies it. */
  lemma KnownCodesAreCanonical(code: string)
    requires code == "DISCOUNT10" || code == "SAVE50"
    ensures NormalizeCode(code) == code
  {
    if code == "DISCOUNT10" {
      NormalizeKeepsCanonicalCode("DISCOUNT10");
    } else {
      NormalizeKeepsCanonicalCode("SAVE50");
    }
  }

  /** Worked example: however DISCOUNT10 was typed, 10% of a 620 subtotal is
      62, leaving 558. */
  lemma Discount10Example(code: string)
    requires NormalizeCode(code) == "DISCOUNT10"
    ensures ResolveCoupon(code, 620).discount == 62
    ensures GrandTotal(620, ResolveCoupon(code, 620).discount) == 558
  {
    assert TenPercent(620) == 62;
  }

  /** Worked example: SAVE50 on a 30 subtotal floors the total at 0. */
  lemma Save50Example(code: string)
    requires NormalizeCode(code) == "SAVE50"
    ensures GrandTotal(30, ResolveCoupon(code, 30).discount) == 0
  {
  }

  // ---------------------------------------------------------------------------
  // Display
  // ---------------------------------------------------------------------------

  /** `truncate(text, maxLength)`: text longer than the limit is cut to its
      first `maxLength` characters followed by "...". */
  function Truncate(text: string, maxLength: nat): (r: string)
    ensures |text| <= maxLength ==> r == text
    ensures |text| > maxLength ==> |r| == maxLength + 3 && r == text[..maxLength] + "..."
  {
    if |text| > maxLength then text[..maxLength] + "..." else text
  }

  /** A truncated name is at most three characters over the limit (17 for
      the limit of 14 the list uses), and it begins with the name itself. */
  lemma TruncateShape(text: string, maxLength: nat)
    ensures |Truncate(text, maxLength)| <= maxLength + 3
    ensures Truncate(text, maxLength)[..Min(|text|, maxLength)] == text[..Min(|text|, maxLength)]
  {
  }

  // ---------------------------------------------------------------------------
  // The screen's state
  // ---------------------------------------------------------------------------

  /** What "Proceed to Payment" hands to the address screen. */
  datatype CheckoutParams = CheckoutParams(selectedItems: seq<CartItem>, totalAmount: int)

  class CartScreen {
    var cart: seq<CartItem>
    var selectedItems: seq<string>
    var couponCode: string
    var couponDiscount: int
    var couponMessage: string
    var loading: bool

    constructor ()
      ensures cart == [] && selectedItems == []
      ensures couponCode == "" && couponDiscount == 0 && couponMessage == ""
      ensures loading
    {
      cart, selectedItems := [], [];
      couponCode, couponDiscount, couponMessage := "", 0, "";
      loading := true;
    }

    function Subtotal(): int
      reads this
    {
      SelectedSubtotal(cart, selectedItems)
    }

    function Total(): (r: int)
      reads this
      ensures r >= 0
    {
      GrandTotal(Subtotal(), couponDiscount)
    }

    /** `fetchCart`: without a token nothing is requested; a successful reply
        replaces the cart and selects every line; any other outcome keeps the
        lists. The spinner is off afterwards in every case. */
    method FetchCart(token: Option<string>, reply: Reply<seq<CartItem>>)
      modifies this`cart, this`selectedItems, this`loading
      ensures !loading
      ensures Truthy(token) && reply.Success? ==> cart == reply.data && selectedItems == Ids(reply.data)
      ensures Truthy(token) && reply.Success? ==> SelectedItems(cart, selectedItems) == cart
      ensures !(Truthy(token) && reply.Success?) ==> cart == old(cart) && selectedItems == old(selectedItems)
      ensures old(SelectionWithin(cart, selectedItems)) ==> SelectionWithin(cart, selectedItems)
      ensures Truthy(token) && reply.Success? ==> SelectionWithin(cart, selectedItems)
    {
      if !Truthy(token) {
        loading := false;
        return;
      }
      if reply.Success? {
        cart := reply.data;
        selectedItems := Ids(reply.data);
        SelectAllKeepsCart(cart, selectedItems);
        LoadedSelectionWithin(cart);
      }
      loading := false;
    }

    method ToggleSelect(id: string)
      modifies this`selectedItems
      ensures selectedItems == Toggled(old(selectedItems), id)
      ensures old(SelectionWithin(cart, selectedItems)) && (exists i :: 0 <= i < |cart| && cart[i].id == id)
        ==> SelectionWithin(cart, selectedItems)
    {
      if SelectionWithin(cart, selectedItems) && exists i :: 0 <= i < |cart| && cart[i].id == id {
        ToggleKeepsSelectionWithin(cart, selectedItems, id);
      }
      selectedItems := Toggled(selectedItems, id);
    }

    /** The stored coupon discount is left as it was: it is not recomputed
        when the subtotal changes. */
    method IncreaseQty(id: string)
      modifies this`cart
      ensures cart == Incremented(old(cart), id)
      ensures old(SelectionWithin(cart, selectedItems)) ==> SelectionWithin(cart, selectedItems)
    {
      if SelectionWithin(cart, selectedItems) {
        SteppersKeepSelectionWithin(cart, selectedItems, id);
      }
      cart := Incremented(cart, id);
    }

    method DecreaseQty(id: string)
      modifies this`cart
      ensures cart == Decremented(old(cart), id)
      ensures QuantitiesPositive(old(cart)) ==> QuantitiesPositive(cart)
      ensures old(SelectionWithin(cart, selectedItems)) ==> SelectionWithin(cart, selectedItems)
    {
      if SelectionWithin(cart, selectedItems) {
        SteppersKeepSelectionWithin(cart, selectedItems, id);
      }
      cart := Decremented(cart, id);
    }

    /** `removeItem` drops the id from both lists. */
    method RemoveItem(id: string)
      modifies this`cart, this`selectedItems
      ensures cart == RemoveWhere(old(cart), ItemId, id)
      ensures selectedItems == RemoveWhere(old(selectedItems), SameId, id)
      ensures forall i :: 0 <= i < |cart| ==> cart[i].id != id
      ensures id !in selectedItems
      ensures old(SelectionWithin(cart, selectedItems)) ==> SelectionWithin(cart, selectedItems)
    {
      if SelectionWithin(cart, selectedItems) {
        RemoveKeepsSelectionWithin(cart, selectedItems, id);
      }
      cart := RemoveWhere(cart, ItemId, id);
      selectedItems := RemoveWhere(selectedItems, SameId, id);
    }

    method SetCouponCode(text: string)
      modifies this`couponCode
      ensures couponCode == text
    {
      couponCode := text;
    }

    /** `applyCoupon` updates the discount and the message together. */
    method ApplyCoupon()
      modifies this`couponDiscount, this`couponMessage
      ensures Coupon(couponDiscount, couponMessage) == ResolveCoupon(old(couponCode), old(SelectedSubtotal(cart, selectedItems)))
    {
      var r := ResolveCoupon(couponCode, SelectedSubtotal(cart, selectedItems));
      couponDiscount, couponMessage := r.discount, r.message;
    }

    /** "Proceed to Payment" is disabled while nothing is selected; otherwise
        it passes exactly the selected lines, in cart order, and the grand
        total shown. */
    method Checkout() returns (params: Option<CheckoutParams>)
      ensures params.None? <==> |selectedItems| == 0
      ensures params.Some? ==> params.value.selectedItems == SelectedItems(cart, selectedItems)
      ensures params.Some? ==> params.value.totalAmount == Total() && params.value.totalAmount >= 0
      ensures params.Some? && SelectionWithin(cart, selectedItems) ==> |cart| > 0
    {
      if |selectedItems| == 0 {
        return None;
      }
      assert selectedItems[0] in selectedItems;
      params := Some(CheckoutParams(SelectedItems(cart, selectedItems), Total()));
    }
  }
}
