/** The product detail screen: a quantity counter, the wishlist heart, the
    price block with its discount badge, Add to Cart and Buy Now. */
module ProductDetails {
  import opened Common
  import opened Money
  import opened Store

  /** `product.sellingPrice ?? 0`. */
  function SellingPrice(p: Product): (r: int)
    ensures p.sellingPrice.Some? ==> r == p.sellingPrice.value
    ensures p.sellingPrice.None? ==> r == 0
  {
    match p.sellingPrice
    case Some(v) => v
    case None => 0
  }

  /** `product.originalPrice ?? product.mrp ?? 0`: only a missing field falls
      through, a present 0 is kept. */
  function OriginalPrice(p: Product): (r: int)
    ensures p.originalPrice.Some? ==> r == p.originalPrice.value
    ensures p.originalPrice.None? && p.mrp.Some? ==> r == p.mrp.value
    ensures p.originalPrice.None? && p.mrp.None? ==> r == 0
  {
    match p.originalPrice
    case Some(v) => v
    case None =>
      match p.mrp
      case Some(m) => m
      case None => 0
  }

  /** The discount badge: no discount when the original price is 0 or not
      above the selling price; otherwise the saving as a whole percentage of
      the original price, rounded to the nearest integer, halves up. */
  function DiscountPercent(original: int, selling: int): (r: int)
    ensures original == 0 || original <= selling ==> r == 0
    ensures original > 0 && original > selling ==>
      2 * original * r - original <= 200 * (original - selling) < 2 * original * r + original
    ensures original < 0 && original > selling ==>
      2 * original * r - original >= 200 * (original - selling) > 2 * original * r + original
  {
    if original == 0 || original <= selling then 0
    else Round(100 * (original - selling), original)
  }

  /** Dividing both sides of an inequality by a positive factor. */
  lemma CancelPositive(a: int, x: int, y: int)
    requires a > 0 && a * x <= a * y
    ensures x <= y
  {
  }

  /** A real markdown shows a percentage between 0 and 100. */
  lemma DiscountPercentRange(original: int, selling: int)
    requires 0 <= selling < original
    ensures 0 <= DiscountPercent(original, selling) <= 100
  {
    var r := DiscountPercent(original, selling);
    var saving := original - selling;
    assert original * (2 * r - 1) <= 200 * saving <= original * 200;
    CancelPositive(original, 2 * r - 1, 200);
    assert original * 0 < 200 * saving < original * (2 * r + 1);
    CancelPositive(original, 1, 2 * r + 1);
  }

  /** Selling at the original price, or above it, shows no badge; selling for
      nothing shows 100%. */
  lemma DiscountPercentEnds(original: int)
    requires original > 0
    ensures DiscountPercent(original, original) == 0
    ensures DiscountPercent(original, 0) == 100
  {
    var r := DiscountPercent(original, 0);
    assert original * 199 < original * (2 * r + 1);
    CancelPositive(original, 200, 2 * r + 1);
    DiscountPercentRange(original, 0);
  }

  /** The quantity after `increase`. */
  function Increased(q: int): (r: int)
    ensures r == q + 1
  {
    q + 1
  }

  /** The quantity after `decrease`: one less, never below 1. */
  function Decreased(q: int): (r: int)
    ensures r >= 1
    ensures q > 1 ==> r == q - 1
    ensures q <= 1 ==> r == 1
  {
    if q > 1 then q - 1 else 1
  }

  /** `decrease` undoes `increase` on any counter value the screen can hold. */
  lemma DecreaseUndoesIncrease(q: int)
    requires q >= 1
    ensures Decreased(Increased(q)) == q
  {
  }

  /** The navigation parameters Buy Now passes to the address step. */
  datatype BuyNowParams = BuyNowParams(selectedItems: seq<Line>, totalAmount: int)

  /** Buy Now sends the one product at the counter's quantity, priced at the
      selling price. */
  function BuyNow(p: Product, quantity: int): (r: BuyNowParams)
    ensures |r.selectedItems| == 1 && r.selectedItems[0] == Line(p, quantity)
    ensures r.totalAmount == SellingPrice(p) * quantity
    ensures quantity >= 0 && SellingPrice(p) >= 0 ==> r.totalAmount >= 0
    ensures quantity == 1 ==> r.totalAmount == SellingPrice(p)
  {
    BuyNowParams([Line(p, quantity)], SellingPrice(p) * quantity)
  }

  class ProductDetailsScreen {
    const product: Product
    var quantity: int
    var wishlisted: bool
    var adding: bool

    constructor (product: Product)
      ensures this.product == product
      ensures quantity == 1 && !wishlisted && !adding
    {
      this.product := product;
      quantity, wishlisted, adding := 1, false, false;
    }

    method Increase()
      modifies this`quantity
      ensures quantity == Increased(old(quantity))
    {
      quantity := Increased(quantity);
    }

    method Decrease()
      modifies this`quantity
      ensures quantity == Decreased(old(quantity)) && quantity >= 1
    {
      quantity := Decreased(quantity);
    }

    method ToggleWishlist()
      modifies this`wishlisted
      ensures wishlisted == !old(wishlisted)
    {
      wishlisted := !wishlisted;
    }

    /** `handleAddToCart`: without a token no request is made and nothing
        changes; otherwise the product id and the counter's quantity are sent,
        and the busy flag is cleared whatever the reply. The reply only
        chooses the alert. */
    method AddToCart(token: Option<string>) returns (request: Option<AddToCartRequest>)
      modifies this`adding
      ensures !Truthy(token) ==> request.None? && adding == old(adding)
      ensures Truthy(token) ==> request == Some(AddToCartRequest(product.id, quantity)) && !adding
    {
      if !Truthy(token) {
        return None;
      }
      adding := true;
      request := Some(AddToCartRequest(product.id, quantity));
      adding := false;
    }

    method HandleBuyNow() returns (params: BuyNowParams)
      ensures params == BuyNow(product, quantity)
    {
      params := BuyNow(product, quantity);
    }
  }
}
