/** The wishlist screen: a list of saved products, each with a remove button,
    and an empty state when nothing is left. */
module Wishlist {
  import opened Common

  /** A saved product; the price is display text. */
  datatype WishItem = WishItem(id: string, name: string, price: string, image: string)

  function WishId(item: WishItem): string
  {
    item.id
  }

  const ProductImage: string := "https://cdn.shopify.com/s/files/1/0517/5391/0426/files/Whole_Wheat_Flour_Benefits.png?v=1750243817"

  /** The two products the screen starts with. */
  const SeedItems: seq<WishItem> := [
    WishItem("2", "Flour", "\U{20B9}24,999", ProductImage),
    WishItem("3", "Multi Grain", "\U{20B9}2,499", ProductImage)
  ]

  /** Removal is idempotent, and removing an id that is not listed changes
      nothing. */
  lemma RemoveTwiceOrAbsent(items: seq<WishItem>, id: string)
    ensures RemoveWhere(RemoveWhere(items, WishId, id), WishId, id) == RemoveWhere(items, WishId, id)
    ensures (forall i :: 0 <= i < |items| ==> items[i].id != id) ==> RemoveWhere(items, WishId, id) == items
  {
    RemoveWhereIdempotent(items, WishId, id);
  }

  /** Removing the seed products one by one, in either order, empties the
      list. */
  lemma RemoveBothSeeds()
    ensures RemoveWhere(RemoveWhere(SeedItems, WishId, "2"), WishId, "3") == []
    ensures RemoveWhere(RemoveWhere(SeedItems, WishId, "3"), WishId, "2") == []
  {
    assert RemoveWhere(SeedItems, WishId, "2") == [SeedItems[1]];
    assert RemoveWhere(SeedItems, WishId, "3") == [SeedItems[0]];
  }

  class WishlistScreen {
    var wishlist: seq<WishItem>

    constructor ()
      ensures wishlist == SeedItems
    {
      wishlist := SeedItems;
    }

    /** `handleRemove`: every item with the id goes, the rest keep their
        order. */
    method HandleRemove(id: string)
      modifies this`wishlist
      ensures wishlist == RemoveWhere(old(wishlist), WishId, id)
      ensures forall i :: 0 <= i < |wishlist| ==> wishlist[i].id != id
      ensures forall i :: 0 <= i < |old(wishlist)| && old(wishlist)[i].id != id ==> old(wishlist)[i] in wishlist
    {
      wishlist := RemoveWhere(wishlist, WishId, id);
    }

    /** The "empty" placeholder replaces the list exactly when nothing is left. */
    function ShowsEmptyState(): (r: bool)
      reads this
      ensures r <==> wishlist == []
    {
      !(|wishlist| > 0)
    }
  }
}
