/** The product grid: every card has its own quantity stepper, kept in one
    map from product id to quantity, and its own Add to Cart button. */
module ProductList {
  import opened Common
  import opened Store

  /** `quantities[id] || 1`: an id with no entry (or a falsy entry) counts
      as 1. */
  function QuantityOf(quantities: map<string, int>, id: string): (r: int)
    ensures id !in quantities ==> r == 1
    ensures id in quantities && quantities[id] != 0 ==> r == quantities[id]
    ensures id in quantities && quantities[id] == 0 ==> r == 1
  {
    if id in quantities && quantities[id] != 0 then quantities[id] else 1
  }

  /** The map after `increaseQuantity(id)`: the entry for `id` becomes its
      effective quantity plus one; every other entry is kept. */
  function Increased(quantities: map<string, int>, id: string): (r: map<string, int>)
    ensures r.Keys == quantities.Keys + {id}
    ensures r[id] == QuantityOf(quantities, id) + 1
    ensures forall k :: k in quantities && k != id ==> r[k] == quantities[k]
  {
    quantities[id := QuantityOf(quantities, id) + 1]
  }

  /** The map after `decreaseQuantity(id)`: one less when the entry is above
      1, otherwise 1; every other entry is kept. */
  function Decreased(quantities: map<string, int>, id: string): (r: map<string, int>)
    ensures r.Keys == quantities.Keys + {id}
    ensures r[id] >= 1
    ensures id in quantities && quantities[id] > 1 ==> r[id] == quantities[id] - 1
    ensures !(id in quantities && quantities[id] > 1) ==> r[id] == 1
    ensures forall k :: k in quantities && k != id ==> r[k] == quantities[k]
  {
    quantities[id := if id in quantities && quantities[id] > 1 then quantities[id] - 1 else 1]
  }

  /** Every entry the steppers can write is at least 1. */
  predicate AllPositive(quantities: map<string, int>)
  {
    forall k :: k in quantities ==> quantities[k] >= 1
  }

  /** A fresh card steps up from its implicit 1 to 2. */
  lemma IncreaseFromNothing(quantities: map<string, int>, id: string)
    requires id !in quantities
    ensures Increased(quantities, id)[id] == 2
  {
  }

  /** Both steppers keep every entry at least 1, so the quantity sent is
      always the stored entry. */
  lemma SteppersKeepPositive(quantities: map<string, int>, id: string)
    requires AllPositive(quantities)
    ensures AllPositive(Increased(quantities, id))
    ensures AllPositive(Decreased(quantities, id))
    ensures QuantityOf(Increased(quantities, id), id) == Increased(quantities, id)[id]
  {
  }

  /** Stepping down undoes stepping up: the effective quantity of the card
      comes back to what it was. */
  lemma DecreaseUndoesIncrease(quantities: map<string, int>, id: string)
    requires AllPositive(quantities)
    ensures QuantityOf(Decreased(Increased(quantities, id), id), id) == QuantityOf(quantities, id)
    ensures forall k :: k in quantities ==> k in Decreased(Increased(quantities, id), id)
  {
  }

  class ProductListScreen {
    var quantities: map<string, int>

    constructor ()
      ensures quantities == map[]
    {
      quantities := map[];
    }

    method IncreaseQuantity(id: string)
      modifies this`quantities
      ensures quantities == Increased(old(quantities), id)
    {
      quantities := Increased(quantities, id);
    }

    method DecreaseQuantity(id: string)
      modifies this`quantities
      ensures quantities == Decreased(old(quantities), id)
    {
      quantities := Decreased(quantities, id);
    }

    /** `handleAddToCart`: without a token nothing is requested; otherwise the
        request carries the card's effective quantity. */
    method AddToCart(token: Option<string>, product: Product) returns (request: Option<AddToCartRequest>)
      ensures !Truthy(token) ==> request.None?
      ensures Truthy(token) ==> request == Some(AddToCartRequest(product.id, QuantityOf(quantities, product.id)))
      ensures Truthy(token) && product.id !in quantities ==> request.value.quantity == 1
    {
      if !Truthy(token) {
        return None;
      }
      request := Some(AddToCartRequest(product.id, QuantityOf(quantities, product.id)));
    }
  }
}
