/** Worked cases of the cart store, for concrete carts and for the provider's life cycle. */
module CartScenarios {
  import opened CartTypes
  import opened CartOps
  import CartStore

  /** Adding to an empty cart gives one line item with quantity 1. */
  lemma AddToEmptyCart(p1: Product)
    ensures AddToCart([], p1) == [CartItem(p1, 1)]
  {
  }

  /** Adding a product a second time raises its quantity instead of adding a second entry. */
  lemma AddTwice(p1: Product)
    ensures AddToCart(AddToCart([], p1), p1) == [CartItem(p1, 2)]
  {
    AddToEmptyCart(p1);
    AddToCartPresent([CartItem(p1, 1)], p1, 0);
  }

  /** Decreasing a quantity of 1 leaves the cart as it was. */
  lemma DecreaseAtOne(p1: Product)
    ensures DecreaseQuantity([CartItem(p1, 1)], p1.id) == [CartItem(p1, 1)]
  {
    DecreaseQuantityPresent([CartItem(p1, 1)], 0);
  }

  /** Removing the first of two products keeps the second. */
  lemma RemoveFirstOfTwo(p1: Product, p2: Product)
    requires p1.id != p2.id
    ensures RemoveFromCart([CartItem(p1, 2), CartItem(p2, 1)], p1.id) == [CartItem(p2, 1)]
  {
    RemoveFromCartPresent([CartItem(p1, 2), CartItem(p2, 1)], 0);
  }

  /** Twice a price of 10 plus once a price of 5 is 25. */
  lemma TotalOfTwo(p1: Product, p2: Product)
    requires p1.price == 10.0 && p2.price == 5.0
    ensures TotalPrice([CartItem(p1, 2), CartItem(p2, 1)]) == 25.0
  {
    var s := [CartItem(p1, 2), CartItem(p2, 1)];
    assert s[1..][1..] == [];
    assert LineTotal(s[0]) == 20.0 && LineTotal(s[1]) == 5.0;
    assert Sum(s) == LineTotal(s[0]) + (LineTotal(s[1]) + Sum(s[1..][1..]));
  }

  /** Nothing stored: the store initializes to the empty cart and writes it once. */
  method LoadNothingStored() returns (store: CartStore.Store)
    ensures store.Valid() && store.initialized
    ensures store.items == [] && store.writes == [[]]
  {
    store := new CartStore.Store();
    store.Load(None);
  }

  /**
   * A product added while the load is in flight is not written, and a stored
   * cart that arrives afterwards replaces it.
   */
  method AddBeforeLoad(p1: Product, stored: seq<CartItem>) returns (store: CartStore.Store)
    ensures store.Valid() && store.initialized
    ensures store.items == stored && store.writes == [stored]
  {
    store := new CartStore.Store();
    store.AddToCart(p1);
    assert store.items == [CartItem(p1, 1)] && store.writes == [];
    store.Load(Some(stored));
  }

  /** Whatever a store last wrote is what a fresh store loads back. */
  method Reload(p1: Product, p2: Product) returns (first: CartStore.Store, second: CartStore.Store)
    ensures first.Valid() && second.Valid()
    ensures first.Persisted() == Some(first.items)
    ensures second.items == first.items
  {
    first := new CartStore.Store();
    first.Load(None);
    first.AddToCart(p1);
    first.AddToCart(p2);
    first.DecreaseQuantity(p1.id);
    second := new CartStore.Store();
    second.Load(Some(first.items));
  }
}
