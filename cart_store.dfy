/**
 * The cart provider's state: the current line items, the flag that records
 * that the one load at start-up has finished, and (as ghost state) every
 * value handed to durable storage. Each mutation replaces the items with the
 * result of the matching function of CartOps, then runs the save step.
 */
module CartStore {
  import opened CartTypes
  import CartOps

  class Store {
    /** The current cart, in insertion order. */
    var items: seq<CartItem>
    /** Set once the load at start-up has finished, whatever its outcome. */
    var initialized: bool
    /** The values written to storage under the cart key, in the order the writes were issued. */
    ghost var writes: seq<seq<CartItem>>

    /**
     * Nothing is written before the load has finished, and from then on the
     * last write issued holds the current cart.
     */
    ghost predicate Valid()
      reads this
    {
      (initialized <==> writes != []) &&
      (initialized ==> writes[|writes| - 1] == items)
    }

    /** The next value storage will hold when the store is re-created: the last write. */
    ghost function Persisted(): (r: Option<seq<CartItem>>)
      reads this
      requires Valid()
      ensures initialized <==> r.Some?
      ensures r.Some? ==> r.value == items
    {
      if writes == [] then None else Some(writes[|writes| - 1])
    }

    /** The provider starts with an empty cart, not yet initialized, and has written nothing. */
    constructor ()
      ensures Valid() && items == [] && !initialized && writes == []
    {
      items := [];
      initialized := false;
      writes := [];
    }

    /** The save step, which runs after every change of the items or of the flag: it writes only once initialized. */
    method Save()
      modifies this`writes
      ensures writes == if initialized then old(writes) + [items] else old(writes)
    {
      if initialized {
        writes := writes + [items];
      }
    }

    /**
     * The load at start-up. `stored` is the outcome of reading and parsing the
     * stored cart: `None` when nothing is stored, the read fails or the text
     * does not parse. A stored cart replaces the current items; otherwise they
     * are kept. Either way the store becomes initialized and saves once.
     */
    method Load(stored: Option<seq<CartItem>>)
      requires Valid() && !initialized
      modifies this
      ensures Valid() && initialized
      ensures items == match stored case Some(s) => s case None => old(items)
      ensures writes == [items]
    {
      if stored.Some? {
        items := stored.value;
      }
      initialized := true;
      Save();
    }

    method AddToCart(product: Product)
      requires Valid()
      modifies this
      ensures Valid() && initialized == old(initialized)
      ensures items == CartOps.AddToCart(old(items), product)
      ensures writes == if initialized then old(writes) + [items] else old(writes)
      ensures CartInvariant(old(items)) ==> CartInvariant(items)
    {
      if CartInvariant(items) {
        CartOps.AddToCartKeepsInvariant(items, product);
      }
      items := CartOps.AddToCart(items, product);
      Save();
    }

    method RemoveFromCart(id: int)
      requires Valid()
      modifies this
      ensures Valid() && initialized == old(initialized)
      ensures items == CartOps.RemoveFromCart(old(items), id)
      ensures writes == if initialized then old(writes) + [items] else old(writes)
      ensures CartInvariant(old(items)) ==> CartInvariant(items)
    {
      if CartInvariant(items) {
        CartOps.RemoveFromCartKeepsInvariant(items, id);
      }
      items := CartOps.RemoveFromCart(items, id);
      Save();
    }

    method IncreaseQuantity(id: int)
      requires Valid()
      modifies this
      ensures Valid() && initialized == old(initialized)
      ensures items == CartOps.IncreaseQuantity(old(items), id)
      ensures writes == if initialized then old(writes) + [items] else old(writes)
      ensures CartInvariant(old(items)) ==> CartInvariant(items)
    {
      if CartInvariant(items) {
        CartOps.IncreaseQuantityKeepsInvariant(items, id);
      }
      items := CartOps.IncreaseQuantity(items, id);
      Save();
    }

    method DecreaseQuantity(id: int)
      requires Valid()
      modifies this
      ensures Valid() && initialized == old(initialized)
      ensures items == CartOps.DecreaseQuantity(old(items), id)
      ensures writes == if initialized then old(writes) + [items] else old(writes)
      ensures CartInvariant(old(items)) ==> CartInvariant(items)
    {
      if CartInvariant(items) {
        CartOps.DecreaseQuantityKeepsInvariant(items, id);
      }
      items := CartOps.DecreaseQuantity(items, id);
      Save();
    }

    method ClearCart()
      requires Valid()
      modifies this
      ensures Valid() && initialized == old(initialized)
      ensures items == []
      ensures writes == if initialized then old(writes) + [[]] else old(writes)
    {
      items := [];
      Save();
    }

    /** getTotalPrice: the sum of price times quantity over the current items; nothing changes. */
    method GetTotalPrice() returns (total: real)
      ensures total == CartOps.Sum(items)
    {
      total := CartOps.TotalPrice(items);
    }
  }
}
