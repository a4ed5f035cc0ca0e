/**
 * The cart store's operations, each a total function from the previous
 * sequence of line items to the next one, together with the properties the
 * store relies on: one entry per product id, quantities that stay at least 1,
 * insertion order, and a total that is the sum of price times quantity.
 */
module CartOps {
  import opened CartTypes

  /** `item` with one more unit. */
  function Incremented(item: CartItem): CartItem {
    item.(quantity := item.quantity + 1)
  }

  /** `item` with one unit fewer. */
  function Decremented(item: CartItem): CartItem {
    item.(quantity := item.quantity - 1)
  }

  /** The first line item for product `id`, as the search in addToCart finds it. */
  function Find(items: seq<CartItem>, id: int): (r: Option<CartItem>)
    ensures r.Some? <==> HasId(items, id)
    ensures r.Some? ==> IdOf(r.value) == id && r.value in items
    ensures |items| > 0 && IdOf(items[0]) == id ==> r == Some(items[0])
  {
    if |items| == 0 then None
    else if IdOf(items[0]) == id then Some(items[0])
    else
      var r := Find(items[1..], id);
      assert HasId(items[1..], id) <==> HasId(items, id) by {
        assert forall i :: 1 <= i < |items| ==> items[i] == items[1..][i - 1];
      }
      r
  }

  /** increaseQuantity: every line item for `id` gets one more unit; all others are kept, in place. */
  function IncreaseQuantity(items: seq<CartItem>, id: int): (r: seq<CartItem>)
    ensures |r| == |items|
    ensures forall i :: 0 <= i < |items| ==>
      r[i] == if IdOf(items[i]) == id then Incremented(items[i]) else items[i]
  {
    if |items| == 0 then []
    else [if IdOf(items[0]) == id then Incremented(items[0]) else items[0]] + IncreaseQuantity(items[1..], id)
  }

  /**
   * decreaseQuantity: a line item for `id` loses one unit only while it holds
   * more than one; nothing is removed and no product changes place.
   */
  function DecreaseQuantity(items: seq<CartItem>, id: int): (r: seq<CartItem>)
    ensures |r| == |items|
    ensures forall i :: 0 <= i < |items| ==>
      r[i] == if IdOf(items[i]) == id && items[i].quantity > 1 then Decremented(items[i]) else items[i]
  {
    if |items| == 0 then []
    else
      [if IdOf(items[0]) == id && items[0].quantity > 1 then Decremented(items[0]) else items[0]]
      + DecreaseQuantity(items[1..], id)
  }

  /** removeFromCart: the line items whose product id differs from `id`. */
  function RemoveFromCart(items: seq<CartItem>, id: int): (r: seq<CartItem>)
    ensures |r| <= |items|
    ensures forall i :: 0 <= i < |r| ==> IdOf(r[i]) != id
  {
    if |items| == 0 then []
    else if IdOf(items[0]) == id then RemoveFromCart(items[1..], id)
    else [items[0]] + RemoveFromCart(items[1..], id)
  }

  /**
   * addToCart: a product already in the cart gets one more unit; a new one is
   * appended at the end with quantity 1.
   */
  function AddToCart(items: seq<CartItem>, product: Product): (r: seq<CartItem>)
    ensures HasId(items, product.id) ==> |r| == |items| && forall i :: 0 <= i < |items| ==>
      r[i] == if IdOf(items[i]) == product.id then Incremented(items[i]) else items[i]
    ensures !HasId(items, product.id) ==> |r| == |items| + 1 && r[..|items|] == items && r[|items|] == CartItem(product, 1)
  {
    if Find(items, product.id).Some? then IncreaseQuantity(items, product.id)
    else items + [CartItem(product, 1)]
  }

  /** What one line item contributes to the total. */
  function LineTotal(item: CartItem): real {
    item.product.price * item.quantity as real
  }

  /** Reference definition of the cart total: the sum of price times quantity over the line items. */
  function Sum(items: seq<CartItem>): real {
    if |items| == 0 then 0.0 else LineTotal(items[0]) + Sum(items[1..])
  }

  /** The left-to-right accumulation getTotalPrice performs, starting from `total`. */
  function Reduce(items: seq<CartItem>, total: real): real {
    if |items| == 0 then total else Reduce(items[1..], total + LineTotal(items[0]))
  }

  lemma {:induction false} ReduceIsSum(items: seq<CartItem>, total: real)
    ensures Reduce(items, total) == total + Sum(items)
  {
    if |items| > 0 {
      ReduceIsSum(items[1..], total + LineTotal(items[0]));
    }
  }

  /** getTotalPrice: the accumulation started at 0, which is the sum of price times quantity. */
  function TotalPrice(items: seq<CartItem>): (r: real)
    ensures r == Sum(items)
  {
    ReduceIsSum(items, 0.0);
    Reduce(items, 0.0)
  }

  lemma {:induction false} SumConcat(a: seq<CartItem>, b: seq<CartItem>)
    ensures Sum(a + b) == Sum(a) + Sum(b)
  {
    if |a| > 0 {
      assert (a + b)[1..] == a[1..] + b;
      SumConcat(a[1..], b);
    } else {
      assert a + b == b;
    }
  }

  /** The total of a cart split around one item. */
  lemma SumMiddle(pre: seq<CartItem>, x: CartItem, post: seq<CartItem>)
    ensures Sum(pre + [x] + post) == Sum(pre) + LineTotal(x) + Sum(post)
  {
    SumConcat(pre + [x], post);
    SumConcat(pre, [x]);
  }

  /** Replacing one line item changes the sum by the difference of the two line totals. */
  lemma SumUpdate(items: seq<CartItem>, k: int, x: CartItem)
    requires 0 <= k < |items|
    ensures Sum(items[k := x]) == Sum(items) - LineTotal(items[k]) + LineTotal(x)
  {
    var pre, post := items[..k], items[k + 1..];
    assert items == pre + [items[k]] + post;
    assert items[k := x] == pre + [x] + post;
    SumMiddle(pre, items[k], post);
    SumMiddle(pre, x, post);
  }

  /** The total is 0 for an empty cart and never negative when no price or quantity is. */
  lemma {:induction false} SumNonNegative(items: seq<CartItem>)
    requires forall i :: 0 <= i < |items| ==> items[i].product.price >= 0.0 && items[i].quantity >= 0
    ensures Sum(items) >= 0.0
    ensures |items| == 0 ==> Sum(items) == 0.0
  {
    if |items| > 0 {
      var p, q := items[0].product.price, items[0].quantity as real;
      assert p * q >= 0.0;
      SumNonNegative(items[1..]);
    }
  }

  lemma LineTotalIncremented(item: CartItem)
    ensures LineTotal(Incremented(item)) == LineTotal(item) + item.product.price
  {
    var p, q := item.product.price, item.quantity as real;
    assert Incremented(item).quantity as real == q + 1.0;
    assert p * (q + 1.0) == p * q + p;
  }

  /** Under distinct ids, the line item at `k` is the only one for its product. */
  lemma OnlyIndexFor(items: seq<CartItem>, k: int)
    requires DistinctIds(items) && 0 <= k < |items|
    ensures forall i :: 0 <= i < |items| && IdOf(items[i]) == IdOf(items[k]) ==> i == k
  {
  }

  // ----- increaseQuantity -----

  lemma IncreaseQuantityPresent(items: seq<CartItem>, k: int)
    requires DistinctIds(items) && 0 <= k < |items|
    ensures IncreaseQuantity(items, IdOf(items[k])) == items[k := Incremented(items[k])]
  {
    OnlyIndexFor(items, k);
  }

  lemma IncreaseQuantityAbsent(items: seq<CartItem>, id: int)
    requires !HasId(items, id)
    ensures IncreaseQuantity(items, id) == items
  {
  }

  lemma IncreaseQuantityTotal(items: seq<CartItem>, k: int)
    requires DistinctIds(items) && 0 <= k < |items|
    ensures Sum(IncreaseQuantity(items, IdOf(items[k]))) == Sum(items) + items[k].product.price
  {
    IncreaseQuantityPresent(items, k);
    SumUpdate(items, k, Incremented(items[k]));
    LineTotalIncremented(items[k]);
  }

  lemma IncreaseQuantityKeepsInvariant(items: seq<CartItem>, id: int)
    requires CartInvariant(items)
    ensures CartInvariant(IncreaseQuantity(items, id))
  {
    var r := IncreaseQuantity(items, id);
    assert forall i :: 0 <= i < |r| ==> IdOf(r[i]) == IdOf(items[i]);
  }

  // ----- decreaseQuantity -----

  lemma DecreaseQuantityKeepsItems(items: seq<CartItem>, id: int)
    ensures |DecreaseQuantity(items, id)| == |items|
    ensures forall i :: 0 <= i < |items| ==> DecreaseQuantity(items, id)[i].product == items[i].product
    ensures forall i :: 0 <= i < |items| ==>
      DecreaseQuantity(items, id)[i].quantity == if IdOf(items[i]) == id && items[i].quantity > 1 then items[i].quantity - 1 else items[i].quantity
    ensures forall i :: 0 <= i < |items| && items[i].quantity >= 1 ==> DecreaseQuantity(items, id)[i].quantity >= 1
  {
  }

  lemma DecreaseQuantityPresent(items: seq<CartItem>, k: int)
    requires DistinctIds(items) && 0 <= k < |items|
    ensures items[k].quantity > 1 ==> DecreaseQuantity(items, IdOf(items[k])) == items[k := Decremented(items[k])]
    ensures items[k].quantity <= 1 ==> DecreaseQuantity(items, IdOf(items[k])) == items
  {
    OnlyIndexFor(items, k);
  }

  lemma DecreaseQuantityAbsent(items: seq<CartItem>, id: int)
    requires !HasId(items, id)
    ensures DecreaseQuantity(items, id) == items
  {
  }

  lemma DecreaseQuantityKeepsInvariant(items: seq<CartItem>, id: int)
    requires CartInvariant(items)
    ensures CartInvariant(DecreaseQuantity(items, id))
  {
    DecreaseQuantityKeepsItems(items, id);
  }

  /** A decrease undoes an increase whenever the matching items hold at least one unit. */
  lemma DecreaseUndoesIncrease(items: seq<CartItem>, id: int)
    requires PositiveQuantities(items)
    ensures DecreaseQuantity(IncreaseQuantity(items, id), id) == items
  {
  }

  /** An increase undoes a decrease of an item that held more than one unit. */
  lemma IncreaseUndoesDecrease(items: seq<CartItem>, k: int)
    requires DistinctIds(items) && 0 <= k < |items| && items[k].quantity > 1
    ensures IncreaseQuantity(DecreaseQuantity(items, IdOf(items[k])), IdOf(items[k])) == items
  {
    DecreaseQuantityPresent(items, k);
    var d := items[k := Decremented(items[k])];
    assert DistinctIds(d) by {
      assert forall i :: 0 <= i < |d| ==> IdOf(d[i]) == IdOf(items[i]);
    }
    IncreaseQuantityPresent(d, k);
  }

  // ----- removeFromCart -----

  lemma {:induction false} RemoveFromCartAbsent(items: seq<CartItem>, id: int)
    requires !HasId(items, id)
    ensures RemoveFromCart(items, id) == items
  {
    if |items| > 0 {
      assert !HasId(items[1..], id) by {
        assert forall i :: 0 <= i < |items| - 1 ==> items[1..][i] == items[i + 1];
      }
      RemoveFromCartAbsent(items[1..], id);
      assert items == [items[0]] + items[1..];
    }
  }

  /** Filtering distributes over concatenation, so the kept items keep their relative order. */
  lemma {:induction false} RemoveFromCartConcat(a: seq<CartItem>, b: seq<CartItem>, id: int)
    ensures RemoveFromCart(a + b, id) == RemoveFromCart(a, id) + RemoveFromCart(b, id)
  {
    if |a| == 0 {
      assert a + b == b;
    } else {
      assert (a + b)[0] == a[0];
      assert (a + b)[1..] == a[1..] + b;
      RemoveFromCartConcat(a[1..], b, id);
    }
  }

  /** An item is kept exactly when it is in the cart and its id differs. */
  lemma {:induction false} RemoveFromCartMembers(items: seq<CartItem>, id: int)
    ensures forall x :: x in RemoveFromCart(items, id) <==> x in items && IdOf(x) != id
  {
    if |items| > 0 {
      RemoveFromCartMembers(items[1..], id);
      assert items == [items[0]] + items[1..];
    }
  }

  lemma RemoveFromCartIdempotent(items: seq<CartItem>, id: int)
    ensures RemoveFromCart(RemoveFromCart(items, id), id) == RemoveFromCart(items, id)
  {
    RemoveFromCartAbsent(RemoveFromCart(items, id), id);
  }

  /** Under distinct ids, no item before or after index `k` is for the product at `k`. */
  lemma OthersLackId(items: seq<CartItem>, k: int)
    requires DistinctIds(items) && 0 <= k < |items|
    ensures !HasId(items[..k], IdOf(items[k])) && !HasId(items[k + 1..], IdOf(items[k]))
  {
    var pre, post := items[..k], items[k + 1..];
    assert forall i :: 0 <= i < |pre| ==> pre[i] == items[i];
    assert forall i :: 0 <= i < |post| ==> post[i] == items[k + 1 + i];
  }

  lemma RemoveFromCartSingle(item: CartItem, id: int)
    requires IdOf(item) == id
    ensures RemoveFromCart([item], id) == []
  {
    assert [item][1..] == [];
  }

  /** Removing the id of the one item between two parts that lack it leaves just those parts. */
  lemma RemoveFromCartMiddle(pre: seq<CartItem>, x: CartItem, post: seq<CartItem>)
    requires !HasId(pre, IdOf(x)) && !HasId(post, IdOf(x))
    ensures RemoveFromCart(pre + [x] + post, IdOf(x)) == pre + post
  {
    var id := IdOf(x);
    RemoveFromCartConcat(pre + [x], post, id);
    RemoveFromCartConcat(pre, [x], id);
    RemoveFromCartSingle(x, id);
    RemoveFromCartAbsent(pre, id);
    RemoveFromCartAbsent(post, id);
  }

  /** Under distinct ids, removing a present product drops exactly its line item. */
  lemma RemoveFromCartPresent(items: seq<CartItem>, k: int)
    requires DistinctIds(items) && 0 <= k < |items|
    ensures RemoveFromCart(items, IdOf(items[k])) == items[..k] + items[k + 1..]
  {
    OthersLackId(items, k);
    assert items == items[..k] + [items[k]] + items[k + 1..];
    RemoveFromCartMiddle(items[..k], items[k], items[k + 1..]);
  }

  lemma {:induction false} RemoveFromCartKeepsInvariant(items: seq<CartItem>, id: int)
    requires CartInvariant(items)
    ensures CartInvariant(RemoveFromCart(items, id))
  {
    if |items| > 0 {
      var rest := items[1..];
      assert CartInvariant(rest) by {
        assert forall i :: 0 <= i < |rest| ==> rest[i] == items[i + 1];
      }
      RemoveFromCartKeepsInvariant(rest, id);
      RemoveFromCartMembers(rest, id);
      if IdOf(items[0]) != id {
        var tail := RemoveFromCart(rest, id);
        assert !HasId(rest, IdOf(items[0])) by {
          assert forall i :: 0 <= i < |rest| ==> rest[i] == items[i + 1];
        }
        assert forall i :: 0 <= i < |tail| ==> IdOf(tail[i]) != IdOf(items[0]) by {
          forall i | 0 <= i < |tail| ensures IdOf(tail[i]) != IdOf(items[0]) {
            assert tail[i] in rest;
          }
        }
      }
    }
  }

  lemma RemoveFromCartTotal(items: seq<CartItem>, k: int)
    requires DistinctIds(items) && 0 <= k < |items|
    ensures Sum(RemoveFromCart(items, IdOf(items[k]))) == Sum(items) - LineTotal(items[k])
  {
    RemoveFromCartPresent(items, k);
    var pre, post := items[..k], items[k + 1..];
    assert items == pre + [items[k]] + post;
    SumMiddle(pre, items[k], post);
    SumConcat(pre, post);
  }

  // ----- addToCart -----

  /** A product already in the cart: only its line item changes, by one unit. */
  lemma AddToCartPresent(items: seq<CartItem>, product: Product, k: int)
    requires DistinctIds(items) && 0 <= k < |items| && IdOf(items[k]) == product.id
    ensures AddToCart(items, product) == items[k := Incremented(items[k])]
  {
    IncreaseQuantityPresent(items, k);
  }

  lemma AddToCartKeepsInvariant(items: seq<CartItem>, product: Product)
    requires CartInvariant(items)
    ensures CartInvariant(AddToCart(items, product))
  {
    if HasId(items, product.id) {
      IncreaseQuantityKeepsInvariant(items, product.id);
    }
  }

  /**
   * The total grows by one unit's price: that of the line item already in
   * the cart when the product id is present, else that of the added product.
   */
  lemma AddToCartTotal(items: seq<CartItem>, product: Product)
    requires DistinctIds(items)
    ensures Sum(AddToCart(items, product)) ==
      Sum(items) + match Find(items, product.id) case Some(it) => it.product.price case None => product.price
  {
    var f := Find(items, product.id);
    if f.Some? {
      var k :| 0 <= k < |items| && items[k] == f.value;
      IncreaseQuantityTotal(items, k);
    } else {
      var r := AddToCart(items, product);
      assert r == items + [CartItem(product, 1)];
      SumConcat(items, [CartItem(product, 1)]);
    }
  }

  // ----- every mutation -----

  /** The mutations the store offers to its consumers. */
  datatype Op = Add(product: Product) | Remove(id: int) | Increase(id: int) | Decrease(id: int) | Clear

  function Apply(items: seq<CartItem>, op: Op): seq<CartItem> {
    match op
    case Add(p) => AddToCart(items, p)
    case Remove(id) => RemoveFromCart(items, id)
    case Increase(id) => IncreaseQuantity(items, id)
    case Decrease(id) => DecreaseQuantity(items, id)
    case Clear => []
  }

  function ApplyAll(items: seq<CartItem>, ops: seq<Op>): seq<CartItem>
    decreases |ops|
  {
    if |ops| == 0 then items else ApplyAll(Apply(items, ops[0]), ops[1..])
  }

  lemma ApplyKeepsInvariant(items: seq<CartItem>, op: Op)
    requires CartInvariant(items)
    ensures CartInvariant(Apply(items, op))
  {
    match op
    case Add(p) => AddToCartKeepsInvariant(items, p);
    case Remove(id) => RemoveFromCartKeepsInvariant(items, id);
    case Increase(id) => IncreaseQuantityKeepsInvariant(items, id);
    case Decrease(id) => DecreaseQuantityKeepsInvariant(items, id);
    case Clear =>
  }

  /** Any sequence of mutations keeps ids distinct and quantities at least 1. */
  lemma {:induction false} ApplyAllKeepsInvariant(items: seq<CartItem>, ops: seq<Op>)
    requires CartInvariant(items)
    ensures CartInvariant(ApplyAll(items, ops))
    decreases |ops|
  {
    if |ops| > 0 {
      ApplyKeepsInvariant(items, ops[0]);
      ApplyAllKeepsInvariant(Apply(items, ops[0]), ops[1..]);
    }
  }
}
