/** The values the cart store works on: the catalog's product record and a cart line item. */
module CartTypes {

  /** An optional value; the storage read yields `None` when nothing is stored or the stored text does not parse. */
  datatype Option<+T> = None | Some(value: T)

  /** The star rating the catalog attaches to a product. */
  datatype Rating = Rating(rate: real, count: int)

  /** A catalog product. The store only reads `id` (the logical key of a line item) and `price`. */
  datatype Product = Product(
    id: int,
    title: string,
    price: real,
    description: string,
    category: string,
    image: string,
    rating: Rating)

  /** A cart line item. The quantity is a plain number: a cart read back from storage is not validated. */
  datatype CartItem = CartItem(product: Product, quantity: int)

  /** The identifier a line item is keyed by. */
  function IdOf(item: CartItem): int {
    item.product.id
  }

  /** True when some line item of `items` is for product `id`. */
  predicate HasId(items: seq<CartItem>, id: int) {
    exists i :: 0 <= i < |items| && IdOf(items[i]) == id
  }

  /** At most one line item per product id. */
  predicate DistinctIds(items: seq<CartItem>) {
    forall i, j :: 0 <= i < j < |items| ==> IdOf(items[i]) != IdOf(items[j])
  }

  /** Every line item holds at least one unit. */
  predicate PositiveQuantities(items: seq<CartItem>) {
    forall i :: 0 <= i < |items| ==> items[i].quantity >= 1
  }

  /** The consistency the store keeps: ids pairwise distinct and every quantity at least 1. */
  predicate CartInvariant(items: seq<CartItem>) {
    DistinctIds(items) && PositiveQuantities(items)
  }
}
