# Cart store of a mobile storefront, modelled in Dafny

This project models the cart provider of a React Native storefront (`context/CartContext.tsx`). The cart is an
insertion-ordered sequence of line items `{product, quantity}`, keyed logically by `product.id`. The provider
offers six operations: `addToCart`, `removeFromCart`, `increaseQuantity`, `decreaseQuantity`, `getTotalPrice`
and `clearCart`. It also runs a two-step persistence policy. One load at start-up sets `isInitialized` whatever
its outcome. After that, a save of the whole cart runs whenever the cart or the flag changes.

- `cart_types.dfy` (module `CartTypes`): `Product`, `CartItem` and `Option`, plus the cart invariant
  `CartInvariant`, which says ids are pairwise distinct and every quantity is at least 1.
- `cart_ops.dfy` (module `CartOps`): each operation as a pure function from the old sequence to the new one.
  The same module holds the reference sum `Sum` and the lemmas: what each operation changes, what it preserves,
  how it moves the total, and how the operations relate to one another.
- `cart_store.dfy` (module `CartStore`): class `Store`, the provider's state. It holds `items`, `initialized`
  and a ghost log `writes` of every value sent to storage. `Valid()` says two things: nothing is written before
  the load finishes, and after that the last write equals the current cart. Each mutating method assigns the
  result of the `CartOps` function and then runs `Save`.
- `cart_scenarios.dfy` (module `CartScenarios`): concrete cases. These are: adding to an empty cart, adding
  twice, decreasing at quantity 1, removing one of two items, a total of 25, loading when nothing is stored, a
  mutation made while the load is in flight, and a reload on a fresh store.

Prices are `real`, so the total is exact. Quantities are `int`, because a cart read back from storage is not
validated. A loaded cart may therefore break the invariant. For that reason every preservation result has the
form "if the old cart satisfied `CartInvariant`, the new one does".

Two behaviours of the code are worth noting:

- A mutation made while the load is in flight is lost when a stored cart exists. The load calls
  `setCartItems(JSON.parse(storedCart))` with a value, not with an update of the previous items
  (`context/CartContext.tsx:26-28`). `CartStore.Store.Load` therefore replaces the items, and
  `CartScenarios.AddBeforeLoad` shows a product added before the load being overwritten.
- `addToCart` with an id that is already present increments every line item with that id. With distinct ids
  that is exactly one item. The total then grows by the price of the product already in the cart, not by the
  price of the product passed in (`CartOps.AddToCartTotal`).

## Model

| member | source | states |
|---|---|---|
| `CartOps.Find` | context/CartContext.tsx:57-59 | finds an item exactly when some line item has the id; what it finds has that id and is in the cart; a match at the head is returned |
| `CartOps.AddToCart` | context/CartContext.tsx:54-73 | id present: same length, each item with that id gets one more unit, all others unchanged in place; id absent: the old items are kept as a prefix and `{product, 1}` is appended |
| `CartOps.AddToCartPresent` | context/CartContext.tsx:61-67 | with distinct ids and the product at index k, the result is the cart with only item k incremented |
| `CartOps.AddToCartKeepsInvariant` | context/CartContext.tsx:54-73 | adding keeps ids distinct and quantities at least 1 |
| `CartOps.AddToCartTotal` | context/CartContext.tsx:54-73 | with distinct ids the total grows by the price of the item already present, or else by the added product's price |
| `CartOps.RemoveFromCart` | context/CartContext.tsx:75-79 | no kept item has the removed id; the result is no longer than the cart |
| `CartOps.RemoveFromCartMembers` | context/CartContext.tsx:77 | an item is in the result exactly when it is in the cart and its id differs |
| `CartOps.RemoveFromCartAbsent` | context/CartContext.tsx:75-79 | removing an id that is not present is a no-op |
| `CartOps.RemoveFromCartConcat` | context/CartContext.tsx:77 | removal distributes over concatenation, so the kept items stay in their original order |
| `CartOps.RemoveFromCartIdempotent` | context/CartContext.tsx:75-79 | removing the same id twice gives the same cart as removing it once |
| `CartOps.RemoveFromCartPresent` | context/CartContext.tsx:75-79 | with distinct ids and the product at index k, the result is the cart with exactly item k cut out |
| `CartOps.RemoveFromCartKeepsInvariant` | context/CartContext.tsx:75-79 | removal keeps ids distinct and quantities at least 1 |
| `CartOps.RemoveFromCartTotal` | context/CartContext.tsx:75-79 | with distinct ids the total drops by the removed item's price times quantity |
| `CartOps.IncreaseQuantity` | context/CartContext.tsx:81-89 | same length; every item with the id gets one more unit; every other item is unchanged in place |
| `CartOps.IncreaseQuantityPresent` | context/CartContext.tsx:81-89 | with distinct ids and the product at index k, only item k changes, by one unit |
| `CartOps.IncreaseQuantityAbsent` | context/CartContext.tsx:81-89 | an unknown id leaves the cart unchanged |
| `CartOps.IncreaseQuantityTotal` | context/CartContext.tsx:81-89 | with distinct ids the total grows by exactly that product's price |
| `CartOps.IncreaseQuantityKeepsInvariant` | context/CartContext.tsx:81-89 | increasing keeps ids distinct and quantities at least 1 |
| `CartOps.DecreaseQuantity` | context/CartContext.tsx:91-99 | same length; an item with the id loses a unit only when its quantity exceeds 1; every other item is unchanged in place |
| `CartOps.DecreaseQuantityKeepsItems` | context/CartContext.tsx:91-99 | never removes an item or changes a product; quantities follow the rule above; a quantity of at least 1 stays at least 1 |
| `CartOps.DecreaseQuantityPresent` | context/CartContext.tsx:94 | with distinct ids and the product at index k: a quantity above 1 loses one unit and only item k changes; a quantity of 1 or less leaves the cart as it was |
| `CartOps.DecreaseQuantityAbsent` | context/CartContext.tsx:91-99 | an unknown id leaves the cart unchanged |
| `CartOps.DecreaseQuantityKeepsInvariant` | context/CartContext.tsx:91-99 | decreasing keeps ids distinct and quantities at least 1 |
| `CartOps.DecreaseUndoesIncrease` | context/CartContext.tsx:81-99 | when all quantities are at least 1, decreasing after increasing the same id restores the cart |
| `CartOps.IncreaseUndoesDecrease` | context/CartContext.tsx:81-99 | with distinct ids and a quantity above 1, increasing after decreasing restores the cart |
| `CartOps.ReduceIsSum` | context/CartContext.tsx:102-105 | the left-to-right accumulation from any start value equals that value plus the sum of price times quantity |
| `CartOps.TotalPrice` | context/CartContext.tsx:101-106 | getTotalPrice equals the sum over items of price times quantity |
| `CartOps.SumConcat` | context/CartContext.tsx:101-106 | the total of two concatenated carts is the sum of their totals |
| `CartOps.SumUpdate` | context/CartContext.tsx:101-106 | replacing one item changes the total by the difference of the two line totals |
| `CartOps.SumNonNegative` | context/CartContext.tsx:101-106 | the total is 0 for the empty cart, and never negative when no price or quantity is negative |
| `CartOps.ApplyKeepsInvariant` | context/CartContext.tsx:54-110 | each of the five mutations keeps ids distinct and quantities at least 1 |
| `CartOps.ApplyAllKeepsInvariant` | context/CartContext.tsx:54-110 | any sequence of mutations keeps ids distinct and quantities at least 1 |
| `CartStore.Store.constructor` | context/CartContext.tsx:18-19 | the provider starts with an empty cart, not initialized, having written nothing |
| `CartStore.Store.Persisted` | context/CartContext.tsx:40-52 | storage has been written exactly when the store is initialized, and the last value written is the current cart |
| `CartStore.Store.Save` | context/CartContext.tsx:40-52 | a write of the current cart is appended to the log exactly when the store is initialized |
| `CartStore.Store.Load` | context/CartContext.tsx:22-37 | from the uninitialized state: a stored cart replaces the items, otherwise they are kept; the store becomes initialized on every outcome and writes once |
| `CartStore.Store.AddToCart` | context/CartContext.tsx:54-73 | the items become `CartOps.AddToCart` of the old items; the flag is unchanged; one write if initialized, none otherwise; the invariant is preserved |
| `CartStore.Store.RemoveFromCart` | context/CartContext.tsx:75-79 | the items become `CartOps.RemoveFromCart` of the old items; one write if initialized; the invariant is preserved |
| `CartStore.Store.IncreaseQuantity` | context/CartContext.tsx:81-89 | the items become `CartOps.IncreaseQuantity` of the old items; one write if initialized; the invariant is preserved |
| `CartStore.Store.DecreaseQuantity` | context/CartContext.tsx:91-99 | the items become `CartOps.DecreaseQuantity` of the old items; one write if initialized; the invariant is preserved |
| `CartStore.Store.ClearCart` | context/CartContext.tsx:108-110 | the items become empty; if initialized, the empty cart is written |
| `CartStore.Store.GetTotalPrice` | context/CartContext.tsx:101-106 | returns the sum of price times quantity over the current items and changes nothing |
| `CartScenarios.AddToEmptyCart` | context/CartContext.tsx:68-71 | adding P1 to the empty cart gives `[{P1, 1}]` |
| `CartScenarios.AddTwice` | context/CartContext.tsx:61-67 | adding P1 twice gives `[{P1, 2}]` and no duplicate entry |
| `CartScenarios.DecreaseAtOne` | context/CartContext.tsx:94 | decreasing `[{P1, 1}]` leaves it unchanged |
| `CartScenarios.RemoveFirstOfTwo` | context/CartContext.tsx:77 | removing P1 from `[{P1, 2}, {P2, 1}]` gives `[{P2, 1}]` |
| `CartScenarios.LoadNothingStored` | context/CartContext.tsx:22-37 | when nothing is stored, the load leaves the empty cart, initializes the store and writes the empty cart once |
| `CartScenarios.AddBeforeLoad` | context/CartContext.tsx:22-37 | a product added before the load finishes is not written, and a stored cart that arrives afterwards replaces it; the one write is the stored cart |
| `CartScenarios.Reload` | context/CartContext.tsx:40-52 | after a load and some mutations the last write is the current cart, and a fresh store loading it holds the same items |
| `CartScenarios.TotalOfTwo` | context/CartContext.tsx:102-105 | prices 10 and 5 with quantities 2 and 1 give a total of 25 |

## Left out

- React rendering, the context object, the provider wiring and the `useCart` guard that throws outside a
  provider (`context/CartContext.tsx:112-135`). These are framework plumbing, not cart logic.
- AsyncStorage and `JSON.parse`/`JSON.stringify`. `CartStore.Store.Load` takes the outcome of the read as an
  `Option`. `None` stands for an absent key, an empty string (falsy for `if (storedCart)`), a failed read and a
  parse error. A parse that yields a value of some other shape, which the code would store unchecked, is not
  modelled. A save is a ghost record in `writes`, not a serialiser.
- CartStore.Store.Persisted: reports the last write issued. It does not model a write that fails, or writes
  that complete out of order. Both are asynchronous I/O outcomes, so what storage actually holds can be an
  earlier value.
- `console.error` logging on load and save failures, because it is output only.
- CartOps.Find: states only which carts it finds an item in. It does not state that the item found is always
  the first match, because `addToCart` only tests whether an item was found.
- Floating-point price arithmetic. Prices are exact `real` values, so rounding in JavaScript numbers is not
  modelled.
- The screens, components and catalog client (`components/`, `app/`, `services/api.ts`). They are layout,
  navigation and an HTTP catalog client; the screens that touch the cart only call the store's operations
  (`components/CartItem.tsx:47,61,69`, `app/product/[id].tsx:50`, `app/(tabs)/cart.tsx:24-25`).
