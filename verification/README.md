# Cart store model

A Dafny model of the storefront's client-side cart store (`src/lib/store/cart.ts`).
The store holds an ordered list of cart lines. Each line has a locally generated
identifier, a product identifier, a display name, a unit price, a quantity and an
image reference. The store offers four mutating operations: add an item, remove a
line, update a line's quantity and clear the cart. It also offers two derived
totals, the item count and the price.

Each operation is a pure function from the current lines to the new lines:

- `cart.dfy` (module `Cart`) holds the data model, the reducers and the totals.
- `cart_properties.dfy` (module `CartProperties`) proves what each reducer does
  to the totals, which lines it leaves alone, and that it keeps the store's
  invariant. The invariant is distinct line identifiers and at most one line per
  product.
- `cart_store.dfy` (module `CartStore`) treats the store as a reducer over a
  trace of actions. It proves that every reachable cart keeps the invariant. It
  proves that repeated adds of one product end in a single line whose quantity
  is the sum of the added quantities. It also checks two concrete scenarios: two
  adds of one product, and adds of two products.

Prices are integer cents. The identifier that `addItem` draws from the UUID
generator is a parameter (`freshId`). Freshness of that identifier is a
precondition only of the lemmas that need it (`CartProperties.AddItemUniqueIds`,
`CartStore.ApplyWellFormed`, `CartStore.RunWellFormed`).

`removeItem` drops every line carrying the identifier (a `filter`), and
`updateItemQuantity` rewrites every such line (a `map`). Both act on every line
with that identifier, not only the first. Under the distinct-identifier invariant the two readings agree, as
`CartProperties.RemoveItemAt` and `CartProperties.UpdateItemQuantityAt` show.

## Model

| member | source | states |
|---|---|---|
| Cart.FindIndex | src/lib/store/cart.ts:32-34 | -1 exactly when no line has the product; otherwise the index of the FIRST line with that product |
| Cart.AddItem | src/lib/store/cart.ts:29-46 | if the product is present: same length, the first line for it gains `item.quantity` and nothing else changes, in that line or any other. Otherwise: the old lines are kept as a prefix and one line with `freshId` and all the item's fields is appended |
| Cart.RemoveItem | src/lib/store/cart.ts:48-52 | no line with the identifier remains; the result is no longer than the input; an identifier no line carries leaves the cart unchanged |
| Cart.UpdateItemQuantity | src/lib/store/cart.ts:54-60 | same length; every line keeps all fields except possibly its quantity; lines with the identifier get the new quantity; all other lines are unchanged |
| Cart.ClearCart | src/lib/store/cart.ts:62-64 | the cart is empty afterwards, and both the item count and the price are 0 |
| Cart.TotalItems | src/lib/store/cart.ts:66-68 | the item count of an empty cart is 0; when no quantity is negative the count is non-negative and at least the quantity of every line |
| Cart.TotalPrice | src/lib/store/cart.ts:70-75 | the price of an empty cart is 0; when no price or quantity is negative the price is non-negative and at least price times quantity of every line |
| Cart.Reduce | src/lib/store/cart.ts:66-75 | the left-to-right reduce loop from 0 computes the same value as the sum over all lines (used for both totals) |
| CartProperties.SumAppend | src/lib/store/cart.ts:66-75 | the sum over a concatenation is the sum of the sums of the parts |
| CartProperties.TotalsAppend | src/lib/store/cart.ts:66-75 | both the item count and the price are additive over concatenation of carts |
| CartProperties.AddItemMerge | src/lib/store/cart.ts:36-40 | when the product is present, adding is a point update of its first line, with the quantity raised by the added quantity |
| CartProperties.AddItemTotalItems | src/lib/store/cart.ts:29-46 | adding always raises the item count by exactly the added quantity, whether it merges or appends |
| CartProperties.AddItemTotalPrice | src/lib/store/cart.ts:29-46 | adding raises the price by the added quantity times the unit price of the receiving line: the existing line's price when merging (the new price is ignored), or the item's own price when appending |
| CartProperties.AddItemAppendTotals | src/lib/store/cart.ts:43-44 | appending a new line adds its quantity to the item count and its price times quantity to the price |
| CartProperties.AddItemMergeTotalPrice | src/lib/store/cart.ts:36-40 | merging into line k adds the added quantity at line k's existing unit price |
| CartProperties.TotalPriceRaise | src/lib/store/cart.ts:70-75 | raising one line's quantity by a raises the price by a units at that line's price |
| CartProperties.AddItemUniqueProducts | src/lib/store/cart.ts:32-44 | adding keeps at most one line per product |
| CartProperties.AddItemUniqueIds | src/lib/store/cart.ts:43-44 | adding with an identifier no line carries keeps the identifiers distinct |
| CartProperties.RemoveItemAppend | src/lib/store/cart.ts:50 | removal acts line by line and distributes over concatenation, so the surviving lines keep their order |
| CartProperties.RemoveItemMembers | src/lib/store/cart.ts:50 | a line is in the result if and only if it was in the cart and carries a different identifier |
| CartProperties.RemoveItemIdempotent | src/lib/store/cart.ts:48-52 | removing the same identifier twice is the same as removing it once |
| CartProperties.RemoveItemAt | src/lib/store/cart.ts:50 | with distinct identifiers, removing line k's identifier leaves exactly the lines before k followed by the lines after k |
| CartProperties.RemoveItemTotals | src/lib/store/cart.ts:48-52 | with distinct identifiers, removing line k lowers the item count by its quantity and the price by its price times quantity |
| CartProperties.RemoveItemWellFormed | src/lib/store/cart.ts:48-52 | removal keeps identifiers distinct and at most one line per product |
| CartProperties.UpdateItemQuantityAbsent | src/lib/store/cart.ts:56-58 | an identifier no line carries leaves the cart unchanged |
| CartProperties.UpdateItemQuantityAt | src/lib/store/cart.ts:54-60 | with distinct identifiers, updating line k changes only that line's quantity and leaves every other line as it was |
| CartProperties.UpdateItemQuantityTotals | src/lib/store/cart.ts:54-60 | with distinct identifiers, updating line k moves the item count by new minus old quantity and the price by the change in that line's amount |
| CartProperties.UpdateItemQuantityWellFormed | src/lib/store/cart.ts:54-60 | updating keeps identifiers distinct and at most one line per product |
| CartProperties.UpdateItemQuantityIdempotent | src/lib/store/cart.ts:54-60 | setting the same quantity twice is the same as setting it once |
| CartStore.Apply | src/lib/store/cart.ts:29-64 | one store operation: an add of a product already present keeps the number of lines and an add of a new product adds exactly one; a removal never adds lines; an update keeps their number; removing or updating an identifier no line carries changes nothing; a clear empties the cart |
| CartStore.ApplyWellFormed | src/lib/store/cart.ts:29-64 | every store operation, with a fresh identifier for an add, keeps identifiers distinct and at most one line per product |
| CartStore.RunWellFormed | src/lib/store/cart.ts:26-64 | starting from a well-formed cart (the empty one included), every trace of operations whose adds draw fresh identifiers ends in a well-formed cart |
| CartStore.FindIndexSameProducts | src/lib/store/cart.ts:32-34 | the first line for a product depends only on the lines' products, so changing quantities does not move it |
| CartStore.RepeatedAddsMerge | src/lib/store/cart.ts:36-40 | any number of adds of a product already present all land on its first line; its quantity grows by the sum of the added quantities; nothing else changes |
| CartStore.RepeatedAddsAppend | src/lib/store/cart.ts:29-46 | a non-empty series of adds of a product not yet in the cart appends exactly one line. The line has the first add's identifier, name, price and image, and the sum of all added quantities. The old lines are unchanged |
| CartStore.ClearResetsTotals | src/lib/store/cart.ts:62-64 | clearing yields the empty cart whatever it held, with both totals 0 |
| CartStore.ScenarioSameProductTwice | src/lib/store/cart.ts:29-46 | adding product p1 at 20.00 twice (2 units, then 1) yields one line of quantity 3 and a price of 60.00 |
| CartStore.ScenarioTwoProducts | src/lib/store/cart.ts:29-46 | adding 2 units of a 10.00 product and 1 unit of a 5.00 product yields 3 items for 25.00 |

## Left out

- Persistence and hydration (`src/lib/store/cart.ts:77-80`): the store is wrapped in
  the `persist` middleware under the key `cart-storage` with `skipHydration`. Local
  storage, serialisation and the hydration notifications are I/O. Only the in-memory
  lines are modelled.
- UUID generation (`uuidv4`, line 44): randomness. Modelled as the caller-supplied
  `freshId`; uniqueness is assumed through `FreshAdd` / `FreshIds` where a lemma needs it.
- JavaScript numbers: `price` and `quantity` are floating-point in the store; the model
  uses unbounded integers, with prices in cents. Rounding and display formatting
  (`toFixed`) are left out.
- Cart.AddItem: the merge branch (lines 38-39) copies the array but mutates the shared
  line object in place, so the previous state's line is changed as well. The model is pure
  and describes only the new list of lines. Aliasing of the old state is not modelled.
- Validation of quantities: the store accepts zero or negative quantities and never
  rejects them, so the model does not constrain them either.
- The zustand `create` / `set` / `get` plumbing and the React hooks that read the store:
  framework code. Each operation is the function its `set` callback computes.
- The advisory inventory check and the checkout that reads the cart: calling code outside
  the store.
- Cart.RemoveItem: its own contract states the absence of the identifier and the no-op
  case only. The exact survivors and their order are stated by
  `CartProperties.RemoveItemMembers`, `CartProperties.RemoveItemAppend` and
  `CartProperties.RemoveItemAt`.
