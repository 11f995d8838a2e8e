/**
 The cart store: an ordered sequence of line items and the pure reducers that
 transform it (add, remove, update quantity, clear) together with the two
 derived totals. Every reducer is a function from the current lines to the new
 lines; the store object that holds them is not modelled.
 */
module Cart {

  /** Locally generated line identifier (a UUID in the store). */
  type Id = string

  /** Identifier of the product a line refers to. */
  type ProductId = string

  /** One line of the cart. `price` is a unit price in integer cents. Neither
      price nor quantity is constrained: the store accepts any value. */
  datatype CartItem = CartItem(
    id: Id,
    productId: ProductId,
    name: string,
    price: int,
    quantity: int,
    image: string)

  /** What a caller hands to `AddItem`: a line without its identifier. */
  datatype NewItem = NewItem(
    productId: ProductId,
    name: string,
    price: int,
    quantity: int,
    image: string)

  /** The line with `n` more units. */
  function Raise(x: CartItem, n: int): CartItem {
    x.(quantity := x.quantity + n)
  }

  /** The line created for `item` under identifier `id`. */
  function WithId(item: NewItem, id: Id): CartItem {
    CartItem(id, item.productId, item.name, item.price, item.quantity, item.image)
  }

  /** Some line carries identifier `id`. */
  predicate HasId(items: seq<CartItem>, id: Id) {
    exists i :: 0 <= i < |items| && items[i].id == id
  }

  /** Some line refers to product `p`. */
  predicate HasProduct(items: seq<CartItem>, p: ProductId) {
    exists i :: 0 <= i < |items| && items[i].productId == p
  }

  /** At most one line per product: the store's central invariant. */
  predicate UniqueProducts(items: seq<CartItem>) {
    forall i, j :: 0 <= i < j < |items| ==> items[i].productId != items[j].productId
  }

  /** No two lines share an identifier. */
  predicate UniqueIds(items: seq<CartItem>) {
    forall i, j :: 0 <= i < j < |items| ==> items[i].id != items[j].id
  }

  predicate WellFormed(items: seq<CartItem>) {
    UniqueIds(items) && UniqueProducts(items)
  }

  /* ---------------------------------------------------------------------------
     Totals
     ------------------------------------------------------------------------ */

  /** Left fold with `+` starting from 0, one term per element. */
  function Sum<T>(xs: seq<T>, f: T -> int): int {
    if |xs| == 0 then 0 else Sum(xs[..|xs| - 1], f) + f(xs[|xs| - 1])
  }

  function Quantity(x: CartItem): int {
    x.quantity
  }

  function Amount(x: CartItem): int {
    x.price * x.quantity
  }

  /** With no negative term, the sum is non-negative and bounds every term. */
  lemma {:induction false} SumBounds<T>(xs: seq<T>, f: T -> int)
    ensures (forall i :: 0 <= i < |xs| ==> f(xs[i]) >= 0) ==>
              Sum(xs, f) >= 0 && forall i :: 0 <= i < |xs| ==> f(xs[i]) <= Sum(xs, f)
    decreases |xs|
  {
    if |xs| > 0 {
      var init := xs[..|xs| - 1];
      assert forall i :: 0 <= i < |init| ==> init[i] == xs[i];
      SumBounds(init, f);
    }
  }

  /** A line with non-negative price and quantity has a non-negative amount. */
  lemma AmountsNonNegative(items: seq<CartItem>)
    ensures (forall i :: 0 <= i < |items| ==> items[i].price >= 0 && items[i].quantity >= 0) ==>
              forall i :: 0 <= i < |items| ==> Amount(items[i]) >= 0
  {
  }

  /** Number of items in the cart: the sum of the line quantities. An empty
      cart holds none; when no quantity is negative the count is non-negative
      and at least the quantity of every single line. */
  function TotalItems(items: seq<CartItem>): (r: int)
    ensures |items| == 0 ==> r == 0
    ensures (forall i :: 0 <= i < |items| ==> items[i].quantity >= 0) ==>
              r >= 0 && forall i :: 0 <= i < |items| ==> items[i].quantity <= r
  {
    SumBounds(items, Quantity);
    Sum(items, Quantity)
  }

  /** Price of the cart: the sum of unit price times quantity over all lines.
      An empty cart costs nothing; when no price or quantity is negative the
      price is non-negative and at least the amount of every single line. */
  function TotalPrice(items: seq<CartItem>): (r: int)
    ensures |items| == 0 ==> r == 0
    ensures (forall i :: 0 <= i < |items| ==> items[i].price >= 0 && items[i].quantity >= 0) ==>
              r >= 0 && forall i :: 0 <= i < |items| ==> Amount(items[i]) <= r
  {
    AmountsNonNegative(items);
    SumBounds(items, Amount);
    Sum(items, Amount)
  }

  /** The reduce loop the store runs for both totals. */
  method Reduce<T>(xs: seq<T>, f: T -> int) returns (total: int)
    ensures total == Sum(xs, f)
  {
    total := 0;
    var i := 0;
    while i < |xs|
      invariant 0 <= i <= |xs|
      invariant total == Sum(xs[..i], f)
    {
      assert xs[..i + 1][..i] == xs[..i];
      total := total + f(xs[i]);
      i := i + 1;
    }
    assert xs[..|xs|] == xs;
  }

  /* ---------------------------------------------------------------------------
     Reducers
     ------------------------------------------------------------------------ */

  /** Index of the first line for product `p`, or -1 when there is none. */
  function FindIndex(items: seq<CartItem>, p: ProductId): (r: int)
    ensures -1 <= r < |items|
    ensures r == -1 <==> !HasProduct(items, p)
    ensures r >= 0 ==> items[r].productId == p
    ensures forall j :: 0 <= j < r ==> items[j].productId != p
  {
    if |items| == 0 then -1
    else
      var k := FindIndex(items[..|items| - 1], p);
      if k >= 0 then k
      else if items[|items| - 1].productId == p then |items| - 1
      else -1
  }

  /** Adds `item`: a line for the same product has its quantity increased,
      otherwise a new line with identifier `freshId` is appended. `freshId`
      stands for the UUID the store generates. */
  function AddItem(items: seq<CartItem>, item: NewItem, freshId: Id): (r: seq<CartItem>)
    // merge: same length, only the first line of the product changes, and only its quantity
    ensures HasProduct(items, item.productId) ==>
              var k := FindIndex(items, item.productId);
              && |r| == |items|
              && r[k].quantity == items[k].quantity + item.quantity
              && r[k].(quantity := items[k].quantity) == items[k]
              && forall i :: 0 <= i < |items| && i != k ==> r[i] == items[i]
    // append: one more line at the end, carrying the fresh id and the item's fields
    ensures !HasProduct(items, item.productId) ==>
              && |r| == |items| + 1
              && r[..|items|] == items
              && r[|items|].id == freshId
              && r[|items|].productId == item.productId
              && r[|items|].name == item.name
              && r[|items|].price == item.price
              && r[|items|].quantity == item.quantity
              && r[|items|].image == item.image
  {
    var k := FindIndex(items, item.productId);
    if k > -1 then
      items[k := Raise(items[k], item.quantity)]
    else
      items + [WithId(item, freshId)]
  }

  /** Drops every line whose identifier is `id`, keeping the rest in order. */
  function RemoveItem(items: seq<CartItem>, id: Id): (r: seq<CartItem>)
    ensures !HasId(r, id)
    ensures |r| <= |items|
    ensures !HasId(items, id) ==> r == items
  {
    if |items| == 0 then []
    else (if items[0].id != id then [items[0]] else []) + RemoveItem(items[1..], id)
  }

  /** Sets the quantity of every line whose identifier is `id` to `quantity`. */
  function UpdateItemQuantity(items: seq<CartItem>, id: Id, quantity: int): (r: seq<CartItem>)
    ensures |r| == |items|
    ensures forall i :: 0 <= i < |items| ==> r[i].(quantity := items[i].quantity) == items[i]
    ensures forall i :: 0 <= i < |items| && items[i].id == id ==> r[i].quantity == quantity
    ensures forall i :: 0 <= i < |items| && items[i].id != id ==> r[i] == items[i]
  {
    if |items| == 0 then []
    else [if items[0].id == id then items[0].(quantity := quantity) else items[0]]
         + UpdateItemQuantity(items[1..], id, quantity)
  }

  /** Empties the cart. */
  function ClearCart(): (r: seq<CartItem>)
    ensures r == []
    ensures TotalItems(r) == 0 && TotalPrice(r) == 0
  {
    []
  }
}
