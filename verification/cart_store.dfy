/**
 The store as a reducer over a trace of actions: each action is one call of a
 store operation, and `Run` applies a trace to an initial list of lines. The
 identifier each add would draw from the UUID generator is carried by the
 action itself.
 */
module CartStore {
  import opened Cart
  import opened CartProperties

  /** One call of a mutating store operation. */
  datatype Action =
    | Add(item: NewItem, freshId: Id)
    | Remove(id: Id)
    | Update(id: Id, quantity: int)
    | Clear

  /** The action, if an add, draws an identifier no line carries yet. */
  predicate FreshAdd(items: seq<CartItem>, a: Action) {
    a.Add? ==> !HasId(items, a.freshId)
  }

  /** The new lines after one action. An add of a product already present
      keeps the number of lines and an add of a new product adds one line; a
      removal never adds lines; an update keeps their number; removing or
      updating an identifier no line carries changes nothing; a clear empties
      the cart. */
  function Apply(items: seq<CartItem>, a: Action): (r: seq<CartItem>)
    ensures a.Add? && HasProduct(items, a.item.productId) ==> |r| == |items|
    ensures a.Add? && !HasProduct(items, a.item.productId) ==> |r| == |items| + 1
    ensures a.Remove? ==> |r| <= |items|
    ensures a.Update? ==> |r| == |items|
    ensures (a.Remove? || a.Update?) && !HasId(items, a.id) ==> r == items
    ensures a.Clear? ==> r == []
  {
    match a
    case Add(item, freshId) => AddItem(items, item, freshId)
    case Remove(id) => RemoveItem(items, id)
    case Update(id, quantity) =>
      if HasId(items, id) then UpdateItemQuantity(items, id, quantity)
      else UpdateItemQuantityAbsent(items, id, quantity); UpdateItemQuantity(items, id, quantity)
    case Clear => ClearCart()
  }

  /** The lines after applying the whole trace in order. */
  function Run(items: seq<CartItem>, actions: seq<Action>): seq<CartItem>
    decreases |actions|
  {
    if |actions| == 0 then items
    else Apply(Run(items, actions[..|actions| - 1]), actions[|actions| - 1])
  }

  /** Every add of the trace draws an identifier unused in the state it is
      applied to, as a UUID generator does. */
  predicate FreshIds(items: seq<CartItem>, actions: seq<Action>)
    decreases |actions|
  {
    |actions| == 0 ||
    (FreshIds(items, actions[..|actions| - 1]) &&
     FreshAdd(Run(items, actions[..|actions| - 1]), actions[|actions| - 1]))
  }

  /** Every action keeps distinct identifiers and one line per product. */
  lemma ApplyWellFormed(items: seq<CartItem>, a: Action)
    requires FreshAdd(items, a)
    requires WellFormed(items)
    ensures WellFormed(Apply(items, a))
  {
    match a
    case Add(item, freshId) =>
      AddItemUniqueIds(items, item, freshId);
      AddItemUniqueProducts(items, item, freshId);
    case Remove(id) =>
      RemoveItemWellFormed(items, id);
    case Update(id, quantity) =>
      UpdateItemQuantityWellFormed(items, id, quantity);
    case Clear =>
  }

  /** Every reachable cart is well formed: starting from a well-formed cart
      (the empty one in particular), any runnable trace keeps the invariant. */
  lemma {:induction false} RunWellFormed(items: seq<CartItem>, actions: seq<Action>)
    requires WellFormed(items)
    requires FreshIds(items, actions)
    ensures WellFormed(Run(items, actions))
    decreases |actions|
  {
    if |actions| > 0 {
      var init := actions[..|actions| - 1];
      RunWellFormed(items, init);
      ApplyWellFormed(Run(items, init), actions[|actions| - 1]);
    }
  }

  /** How much an action adds to the item count if it is an add. */
  function AddedQuantity(a: Action): int {
    if a.Add? then a.item.quantity else 0
  }

  /** The trace consists of adds of product `p` only. */
  predicate AddsOf(actions: seq<Action>, p: ProductId) {
    forall i :: 0 <= i < |actions| ==> actions[i].Add? && actions[i].item.productId == p
  }

  /** Repeated adds of a product already in the cart all land on its first
      line, whose quantity grows by the sum of the added quantities; every
      other line, and that line's other fields, stay as they were. */
  lemma {:induction false} RepeatedAddsMerge(items: seq<CartItem>, p: ProductId, k: nat, adds: seq<Action>)
    requires k == FindIndex(items, p)
    requires k < |items|
    requires AddsOf(adds, p)
    ensures Run(items, adds) == items[k := Raise(items[k], Sum(adds, AddedQuantity))]
    decreases |adds|
  {
    if |adds| == 0 {
      assert items[k := Raise(items[k], 0)] == items;
    } else {
      var init, a := adds[..|adds| - 1], adds[|adds| - 1];
      var s := Sum(init, AddedQuantity);
      RepeatedAddsMerge(items, p, k, init);
      var merged := items[k := Raise(items[k], s)];
      FindIndexSameProducts(items, merged, p);
      AddItemMerge(merged, a.item, a.freshId, k);
      assert merged[k := Raise(merged[k], a.item.quantity)] == items[k := Raise(items[k], s + a.item.quantity)];
    }
  }

  /** Repeated adds of a product not yet in the cart append exactly one line,
      with the first add's identifier, name, price and image and the sum of
      all added quantities; the existing lines are unchanged. */
  lemma {:induction false} RepeatedAddsAppend(items: seq<CartItem>, p: ProductId, adds: seq<Action>)
    requires !HasProduct(items, p)
    requires |adds| > 0
    requires AddsOf(adds, p)
    ensures var first := adds[0];
            Run(items, adds) == items + [CartItem(first.freshId, p, first.item.name, first.item.price,
                                                   Sum(adds, AddedQuantity), first.item.image)]
    decreases |adds|
  {
    var first := adds[0];
    var line := CartItem(first.freshId, p, first.item.name, first.item.price, Sum(adds, AddedQuantity), first.item.image);
    if |adds| == 1 {
      assert adds[..0] == [];
      assert Sum(adds, AddedQuantity) == first.item.quantity;
    } else {
      var init, a := adds[..|adds| - 1], adds[|adds| - 1];
      var s := Sum(init, AddedQuantity);
      assert init[0] == first;
      RepeatedAddsAppend(items, p, init);
      var before := CartItem(first.freshId, p, first.item.name, first.item.price, s, first.item.image);
      var k := |items|;
      assert FindIndex(items + [before], p) == k by {
        assert (items + [before])[..k] == items;
      }
      AddItemMerge(items + [before], a.item, a.freshId, k);
      assert (items + [before])[k := Raise(before, a.item.quantity)] == items + [line];
    }
  }

  /** Lines that agree on their products have the same first line per product. */
  lemma {:induction false} FindIndexSameProducts(a: seq<CartItem>, b: seq<CartItem>, p: ProductId)
    requires |a| == |b|
    requires forall i :: 0 <= i < |a| ==> a[i].productId == b[i].productId
    ensures FindIndex(a, p) == FindIndex(b, p)
    decreases |a|
  {
    if |a| > 0 {
      FindIndexSameProducts(a[..|a| - 1], b[..|b| - 1], p);
    }
  }

  /** Clearing empties the cart whatever it held, and both totals drop to 0. */
  lemma ClearResetsTotals(items: seq<CartItem>)
    ensures Apply(items, Clear) == []
    ensures TotalItems(Apply(items, Clear)) == 0
    ensures TotalPrice(Apply(items, Clear)) == 0
  {
  }

  /** Two adds of the same product at 20.00 (2 then 1) leave one line of
      quantity 3 and a total price of 60.00. */
  lemma ScenarioSameProductTwice()
    ensures var actions := [Add(NewItem("p1", "Shirt", 2000, 2, "x"), "line-1"),
                            Add(NewItem("p1", "Shirt", 2000, 1, "x"), "line-2")];
            && FreshIds([], actions)
            && Run([], actions) == [CartItem("line-1", "p1", "Shirt", 2000, 3, "x")]
            && TotalPrice(Run([], actions)) == 6000
  {
    var a0 := Add(NewItem("p1", "Shirt", 2000, 2, "x"), "line-1");
    var a1 := Add(NewItem("p1", "Shirt", 2000, 1, "x"), "line-2");
    var one := [CartItem("line-1", "p1", "Shirt", 2000, 2, "x")];
    var two := [CartItem("line-1", "p1", "Shirt", 2000, 3, "x")];
    assert [a0, a1][..1] == [a0];
    assert [a0][..0] == [];
    assert Run([], [a0]) == one;
    assert !HasId(one, "line-2");
    assert FindIndex(one, "p1") == 0;
    assert Apply(one, a1) == two;
    SumSingleton(two[0], Amount);
  }

  /** Adding two units of a 10.00 product and one unit of a 5.00 product gives
      three items for 25.00. */
  lemma ScenarioTwoProducts()
    ensures var actions := [Add(NewItem("p1", "A", 1000, 2, "a"), "line-1"),
                            Add(NewItem("p2", "B", 500, 1, "b"), "line-2")];
            && FreshIds([], actions)
            && TotalItems(Run([], actions)) == 3
            && TotalPrice(Run([], actions)) == 2500
  {
    var a0 := Add(NewItem("p1", "A", 1000, 2, "a"), "line-1");
    var a1 := Add(NewItem("p2", "B", 500, 1, "b"), "line-2");
    var l1 := CartItem("line-1", "p1", "A", 1000, 2, "a");
    assert Run([], [a0]) == [l1] by {
      assert [a0][..0] == [];
    }
    assert Run([], [a0, a1]) == AddItem([l1], a1.item, a1.freshId) && FreshIds([], [a0, a1]) by {
      assert [a0, a1][..1] == [a0];
      assert [a0][..0] == [];
      assert !HasId([l1], "line-2");
    }
    assert !HasProduct([l1], "p2");
    AddItemAppendTotals([l1], a1.item, a1.freshId);
    SumSingleton(l1, Quantity);
    SumSingleton(l1, Amount);
  }
}
