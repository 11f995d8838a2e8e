/**
 Properties of the cart reducers: how each one moves the totals, which lines it
 leaves alone, and that each keeps the one-line-per-product invariant.
 */
module CartProperties {
  import opened Cart

  /* ---------------------------------------------------------------------------
     Sums
     ------------------------------------------------------------------------ */

  /** A fold with `+` is additive over concatenation. */
  lemma {:induction false} SumAppend<T>(a: seq<T>, b: seq<T>, f: T -> int)
    ensures Sum(a + b, f) == Sum(a, f) + Sum(b, f)
    decreases |b|
  {
    if |b| == 0 {
      assert a + b == a;
    } else {
      var b' := b[..|b| - 1];
      assert (a + b)[..|a + b| - 1] == a + b';
      SumAppend(a, b', f);
    }
  }

  lemma SumSingleton<T>(x: T, f: T -> int)
    ensures Sum([x], f) == f(x)
  {
    assert [x][..0] == [];
  }

  /** Replacing one element changes the sum by the difference of the two terms. */
  lemma SumUpdate<T>(xs: seq<T>, k: nat, x: T, f: T -> int)
    requires k < |xs|
    ensures Sum(xs[k := x], f) == Sum(xs, f) - f(xs[k]) + f(x)
  {
    var pre, post := xs[..k], xs[k + 1..];
    assert xs == pre + [xs[k]] + post;
    assert xs[k := x] == pre + [x] + post;
    SumAppend(pre + [xs[k]], post, f);
    SumAppend(pre + [x], post, f);
    SumAppend(pre, [xs[k]], f);
    SumAppend(pre, [x], f);
    assert [x][..0] == [];
    assert [xs[k]][..0] == [];
  }

  lemma SplitAt<T>(xs: seq<T>, k: nat)
    requires k < |xs|
    ensures xs == xs[..k] + ([xs[k]] + xs[k + 1..])
    ensures xs == xs[..k] + [xs[k]] + xs[k + 1..]
  {
    assert xs[k..] == [xs[k]] + xs[k + 1..];
    assert xs == xs[..k] + xs[k..];
  }

  /** Dropping the element at `k` takes its term off the sum. */
  lemma {:induction false} SumRemoveAt<T>(xs: seq<T>, k: nat, f: T -> int)
    requires k < |xs|
    ensures Sum(xs[..k] + xs[k + 1..], f) == Sum(xs, f) - f(xs[k])
  {
    var pre, post := xs[..k], xs[k + 1..];
    SplitAt(xs, k);
    SumAppend(pre, post, f);
    SumAppend(pre + [xs[k]], post, f);
    SumAppend(pre, [xs[k]], f);
    SumSingleton(xs[k], f);
  }

  /** Both totals are additive over concatenation; this is how appending a
      line moves them. */
  lemma TotalsAppend(a: seq<CartItem>, b: seq<CartItem>)
    ensures TotalItems(a + b) == TotalItems(a) + TotalItems(b)
    ensures TotalPrice(a + b) == TotalPrice(a) + TotalPrice(b)
  {
    SumAppend(a, b, Quantity);
    SumAppend(a, b, Amount);
  }

  /* ---------------------------------------------------------------------------
     AddItem
     ------------------------------------------------------------------------ */

  /** In the merge case the result is a point update of the first line for the
      product. */
  lemma AddItemMerge(items: seq<CartItem>, item: NewItem, freshId: Id, k: nat)
    requires k == FindIndex(items, item.productId)
    requires k < |items|
    ensures AddItem(items, item, freshId) == items[k := Raise(items[k], item.quantity)]
  {
    var r := AddItem(items, item, freshId);
    var e := items[k := Raise(items[k], item.quantity)];
    assert |r| == |e|;
    forall i | 0 <= i < |r| ensures r[i] == e[i] {
      if i == k {
        assert r[k].(quantity := items[k].quantity) == items[k];
      }
    }
  }

  /** Adding `item` raises the item count by exactly `item.quantity`, whether
      the line is merged or appended. */
  lemma AddItemTotalItems(items: seq<CartItem>, item: NewItem, freshId: Id)
    ensures TotalItems(AddItem(items, item, freshId)) == TotalItems(items) + item.quantity
  {
    var k := FindIndex(items, item.productId);
    if k >= 0 {
      AddItemMerge(items, item, freshId, k);
      SumUpdate(items, k, Raise(items[k], item.quantity), Quantity);
    } else {
      AddItemAppendTotals(items, item, freshId);
    }
  }

  /** Adding `item` raises the price by the amount of the added quantity at
      the unit price of the line that receives it: the price already in the
      cart when the product is present (the item's own price is then ignored),
      the item's price when a line is appended. */
  lemma AddItemTotalPrice(items: seq<CartItem>, item: NewItem, freshId: Id)
    ensures var k := FindIndex(items, item.productId);
            var receiver := if k >= 0 then items[k] else WithId(item, freshId);
            TotalPrice(AddItem(items, item, freshId))
              == TotalPrice(items) + Amount(receiver.(quantity := item.quantity))
  {
    var k := FindIndex(items, item.productId);
    if k >= 0 {
      AddItemMergeTotalPrice(items, item, freshId, k);
    } else {
      AddItemAppendTotals(items, item, freshId);
      assert WithId(item, freshId).(quantity := item.quantity) == WithId(item, freshId);
    }
  }

  /** Appending a line adds its quantity and its amount to the totals. */
  lemma AddItemAppendTotals(items: seq<CartItem>, item: NewItem, freshId: Id)
    requires !HasProduct(items, item.productId)
    ensures TotalItems(AddItem(items, item, freshId)) == TotalItems(items) + item.quantity
    ensures TotalPrice(AddItem(items, item, freshId)) == TotalPrice(items) + Amount(WithId(item, freshId))
  {
    var line := WithId(item, freshId);
    assert AddItem(items, item, freshId) == items + [line];
    TotalsAppend(items, [line]);
    SumSingleton(line, Quantity);
    SumSingleton(line, Amount);
  }

  /** Merging into line `k` adds the added quantity at that line's price. */
  lemma {:induction false} AddItemMergeTotalPrice(items: seq<CartItem>, item: NewItem, freshId: Id, k: nat)
    requires k == FindIndex(items, item.productId)
    requires k < |items|
    ensures TotalPrice(AddItem(items, item, freshId))
              == TotalPrice(items) + Amount(items[k].(quantity := item.quantity))
  {
    var merged := items[k := Raise(items[k], item.quantity)];
    var before := TotalPrice(items);
    var after := TotalPrice(AddItem(items, item, freshId));
    var added := Amount(items[k].(quantity := item.quantity));
    assert after == TotalPrice(merged) by {
      AddItemMerge(items, item, freshId, k);
    }
    assert TotalPrice(merged) == before + added by {
      TotalPriceRaise(items, k, item.quantity);
    }
  }

  /** Raising the quantity of line `k` by `a` raises the price by the amount of
      `a` units at that line's price. */
  lemma TotalPriceRaise(items: seq<CartItem>, k: nat, a: int)
    requires k < |items|
    ensures TotalPrice(items[k := Raise(items[k], a)])
              == TotalPrice(items) + Amount(items[k].(quantity := a))
  {
    SumUpdate(items, k, Raise(items[k], a), Amount);
    AmountAdd(items[k], a);
  }

  /** Raising a line's quantity by `a` raises its amount by the amount of `a`
      units at the line's price. */
  lemma AmountAdd(x: CartItem, a: int)
    ensures Amount(Raise(x, a)) == Amount(x) + Amount(x.(quantity := a))
  {
    var p, q := x.price, x.quantity;
    assert p * (q + a) == p * q + p * a;
  }

  /** Adding keeps at most one line per product. */
  lemma AddItemUniqueProducts(items: seq<CartItem>, item: NewItem, freshId: Id)
    requires UniqueProducts(items)
    ensures UniqueProducts(AddItem(items, item, freshId))
  {
    var r := AddItem(items, item, freshId);
    var k := FindIndex(items, item.productId);
    if k >= 0 {
      forall i | 0 <= i < |r| ensures r[i].productId == items[i].productId {
        if i == k {
          assert r[k].(quantity := items[k].quantity) == items[k];
        }
      }
    } else {
      forall i, j | 0 <= i < j < |r| ensures r[i].productId != r[j].productId {
        if j == |items| {
          assert r[i] == items[i];
        } else {
          assert r[i] == items[i] && r[j] == items[j];
        }
      }
    }
  }

  /** With a fresh identifier, adding keeps the line identifiers distinct. */
  lemma AddItemUniqueIds(items: seq<CartItem>, item: NewItem, freshId: Id)
    requires !HasId(items, freshId)
    requires UniqueIds(items)
    ensures UniqueIds(AddItem(items, item, freshId))
  {
    var r := AddItem(items, item, freshId);
    var k := FindIndex(items, item.productId);
    if k >= 0 {
      forall i | 0 <= i < |r| ensures r[i].id == items[i].id {
        if i == k {
          assert r[k].(quantity := items[k].quantity) == items[k];
        }
      }
    } else {
      forall i, j | 0 <= i < j < |r| ensures r[i].id != r[j].id {
        assert r[i] == items[i];
        if j < |items| {
          assert r[j] == items[j];
        }
      }
    }
  }

  /* ---------------------------------------------------------------------------
     RemoveItem
     ------------------------------------------------------------------------ */

  /** Removal works line by line: it distributes over concatenation, so the
      surviving lines keep their relative order. */
  lemma {:induction false} RemoveItemAppend(a: seq<CartItem>, b: seq<CartItem>, id: Id)
    ensures RemoveItem(a + b, id) == RemoveItem(a, id) + RemoveItem(b, id)
    decreases |a|
  {
    if |a| == 0 {
      assert a + b == b;
    } else {
      assert (a + b)[0] == a[0];
      assert (a + b)[1..] == a[1..] + b;
      RemoveItemAppend(a[1..], b, id);
    }
  }

  /** Removing twice is removing once. */
  lemma RemoveItemIdempotent(items: seq<CartItem>, id: Id)
    ensures RemoveItem(RemoveItem(items, id), id) == RemoveItem(items, id)
  {
  }

  /** With distinct identifiers, removing the line at `k` takes its quantity
      and its amount off the totals. */
  lemma {:induction false} RemoveItemTotals(items: seq<CartItem>, k: nat)
    requires UniqueIds(items)
    requires k < |items|
    ensures TotalItems(RemoveItem(items, items[k].id)) == TotalItems(items) - items[k].quantity
    ensures TotalPrice(RemoveItem(items, items[k].id)) == TotalPrice(items) - Amount(items[k])
  {
    RemoveItemAt(items, k);
    SumRemoveAt(items, k, Quantity);
    SumRemoveAt(items, k, Amount);
  }

  /** With distinct identifiers, removing the line at `k` leaves exactly the
      lines before it followed by the lines after it. */
  lemma {:induction false} RemoveItemAt(items: seq<CartItem>, k: nat)
    requires UniqueIds(items)
    requires k < |items|
    ensures RemoveItem(items, items[k].id) == items[..k] + items[k + 1..]
  {
    var id := items[k].id;
    var pre, post := items[..k], items[k + 1..];
    assert items == pre + ([items[k]] + post) by {
      SplitAt(items, k);
    }
    assert RemoveItem(pre, id) == pre && RemoveItem(post, id) == post by {
      IdOnlyAt(items, k);
    }
    assert RemoveItem([items[k]], id) == [] by {
      assert [items[k]][1..] == [];
      assert RemoveItem([items[k]][1..], id) == [];
    }
    assert RemoveItem(items, id) == pre + RemoveItem([items[k]] + post, id) by {
      RemoveItemAppend(pre, [items[k]] + post, id);
    }
    assert RemoveItem([items[k]] + post, id) == post by {
      RemoveItemAppend([items[k]], post, id);
    }
  }

  /** With distinct identifiers, the identifier of line `k` occurs nowhere else. */
  lemma IdOnlyAt(items: seq<CartItem>, k: nat)
    requires UniqueIds(items)
    requires k < |items|
    ensures !HasId(items[..k], items[k].id)
    ensures !HasId(items[k + 1..], items[k].id)
  {
    var post := items[k + 1..];
    forall i | 0 <= i < |post| ensures post[i].id != items[k].id {
      assert post[i] == items[k + 1 + i];
    }
  }

  /** Removal keeps exactly the lines whose identifier differs from `id`. */
  lemma {:induction false} RemoveItemMembers(items: seq<CartItem>, id: Id)
    ensures forall x :: x in RemoveItem(items, id) <==> x in items && x.id != id
    decreases |items|
  {
    if |items| > 0 {
      RemoveItemMembers(items[1..], id);
      assert items == [items[0]] + items[1..];
    }
  }

  /** Removal keeps both the distinct-identifier and the one-line-per-product
      invariant. */
  lemma {:induction false} RemoveItemWellFormed(items: seq<CartItem>, id: Id)
    requires WellFormed(items)
    ensures WellFormed(RemoveItem(items, id))
    decreases |items|
  {
    if |items| > 0 {
      var h, tail := items[0], items[1..];
      var rest := RemoveItem(tail, id);
      RemoveItemWellFormed(tail, id);
      if h.id != id {
        var r := [h] + rest;
        forall j | 0 <= j < |rest| ensures rest[j].id != h.id && rest[j].productId != h.productId {
          RemoveItemMembers(tail, id);
          assert rest[j] in tail;
          var i :| 0 <= i < |tail| && tail[i] == rest[j];
          assert items[i + 1] == rest[j];
        }
        forall i, j | 0 <= i < j < |r| ensures r[i].id != r[j].id && r[i].productId != r[j].productId {
          assert r[j] == rest[j - 1];
          if i > 0 {
            assert r[i] == rest[i - 1];
          }
        }
        assert RemoveItem(items, id) == r;
      }
    }
  }

  /* ---------------------------------------------------------------------------
     UpdateItemQuantity
     ------------------------------------------------------------------------ */

  /** An identifier no line carries leaves the cart unchanged. */
  lemma UpdateItemQuantityAbsent(items: seq<CartItem>, id: Id, quantity: int)
    requires !HasId(items, id)
    ensures UpdateItemQuantity(items, id, quantity) == items
  {
    var r := UpdateItemQuantity(items, id, quantity);
    assert forall i :: 0 <= i < |items| ==> r[i] == items[i];
  }

  /** With distinct identifiers, updating the line at `k` is a point update
      of that line's quantity. */
  lemma {:induction false} UpdateItemQuantityAt(items: seq<CartItem>, k: nat, quantity: int)
    requires UniqueIds(items)
    requires k < |items|
    ensures UpdateItemQuantity(items, items[k].id, quantity) == items[k := items[k].(quantity := quantity)]
  {
    var r := UpdateItemQuantity(items, items[k].id, quantity);
    var e := items[k := items[k].(quantity := quantity)];
    forall i | 0 <= i < |items| ensures r[i] == e[i] {
      if i == k {
        assert r[k].(quantity := items[k].quantity) == items[k];
      }
    }
  }

  /** With distinct identifiers, updating the line at `k` moves the totals by
      the change in that line alone. */
  lemma {:induction false} UpdateItemQuantityTotals(items: seq<CartItem>, k: nat, quantity: int)
    requires UniqueIds(items)
    requires k < |items|
    ensures TotalItems(UpdateItemQuantity(items, items[k].id, quantity))
              == TotalItems(items) - items[k].quantity + quantity
    ensures TotalPrice(UpdateItemQuantity(items, items[k].id, quantity))
              == TotalPrice(items) - Amount(items[k]) + Amount(items[k].(quantity := quantity))
  {
    var line := items[k].(quantity := quantity);
    UpdateItemQuantityAt(items, k, quantity);
    SumUpdate(items, k, line, Quantity);
    SumUpdate(items, k, line, Amount);
  }

  /** Updating keeps both invariants: identifiers and products are untouched. */
  lemma UpdateItemQuantityWellFormed(items: seq<CartItem>, id: Id, quantity: int)
    requires WellFormed(items)
    ensures WellFormed(UpdateItemQuantity(items, id, quantity))
  {
    var r := UpdateItemQuantity(items, id, quantity);
    forall i | 0 <= i < |items| ensures r[i].id == items[i].id && r[i].productId == items[i].productId {
      assert r[i].(quantity := items[i].quantity) == items[i];
    }
  }

  /** Updating to the same quantity twice is updating once. */
  lemma UpdateItemQuantityIdempotent(items: seq<CartItem>, id: Id, quantity: int)
    ensures UpdateItemQuantity(UpdateItemQuantity(items, id, quantity), id, quantity)
              == UpdateItemQuantity(items, id, quantity)
  {
    var r := UpdateItemQuantity(items, id, quantity);
    var rr := UpdateItemQuantity(r, id, quantity);
    forall i | 0 <= i < |items| ensures rr[i] == r[i] {
      assert r[i].(quantity := items[i].quantity) == items[i];
      assert rr[i].(quantity := r[i].quantity) == r[i];
    }
  }
}
