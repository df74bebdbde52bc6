/**
 * The cart state manager: an ordered list of line items, the two values it
 * last published to observers (the items and their total count), and the
 * snapshot it last wrote to browser storage under the key `cart_items`.
 *
 * The effect of each operation on the list is given by a function on
 * sequences (Added, Increased, Decreased, Removed); the class methods
 * update their fields in place and are tied to those functions, and the
 * lemmas state what the functions promise.
 */
module Cart {
  import opened Models

  // ---------------------------------------------------------------------
  // What the cart holds

  /** The sum of all line quantities: the value of the item-count stream. */
  function TotalQuantity(items: seq<LineItem>): int {
    if items == [] then 0 else items[0].quantity + TotalQuantity(items[1..])
  }

  /** No two lines carry the same product id. */
  predicate DistinctIds(items: seq<LineItem>) {
    forall i, j :: 0 <= i < j < |items| ==> LineKey(items[i]) != LineKey(items[j])
  }

  /** Every line holds at least one piece and ids are unique. */
  predicate WellFormed(items: seq<LineItem>) {
    (forall i :: 0 <= i < |items| ==> items[i].quantity >= 1) && DistinctIds(items)
  }

  // ---------------------------------------------------------------------
  // The effect of each operation on the list

  /** Line `i` with its quantity moved by `delta`; the product object is kept. */
  function Bump(items: seq<LineItem>, i: nat, delta: int): seq<LineItem>
    requires i < |items|
  {
    items[i := items[i].(quantity := items[i].quantity + delta)]
  }

  /** addOrder: merge into the first line with the product's id, or append a new line. */
  function Added(items: seq<LineItem>, product: Product): seq<LineItem> {
    var i := IndexOf(items, LineKey, product.ProductId);
    if i < |items| then Bump(items, i, 1) else items + [LineItem(product, 1)]
  }

  /** removeFromCart: keep exactly the lines whose id differs, in their order. */
  function Removed(items: seq<LineItem>, id: ProductId): seq<LineItem> {
    if items == [] then []
    else (if LineKey(items[0]) != id then [items[0]] else []) + Removed(items[1..], id)
  }

  /** increaseQuantity: bump the first matching line; nothing happens without one. */
  function Increased(items: seq<LineItem>, id: ProductId): seq<LineItem> {
    var i := IndexOf(items, LineKey, id);
    if i < |items| then Bump(items, i, 1) else items
  }

  /** decreaseQuantity: above one the first matching line drops by one, otherwise the id is removed. */
  function Decreased(items: seq<LineItem>, id: ProductId): seq<LineItem> {
    var i := IndexOf(items, LineKey, id);
    if i == |items| then items
    else if items[i].quantity > 1 then Bump(items, i, -1)
    else Removed(items, id)
  }

  /** The five mutating operations of the cart. */
  datatype Op =
    | AddOrder(product: Product)
    | IncreaseQuantity(id: ProductId)
    | DecreaseQuantity(id: ProductId)
    | RemoveFromCart(id: ProductId)
    | ClearCart

  function Apply(items: seq<LineItem>, op: Op): seq<LineItem> {
    match op
    case AddOrder(p) => Added(items, p)
    case IncreaseQuantity(id) => Increased(items, id)
    case DecreaseQuantity(id) => Decreased(items, id)
    case RemoveFromCart(id) => Removed(items, id)
    case ClearCart => []
  }

  /** The list after running `ops` in order. */
  function Run(items: seq<LineItem>, ops: seq<Op>): seq<LineItem>
    decreases |ops|
  {
    if ops == [] then items else Run(Apply(items, ops[0]), ops[1..])
  }

  // ---------------------------------------------------------------------
  // Total count

  lemma {:induction false} TotalQuantityConcat(a: seq<LineItem>, b: seq<LineItem>)
    ensures TotalQuantity(a + b) == TotalQuantity(a) + TotalQuantity(b)
  {
    if a != [] {
      assert (a + b)[0] == a[0];
      assert (a + b)[1..] == a[1..] + b;
      TotalQuantityConcat(a[1..], b);
    } else {
      assert a + b == b;
    }
  }

  /** Adding one line to the end adds its quantity: the step of `reduce`. */
  lemma TotalQuantityAppend(items: seq<LineItem>, x: LineItem)
    ensures TotalQuantity(items + [x]) == TotalQuantity(items) + x.quantity
  {
    TotalQuantityConcat(items, [x]);
  }

  lemma TotalQuantitySplit(items: seq<LineItem>, k: int)
    requires 0 <= k < |items|
    ensures TotalQuantity(items) == TotalQuantity(items[..k]) + items[k].quantity + TotalQuantity(items[k+1..])
  {
    assert items == items[..k] + ([items[k]] + items[k+1..]);
    TotalQuantityConcat(items[..k], [items[k]] + items[k+1..]);
    TotalQuantityConcat([items[k]], items[k+1..]);
  }

  /** Moving one line's quantity by `delta` moves the total by `delta`. */
  lemma TotalQuantityBump(items: seq<LineItem>, k: nat, delta: int)
    requires k < |items|
    ensures TotalQuantity(Bump(items, k, delta)) == TotalQuantity(items) + delta
  {
    var b := Bump(items, k, delta);
    TotalQuantitySplit(items, k);
    TotalQuantitySplit(b, k);
    assert b[..k] == items[..k];
    assert b[k+1..] == items[k+1..];
  }

  /** A well-formed cart's count is at least its number of lines. */
  lemma {:induction false} TotalQuantityAtLeastLines(items: seq<LineItem>)
    requires WellFormed(items)
    ensures TotalQuantity(items) >= |items|
    ensures TotalQuantity(items) == 0 <==> items == []
  {
    if items != [] {
      TotalQuantityAtLeastLines(items[1..]);
    }
  }

  // ---------------------------------------------------------------------
  // Removed: a filter that keeps order

  /** A line survives removal of `id` exactly when it was there and has another id. */
  lemma {:induction false} RemovedMembers(items: seq<LineItem>, id: ProductId, x: LineItem)
    ensures x in Removed(items, id) <==> x in items && LineKey(x) != id
  {
    if items != [] {
      RemovedMembers(items[1..], id, x);
      assert items == [items[0]] + items[1..];
    }
  }

  /** Removal distributes over concatenation, so surviving lines keep their relative order. */
  lemma {:induction false} RemovedConcat(a: seq<LineItem>, b: seq<LineItem>, id: ProductId)
    ensures Removed(a + b, id) == Removed(a, id) + Removed(b, id)
  {
    if a != [] {
      assert (a + b)[0] == a[0];
      assert (a + b)[1..] == a[1..] + b;
      RemovedConcat(a[1..], b, id);
      var head := if LineKey(a[0]) != id then [a[0]] else [];
      calc {
        Removed(a + b, id);
        head + Removed(a[1..] + b, id);
        head + (Removed(a[1..], id) + Removed(b, id));
        (head + Removed(a[1..], id)) + Removed(b, id);
        Removed(a, id) + Removed(b, id);
      }
    } else {
      assert a + b == b;
    }
  }

  /** Removing an id no line carries changes nothing. */
  lemma {:induction false} RemovedAbsent(items: seq<LineItem>, id: ProductId)
    requires NoMatch(items, LineKey, id)
    ensures Removed(items, id) == items
  {
    if items != [] {
      RemovedAbsent(items[1..], id);
    }
  }

  lemma RemovedDropOne(x: LineItem, id: ProductId)
    requires LineKey(x) == id
    ensures Removed([x], id) == []
  {
    assert [x][1..] == [];
  }

  /** In a cart with unique ids, removing a present id cuts out exactly its line. */
  lemma {:induction false} RemovedUnique(items: seq<LineItem>, id: ProductId, k: int)
    requires DistinctIds(items)
    requires 0 <= k < |items| && LineKey(items[k]) == id
    ensures Removed(items, id) == items[..k] + items[k+1..]
  {
    var before, after := items[..k], items[k+1..];
    assert NoMatch(before, LineKey, id) by {
      forall j | 0 <= j < |before| ensures LineKey(before[j]) != id {
        assert before[j] == items[j];
      }
    }
    assert NoMatch(after, LineKey, id) by {
      forall j | 0 <= j < |after| ensures LineKey(after[j]) != id {
        assert after[j] == items[k + 1 + j];
      }
    }
    RemovedAbsent(before, id);
    RemovedAbsent(after, id);
    calc {
      Removed(items, id);
      { assert items == before + ([items[k]] + after); }
      Removed(before + ([items[k]] + after), id);
      { RemovedConcat(before, [items[k]] + after, id); }
      Removed(before, id) + Removed([items[k]] + after, id);
      { RemovedConcat([items[k]], after, id); }
      Removed(before, id) + (Removed([items[k]], id) + Removed(after, id));
      { RemovedDropOne(items[k], id); }
      before + ([] + after);
      { assert [] + after == after; }
      before + after;
    }
  }

  lemma {:induction false} RemovedWellFormed(items: seq<LineItem>, id: ProductId)
    requires WellFormed(items)
    ensures WellFormed(Removed(items, id))
  {
    if items != [] {
      RemovedWellFormed(items[1..], id);
      var rest := Removed(items[1..], id);
      if LineKey(items[0]) != id {
        var r := [items[0]] + rest;
        forall j | 0 < j < |r|
          ensures LineKey(r[0]) != LineKey(r[j])
        {
          assert r[j] in rest;
          RemovedMembers(items[1..], id, r[j]);
        }
      }
    }
  }

  // ---------------------------------------------------------------------
  // Properties of each operation

  /** Adding a product already in the cart bumps its first line by one and keeps the line count. */
  lemma AddExisting(items: seq<LineItem>, product: Product, k: int)
    requires FirstMatch(items, LineKey, product.ProductId, k)
    ensures |Added(items, product)| == |items|
    ensures Added(items, product)[k] == LineItem(items[k].product, items[k].quantity + 1)
    ensures forall j :: 0 <= j < |items| && j != k ==> Added(items, product)[j] == items[j]
  {
    FirstMatchIsIndexOf(items, LineKey, product.ProductId, k);
  }

  /** Adding a product not in the cart appends one line of quantity one after the old lines. */
  lemma AddAbsent(items: seq<LineItem>, product: Product)
    requires NoMatch(items, LineKey, product.ProductId)
    ensures Added(items, product) == items + [LineItem(product, 1)]
  {
  }

  lemma IncreasePresent(items: seq<LineItem>, id: ProductId, k: int)
    requires FirstMatch(items, LineKey, id, k)
    ensures Increased(items, id) == items[k := LineItem(items[k].product, items[k].quantity + 1)]
  {
    FirstMatchIsIndexOf(items, LineKey, id, k);
  }

  lemma IncreaseAbsent(items: seq<LineItem>, id: ProductId)
    requires NoMatch(items, LineKey, id)
    ensures Increased(items, id) == items
  {
  }

  lemma DecreaseAboveOne(items: seq<LineItem>, id: ProductId, k: int)
    requires FirstMatch(items, LineKey, id, k) && items[k].quantity > 1
    ensures Decreased(items, id) == items[k := LineItem(items[k].product, items[k].quantity - 1)]
  {
    FirstMatchIsIndexOf(items, LineKey, id, k);
  }

  /** Decreasing a line of quantity one removes that line and keeps the rest in order. */
  lemma DecreaseAtOne(items: seq<LineItem>, id: ProductId, k: int)
    requires DistinctIds(items)
    requires 0 <= k < |items| && LineKey(items[k]) == id && items[k].quantity == 1
    ensures Decreased(items, id) == items[..k] + items[k+1..]
  {
    FirstMatchIsIndexOf(items, LineKey, id, k);
    RemovedUnique(items, id, k);
  }

  lemma DecreaseAbsent(items: seq<LineItem>, id: ProductId)
    requires NoMatch(items, LineKey, id)
    ensures Decreased(items, id) == items
  {
  }

  /** Every operation keeps quantities positive and ids unique. */
  lemma ApplyWellFormed(items: seq<LineItem>, op: Op)
    requires WellFormed(items)
    ensures WellFormed(Apply(items, op))
  {
    match op
    case AddOrder(p) =>
      var i := IndexOf(items, LineKey, p.ProductId);
      if i == |items| {
        var r := items + [LineItem(p, 1)];
        assert forall j :: 0 <= j < |items| ==> r[j] == items[j];
      }
    case IncreaseQuantity(id) =>
    case DecreaseQuantity(id) =>
      var i := IndexOf(items, LineKey, id);
      if i < |items| && items[i].quantity <= 1 {
        RemovedWellFormed(items, id);
      }
    case RemoveFromCart(id) =>
      RemovedWellFormed(items, id);
    case ClearCart =>
  }

  /** Any sequence of operations keeps the cart well formed. */
  lemma {:induction false} RunWellFormed(items: seq<LineItem>, ops: seq<Op>)
    requires WellFormed(items)
    ensures WellFormed(Run(items, ops))
    decreases |ops|
  {
    if ops != [] {
      ApplyWellFormed(items, ops[0]);
      RunWellFormed(Apply(items, ops[0]), ops[1..]);
    }
  }

  /** Starting from the empty cart, every line has quantity at least one and ids never repeat. */
  lemma FromEmptyWellFormed(ops: seq<Op>)
    ensures forall i :: 0 <= i < |Run([], ops)| ==> Run([], ops)[i].quantity >= 1
    ensures DistinctIds(Run([], ops))
  {
    RunWellFormed([], ops);
  }

  /** How each operation moves the item count of a well-formed cart. */
  lemma ApplyCount(items: seq<LineItem>, op: Op)
    requires WellFormed(items)
    ensures op.AddOrder? ==> TotalQuantity(Apply(items, op)) == TotalQuantity(items) + 1
    ensures op.IncreaseQuantity? ==>
              TotalQuantity(Apply(items, op)) == TotalQuantity(items) + (if NoMatch(items, LineKey, op.id) then 0 else 1)
    ensures op.DecreaseQuantity? ==>
              TotalQuantity(Apply(items, op)) == TotalQuantity(items) - (if NoMatch(items, LineKey, op.id) then 0 else 1)
    ensures op.RemoveFromCart? && !NoMatch(items, LineKey, op.id) ==>
      TotalQuantity(Apply(items, op)) ==
      TotalQuantity(items) - items[IndexOf(items, LineKey, op.id)].quantity
    ensures op.RemoveFromCart? && NoMatch(items, LineKey, op.id) ==>
      TotalQuantity(Apply(items, op)) == TotalQuantity(items)
    ensures op.ClearCart? ==> TotalQuantity(Apply(items, op)) == 0
  {
    match op
    case AddOrder(p) =>
      var i := IndexOf(items, LineKey, p.ProductId);
      if i < |items| { TotalQuantityBump(items, i, 1); } else { TotalQuantityAppend(items, LineItem(p, 1)); }
    case IncreaseQuantity(id) =>
      var i := IndexOf(items, LineKey, id);
      if i < |items| { TotalQuantityBump(items, i, 1); }
    case DecreaseQuantity(id) =>
      var i := IndexOf(items, LineKey, id);
      if i < |items| {
        if items[i].quantity > 1 {
          TotalQuantityBump(items, i, -1);
        } else {
          RemovedUnique(items, id, i);
          TotalQuantitySplit(items, i);
          TotalQuantityConcat(items[..i], items[i+1..]);
        }
      }
    case RemoveFromCart(id) =>
      var i := IndexOf(items, LineKey, id);
      if i < |items| {
        RemovedUnique(items, id, i);
        TotalQuantitySplit(items, i);
        TotalQuantityConcat(items[..i], items[i+1..]);
      } else {
        RemovedAbsent(items, id);
      }
    case ClearCart =>
  }

  // ---------------------------------------------------------------------
  // The reduce that derives the count

  /** `items.reduce((total, item) => total + item.quantity, 0)`. */
  method SumQuantities(items: seq<LineItem>) returns (total: int)
    ensures total == TotalQuantity(items)
  {
    total := 0;
    for i := 0 to |items|
      invariant total == TotalQuantity(items[..i])
    {
      assert items[..i + 1] == items[..i] + [items[i]];
      TotalQuantityAppend(items[..i], items[i]);
      total := total + items[i].quantity;
    }
    assert items[..|items|] == items;
  }

  // ---------------------------------------------------------------------
  // The service object

  class CartService {
    /** The authoritative line items. */
    var items: seq<LineItem>
    /** Last value pushed to the line-item stream. */
    var published: seq<LineItem>
    /** Last value pushed to the item-count stream. */
    var count: int
    /** The storage slot under the key `cart_items`: None when nothing was ever stored. */
    var stored: Option<seq<LineItem>>

    /** Both streams show the current items. */
    predicate Synced()
      reads this
    {
      published == items && count == TotalQuantity(items)
    }

    /** Storage holds the current items. */
    predicate Persisted()
      reads this
    {
      stored == Some(items)
    }

    /** Construction runs loadCartFromLocalStorage against the given storage slot. */
    constructor (storage: Option<seq<LineItem>>)
      ensures stored == storage
      ensures storage.None? ==> items == [] && published == [] && count == 0
      ensures storage.Some? ==> items == storage.value
      ensures Synced()
    {
      items := [];
      published := [];
      count := 0;
      stored := storage;
      new;
      LoadCartFromLocalStorage();
    }

    method LoadCartFromLocalStorage()
      modifies this
      ensures stored == old(stored)
      ensures old(stored).Some? ==> items == old(stored).value && Synced()
      ensures old(stored).None? ==> items == old(items) && published == old(published) && count == old(count)
    {
      if stored.Some? {
        items := stored.value;
        published := items;
        count := SumQuantities(items);
      }
    }

    method SaveCartToLocalStorage()
      modifies this
      ensures stored == Some(items)
      ensures items == old(items) && published == old(published) && count == old(count)
    {
      stored := Some(items);
    }

    /** Publish the items and their count, then persist them; the items are not touched. */
    method UpdateCart()
      modifies this
      ensures items == old(items)
      ensures Synced() && Persisted()
    {
      published := items;
      count := SumQuantities(items);
      SaveCartToLocalStorage();
    }

    method AddOrder(product: Product)
      modifies this
      ensures items == Added(old(items), product)
      ensures Synced() && Persisted()
    {
      var i := IndexOf(items, LineKey, product.ProductId);
      if i < |items| {
        items := items[i := items[i].(quantity := items[i].quantity + 1)];
      } else {
        items := items + [LineItem(product, 1)];
      }
      UpdateCart();
    }

    method RemoveFromCart(id: ProductId)
      modifies this
      ensures items == Removed(old(items), id)
      ensures Synced() && Persisted()
    {
      items := Removed(items, id);
      UpdateCart();
    }

    method IncreaseQuantity(id: ProductId)
      modifies this
      ensures items == Increased(old(items), id)
      ensures Synced() && Persisted()
    {
      var i := IndexOf(items, LineKey, id);
      if i < |items| {
        items := items[i := items[i].(quantity := items[i].quantity + 1)];
      }
      UpdateCart();
    }

    /**
     * At quantity one this syncs twice (once inside RemoveFromCart, once
     * here); UpdateCart leaves the items alone, so the second sync
     * republishes and re-stores the same state (RepeatedSyncKeepsState).
     */
    method DecreaseQuantity(id: ProductId)
      modifies this
      ensures items == Decreased(old(items), id)
      ensures Synced() && Persisted()
    {
      var i := IndexOf(items, LineKey, id);
      if i < |items| && items[i].quantity > 1 {
        items := items[i := items[i].(quantity := items[i].quantity - 1)];
      } else if i < |items| {
        RemoveFromCart(id);
      }
      UpdateCart();
    }

    method ClearCart()
      modifies this
      ensures items == [] && published == [] && count == 0 && stored == Some([])
    {
      items := [];
      UpdateCart();
    }
  }

  /**
   * The removal branch of decreaseQuantity: after RemoveFromCart has synced,
   * the extra UpdateCart leaves all four fields exactly as they were.
   */
  method RepeatedSyncKeepsState(cart: CartService, id: ProductId)
    modifies cart
    ensures cart.items == Removed(old(cart.items), id)
    ensures cart.Synced() && cart.Persisted()
  {
    cart.RemoveFromCart(id);
    var items, published, count, stored := cart.items, cart.published, cart.count, cart.stored;
    cart.UpdateCart();
    assert cart.items == items && cart.published == published;
    assert cart.count == count && cart.stored == stored;
  }

  /** A fresh service built on the storage an earlier one left behind restores its cart and count. */
  method Reload(old_cart: CartService) returns (cart: CartService)
    requires old_cart.Synced() && old_cart.Persisted()
    ensures cart.items == old_cart.items && cart.count == old_cart.count
    ensures cart.published == old_cart.published
    ensures cart.Synced() && cart.Persisted()
  {
    cart := new CartService(old_cart.stored);
  }

  /** Shopping from an empty cart: the counts and orders the service promises at each step. */
  method ShoppingScenario(p1: Product, p2: Product)
    requires p1.ProductId != p2.ProductId
  {
    var cart := new CartService(None);
    cart.AddOrder(p1);
    AddAbsent([], p1);
    TotalQuantityAppend([], LineItem(p1, 1));
    assert cart.items == [LineItem(p1, 1)] && cart.count == 1;
    cart.AddOrder(p1);
    TotalQuantityBump([LineItem(p1, 1)], 0, 1);
    assert cart.items == [LineItem(p1, 2)] && cart.count == 2;
    cart.AddOrder(p2);
    TotalQuantityAppend([LineItem(p1, 2)], LineItem(p2, 1));
    assert cart.items == [LineItem(p1, 2), LineItem(p2, 1)] && cart.count == 3;
    cart.RemoveFromCart(p1.ProductId);
    RemovedUnique([LineItem(p1, 2), LineItem(p2, 1)], p1.ProductId, 0);
    TotalQuantityAppend([], LineItem(p2, 1));
    assert cart.items == [LineItem(p2, 1)] && cart.count == 1;
    cart.DecreaseQuantity(p2.ProductId);
    DecreaseAtOne([LineItem(p2, 1)], p2.ProductId, 0);
    assert cart.items == [] && cart.count == 0 && cart.stored == Some([]);
  }
}
