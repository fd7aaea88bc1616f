/**
 * The cart operations of the page layout (client/src/components/Layout.tsx).
 * Each operation computes the new list of line items from the current one
 * with `find`, `map`, `filter` or spread; CartOps holds those
 * transformations and what they guarantee, CartContext the mutable cart
 * cell that applies them and mirrors every new value into the browser's
 * storage slot.
 */
module CartOps {
  import opened CartTypes
  import Seqs
  import CartLib

  /** The product ids of the lines, in cart order. */
  function Ids(cart: seq<CartItem>): seq<int> {
    seq(|cart|, i requires 0 <= i < |cart| => cart[i].id)
  }

  /** At most one line per product id. */
  predicate UniqueIds(cart: seq<CartItem>) {
    forall i, j :: 0 <= i < j < |cart| ==> cart[i].id != cart[j].id
  }

  /** Every line holds at least one unit. */
  predicate AllPositive(cart: seq<CartItem>) {
    forall i :: 0 <= i < |cart| ==> cart[i].quantity >= 1
  }

  /** The `cartItem.id === id` test of `find`. */
  function HasId(id: int): CartItem -> bool {
    (c: CartItem) => c.id == id
  }

  /** The `item.id !== id` test of `filter`. */
  function OtherThan(id: int): CartItem -> bool {
    (c: CartItem) => c.id != id
  }

  /** The `map` step of `addItem`: add `quantity` units to the lines of product `id`. */
  function AddUnits(id: int, quantity: int): CartItem -> CartItem {
    (c: CartItem) => if c.id == id then c.(quantity := c.quantity + quantity) else c
  }

  /** The `map` step of `updateQuantity`: set the lines of product `id` to `quantity` units. */
  function SetUnits(id: int, quantity: int): CartItem -> CartItem {
    (c: CartItem) => if c.id == id then c.(quantity := quantity) else c
  }

  /**
   * `addItem(item, quantity)`: merge into the existing line of that product,
   * or append a new line at the end.
   */
  function AddItem(cart: seq<CartItem>, item: ProductRef, quantity: int): (r: seq<CartItem>)
    ensures item.id in Ids(cart) ==> |r| == |cart| && Ids(r) == Ids(cart)
    ensures item.id in Ids(cart) ==>
      forall i :: 0 <= i < |cart| && cart[i].id == item.id ==>
        r[i] == cart[i].(quantity := cart[i].quantity + quantity)
    ensures item.id in Ids(cart) ==>
      forall i :: 0 <= i < |cart| && cart[i].id != item.id ==> r[i] == cart[i]
    ensures item.id !in Ids(cart) ==> r == cart + [item.WithQuantity(quantity)]
  {
    match Seqs.Find(cart, HasId(item.id))
    case Some(_) =>
      assert item.id in Ids(cart) by {
        var i :| 0 <= i < |cart| && HasId(item.id)(cart[i]);
        assert Ids(cart)[i] == item.id;
      }
      Seqs.Map(cart, AddUnits(item.id, quantity))
    case None =>
      assert forall i :: 0 <= i < |cart| ==> Ids(cart)[i] != item.id;
      cart + [item.WithQuantity(quantity)]
  }

  /** `removeItem(id)`: drop the lines of product `id`, keep the rest. */
  function RemoveItem(cart: seq<CartItem>, id: int): (r: seq<CartItem>)
    ensures id !in Ids(r)
    ensures forall c :: c in r <==> c in cart && c.id != id
    ensures id !in Ids(cart) ==> r == cart
  {
    var r := Seqs.Filter(cart, OtherThan(id));
    Seqs.FilterSound(cart, OtherThan(id));
    Seqs.FilterComplete(cart, OtherThan(id));
    assert forall c :: c in cart && c.id != id ==> c in r by {
      forall c | c in cart && c.id != id ensures c in r {
        var i :| 0 <= i < |cart| && cart[i] == c;
      }
    }
    assert id !in Ids(r) by {
      forall i | 0 <= i < |r| ensures Ids(r)[i] != id {
        assert r[i] in r;
      }
    }
    if id in Ids(cart) then r
    else
      assert forall i :: 0 <= i < |cart| ==> OtherThan(id)(cart[i]) by {
        forall i | 0 <= i < |cart| ensures OtherThan(id)(cart[i]) {
          assert Ids(cart)[i] == cart[i].id;
        }
      }
      Seqs.FilterAll(cart, OtherThan(id));
      r
  }

  /**
   * `updateQuantity(id, quantity)`: a quantity of zero or less removes the
   * product; otherwise its line is set to exactly `quantity` units.
   */
  function UpdateQuantity(cart: seq<CartItem>, id: int, quantity: int): (r: seq<CartItem>)
    ensures quantity <= 0 ==> r == RemoveItem(cart, id)
    ensures quantity > 0 ==> |r| == |cart| && Ids(r) == Ids(cart)
    ensures quantity > 0 ==>
      forall i :: 0 <= i < |cart| && cart[i].id == id ==> r[i] == cart[i].(quantity := quantity)
    ensures quantity > 0 ==>
      forall i :: 0 <= i < |cart| && cart[i].id != id ==> r[i] == cart[i]
    ensures id !in Ids(cart) ==> r == cart
  {
    if quantity <= 0 then RemoveItem(cart, id)
    else
      var r := Seqs.Map(cart, SetUnits(id, quantity));
      assert id !in Ids(cart) ==> r == cart by {
        if id !in Ids(cart) {
          forall i | 0 <= i < |cart| ensures r[i] == cart[i] {
            assert Ids(cart)[i] != id;
          }
        }
      }
      r
  }

  // ---------------------------------------------------------------------
  // The one-line-per-product invariant and positive quantities

  lemma AddItemKeepsUnique(cart: seq<CartItem>, item: ProductRef, quantity: int)
    requires UniqueIds(cart)
    ensures UniqueIds(AddItem(cart, item, quantity))
  {
    var r := AddItem(cart, item, quantity);
    if item.id !in Ids(cart) {
      forall i | 0 <= i < |cart| ensures r[i].id != item.id {
        assert Ids(cart)[i] == cart[i].id;
      }
    } else {
      forall i | 0 <= i < |r| ensures r[i].id == cart[i].id {
        assert Ids(r)[i] == Ids(cart)[i];
      }
    }
  }

  lemma AddItemKeepsPositive(cart: seq<CartItem>, item: ProductRef, quantity: int)
    requires AllPositive(cart) && quantity >= 1
    ensures AllPositive(AddItem(cart, item, quantity))
  {
  }

  /** Filtering keeps at most one line per product. */
  lemma {:induction false} FilterKeepsUnique(cart: seq<CartItem>, p: CartItem -> bool)
    requires UniqueIds(cart)
    ensures UniqueIds(Seqs.Filter(cart, p))
  {
    if cart != [] {
      var tail := Seqs.Filter(cart[1..], p);
      FilterKeepsUnique(cart[1..], p);
      Seqs.FilterSound(cart[1..], p);
      assert forall c :: c in tail ==> c.id != cart[0].id by {
        forall c | c in tail ensures c.id != cart[0].id {
          var j :| 0 <= j < |cart[1..]| && cart[1..][j] == c;
          assert cart[j + 1] == c;
        }
      }
      var head := if p(cart[0]) then [cart[0]] else [];
      assert Seqs.Filter(cart, p) == head + tail;
      forall i, j | 0 <= i < j < |head + tail|
        ensures (head + tail)[i].id != (head + tail)[j].id
      {
        if i < |head| {
          assert (head + tail)[j] == tail[j - |head|];
          assert tail[j - |head|] in tail;
        } else {
          assert (head + tail)[i] == tail[i - |head|];
          assert (head + tail)[j] == tail[j - |head|];
        }
      }
    }
  }

  lemma RemoveItemKeepsUnique(cart: seq<CartItem>, id: int)
    requires UniqueIds(cart)
    ensures UniqueIds(RemoveItem(cart, id))
  {
    FilterKeepsUnique(cart, OtherThan(id));
  }

  lemma RemoveItemKeepsPositive(cart: seq<CartItem>, id: int)
    requires AllPositive(cart)
    ensures AllPositive(RemoveItem(cart, id))
  {
    var r := RemoveItem(cart, id);
    forall i | 0 <= i < |r| ensures r[i].quantity >= 1 {
      assert r[i] in cart;
      var j :| 0 <= j < |cart| && cart[j] == r[i];
    }
  }

  lemma UpdateQuantityKeepsUnique(cart: seq<CartItem>, id: int, quantity: int)
    requires UniqueIds(cart)
    ensures UniqueIds(UpdateQuantity(cart, id, quantity))
  {
    if quantity <= 0 {
      RemoveItemKeepsUnique(cart, id);
    } else {
      var r := UpdateQuantity(cart, id, quantity);
      forall i | 0 <= i < |r| ensures r[i].id == cart[i].id {
        assert Ids(r)[i] == Ids(cart)[i];
      }
    }
  }

  /** Every line keeps at least one unit after any quantity update, which removes what drops to zero. */
  lemma UpdateQuantityKeepsPositive(cart: seq<CartItem>, id: int, quantity: int)
    requires AllPositive(cart)
    ensures AllPositive(UpdateQuantity(cart, id, quantity))
  {
    if quantity <= 0 {
      RemoveItemKeepsPositive(cart, id);
    }
  }

  // ---------------------------------------------------------------------
  // Order of the remaining lines

  /** Removing a product present at position `k` of a valid cart cuts out exactly that line. */
  lemma RemoveItemAt(cart: seq<CartItem>, k: int)
    requires UniqueIds(cart) && 0 <= k < |cart|
    ensures RemoveItem(cart, cart[k].id) == cart[..k] + cart[k + 1..]
  {
    var p := OtherThan(cart[k].id);
    var pre, post := cart[..k], cart[k + 1..];
    assert cart == pre + [cart[k]] + post;
    forall i | 0 <= i < |pre| ensures p(pre[i]) {
      assert pre[i] == cart[i];
    }
    forall i | 0 <= i < |post| ensures p(post[i]) {
      assert post[i] == cart[k + 1 + i];
    }
    Seqs.FilterDropsOne(pre, cart[k], post, p);
  }

  /** Removing from two carts put together removes from each, keeping their order. */
  lemma RemoveItemAppend(a: seq<CartItem>, b: seq<CartItem>, id: int)
    ensures RemoveItem(a + b, id) == RemoveItem(a, id) + RemoveItem(b, id)
  {
    Seqs.FilterAppend(a, b, OtherThan(id));
  }

  /** Adding the same new product twice gives one line holding both quantities. */
  lemma AddTwiceMerges(cart: seq<CartItem>, item: ProductRef, a: int, b: int)
    requires item.id !in Ids(cart)
    ensures AddItem(AddItem(cart, item, a), item, b) == cart + [item.WithQuantity(a + b)]
  {
    var once := AddItem(cart, item, a);
    assert Ids(once)[|cart|] == item.id;
    var twice := AddItem(once, item, b);
    forall i | 0 <= i < |cart| ensures twice[i] == cart[i] {
      assert Ids(cart)[i] == cart[i].id;
    }
  }

  // ---------------------------------------------------------------------
  // The item count across the operations

  /** Changing the quantity of one line changes the quantity sum by the difference. */
  lemma {:induction false} QuantitySumChangeAt(a: seq<CartItem>, b: seq<CartItem>, k: int)
    requires |a| == |b| && 0 <= k < |a|
    requires forall i :: 0 <= i < |a| && i != k ==> a[i].quantity == b[i].quantity
    ensures CartLib.QuantitySum(b) == CartLib.QuantitySum(a) - a[k].quantity + b[k].quantity
  {
    if k == 0 {
      QuantitySumSame(a[1..], b[1..]);
    } else {
      QuantitySumChangeAt(a[1..], b[1..], k - 1);
    }
  }

  lemma {:induction false} QuantitySumSame(a: seq<CartItem>, b: seq<CartItem>)
    requires |a| == |b|
    requires forall i :: 0 <= i < |a| ==> a[i].quantity == b[i].quantity
    ensures CartLib.QuantitySum(b) == CartLib.QuantitySum(a)
  {
    if a != [] {
      QuantitySumSame(a[1..], b[1..]);
    }
  }

  lemma QuantitySumSplit(pre: seq<CartItem>, x: CartItem, post: seq<CartItem>)
    ensures CartLib.QuantitySum(pre + [x] + post)
         == CartLib.QuantitySum(pre) + x.quantity + CartLib.QuantitySum(post)
  {
    CartLib.QuantitySumAppend(pre + [x], post);
    CartLib.QuantitySumAppend(pre, [x]);
    assert CartLib.QuantitySum([x]) == x.quantity by {
      assert [x][1..] == [];
    }
  }

  /** Adding `quantity` units adds `quantity` to the item count. */
  lemma AddItemCount(cart: seq<CartItem>, item: ProductRef, quantity: int)
    requires UniqueIds(cart)
    ensures CartLib.QuantitySum(AddItem(cart, item, quantity)) == CartLib.QuantitySum(cart) + quantity
  {
    var r := AddItem(cart, item, quantity);
    if item.id in Ids(cart) {
      var k :| 0 <= k < |cart| && Ids(cart)[k] == item.id;
      QuantitySumChangeAt(cart, r, k);
    } else {
      CartLib.QuantitySumAppend(cart, [item.WithQuantity(quantity)]);
    }
  }

  /** Removing a product takes its units out of the item count. */
  lemma RemoveItemCount(cart: seq<CartItem>, k: int)
    requires UniqueIds(cart) && 0 <= k < |cart|
    ensures CartLib.QuantitySum(RemoveItem(cart, cart[k].id)) == CartLib.QuantitySum(cart) - cart[k].quantity
  {
    var pre, post := cart[..k], cart[k + 1..];
    assert cart == pre + [cart[k]] + post;
    RemoveItemAt(cart, k);
    QuantitySumSplit(pre, cart[k], post);
    CartLib.QuantitySumAppend(pre, post);
  }

  /** Setting a product to `quantity > 0` units replaces its units in the item count. */
  lemma UpdateQuantityCount(cart: seq<CartItem>, k: int, quantity: int)
    requires UniqueIds(cart) && 0 <= k < |cart| && quantity > 0
    ensures CartLib.QuantitySum(UpdateQuantity(cart, cart[k].id, quantity))
         == CartLib.QuantitySum(cart) - cart[k].quantity + quantity
  {
    QuantitySumChangeAt(cart, UpdateQuantity(cart, cart[k].id, quantity), k);
  }
}

/**
 * The cart cell of the layout, without the rendering framework: the list
 * of line items, the storage slot it is mirrored to, and the operations the
 * layout hands to the pages.  Each operation assigns the new list that
 * CartOps computes, as `setCartItems(current => ...)` does, and then the
 * effect on `cartItems` writes it to the slot.  `writable` says whether the
 * browser accepts that write; a refused write is swallowed.
 */
module CartContext {
  import opened CartTypes
  import CartLib
  import CartOps

  class CartManager {
    var items: seq<CartItem>
    const storage: CartLib.BrowserStorage

    /** The slot holds exactly the current list. */
    ghost predicate Mirrored()
      reads this, storage
    {
      storage.slot == CartLib.Stored(items)
    }

    /** Mounting the layout: start from the stored cart, then mirror it back. */
    constructor(storage: CartLib.BrowserStorage, writable: bool)
      modifies storage
      ensures this.storage == storage
      ensures items == CartLib.Loaded(old(storage.slot))
      ensures storage.slot == if writable then CartLib.Stored(items) else old(storage.slot)
      ensures writable ==> Mirrored()
    {
      this.storage := storage;
      var loaded := storage.GetCart();
      items := loaded;
      new;
      storage.SaveCart(items, writable);
    }

    method AddItem(item: ProductRef, quantity: int := 1, writable: bool := true)
      modifies this, storage
      ensures items == CartOps.AddItem(old(items), item, quantity)
      ensures storage.slot == if writable then CartLib.Stored(items) else old(storage.slot)
      ensures writable ==> Mirrored()
      ensures CartOps.UniqueIds(old(items)) ==> CartOps.UniqueIds(items)
    {
      if CartOps.UniqueIds(items) {
        CartOps.AddItemKeepsUnique(items, item, quantity);
      }
      items := CartOps.AddItem(items, item, quantity);
      storage.SaveCart(items, writable);
    }

    method UpdateQuantity(id: int, quantity: int, writable: bool := true)
      modifies this, storage
      ensures items == CartOps.UpdateQuantity(old(items), id, quantity)
      ensures storage.slot == if writable then CartLib.Stored(items) else old(storage.slot)
      ensures writable ==> Mirrored()
      ensures CartOps.UniqueIds(old(items)) ==> CartOps.UniqueIds(items)
      ensures CartOps.AllPositive(old(items)) ==> CartOps.AllPositive(items)
    {
      if quantity <= 0 {
        RemoveItem(id, writable);
        return;
      }
      if CartOps.UniqueIds(items) {
        CartOps.UpdateQuantityKeepsUnique(items, id, quantity);
      }
      items := CartOps.UpdateQuantity(items, id, quantity);
      storage.SaveCart(items, writable);
    }

    method RemoveItem(id: int, writable: bool := true)
      modifies this, storage
      ensures items == CartOps.RemoveItem(old(items), id)
      ensures storage.slot == if writable then CartLib.Stored(items) else old(storage.slot)
      ensures writable ==> Mirrored()
      ensures CartOps.UniqueIds(old(items)) ==> CartOps.UniqueIds(items)
      ensures CartOps.AllPositive(old(items)) ==> CartOps.AllPositive(items)
    {
      if CartOps.UniqueIds(items) {
        CartOps.RemoveItemKeepsUnique(items, id);
      }
      if CartOps.AllPositive(items) {
        CartOps.RemoveItemKeepsPositive(items, id);
      }
      items := CartOps.RemoveItem(items, id);
      storage.SaveCart(items, writable);
    }

    /**
     * `clearCart`: empty the list and remove the slot; the effect on the
     * new (empty) list then writes it back, so the slot ends up holding
     * the empty cart, which loads as the empty cart just as a missing slot does.
     */
    method ClearCart(writable: bool := true)
      modifies this, storage
      ensures items == []
      ensures storage.slot == if writable then CartLib.Stored([]) else old(storage.slot)
      ensures writable ==> Mirrored() && CartLib.Loaded(storage.slot) == []
    {
      items := [];
      storage.ClearCart(writable);
      storage.SaveCart(items, writable);
    }

    /** `itemCount`: units in the cart, as the cart badge shows. */
    function ItemCount(): (n: int)
      reads this
      ensures n == CartLib.QuantitySum(items)
    {
      CartLib.GetCartItemCount(items)
    }
  }
}
