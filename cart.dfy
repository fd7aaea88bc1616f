/**
 * The cart library (client/src/lib/cart.ts): the totals shown in the cart
 * and at checkout, the item count shown on the cart badge, and the adapter
 * over the browser's single named storage slot that keeps the cart between
 * visits.
 */
module CartLib {
  import opened CartTypes

  /** Name of the browser storage slot that holds the cart. */
  const CartStorageKey: string := "audiophile-cart"

  /** Flat shipping fee charged on every non-empty cart. */
  const ShippingFee: int := 50

  function LineTotal(item: CartItem): int {
    item.price * item.quantity
  }

  // ---------------------------------------------------------------------
  // Subtotal

  /** Reference definition: the sum of price times quantity over the lines. */
  function LineSum(items: seq<CartItem>): int {
    if items == [] then 0 else LineTotal(items[0]) + LineSum(items[1..])
  }

  /**
   * The `items.reduce((sum, item) => sum + item.price * item.quantity, acc)`
   * of `calculateCartTotals`, a left fold carrying the running sum; it
   * adds the sum of the line totals to the accumulator.
   */
  function SubtotalFold(acc: int, items: seq<CartItem>): (r: int)
    ensures r == acc + LineSum(items)
    decreases items
  {
    if items == [] then acc else SubtotalFold(acc + LineTotal(items[0]), items[1..])
  }

  /** The subtotal is additive over concatenation of carts. */
  lemma {:induction false} LineSumAppend(a: seq<CartItem>, b: seq<CartItem>)
    ensures LineSum(a + b) == LineSum(a) + LineSum(b)
  {
    if a == [] {
      assert a + b == b;
    } else {
      assert (a + b)[1..] == a[1..] + b;
      LineSumAppend(a[1..], b);
    }
  }

  /** Lines with non-negative prices and quantities give a non-negative subtotal. */
  lemma {:induction false} LineSumNonNegative(items: seq<CartItem>)
    requires forall i :: 0 <= i < |items| ==> items[i].price >= 0 && items[i].quantity >= 0
    ensures LineSum(items) >= 0
  {
    if items != [] {
      LineSumNonNegative(items[1..]);
    }
  }

  // ---------------------------------------------------------------------
  // VAT

  /**
   * `Math.round(subtotal * 0.2)`, on an integer subtotal.  Since
   * `subtotal / 5` has a fractional part that is a multiple of 1/5, it is
   * never exactly one half, so rounding picks the integer nearest to it,
   * which is `(subtotal + 2) / 5` with floor division (Dafny's `/` by a
   * positive divisor).  This assumes the subtotal is an integer small
   * enough that the double-precision product `subtotal * 0.2` is within
   * 1/10 of the exact value, which holds far beyond any cart amount.
   */
  function Vat(subtotal: int): (v: int)
    ensures 5 * v - 2 <= subtotal <= 5 * v + 2
  {
    (subtotal + 2) / 5
  }

  /** `Math.round` on exact reals: the floor of `x + 1/2` (halves round up). */
  function JsRound(x: real): int {
    (x + 0.5).Floor
  }

  /** The integer form of the VAT is `Math.round(subtotal * 0.2)` on exact reals. */
  lemma VatIsRoundedFifth(subtotal: int)
    ensures Vat(subtotal) == JsRound(subtotal as real * 0.2)
  {
    var v := Vat(subtotal);
    var x := subtotal as real * 0.2 + 0.5;
    assert (5 * v - 2) as real <= subtotal as real <= (5 * v + 2) as real;
    assert v as real <= x < v as real + 1.0;
  }

  /** The VAT is the one integer within 2/5 of a fifth of the subtotal. */
  lemma VatIsNearest(subtotal: int, w: int)
    requires 5 * w - 2 <= subtotal <= 5 * w + 2
    ensures w == Vat(subtotal)
  {
  }

  /** On a non-negative subtotal the VAT lies between zero and the subtotal. */
  lemma VatBounds(subtotal: int)
    requires subtotal >= 0
    ensures 0 <= Vat(subtotal) <= subtotal
  {
  }

  // ---------------------------------------------------------------------
  // Totals

  /** `calculateCartTotals`. */
  function CalculateCartTotals(items: seq<CartItem>): (t: CartTotals)
    ensures t.subtotal == LineSum(items)
    ensures t.shipping == ShippingFee <==> items != []
    ensures t.shipping == 0 <==> items == []
    ensures 5 * t.vat - 2 <= t.subtotal <= 5 * t.vat + 2
    ensures t.grandTotal == t.subtotal + t.shipping + t.vat
  {
    var subtotal := SubtotalFold(0, items);
    var shipping := if |items| > 0 then ShippingFee else 0;
    var vat := Vat(subtotal);
    CartTotals(subtotal, shipping, vat, subtotal + shipping + vat)
  }

  /** An empty cart has all four totals zero. */
  lemma EmptyCartTotals()
    ensures CalculateCartTotals([]) == CartTotals(0, 0, 0, 0)
  {
  }

  /** The subtotal of two carts put together is the sum of their subtotals. */
  lemma TotalsAppend(a: seq<CartItem>, b: seq<CartItem>)
    ensures CalculateCartTotals(a + b).subtotal
         == CalculateCartTotals(a).subtotal + CalculateCartTotals(b).subtotal
  {
    LineSumAppend(a, b);
  }

  // ---------------------------------------------------------------------
  // Item count

  /** Reference definition: the sum of the quantities. */
  function QuantitySum(items: seq<CartItem>): int {
    if items == [] then 0 else items[0].quantity + QuantitySum(items[1..])
  }

  /**
   * The `items.reduce((sum, item) => sum + item.quantity, acc)` of
   * `getCartItemCount`: it adds the sum of the quantities to the accumulator.
   */
  function CountFold(acc: int, items: seq<CartItem>): (r: int)
    ensures r == acc + QuantitySum(items)
    decreases items
  {
    if items == [] then acc else CountFold(acc + items[0].quantity, items[1..])
  }

  /** `getCartItemCount`: the number of units in the cart (not of lines). */
  function GetCartItemCount(items: seq<CartItem>): (n: int)
    ensures n == QuantitySum(items)
  {
    CountFold(0, items)
  }

  lemma {:induction false} QuantitySumAppend(a: seq<CartItem>, b: seq<CartItem>)
    ensures QuantitySum(a + b) == QuantitySum(a) + QuantitySum(b)
  {
    if a == [] {
      assert a + b == b;
    } else {
      assert (a + b)[1..] == a[1..] + b;
      QuantitySumAppend(a[1..], b);
    }
  }

  /** When every line holds at least one unit, the count is at least the number of lines. */
  lemma {:induction false} CountAtLeastLines(items: seq<CartItem>)
    requires forall i :: 0 <= i < |items| ==> items[i].quantity >= 1
    ensures GetCartItemCount(items) >= |items|
  {
    if items != [] {
      CountAtLeastLines(items[1..]);
    }
  }

  // ---------------------------------------------------------------------
  // Storage slot

  /**
   * What the browser holds under `CartStorageKey`: nothing, a payload
   * whose read or decoding fails, or a decoded list of line items.
   */
  datatype Slot = Absent | Unreadable | Stored(cart: seq<CartItem>)

  /** What `getCartFromStorage` returns for a slot: a missing or bad payload is the empty cart. */
  function Loaded(slot: Slot): (cart: seq<CartItem>)
    ensures slot.Stored? ==> cart == slot.cart
    ensures !slot.Stored? ==> cart == []
  {
    if slot.Stored? then slot.cart else []
  }

  /**
   * The browser's storage slot and the three best-effort helpers over it.
   * Whether the browser accepts a write (it may refuse, e.g. over quota)
   * is a parameter; a refused write is swallowed and leaves the slot as it was.
   */
  class BrowserStorage {
    var slot: Slot

    constructor(initial: Slot)
      ensures slot == initial
    {
      slot := initial;
    }

    /** `getCartFromStorage`: never fails, falls back to the empty cart. */
    method GetCart() returns (cart: seq<CartItem>)
      ensures cart == Loaded(slot)
    {
      cart := Loaded(slot);
    }

    /** `saveCartToStorage`: replaces the slot's payload when the browser accepts the write. */
    method SaveCart(cart: seq<CartItem>, writable: bool)
      modifies this
      ensures slot == if writable then Stored(cart) else old(slot)
      ensures writable ==> Loaded(slot) == cart
    {
      if writable {
        slot := Stored(cart);
      }
    }

    /** `clearCartFromStorage`: removes the slot when the browser accepts the write. */
    method ClearCart(writable: bool)
      modifies this
      ensures slot == if writable then Absent else old(slot)
      ensures writable ==> Loaded(slot) == []
    {
      if writable {
        slot := Absent;
      }
    }
  }
}
