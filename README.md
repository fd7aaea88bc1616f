# Audiophile storefront: cart and in-memory store

A Dafny model of the logic of a small audio-equipment storefront:

- **Cart library** (`client/src/lib/cart.ts`): the cart totals (subtotal,
  flat shipping, 20 % VAT, grand total), the item count shown on the cart
  badge, and the best-effort adapter over the browser storage slot
  `audiophile-cart` that keeps the cart between visits.
- **Cart state** (the cart part of `Layout` in
  `client/src/components/Layout.tsx`): an ordered list of line items keyed
  by product id, with merge-on-add, absolute quantity updates (zero or
  less removes), removal and clearing, mirrored into the storage slot after
  every change.
- **In-memory store** (`MemStorage` in `server/storage.ts`): products,
  orders and users in id-keyed maps listed in insertion order, with the
  counters that hand out ids, the seeded catalogue, and the lookups by id,
  slug, category and user name.

Files and modules:

| file | module | models |
|---|---|---|
| `wrappers.dfy` | `Wrappers` | `Option`, for JavaScript's `T \| undefined` |
| `schema.dfy` | `Schema` | the product, order and user records of `shared/schema.ts` |
| `types.dfy` | `CartTypes` | the cart records of `client/src/lib/types.ts` |
| `seqs.dfy` | `Seqs` | `find`, `filter` and `map` on arrays, with their properties |
| `cart.dfy` | `CartLib` | `cart.ts`: totals, item count, the storage slot (`BrowserStorage`) |
| `layout.dfy` | `CartOps`, `CartContext` | `Layout.tsx`: the pure cart transformations and lemmas; the cart cell (`CartManager`) |
| `storage.dfy` | `Store` | `storage.ts`: `MemStorage` and the seed |

Modelling choices:

- Numbers are unbounded integers. The VAT line `Math.round(subtotal * 0.2)`
  is `(subtotal + 2) / 5` with floor division: for an integer subtotal,
  a fifth never has a fractional part of exactly one half, so rounding gives
  the nearest integer. `CartLib.VatIsRoundedFifth` proves this equal to
  `Math.round` applied to the exact real product. It assumes the
  double-precision product is within a tenth of the exact value, which holds
  for any realistic cart total.
- The browser slot is a value `Absent | Unreadable | Stored(items)`.
  `Unreadable` stands for a payload that cannot be read or parsed. Both
  `Absent` and `Unreadable` load as the empty cart. Whether the browser
  accepts a write is a `writable` parameter. A refused write is swallowed
  and leaves the slot as it was, as the `catch` blocks do.
- `Layout`'s cart is a class, `CartContext.CartManager`. Its `items` field
  is reassigned with the pure `CartOps` function of the old list, as
  `setCartItems(current => ...)` does. Each method then writes the new list
  to the slot, which is the effect of lines 41-43.
- A JavaScript `Map` lists values in first-insertion order. So each
  `MemStorage` table is a `map<int, _>` plus the sequence of its keys.
  `set` on a key that is already present keeps that key's place.

Behaviour the code has that a reader might not expect, which the model
keeps:

- `clearCart` removes the slot. The storage effect then runs on the new
  empty list and writes `[]` back. So the slot ends up holding the empty
  cart rather than being absent, and either way it loads as the empty cart.
- `getProductBySlug` returns the first product with that slug in insertion
  order. The table schema declares the slug unique (`unique()` at
  `shared/schema.ts:7`), but `MemStorage` does not enforce this. `Store.FindUniqueSlug` covers the unique case, and
  the constructor's contract covers the seed.
- Nothing in the code keeps every line item at one unit or more: `addItem`
  takes any quantity, and only `updateQuantity` turns a quantity of zero or
  less into a removal. `CartOps.AddItemKeepsPositive`
  and `CartOps.UpdateQuantityKeepsPositive` state when the property is kept.

## Model

| member | source | states |
|---|---|---|
| `CartLib.SubtotalFold` | client/src/lib/cart.ts:31 | The subtotal `reduce`, started from any accumulator, adds the sum of price × quantity over the lines, a sum defined on its own by recursion from the right. |
| `CartLib.LineSumAppend` | client/src/lib/cart.ts:31 | The sum of line totals is additive over concatenation of carts. |
| `CartLib.LineSumNonNegative` | client/src/lib/cart.ts:31 | Non-negative prices and quantities give a non-negative subtotal. |
| `CartLib.Vat` | client/src/lib/cart.ts:33 | The VAT `v` lies within 2/5 of a fifth of the subtotal: `5v - 2 <= subtotal <= 5v + 2`. |
| `CartLib.VatIsRoundedFifth` | client/src/lib/cart.ts:33 | The integer VAT equals `Math.round(subtotal * 0.2)` on exact reals, where `Math.round(x) = floor(x + 1/2)`. |
| `CartLib.VatIsNearest` | client/src/lib/cart.ts:33 | Any integer within 2/5 of a fifth of the subtotal is the VAT, so the VAT is the unique nearest integer. |
| `CartLib.VatBounds` | client/src/lib/cart.ts:33 | For a non-negative subtotal, 0 <= VAT <= subtotal. |
| `CartLib.CalculateCartTotals` | client/src/lib/cart.ts:30-42 | The subtotal is Σ price × quantity; shipping is 50 exactly when the cart is non-empty and 0 exactly when it is empty; the VAT is the nearest integer to a fifth of the subtotal; grandTotal = subtotal + shipping + VAT. |
| `CartLib.EmptyCartTotals` | client/src/lib/cart.ts:31-34 | The empty cart's totals are all zero. |
| `CartLib.TotalsAppend` | client/src/lib/cart.ts:31 | The subtotal of two carts joined is the sum of their subtotals. |
| `CartLib.CountFold` | client/src/lib/cart.ts:45 | The count `reduce`, started from any accumulator, adds the sum of the quantities, a sum defined on its own by recursion from the right. |
| `CartLib.GetCartItemCount` | client/src/lib/cart.ts:44-46 | The item count is the sum of the quantities. |
| `CartLib.QuantitySumAppend` | client/src/lib/cart.ts:45 | The quantity sum is additive over concatenation. |
| `CartLib.CountAtLeastLines` | client/src/lib/cart.ts:44-46 | When every line holds at least one unit, the count is at least the number of lines. |
| `CartLib.Loaded` | client/src/lib/cart.ts:5-12 | A stored list loads as itself. A missing or unreadable slot loads as the empty cart. |
| `CartLib.BrowserStorage.GetCart` | client/src/lib/cart.ts:5-12 | Reading the slot never fails and returns what `Loaded` gives for the current slot. |
| `CartLib.BrowserStorage.SaveCart` | client/src/lib/cart.ts:14-20 | An accepted write stores the list, which then loads back unchanged. A refused write leaves the slot as it was. |
| `CartLib.BrowserStorage.ClearCart` | client/src/lib/cart.ts:22-28 | An accepted removal empties the slot, which then loads as the empty cart. A refused removal changes nothing. |
| `CartOps.AddItem` | client/src/components/Layout.tsx:45-57 | For a product already in the cart: same length and id order, that line's quantity grows by `quantity`, every other line is unchanged. For a new product: the result is the old cart followed by `{...item, quantity}`. |
| `CartOps.RemoveItem` | client/src/components/Layout.tsx:71-73 | No line with that id remains. Exactly the other lines are kept. Removing an absent id changes nothing. |
| `CartOps.UpdateQuantity` | client/src/components/Layout.tsx:59-69 | A quantity of zero or less gives the same result as `RemoveItem`. A positive quantity sets that product's line to exactly that quantity and keeps the length, the id order and every other line. An absent id changes nothing, so the update never inserts. |
| `CartOps.AddItemKeepsUnique` | client/src/components/Layout.tsx:45-57 | Adding keeps at most one line per product id. |
| `CartOps.AddItemKeepsPositive` | client/src/components/Layout.tsx:45-57 | If every line holds at least one unit and the added quantity is at least one, every line still does. |
| `CartOps.FilterKeepsUnique` | client/src/components/Layout.tsx:72 | Filtering a cart with one line per id keeps one line per id. |
| `CartOps.RemoveItemKeepsUnique` | client/src/components/Layout.tsx:71-73 | Removing keeps at most one line per product id. |
| `CartOps.RemoveItemKeepsPositive` | client/src/components/Layout.tsx:71-73 | Removing keeps every line at one unit or more. |
| `CartOps.UpdateQuantityKeepsUnique` | client/src/components/Layout.tsx:59-69 | Updating a quantity keeps at most one line per product id. |
| `CartOps.UpdateQuantityKeepsPositive` | client/src/components/Layout.tsx:59-69 | Updating keeps every line at one unit or more, because a non-positive update removes the line. |
| `CartOps.RemoveItemAt` | client/src/components/Layout.tsx:71-73 | In a cart with one line per id, removing the product at position k gives `cart[..k] + cart[k+1..]`: the others keep their order. |
| `CartOps.RemoveItemAppend` | client/src/components/Layout.tsx:72 | Removal distributes over concatenation, so the kept lines keep their relative order. |
| `CartOps.AddTwiceMerges` | client/src/components/Layout.tsx:45-57 | Adding a new product with quantity a and then again with quantity b gives one new line of a + b units. |
| `CartOps.QuantitySumChangeAt` | client/src/lib/cart.ts:45 | Changing one line's quantity changes the quantity sum by the difference. |
| `CartOps.AddItemCount` | client/src/components/Layout.tsx:45-57 | In a cart with one line per id, adding `quantity` units raises the item count by `quantity`. |
| `CartOps.RemoveItemCount` | client/src/components/Layout.tsx:71-73 | Removing a product lowers the item count by that line's quantity. |
| `CartOps.UpdateQuantityCount` | client/src/components/Layout.tsx:64-68 | Setting a product to q > 0 units replaces that line's quantity with q in the item count. |
| `CartContext.CartManager.constructor` | client/src/components/Layout.tsx:32-43 | The cart starts from what the slot loads (empty when missing or unreadable). It is then written back, so the slot mirrors it when writable. |
| `CartContext.CartManager.AddItem` | client/src/components/Layout.tsx:45-57 | The new list is `CartOps.AddItem` of the old one, with quantity 1 by default. An accepted write makes the slot mirror it. One line per id is kept. |
| `CartContext.CartManager.UpdateQuantity` | client/src/components/Layout.tsx:59-69 | The new list is `CartOps.UpdateQuantity` of the old one. A quantity of zero or less goes through `RemoveItem`. The slot mirrors the list when writable. Uniqueness and positive quantities are kept. |
| `CartContext.CartManager.RemoveItem` | client/src/components/Layout.tsx:71-73 | The new list is `CartOps.RemoveItem` of the old one. The slot mirrors the list when writable. Uniqueness and positive quantities are kept. |
| `CartContext.CartManager.ClearCart` | client/src/components/Layout.tsx:75-78 | The list is empty. When writable, the slot holds the empty cart and loads as empty. |
| `CartContext.CartManager.ItemCount` | client/src/components/Layout.tsx:80 | The badge count is the sum of the quantities of the current list. |
| `Seqs.FirstIndex` | client/src/components/Layout.tsx:47 | The scan stops at an index whose element passes the test and after only failing elements. It finds no index exactly when no element passes. |
| `Seqs.Filter` | client/src/components/Layout.tsx:72 | `filter` never returns more elements than it is given. |
| `Seqs.FilterKeepsOrder` | server/storage.ts:234 | Any two elements that `filter` keeps occur in the input in the same order. |
| `Seqs.Map` | client/src/components/Layout.tsx:49-53 | `map` returns one element per input element, each the function applied to the element at that position. |
| `Seqs.Find` | server/storage.ts:230 | `find` returns an element satisfying the test with none before it, and returns nothing exactly when no element satisfies it. |
| `Seqs.FilterAppend` | server/storage.ts:234 | `filter` distributes over concatenation, so it keeps the original order. |
| `Seqs.FilterSound` | server/storage.ts:234 | `filter` returns only elements of the input that pass the test. |
| `Seqs.FilterComplete` | server/storage.ts:234 | Every input element that passes the test is in the result. |
| `Store.SeededIsValid` | server/storage.ts:215-218 | Seeding with any product list gives keys listed once in insertion order, each product stored under its own id, every id below the counter, and a counter of at least 1. |
| `Store.SeededHasEveryId` | server/storage.ts:215-216 | After seeding, the keys are exactly the ids of the seeded products. |
| `Store.SeededNextIdIsMax` | server/storage.ts:217 | The product counter ends at max(1, largest id + 1). |
| `Store.SeededDistinct` | server/storage.ts:215-218 | With distinct ids, each product is stored as given and the keys follow the list's order. |
| `Store.SeededInOrder` | server/storage.ts:215-222 | With distinct ids, listing the values gives the seed list back in order. |
| `Store.FindUniqueSlug` | server/storage.ts:229-231 | If slugs are distinct, the slug lookup returns the one product with that slug. |
| `Store.SeedFacts` | server/storage.ts:41-213 | The seed's ids and slugs are distinct, and its counter ends at 7. |
| `Store.SeedCatalogue` | server/storage.ts:41-218 | The seeded table is valid, it lists the seed in order, each product is findable by slug, and the counter is 7. |
| `Store.MemStorage.constructor` | server/storage.ts:28-38 | A new store lists the seed in order. Every seed product is found by its id and by its slug. The counters are 7, 1 and 1. There are no orders and no users. |
| `Store.MemStorage.InitializeProducts` | server/storage.ts:215-218 | The loop leaves the table, its key order and the product counter as seeding the list defines them. The other fields are untouched. |
| `Store.MemStorage.GetAllProducts` | server/storage.ts:221-223 | Every stored product is listed once, in key insertion order, and nothing else is listed. |
| `Store.MemStorage.GetProduct` | server/storage.ts:225-227 | A product is returned exactly when the id is a key, and it is the product stored under that id. |
| `Store.MemStorage.GetProductBySlug` | server/storage.ts:229-231 | A returned product has that slug and is stored. No product with that slug comes before it in insertion order. Nothing is returned exactly when no product has that slug. |
| `Store.MemStorage.GetProductsByCategory` | server/storage.ts:233-235 | The result holds exactly the stored products of that category. They come in key insertion order and none appears twice. An unknown category gives the empty list. |
| `Store.FilterFollowsKeys` | server/storage.ts:234 | Filtering a listing whose ids follow distinct keys keeps the keys' order and never lists a product twice. |
| `Store.InOrder` | server/storage.ts:222 | `Array.from(m.values())` gives one value per key, in key order. When the keys are the map's insertion order, every stored value is listed. |
| `Store.MemStorage.CreateOrder` | server/storage.ts:237-242 | The order is the input plus id = the old counter. That id was not a key and exceeds every earlier key. The counter grows by exactly 1. The order is stored and `GetOrder` returns it. Earlier orders and all other tables are unchanged. |
| `Store.MemStorage.GetOrder` | server/storage.ts:244-246 | An order is returned exactly when the id is a key, and it is the order stored under it. |
| `Store.MemStorage.GetUser` | server/storage.ts:248-250 | A user is returned exactly when the id is a key, and it is the user stored under it. |
| `Store.MemStorage.AllUsers` | server/storage.ts:253 | Every stored user is listed once, in insertion order. |
| `Store.MemStorage.GetUserByUsername` | server/storage.ts:252-256 | The first user in insertion order with that name is returned. Nothing is returned exactly when no user has that name. |
| `Store.MemStorage.CreateUser` | server/storage.ts:258-263 | Same fresh-id and increment-by-one rule as `CreateOrder`, using the user counter. |
| `Store.SuccessiveOrders` | server/storage.ts:237-242 | Two orders created one after the other get consecutive, hence distinct and increasing, ids. Both stay retrievable as created. |
| `Schema.InsertUser.WithId` | server/storage.ts:260 | `{...insertUser, id}` carries the given id with the submitted user name and password. |
| `CartTypes.ProductRef.WithQuantity` | client/src/components/Layout.tsx:55 | `{...item, quantity}` keeps the product's id, name, price and image and holds the given quantity. |
| `Schema.InsertOrder.WithId` | server/storage.ts:239 | `{...insertOrder, id}` carries the given id. Dropping the id gives back the submitted order. |
| `Store.Max` | server/storage.ts:217 | `Math.max` is at least both arguments and equals one of them. |

## Left out

- React plumbing in `Layout.tsx`: the context, `useCart`, navigation, menus and the cart overlay. The two mount effects are reduced to their net result: the cart starts from the stored value and is written back. On mount, the save effect first runs once with the initial empty list, before the loaded value arrives. That intermediate write of `[]` is not modelled.
- `JSON.parse`, `JSON.stringify` and `localStorage` are foreign calls, so the slot holds decoded item lists. In the model every readable payload is a list of line items. A payload that parses to something other than an array is not modelled.
- `CartContext.CartManager.ClearCart`: one `writable` flag stands for both the removal and the write that follows it. A browser that accepts one and refuses the other is not modelled.
- Floating point: quantities, prices and totals are integers. Fractional quantities and rounding error in `subtotal * 0.2` beyond the stated bound are not modelled.
- `client/src/pages/Checkout.tsx`: the form validation is a declarative zod schema whose behaviour is not visible here. The payload it builds only copies cart lines and totals into `createOrder`'s input.
- `async`/`Promise`: the store's methods are modelled as completing immediately.
- The `IStorage` interface and the exported `storage` singleton (`server/storage.ts:3-18, 266`): the interface only lists the methods modelled on `MemStorage`.
- Seed data: descriptions, feature text, image addresses, "in the box" lists, galleries and related products are left empty. Only ids, slugs, names, categories, the "new" flag and prices are kept. The seed's ZX7 gallery object is closed with `]` (`server/storage.ts:206`), a typo that does not affect the modelled fields.
- Presentational components (`Home.tsx`, `Category.tsx`, `ProductDetail.tsx`, `ProductCard.tsx`, `Cart.tsx`). Their only logic is UI clamping before calling `addItem` or `updateQuantity`.
- Order snapshots: Dafny values are immutable, so a stored order cannot be affected by later cart changes. No separate lemma states this.
