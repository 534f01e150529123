# Furniture store cart, modelled in Dafny

This project models the cart logic of the Furniture-Store storefront
(`Index.js`), separated from the page code around it.

The cart is an ordered sequence of line items `{name, price, image,
quantity}`. It lives in one storage slot, the `cart` key. Adding and
removing read the slot, change the cart and always write it back. Updating
a quantity writes back only when the index holds a line. The badge count and
the price breakdown only read. The operations are:

- **add to cart**: look up the product by name. If a line has that name, add
  one to its quantity. Otherwise append a new line with quantity 1.
- **update quantity**: only acts on an index that holds a line. The new value
  is clamped to at least 1.
- **remove**: `splice(index, 1)`, with JavaScript's handling of negative and
  too-large indices.
- **badge count**: the sum of the quantities.
- **price breakdown**: the subtotal is the sum of price × quantity. Shipping is
  a flat 49.99, charged only when the subtotal is positive. Tax is 8% of the
  subtotal. The total is subtotal + shipping + tax.

Files:

- `cart.dfy`, module `Cart`: line items and the invariant (unique names,
  quantities ≥ 1). Holds the name lookup, the badge count and the three edits
  as functions on `seq<LineItem>`, with lemmas about them.
- `breakdown.dfy`, module `Checkout`: the subtotal and the price breakdown,
  with lemmas about them.
- `store.dfy`, module `Storage`: the class `CartStore`. Its field `slot` is the
  storage key. Its methods model `getCart`, `saveCart`, `addToCart`,
  `updateItemQuantity` and `removeItem`, plus the data half of the badge and
  checkout rendering. `AddToCart`, `UpdateItemQuantity` and `RemoveItem`
  change the stored cart the way the source does, and are proved against
  `Cart.AddItem`, `Cart.SetQuantity` and `Cart.SpliceOne`. `CartQuantity` is
  proved against `Cart.TotalQuantity`, and `CheckoutTotals` against
  `Checkout.PriceBreakdown`. `GetCart` and `SaveCart` state the slot's
  contents directly: what `SaveCart` stores is what `GetCart` returns.

Money is exact `real`, so `49.99` and `0.08` are exact decimals. Quantities
are unbounded integers.

Error behaviour of the code, as modelled:

- A price is stored as it comes; nothing is raised for it.
- An update at an index with no line does nothing and saves nothing.
- A removal at an index past the end leaves the cart as it is, and the cart
  is saved anyway. A negative index counts back from the end, as in `splice`.
- `JSON.parse` throws on malformed stored text. See "Left out".

## Model

| member | source | states |
|---|---|---|
| Cart.IndexOf | Index.js:52 | The result is -1 exactly when no line has the name. Otherwise it is the position of the first line with that name. |
| Cart.IndexOfUnique | Index.js:52 | In a cart with unique names, the lookup finds the one line that has the name. |
| Cart.TotalQuantityConcat | Index.js:12 | The badge count of two carts joined is the sum of their counts. |
| Cart.TotalQuantityAtLeastLength | Index.js:12 | If every quantity is ≥ 1, the badge count is at least the number of lines. |
| Cart.TotalQuantityPositive | Index.js:12 | If every quantity is ≥ 1, the badge count is positive exactly when the cart is non-empty. |
| Cart.TotalQuantityReplace | Index.js:12 | Replacing one line changes the count by the new quantity minus the old one. |
| Cart.TotalQuantityCut | Index.js:12 | Cutting out one line lowers the count by that line's quantity. |
| Cart.AddItem | Index.js:52-62 | Name present: the length is the same, the first line with the name gains exactly 1 unit with its price and image unchanged, and every other line is unchanged. Name absent: one line is appended with the given name, price and image and quantity 1, and all earlier lines are unchanged. |
| Cart.AddItemValid | Index.js:52-62 | If names are unique and quantities are ≥ 1 before an add, both still hold after it. |
| Cart.AddItemTotalQuantity | Index.js:52-62 | Every add raises the badge count by exactly one. |
| Cart.AddItemTwice | Index.js:52-62 | Adding a new product twice gives one line with quantity 2, not two lines. The second add's price and image are ignored. |
| Cart.AddAllTotalQuantity | Index.js:49-63 | After any sequence of n adds, the badge count has grown by n. From an empty cart it equals the number of adds. |
| Cart.AddAllValid | Index.js:49-63 | Any sequence of adds keeps a valid cart valid. |
| Cart.SetQuantity | Index.js:157-158 | At an existing index, that line's quantity becomes max(1, q) and nothing else changes. At any other index the cart is unchanged. |
| Cart.SetQuantityValid | Index.js:157-158 | Setting a quantity keeps names unique and quantities ≥ 1. |
| Cart.SetQuantityTotalQuantity | Index.js:157-158 | Setting a quantity moves the badge count by max(1, q) minus the old quantity. |
| Cart.SpliceStart | Index.js:167 | The start position of `splice`: a non-negative index is capped at the length, and a negative index counts back from the end, stopping at 0. |
| Cart.SpliceOne | Index.js:167 | For 0 ≤ index < length: the length drops by one, earlier lines are unchanged, and later lines shift down by one. An index ≥ length leaves the cart unchanged. A negative index removes the line counted back from the end, or the first line if it reaches past the start. An empty cart stays empty whatever the index. |
| Cart.SpliceOneValid | Index.js:167 | Removing a line keeps names unique and quantities ≥ 1. |
| Cart.SpliceOneTotalQuantity | Index.js:167 | Removing the line at a valid index lowers the badge count by its quantity. |
| Checkout.SubtotalConcat | Index.js:174 | The subtotal of two carts joined is the sum of their subtotals. |
| Checkout.SubtotalReplace | Index.js:174 | Replacing one line changes the subtotal by the new line total minus the old one. |
| Checkout.SubtotalSign | Index.js:174 | With non-negative prices and quantities ≥ 1, the subtotal is ≥ 0. It is > 0 exactly when some line has a positive price. |
| Checkout.BreakdownOfEmptyCart | Index.js:174-177 | The empty cart's breakdown is all zeros: subtotal, shipping, tax and total. |
| Checkout.BreakdownExample | Index.js:174-177 | One line priced 10 with quantity 2 gives subtotal 20, shipping 49.99, tax 1.6 and total 71.59. |
| Checkout.BreakdownShape | Index.js:174-177 | For a cart whose prices are all ≥ 0 and quantities all ≥ 1: shipping is 49.99 exactly when some line has a positive price, and 0 otherwise; tax is 0.08 × subtotal; total = 1.08 × subtotal + shipping, never below the subtotal; the total is 0 exactly when no line has a positive price. |
| Checkout.AddItemSubtotal | Index.js:52-62 | An add raises the subtotal by one unit price. For an existing line that is the price it was first added with, otherwise the given price. |
| Storage.CartStore.constructor | Index.js:1-3 | Storage starts with the key absent, so the cart reads as empty. |
| Storage.CartStore.GetCart | Index.js:1-4 | Returns the saved cart, or an empty cart when the key is absent. |
| Storage.CartStore.SaveCart | Index.js:6-8 | The slot now holds exactly the given cart, whatever it held before. |
| Storage.CartStore.CartQuantity | Index.js:11-12 | Returns the badge count of the stored cart. With quantities ≥ 1, it is positive exactly when the cart is non-empty. |
| Storage.CartStore.CheckoutTotals | Index.js:103-107 | Returns the breakdown of the stored cart: all zeros for an empty cart. |
| Storage.CartStore.AddToCart | Index.js:49-65 | Saves `AddItem` of the previous cart. The badge count rises by exactly one, and a valid cart stays valid. |
| Storage.CartStore.UpdateItemQuantity | Index.js:155-163 | At an existing index, saves `SetQuantity` of the previous cart. At any other index the slot is untouched and nothing is saved. A valid cart stays valid. |
| Storage.CartStore.RemoveItem | Index.js:165-168 | Always saves `SpliceOne` of the previous cart. At a valid index the badge count drops by the removed quantity. A valid cart stays valid. |

## Left out

- Page code is not modelled. This covers HTML rendering, creating and styling the badge, event-listener wiring, `initProductPage`, `initCheckoutPage` and the `DOMContentLoaded` handler (Index.js:10, 13-47, 71-102, 108-151, 153, 178-216). Those parts only display data. `CartQuantity` and `CheckoutTotals` model the data those renderers read.
- The re-render calls made after an add, update or remove are not modelled: `updateCartIcon` after an add (Index.js:66), and `renderCartItems` and `updateCartIcon` after an update or remove. They are display code.
- `showNotification` (Index.js:68) is not defined in `Index.js`, so it is not part of this model.
- Storage encoding is not modelled. `localStorage` and JSON encoding and decoding are replaced by a slot holding the cart value. Malformed stored text is also out of scope: `JSON.parse` throws on it, and the model has no such state.
- Price parsing is not modelled (`parseFloat` after stripping `$`). The price arrives already parsed. A `NaN` price, which the code lets through, is not represented.
- Floating-point behaviour is not modelled: rounding in the arithmetic and the `toFixed(2)` display formatting. Money is exact `real`.
- Cart.AddItemTotalQuantity, Storage.CartStore.AddToCart and the other badge-count and subtotal lemmas: quantities are unbounded integers and money is exact. The quantity field has no upper bound. Above 2^53, `+= 1` and the sums at Index.js:12 and 174 are no longer exact, and the model does not capture this.
- The caller-side `parseInt` of indices and quantities (Index.js:139-140, 147) is not modelled. `UpdateItemQuantity` and `RemoveItem` take integers directly. A `NaN` index for `splice` is not represented.
- Storage shared by several tabs, and the last writer winning between them, is not modelled.
