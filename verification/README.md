# ShopEasy cart state manager, modelled in Dafny

This project models the cart of the ShopEasy storefront script (`script.js`).
The cart is an ordered list of lines `{id, name, price, quantity}`. The page
adds a product from its "Add to Cart" button, removes a line, sets a line's
quantity from the quantity box or the plus/minus buttons, and clears the cart.
After every change it writes the whole cart to browser storage under the key
`cart`. From the cart it derives the badge count and the order summary: the
subtotal, 10% tax, 5.00 flat shipping and the total. The project also models
the product listing filter. That filter shows a product card exactly when
the card matches both the category selector and the price-range selector.

Files:

- `cart_model.dfy` (module `CartModel`): the line datatype and the cart
  invariant (distinct ids, every quantity at least 1). It defines the effect
  of each operation as a function on the line sequence, with lemmas about
  those functions. Adding and setting a quantity are each given as an
  independent recursive definition (`Added`, `WithQuantity`). The lemmas
  `AddedExisting`, `AddedNew` and `WithQuantityAt` prove that these match the
  update at the found index, or the append, that the page performs.
  `Removed` is the page's filter itself (script.js:136). `RemovedAt` shows
  that, when ids are distinct, the filter deletes exactly the found line and
  keeps the rest in order.
- `cart_totals.dfy` (module `CartTotals`): the item count, subtotal and order
  summary, with lemmas on how each operation changes them.
- `cart_store.dfy` (module `CartStore`): class `ShoppingCart`. Its field
  `cart` is the live cart and its field `saved` is the stored snapshot. Each
  method performs one operation step by step, as the script does.
  `AddToCart`, `UpdateQuantity`, `Decrement` and `Increment` are proved to
  keep `Valid()` (the invariant, plus snapshot equals cart) and to produce
  exactly the cart that the matching `CartModel` function gives. `RemoveItem`
  produces the filtered cart and keeps `Valid()` whenever the cart it starts
  from is well formed. `ClearCart` leaves the cart and the snapshot empty.
  `ItemCount` only reads the cart.
- `product_filter.dfy` (module `ProductFilter`): the visibility predicate and
  the loop that sets every card's display flag.

Money is an exact `real` and quantities are `int`. Storage is the `saved`
field: each write of the serialized cart becomes `saved := cart`.

Three behaviours of the page that a reader might not expect:

- The summary arithmetic at script.js:123-126 always adds shipping, so on an
  empty cart it gives 5.00 (`EmptyCartTotals`). The page never shows that
  value: `displayCartItems` returns early for an empty cart (script.js:84-93)
  and so never reaches `updateCartTotal` (script.js:116).
- Loading a malformed snapshot makes `JSON.parse` throw. It does not give an
  empty cart. Loading is not modelled: the constructor takes the loaded cart
  and requires it to be well formed.
- A non-numeric quantity is not removed. It is stored as NaN (see Left out).

## Model

| member | source | states |
|---|---|---|
| CartModel.Find | script.js:50 | result is the index of the FIRST line with the id; it is None exactly when no line has the id |
| CartModel.AddedExisting | script.js:50-53 | adding a present id bumps that line's quantity by exactly 1; name and price stay as first added; no line appended; all other lines unchanged |
| CartModel.AddedNew | script.js:54-60 | adding an absent id appends `{id, name, price, 1}` at the end and leaves every earlier line untouched |
| CartModel.AddedWellFormed | script.js:50-61 | adding preserves distinct ids and quantities >= 1 |
| CartModel.Removed | script.js:136 | after filtering, no line carries the id, and the cart did not grow |
| CartModel.RemovedMembers | script.js:136 | a line survives removal iff it was in the cart and has another id |
| CartModel.RemovedAbsent | script.js:136 | removing an id not in the cart leaves the cart unchanged |
| CartModel.RemovedAt | script.js:136 | with distinct ids, removal deletes exactly the found line and keeps the others in their original order |
| CartModel.RemovedWellFormed | script.js:136 | removal preserves distinct ids and quantities >= 1 |
| CartModel.WithQuantityAt | script.js:144-146 | assigning the quantity changes only that field of the found line |
| CartModel.RemovedIgnoresQuantity | script.js:146-148 | filtering after the quantity was overwritten gives the same cart as filtering the original cart |
| CartModel.UpdatedBelowOneRemoves | script.js:143-148 | updateQuantity with q < 1 has the net effect of removeItem(id), whether or not the id is present |
| CartModel.UpdatedWellFormed | script.js:143-155 | updateQuantity with an integer quantity preserves distinct ids and quantities >= 1 |
| CartModel.MinusOnOneRemoves | script.js:224-230 | minus on a line of quantity 1 deletes that line, keeps the others in order, and the id is gone |
| CartModel.MinusAboveOneDecrements | script.js:224-230 | minus on a line above 1 lowers that line's quantity by exactly 1 and changes nothing else |
| CartModel.PlusIsAdd | script.js:232-238 | plus on a present line yields the same cart as adding that product again |
| CartModel.SteppedWellFormed | script.js:224-238 | plus and minus preserve the cart invariant |
| CartTotals.CartTotals | script.js:121-126 | tax is a tenth of the subtotal, shipping is 5.00, total = 1.1 x subtotal + 5.00 |
| CartTotals.CountConcat | script.js:36 | the count of concatenated carts is the sum of their counts |
| CartTotals.CountUpdate | script.js:36 | replacing one line changes the count by the difference of the quantities |
| CartTotals.CountBounds | script.js:36 | with quantities >= 1 the count is at least the number of lines, and is 0 iff the cart is empty |
| CartTotals.CountAdded | script.js:50-67 | each add-to-cart raises the badge count by exactly 1 |
| CartTotals.CountRemoved | script.js:135-138 | removing a line lowers the count by that line's quantity |
| CartTotals.CountUpdated | script.js:143-151 | setting a present line to q >= 1 replaces its old quantity by q in the count |
| CartTotals.SubtotalConcat | script.js:123 | the subtotal of concatenated carts is the sum of their subtotals |
| CartTotals.SubtotalUpdate | script.js:123 | replacing one line changes the subtotal by the difference of the line totals |
| CartTotals.SubtotalAdded | script.js:50-60 | adding raises the subtotal by one unit price; for a present id it is the price fixed at first add, not the new one |
| CartTotals.SubtotalRemoved | script.js:136 | removing a line lowers the subtotal by that line's total |
| CartTotals.TotalAtLeastShipping | script.js:123-126 | with non-negative prices the subtotal is >= 0 and the total is >= the shipping charge |
| CartTotals.EmptyCartTotals | script.js:123-126 | the summary arithmetic on an empty cart gives 0 subtotal, 0 tax, 5.00 shipping, 5.00 total (the page never displays it) |
| CartTotals.ExampleTotals | script.js:123-126 | 2 x 10.00 + 1 x 5.50 gives subtotal 25.50, tax 2.55, shipping 5.00, total 33.05 |
| CartStore.ShoppingCart.constructor | script.js:18 | the cart starts as the loaded cart and the snapshot equals it |
| CartStore.ShoppingCart.ItemCount | script.js:35-36 | the badge count is at least the number of lines and is 0 iff the cart is empty |
| CartStore.ShoppingCart.AddToCart | script.js:43-64 | from any well-formed cart, whatever the snapshot held, the new cart is `Added(old cart)`; the invariant holds and the snapshot equals the cart |
| CartStore.ShoppingCart.RemoveItem | script.js:135-137 | the new cart is the old one filtered; the snapshot equals the cart; the invariant is kept |
| CartStore.ShoppingCart.UpdateQuantity | script.js:143-154 | no-op for an absent id; removal when q < 1; otherwise only that quantity becomes q; the invariant and the snapshot are kept |
| CartStore.ShoppingCart.Decrement | script.js:224-230 | minus button: updateQuantity with the line's quantity - 1, or nothing when the id is absent |
| CartStore.ShoppingCart.Increment | script.js:232-238 | plus button: updateQuantity with the line's quantity + 1, or nothing when the id is absent |
| CartStore.ShoppingCart.ClearCart | script.js:158-160 | cart and snapshot are both empty, whatever the state before, so clearing is idempotent |
| CartStore.AddTwiceScenario | script.js:50-60 | adding the same product twice to an empty cart gives one line of quantity 2 |
| CartStore.ClearTwiceScenario | script.js:158-160 | clearing twice leaves the same empty cart and snapshot as clearing once |
| ProductFilter.FilterProducts | script.js:166-187 | every card's display flag is set to its visibility under the two selectors |
| ProductFilter.UnfilteredShowsAll | script.js:174-179 | with both selectors on "all", every card is shown |
| ProductFilter.ShownIffBothMatch | script.js:174-179 | under a concrete category and range, a card is shown iff its category equals it and min <= price <= max |
| ProductFilter.RangeInclusive | script.js:177-179 | both bounds of a price range are included |
| ProductFilter.RelaxingShowsMore | script.js:174-179 | switching either selector to "all" never hides a card that was shown |

## Left out

- Rendering and event wiring are not modelled: `displayCartItems`, the `textContent` updates and the listeners. Each handler is modelled only by the state change it triggers.
- Storage and JSON are not modelled. They are foreign calls, so a write is `saved := cart`, and serializing then parsing back is taken to give the same cart.
- A failing storage write is not modelled. `localStorage.setItem` (script.js:64, 137, 150, 160) throws when storage is full or disabled. The handler then stops with the cart already changed in memory, so the live cart and the snapshot differ, and in `addToCart` the badge update at script.js:67 is skipped. `Valid()`'s clause `saved == cart`, and so every method's `ensures Valid()`, assumes that every write succeeds.
- Other pages of the site are not modelled. Every open tab shares the storage key `cart`, but the page reads it only at load (script.js:18) and never listens for changes. With two tabs, each overwrites the other's snapshot and the last writer wins: one tab's add can vanish from storage when the other tab next saves. `Valid()`'s clause `saved == cart`, and so the `requires Valid()` of `UpdateQuantity`, `Decrement` and `Increment`, also assumes that no other page writes the key. `AddToCart` and `ClearCart` always write, so they do not need that assumption: `AddToCart` requires only a well-formed cart and `ClearCart` requires nothing.
- Loading at script.js:18 is not modelled, because `JSON.parse` throws on malformed data. The constructor instead takes a well-formed initial cart.
- Floating-point arithmetic and `toFixed` formatting are not modelled. Money is an exact `real`, so rounding and summation-order effects of binary doubles are not captured.
- Quantities are unbounded `int`, but on the page they are JS doubles. From 2^53 on, `quantity++` (script.js:53) and `quantity + 1` (script.js:236) stop counting. `updateQuantity` also runs `parseInt` (script.js:146) on the number the plus and minus buttons pass. That number is first turned into a string, and any value of 1e21 or more is written in exponent form ("1e+21"), so it parses back as 1. A quantity that large can be typed into the quantity box.
- CartModel.PlusIsAdd: holds only while quantities stay below 2^53. At 1e21 or more, plus resets the line to 1 while adding leaves it unchanged.
- CartTotals.CountAdded: "exactly 1" holds only while the bumped quantity is below 2^53. Above that, `++` on a double may leave the quantity unchanged.
- CartModel.MinusAboveOneDecrements: holds only for quantities below 2^53. At 1e21 or more, minus parses the decremented number back as 1.
- `parseFloat` and `parseInt` of attribute and input strings are not modelled; prices and quantities arrive as numbers. A non-numeric quantity box makes `parseInt` return NaN. NaN passes the `< 1` test at script.js:147 and is stored as the quantity. The model's `q: int` cannot express that input, so the invariant "quantity >= 1" is claimed only for integer input.
- CartStore.ShoppingCart.UpdateQuantity and CartStore.ShoppingCart.AddToCart: the assignment at script.js:146 and the increment `existingItem.quantity++` at script.js:53 mutate the shared line object. Here each replaces the line value in the sequence. Nothing outside the cart holds a reference to a line, so no observable aliasing is lost.
- The order summary after emptying the cart is not modelled. When `clearCart` or removing the last line empties the cart, the page skips `updateCartTotal`, so the subtotal, tax and total on screen stay those of the previous non-empty cart. That stale display is a rendering effect.
- ProductFilter.FilterProducts: the price selector string `min-max` is taken as already split into two numbers (script.js:178). A malformed selector string is not modelled.
- Timers, the button animation, the menu toggle, smooth scrolling, the scroll fade-in, the checkout alert and the contact form are not modelled. They only affect the page's appearance or log and alert.
