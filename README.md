# Storefront cart store, modelled in Dafny

A model of the shopping-cart logic of a small storefront page (`js/main.js`). The page
loads a product catalog (`productos`), shows either every product or only the products on
offer, and keeps a cart (`carrito`): an ordered list of lines, one per product, each a
snapshot of the product's `id`, `nombre`, `precio`, `oferta` and `imagen` plus a quantity
`cantidad`. Shoppers add products by id, press `+`, `-` or `Eliminar` on a line, empty the
cart, and confirm a purchase, which appends the cart to a purchase history and empties it.
After each change the page shows the subtotal (offer lines at 70% of the price, rounded per
unit), the 21% IVA on it, the total and the number of units in the cart.

Modules:

- `Wrappers` (`wrappers.dfy`): `Option`.
- `Search` (`search.dfy`): the first-match search of `find`, shared by the catalog lookup
  and the cart lookup.
- `Catalog` (`catalog.dfy`): `Product`, the lookup by id and the offer filter, with lemmas
  showing that the filter keeps catalog order.
- `Cart` (`cart.dfy`): `Line`, the cart invariant (one line per id, every quantity at
  least 1), and one function per handler giving the new list of lines. Lemmas show that each
  handler keeps the invariant, that `-` and `+` undo each other, and that adding a new
  product twice gives one line of quantity two.
- `Totals` (`totals.dfy`): the rounding of offer prices and of IVA, the subtotal, and the
  badge count as the source's left fold. Lemmas show how each handler changes the count and
  the subtotal. `ComputeTotals` is the accumulating loop of `renderCart`.
- `Store` (`store.dfy`): class `Store`, holding the page's mutable state (`catalog`,
  `lines`, the stored copy `saved` and `history`), with one method per event handler.

Prices are whole, non-negative currency units. `Math.round(precio * 0.7)` is modelled as
`(7 * precio + 5) / 10` and `Math.round(subtotal * 0.21)` as `(21 * subtotal + 50) / 100`:
rounding half up, done exactly on integers.

At the edges the model follows the code:

- Past the end of the cart, `carrito.splice(i, 1)` changes nothing and the handler still
  saves, so `Remove` is a no-op that saves.
- Past the end of the cart, `carrito[i].cantidad` throws before anything is saved, so
  `Increase` and `Decrease` return `ok == false` and change nothing.
- A stored cart that is not valid JSON makes `JSON.parse` at js/main.js:6 throw, so storage
  contents are taken as already-parsed values, an absent key being `None`.

## Model

| member | source | states |
|---|---|---|
| `Search.FirstIndex` | js/main.js:104-107 | finds the first element with the given id, or reports that none has it; used for both the catalog lookup and the cart lookup |
| `Catalog.Ofertas` | js/main.js:88 | the offer filter keeps exactly the catalog products whose `oferta` is true and is never longer than the catalog |
| `Catalog.OfertasConcat` | js/main.js:88 | filtering a concatenation gives the concatenation of the filtered parts, so catalog order is kept |
| `Catalog.OfertasExtremes` | js/main.js:88 | a catalog of only offers is returned whole; a catalog with no offers gives the empty list |
| `Cart.Added` | js/main.js:103-116 | an unknown id leaves the cart unchanged; a product already in the cart gets exactly one more unit on its line, and no other line changes; a new product is appended at the end with quantity 1 and fields copied from the product, with `oferta` false when the product's flag is absent |
| `Cart.Increased` | js/main.js:184 | only line i changes, and only its quantity, which goes up by 1 |
| `Cart.Removed` | js/main.js:167 | line i is deleted; the lines before it stay in place and the lines after it move up by one, in order |
| `Cart.Decreased` | js/main.js:175-176 | a line with quantity above 1 loses one unit and nothing else changes; otherwise the line is removed and the length drops by exactly 1 |
| `Cart.AddedLineFor` | js/main.js:107-111 | after adding a catalog product, the first line with its id holds one more unit than before, or exactly 1 if it was not in the cart |
| `Cart.AddedTwice` | js/main.js:107-111 | adding a product not in the cart twice gives one new line with quantity 2, not two lines |
| `Cart.AddedWellFormed` | js/main.js:107-111 | adding keeps at most one line per id and every quantity at least 1 |
| `Cart.IncreasedWellFormed` | js/main.js:184 | `+` keeps the cart invariant |
| `Cart.RemovedWellFormed` | js/main.js:167 | removing a line keeps the cart invariant |
| `Cart.DecreasedWellFormed` | js/main.js:175-176 | `-` keeps the cart invariant; a line is never kept at quantity 0 |
| `Cart.DecreaseUndoesIncrease` | js/main.js:175-184 | on a line with positive quantity, `-` after `+` gives back the original cart |
| `Cart.IncreaseUndoesDecrease` | js/main.js:175-184 | on a line with more than one unit, `+` after `-` gives back the original cart |
| `Totals.Discounted` | js/main.js:123 | the offer price is 70% of the price rounded to the nearest unit, halves up, and never above the price |
| `Totals.Iva` | js/main.js:151 | IVA is 21% of the subtotal rounded to the nearest unit, halves up |
| `Totals.UnitPrice` | js/main.js:123 | the unit price is the price itself off offer, and the rounded 70% of it on offer |
| `Totals.ReduceIsSum` | js/main.js:160 | the left fold of quantities from an accumulator equals the accumulator plus the sum of all quantities |
| `Totals.ItemCount` | js/main.js:160 | the badge count equals the sum of every line's quantity, and is 0 for the empty cart |
| `Totals.ComputeTotals` | js/main.js:120-152 | the accumulated subtotal is the sum over lines of unit price times quantity; IVA is 21% of it rounded; total is subtotal plus IVA |
| `Totals.AddedCount` | js/main.js:103-116 | adding a catalog product raises the count by exactly 1; an unknown id leaves it unchanged |
| `Totals.AddedSubtotal` | js/main.js:107-111 | adding a catalog product raises the subtotal by the unit price of its existing line, or by that of the new line |
| `Totals.IncreasedTotals` | js/main.js:184 | `+` raises the count by 1 and the subtotal by the line's unit price |
| `Totals.DecreasedTotals` | js/main.js:175-176 | `-` lowers the count by 1 and the subtotal by the line's unit price, whether the line stays or is removed |
| `Totals.RemovedTotals` | js/main.js:167 | removing a line lowers the count by its quantity and the subtotal by its line total |
| `Totals.TwoProductScenario` | js/main.js:103-125 | with products 1 (100, no offer) and 2 (200, on offer), adding 1, 2, 2 gives two lines, unit price 140, subtotal 380, IVA 80 and count 3 |
| `Store.Store.constructor` | js/main.js:5-6 | at start the catalog is empty and the cart is the stored one, or empty when nothing is stored |
| `Store.Store.LoadCatalog` | js/main.js:27-40 | the catalog becomes the fetched products, or empty when the fetch fails |
| `Store.Store.LoadCart` | js/main.js:238-241 | a stored cart replaces the current one; with nothing stored the cart is kept |
| `Store.Store.Add` | js/main.js:103-116 | the cart becomes `Added` of the old cart; a known id saves the new cart, an unknown id saves nothing; the invariant is kept and the count rises by 1 for a known id |
| `Store.Store.Remove` | js/main.js:164-170 | in range, line i is removed and the count drops by its quantity; past the end the cart is unchanged; the cart is saved either way; the invariant is kept |
| `Store.Store.Decrease` | js/main.js:172-179 | in range, the cart becomes `Decreased` of the old cart, is saved, and on a well-formed cart the count drops by 1; past the end nothing changes; the invariant is kept |
| `Store.Store.Increase` | js/main.js:181-187 | in range, the cart becomes `Increased` of the old cart, is saved and the count rises by 1; past the end nothing changes; the invariant is kept |
| `Store.Store.Clear` | js/main.js:192-196 | the cart and its stored copy become empty, so reloading the cart gives an empty cart |
| `Store.Store.Confirm` | js/main.js:203-221 | on an empty cart nothing changes and no purchase is recorded; otherwise the history gains exactly one entry holding the cart as it was, and the cart and its stored copy become empty |
| `Store.Store.Figures` | js/main.js:118-161 | the figures shown are the subtotal of the cart, its rounded 21% IVA, their sum, and the sum of all quantities |
| `Store.Store.Offers` | js/main.js:86-90 | the `Ofertas` button shows the offer filter of the catalog: exactly the products on offer, in catalog order |

## Left out

- Building the product grid and the cart list as HTML, `toLocaleString` formatting and the
  listeners that read `data-id` and `data-idx` (js/main.js:43-78, 127-147, 153-157,
  163-188). These are presentation; each handler is a method that takes the id or index.
- The `Todos` button (js/main.js:81-84) shows the catalog unchanged, so it has no model of
  its own.
- The offer badge (js/main.js:93-100), modal and offcanvas hiding, and `flash` with its
  timer (js/main.js:204-210, 223-233, 246-252). These are display only; `Confirm` returns
  which outcome the page reports.
- The network fetch of the catalog and JSON parsing (js/main.js:27-40). The fetch result is
  a parameter of `LoadCatalog`, with `None` for failure.
- Storage and serialisation (js/main.js:6, 214-216, 237-241). The stored cart is the field
  `saved` and the stored history is the field `history`; reading storage is not modelled
  beyond the values given to the constructor.
- The clock: the timestamp of a purchase (js/main.js:215) is the parameter `now`.
- Floating point: `Math.round(x * 0.7)` and `Math.round(x * 0.21)` are modelled exactly on
  integers, so results where a binary float product lands just beside a half are not
  modelled.
- Negative indices: `data-idx` is always a position written by the page, so indices are
  natural numbers.
