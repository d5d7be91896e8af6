# Cart store of the CartCraft storefront, in Dafny

This project models the shopping-cart core of the CartCraft storefront: the cart
provider's state transitions (`addToCart`, `removeFromCart`, `clearCart`), the
persistence of the cart as JSON text in the browser's key/value storage and its
rehydration at start-up, and the values the page header derives from the cart (item
count, formatted total, badge, plural word) together with the header's small
dropdown state machine.

Each `setCart` callback is a pure function from the current line sequence to the
next one. A cart line keeps every field of the product it was created from
(`{...product, qty: 1}`) plus a quantity. Prices are integer cents, so the total and
its `toFixed(2)` text are exact.

Modules:

- `Wrappers` — the `Option` type, usable with `:-`.
- `Decimal` — digit strings, their value, and the shortest decimal form of a natural number.
- `Cart` — products, lines, the store invariant `WellFormed` (ids pairwise distinct, every quantity at least 1) and the three update callbacks.
- `CartProperties` — how the callbacks preserve the invariant and relate to each other.
- `CartJson` — `JSON.stringify` of a line array and the `JSON.parse` that reads it back, restricted to that shape. Escaping follows `JSON.stringify`.
- `CartJsonRoundTrip` — parsing serialised text gives back the same cart.
- `CartJsonTruncation` — a cut-off copy of stored text is rejected: every proper prefix of an accepted text fails to parse.
- `CartStorage` — `loadCartFromStorage` and the save effect over a string-to-string map under the key `"cart"`.
- `Header` — the derived values and the dropdown transitions.
- `HeaderProperties` — how the derived values and the dropdown follow the cart operations, and the invariant over all events.

`handleRemoveItem` decides whether to close the dropdown from the length of the cart
it rendered (`cart.length === 1`), not from whether the removal empties the cart.
`HandleRemoveItem` models exactly that. `RemoveClosesExactlyWhenEmptied` shows that,
for an id that is in a well-formed cart, this is the same as "close exactly when the
cart becomes empty". A cart loaded from storage is not checked, and
`DuplicateLinesRemoveLeavesOpen` shows where the two differ.

## Model

| member | source | states |
|---|---|---|
| `Cart.FindIndex` | src/contexts/cart/CartProvider.jsx:53 | None exactly when no line has the id; otherwise the position of the first line whose id matches |
| `Cart.IncrementMatching` | src/contexts/cart/CartProvider.jsx:58-68 | same length and order; every line keeps its stored product fields; the quantity rises by exactly 1 on the lines whose id matches and is unchanged on the others |
| `Cart.AddToCart` | src/contexts/cart/CartProvider.jsx:50-79 | present id: same length and order, stored fields kept, matching quantity +1; absent id: the old cart is an unchanged prefix and exactly one line `(product, 1)` is appended at the end |
| `Cart.RemoveFromCart` | src/contexts/cart/CartProvider.jsx:90-96 | no line with the id remains; the lines kept are exactly the original lines with another id (as a multiset); an absent id leaves the cart unchanged; no new id appears |
| `Cart.ClearCart` | src/contexts/cart/CartProvider.jsx:106-108 | the result is empty and satisfies the store invariant, whatever the current cart |
| `CartProperties.AddExistingIncrementsOneLine` | src/contexts/cart/CartProvider.jsx:56-69 | with distinct ids, adding an id held by line k changes only line k, keeping its stored product (not the new product's) and raising its quantity by 1 |
| `CartProperties.AddPreservesWellFormed` | src/contexts/cart/CartProvider.jsx:50-79 | add keeps ids distinct and quantities at least 1 |
| `CartProperties.AppendFreshKeepsWellFormed` | src/contexts/cart/CartProvider.jsx:73-77 | appending a line with a new id and a positive quantity keeps the invariant |
| `CartProperties.RemovePreservesWellFormed` | src/contexts/cart/CartProvider.jsx:94 | remove keeps ids distinct and quantities at least 1 |
| `CartProperties.RemoveKeepsDistinct` | src/contexts/cart/CartProvider.jsx:94 | filtering keeps ids pairwise distinct |
| `CartProperties.RemoveDistributes` | src/contexts/cart/CartProvider.jsx:94 | removal distributes over concatenation, so the kept lines stay in their original relative order |
| `CartProperties.RemoveExistingDeletesOneLine` | src/contexts/cart/CartProvider.jsx:94 | with distinct ids, removing the id of line k yields the cart with exactly line k cut out |
| `CartProperties.AddThenRemoveRestores` | src/contexts/cart/CartProvider.jsx:73-94 | adding a product with a fresh id and then removing that id restores the original cart |
| `CartProperties.TwoAdds` | src/contexts/cart/CartProvider.jsx:50-79 | from the empty cart, two adds of the same id give one line with quantity 2 and the first product's fields; different ids give two lines with quantity 1 in call order |
| `CartProperties.ClearIdempotent` | src/contexts/cart/CartProvider.jsx:108 | clearing twice is clearing once, and gives the empty cart |
| `CartJson.EscapeChar` | src/contexts/cart/CartProvider.jsx:43 | a character is written as itself exactly when it is not a quote, a backslash or a control character |
| `CartJson.ParseNat` | src/contexts/cart/CartProvider.jsx:21 | an accepted number is a non-empty digit run without a leading zero, denotes the returned value and is not followed by a digit |
| `CartJson.SerializeCart` | src/contexts/cart/CartProvider.jsx:43 | the text is at least two characters long and starts with `[`; `CartRoundTrip` reads it back as the same cart and `TruncatedSaveRejected` rejects every proper prefix of it |
| `CartJson.ParseItems` | src/contexts/cart/CartProvider.jsx:21 | accepted array contents end with the closing `]`, and denote no lines exactly when they are `]` alone |
| `CartJson.ParseCart` | src/contexts/cart/CartProvider.jsx:21 | accepted text starts with `[` and ends with `]`; it denotes the empty cart exactly when it is `[]` |
| `CartJsonRoundTrip.NatRoundTrip` | src/contexts/cart/CartProvider.jsx:43 | a serialised number parses back to itself and leaves the rest of the text |
| `CartJsonRoundTrip.StringRoundTrip` | src/contexts/cart/CartProvider.jsx:43 | any string, escaped and quoted, parses back to itself and leaves the rest of the text |
| `CartJsonRoundTrip.LineRoundTrip` | src/contexts/cart/CartProvider.jsx:43 | a serialised line object parses back to the same line, every field included |
| `CartJsonRoundTrip.MoreLinesRoundTrip` | src/contexts/cart/CartProvider.jsx:43 | a comma-separated run of serialised lines parses back to the same lines in order |
| `CartJsonRoundTrip.CartRoundTrip` | src/contexts/cart/CartProvider.jsx:21-43 | parsing the text the save step wrote gives back the same cart, element for element |
| `CartJsonRoundTrip.MalformedTextRejected` | src/contexts/cart/CartProvider.jsx:21-26 | three sample texts are rejected: `not json`, `[` alone, and `[] `, which is valid JSON that this parser rejects because it reads no whitespace |
| `CartJsonTruncation.TruncatedTextRejected` | src/contexts/cart/CartProvider.jsx:21-26 | every proper prefix of a text the parser accepts is rejected, so a cut-off stored text loads as the empty cart |
| `CartJsonTruncation.TruncatedSaveRejected` | src/contexts/cart/CartProvider.jsx:21-44 | every proper prefix of the text the save step writes for any cart is rejected |
| `CartStorage.GetItem` | src/contexts/cart/CartProvider.jsx:12 | the stored text under the key, or None exactly when nothing is stored there |
| `CartStorage.LoadFromSaved` | src/contexts/cart/CartProvider.jsx:9-28 | missing or empty text gives `[]`; text that fails to parse gives `[]`; otherwise the parsed cart |
| `CartStorage.LoadCartFromStorage` | src/contexts/cart/CartProvider.jsx:35 | a storage without the cart key starts with the empty cart |
| `CartStorage.SaveCart` | src/contexts/cart/CartProvider.jsx:40-45 | the cart key holds non-empty text afterwards and every other key is untouched |
| `CartStorage.LoadAfterSave` | src/contexts/cart/CartProvider.jsx:12-44 | what the save effect writes, a later start loads back as the same cart |
| `CartStorage.SaveIdempotent` | src/contexts/cart/CartProvider.jsx:43-44 | writing the same cart twice leaves the same storage as writing it once |
| `CartStorage.ReloadKeepsWellFormed` | src/contexts/cart/CartProvider.jsx:35-44 | a well-formed cart that was saved is well-formed again after reload |
| `Decimal.NatToString` | src/components/Header.jsx:66 | the text of a count is a non-empty digit string denoting it, with no leading zero unless it is 0, one character exactly for 0..9 |
| `Header.ItemCount` | src/components/Header.jsx:7-13 | 0 for the empty cart, a single line's quantity for a one-line cart, and at least the first line's quantity otherwise; with `ItemCountAppend` this fixes it as the sum of the quantities |
| `Header.TotalCents` | src/components/Header.jsx:16-20 | 0 for the empty cart and price times quantity for a one-line cart; with `TotalCentsAppend` this fixes it as the sum of price times quantity |
| `Header.FormatCents` | src/components/Header.jsx:21 | whole-part digits without a leading zero (a single `0` when the whole part is 0), one point, exactly two digits; no other point; together they denote the amount in cents |
| `HeaderProperties.AmountTextUnique` | src/components/Header.jsx:21 | for each amount, `FormatCents`'s text is the only one of that form, so its contract fixes the text completely |
| `Decimal.CanonicalDigits` | src/components/Header.jsx:21 | a non-empty digit string without a leading zero is the decimal text of its own value |
| `Header.CalculateTotalPrice` | src/components/Header.jsx:16-22 | the text has the form `FormatCents` gives (shortest whole part, a point, two digits) and denotes the sum of price times quantity in cents; `"0.00"` for the empty cart |
| `Header.BadgeLabel` | src/components/Header.jsx:64-66 | shown exactly when the count is above 0; `"9+"` exactly when it is above 9; otherwise the one digit denoting the count |
| `Header.ItemWord` | src/components/Header.jsx:87 | `"item"` exactly when the count is 1, `"items"` otherwise |
| `Header.InitialHeader` | src/components/Header.jsx:25 | the dropdown starts hidden over the given cart |
| `Header.ToggleDropdown` | src/components/Header.jsx:58 | the cart button flips visibility and leaves the cart alone |
| `Header.CloseDropdown` | src/components/Header.jsx:32 | the dropdown is hidden and the cart is unchanged |
| `Header.HandleRemoveItem` | src/components/Header.jsx:35-41 | the cart is the removal's result; the dropdown closes when the rendered cart had one line and keeps its visibility otherwise |
| `Header.HandleClearCart` | src/components/Header.jsx:44-47 | the cart is empty, the dropdown hidden, the count 0 and the badge gone |
| `HeaderProperties.ItemCountAppend` | src/components/Header.jsx:7-13 | the item count is additive over concatenation of line sequences |
| `HeaderProperties.TotalCentsAppend` | src/components/Header.jsx:16-20 | the total in cents is additive over concatenation |
| `HeaderProperties.CountSplit` | src/components/Header.jsx:7-13 | the count is the count before a line, plus its quantity, plus the count after it |
| `HeaderProperties.TotalSplit` | src/components/Header.jsx:16-20 | the total is the total before a line, plus its price times quantity, plus the total after it |
| `HeaderProperties.BumpOneLine` | src/components/Header.jsx:7-20 | raising one line's quantity by 1 raises the count by 1 and the total by that line's price |
| `HeaderProperties.AddRaisesCountByOne` | src/components/Header.jsx:7-13 | with distinct ids, every add raises the item count by exactly 1 |
| `HeaderProperties.AddRaisesTotalByStoredPrice` | src/components/Header.jsx:16-20 | an add raises the total by the stored price of the existing line, or by the product's price for a new line |
| `HeaderProperties.RemoveLowersCount` | src/components/Header.jsx:7-13 | with distinct ids, removing the id of line k lowers the count by that line's quantity |
| `HeaderProperties.CountWithoutLine` | src/components/Header.jsx:7-13 | cutting line k out of a cart lowers its count by that line's quantity |
| `HeaderProperties.ClearGivesZero` | src/components/Header.jsx:16-21 | after clearing, the count is 0 and the total is `"0.00"` |
| `HeaderProperties.CountAtLeastLines` | src/components/Header.jsx:7-13 | with every quantity at least 1, the count is at least the number of lines |
| `HeaderProperties.BadgeShownIffNonEmpty` | src/components/Header.jsx:64-66 | for a well-formed cart the badge is shown exactly when the cart has a line |
| `HeaderProperties.RemoveClosesExactlyWhenEmptied` | src/components/Header.jsx:35-41 | removing a present id from a well-formed cart hides the dropdown exactly when the cart becomes empty; otherwise visibility is unchanged |
| `HeaderProperties.DuplicateLinesRemoveLeavesOpen` | src/components/Header.jsx:35-41 | with two lines for one product, removing that id empties the cart but leaves an open dropdown open |
| `HeaderProperties.StepPreservesWellFormed` | src/contexts/cart/CartProvider.jsx:50-108 | every add, remove, clear, toggle and close keeps ids distinct and quantities at least 1 |
| `HeaderProperties.ThreeAddsExample` | src/components/Header.jsx:7-22 | two adds of a 9.50 product and one of a 20.00 product give a count of 3 and a total of `"39.00"` |

## Left out

- Catalog loading (src/contexts/product/ProductProvider.jsx): a one-shot network fetch whose substance is asynchronous I/O.
- React rendering, JSX markup and the presentational components (CartDropdown, CartItem, CartSummary, CartButton, ProductCard, ProductList, skeleton, empty state, App). CartButton and CartDropdown repeat the badge and plural rules that `Header.BadgeLabel` and `Header.ItemWord` model.
- Context and hook wiring (CartContext, ProductContext, useCart, useProduct) and the barrel `index.js` files: no logic beyond plumbing.
- `console.log`/`console.error` and the development-mode gates: logging only.
- Floating-point arithmetic: prices are integer cents, so `toFixed(2)` rounding of binary fractions and float summation error are not modelled.
- Storage write failures (quota exceeded, storage disabled): `CartProvider.jsx` does not handle them; `SaveCart` always succeeds.
- Ids, prices and quantities are natural numbers; the JSON codec writes and reads integers only, without sign, fraction or exponent.
- `CartJson.ParseCart`: reads only the layout the serialiser writes (members in the order id, name, description, category, price, image, qty; no whitespace). `JSON.parse` accepts any member order and whitespace.
- `CartStorage.LoadFromSaved`: stored text that is valid JSON but not an array of line objects yields `[]`, whereas `CartProvider.jsx` returns whatever `JSON.parse` produced, because it does not check that the value is an array.
- Surrogate code points: every `\u` escape in the range D800–DFFF is rejected, whether lone or one half of a pair, since the model's characters are Unicode scalar values. `JSON.parse` reads a paired escape as one character. `JSON.stringify` writes characters above FFFF as themselves, so the model's own output never contains such an escape.
- `CartProperties.AddExistingIncrementsOneLine`: stated for carts with distinct ids; with duplicate ids (possible only from hand-edited storage) `Cart.AddToCart` still increments every matching line, as the `map` in `CartProvider.jsx` does.
- `HeaderProperties.RemoveClosesExactlyWhenEmptied`: stated for well-formed carts only. A stored cart is loaded without a check, so it can hold two lines for one product; removing that id then empties the cart while the dropdown stays open, as `cart.length === 1` in `Header.jsx` decides (`DuplicateLinesRemoveLeavesOpen`).
