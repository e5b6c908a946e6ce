# Storefront cart and catalog rules, in Dafny

This project models the rule-bearing core of a small browser storefront
(`script.js`): the shopping cart the page keeps in the global `cart` and
persists to `localStorage`, the two operations the cart view calls on it
(`changeQuantity` and `removeFromCart`), the badge count and cart total
derived from it, and the catalog rules around it: which list a fetched
payload yields, the defensive numeric defaults each product card uses, the
out-of-stock test, and the category filter.

Modules:

- `Wrappers`: `Option`, for a number `parseInt` turned into NaN and an absent field.
- `Seqs`: `Filter`, the model of `Array.prototype.filter`, with the facts that it keeps order, keeps everything when everything passes, and is idempotent.
- `Catalog`: products as delivered, the payload shape choice of `loadProducts`, the card values of `displayProducts`, and `filterProducts`.
- `CartLines`: the cart as a sequence of lines. It holds the count and total folds, `cart.find`, the filter of `removeFromCart`, the decision `changeQuantity` makes, and the lemmas about them.
- `CartStore`: the class `Cart`. Its fields are the cart lines, the stored cart, the badge text and a ghost count of saves. Its methods are proved against the `CartLines` functions.

The main invariant is `CartLines.WithinStock`: every line asks for at least one unit and at most its `maxStock`. `changeQuantity` preserves it. `Cart.Synced` holds after every operation: reloading from storage gives the current lines, and the badge shows their count.

In these cases the code behaves as follows, and the model follows it:

- A `changeQuantity` on an id no line has returns silently, without an error. The model's `NoSuchLine` outcome only names that branch.
- Stored data that is absent or falsy gives an empty cart. Corrupt stored text makes `JSON.parse` throw at start-up.
- `parseInt` lets negative prices and stocks through. A negative stock shows as out of stock. A negative price is shown as it is.
- There is no add-to-cart operation. `addToCart` is referenced by the product cards but is never defined, so the model does not define one either.

## Model

| member | source | states |
|---|---|---|
| `Catalog.ProductsOf` | script.js:33-39 | the `products` field when present, else the array payload itself, else `[]`; nothing for `null`, where reading the field throws |
| `Catalog.NextProducts` | script.js:24-44 | the product list is replaced wholesale by the selected list, and stays as it was after an HTTP error, an unparsable body or a `null` body |
| `Catalog.IsOutOfStock` | script.js:58-59 | out of stock exactly when the stock is missing or not a number, or parses to zero or less |
| `Catalog.CardOf` | script.js:57-76 | the card carries the product's id, which its button passes on; the heading is the name, or the placeholder "Без названия" when the name is absent or empty; price and stock default to 0 when not a number; the add button is enabled exactly when the parsed stock is positive, and the card is out of stock exactly when it is not; the category tag defaults to the empty string |
| `Catalog.Display` | script.js:48-56 | an empty list shows the "no products" message; otherwise there is one card per product, in order |
| `Catalog.FilterProducts` | script.js:157-163 | `"all"` returns the whole list; any other category keeps every copy of each product with that category and nothing else (as multisets), which is empty when no product has it |
| `Catalog.FilterProductsKeepsOrder` | script.js:161 | the filtered list is an order-preserving subsequence of the catalog |
| `Catalog.FilterProductsIdempotent` | script.js:161 | filtering the filtered list again by the same category changes nothing |
| `Seqs.Filter` | script.js:228 | the result holds exactly the elements that pass the test, each as many times as in the input, and no others |
| `CartLines.FindLine` | script.js:204 | the position of the first line with the id, or none exactly when no line has it |
| `CartLines.Without` | script.js:228 | no line with the id remains, and every line with another id stays, with all its copies |
| `CartLines.RemoveAbsent` | script.js:228 | removing an id no line has leaves the cart unchanged |
| `CartLines.RemoveIdempotent` | script.js:228 | removing the same id twice is the same as removing it once |
| `CartLines.RemoveKeepsOrder` | script.js:228 | the remaining lines keep their original order |
| `CartLines.QuantityChange` | script.js:203-224 | no matching line: nothing changes. Otherwise the first matching line decides. A new quantity of 0 or less gives exactly `removeFromCart(id)` plus the empty signal. A new quantity above `maxStock` is refused and nothing changes. Any other new quantity is set on that line only, with every other line and field unchanged |
| `CartLines.ChangeKeepsWithinStock` | script.js:208-220 | `changeQuantity` keeps every line between 1 and its `maxStock` |
| `CartLines.ChangeMovesCount` | script.js:208-222 | an update moves the badge count by exactly `change`; a removal lowers it; the other branches leave it |
| `CartLines.Count` | script.js:106 | the badge count is 0 for an empty cart and the line's quantity for a one-line cart |
| `CartLines.Total` | script.js:191 | the total is 0 for an empty cart and price times quantity for a one-line cart |
| `CartLines.FoldsLeftToRight` | script.js:106 | both sums equal the sum over all but the last line plus the last line's term, which is how `reduce` accumulates from the left |
| `CartLines.CountAtLeastLines` | script.js:106 | a cart within stock counts at least one per line, so its count is 0 exactly when it is empty |
| `CartLines.CountAfterUpdate` | script.js:106 | setting one line's quantity moves the count by the difference |
| `CartLines.CountAfterRemove` | script.js:106 | removing lines never raises the count of a cart within stock, and lowers it when a line goes |
| `CartLines.TotalNonNegative` | script.js:191 | with non-negative prices, the total of a cart within stock is not negative |
| `CartStore.Restore` | script.js:6 | the cart read at start-up is the stored lines, or the empty cart when storage holds nothing or a falsy value |
| `CartStore.Cart.constructor` | script.js:6 | the cart is the stored lines, or empty when storage holds nothing; the badge shows their count |
| `CartStore.Cart.SaveCart` | script.js:100-102 | storage now holds the current lines, so a reload restores them |
| `CartStore.Cart.UpdateCartCount` | script.js:105-108 | the badge shows the sum of the quantities |
| `CartStore.Cart.RemoveFromCart` | script.js:227-236 | the lines become `Without(lines, id)`; the cart is saved and the badge refreshed; the empty signal is raised exactly when no line is left; the stock invariant is kept |
| `CartStore.Cart.ChangeQuantity` | script.js:203-224 | the new lines and outcome are those of `QuantityChange`. A missing line or a refused change neither saves nor touches the badge. A removal or an update saves and refreshes the badge. The stock invariant and the storage/badge agreement are kept |

## Left out

- Network: `fetch`, the response status check, `response.json()` and the async flow of `loadProducts` are reduced to the `Response` parameter of `NextProducts`. `testAPI` is not modelled.
- A `products` field holding a truthy value that is not an array is not modelled. The source would store that value as the product list.
- `JSON.parse`/`JSON.stringify` are not modelled. Storage holds the lines themselves, so the save/load round trip is exact by construction. Corrupt stored text, which makes the page's start-up throw, is not modelled.
- The exact string rules of `parseInt` are not modelled. A parsed field is an `Option<int>`, with `None` for NaN.
- Prices and quantities are unbounded integers. JavaScript numbers are doubles, so rounding of huge sums is not modelled. Ids and categories are strings compared exactly, so a numeric id compared with `===` against a string is not modelled.
- HTML templates, `toLocaleString`, `openCart`'s re-rendering, `closeCart`, `alert`, `showNotification`, `setupEventListeners` and `getProductImage` are not modelled; they are view code. The model keeps only the values they show: the card fields, the badge count, the total, the empty signal and the outcome that would raise the alert.
- `checkProductsData` and the stray top-level lines 166-168 are debug code and are not modelled.
- Adding to the cart is not modelled, because `addToCart` does not exist in the source.
