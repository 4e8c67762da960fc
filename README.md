# products-dashboard: cart store and catalog filter

This project models the two pieces of state logic in the products-dashboard storefront:

- **Cart store** (`CartService`). It holds a list of cart lines. `addToCart` raises the quantity of a line whose id is already in the cart, or appends a snapshot of the product with quantity 1. `removeItem` filters lines out by id, and `clearCart` empties the list. The derived totals are `totalPrice`, the sum of price × quantity, and `itemCount`, the sum of quantities.
- **Catalog filter** (`DashboardComponent.filteredProducts` and `totalCount`). It filters the in-memory product list with one predicate:
  - **Search part.** The query is lower-cased and trimmed. An empty term matches every product. Otherwise the lower-cased name or the raw barcode must contain the term.
  - **Category part.** A falsy selection admits every category. Otherwise the product's `category_id` must equal the selection.

  `totalCount` is the length of the filtered list.

Modules:

- `Wrappers`: `Option`, which stands for JavaScript's `null`.
- `Sequences`: order-preserving subsequence.
- `Models`: the `Product` record.
- `Text`: the semantics of `toLowerCase`, `trim` and `includes` that the filter relies on.
- `Dashboard`: the filter, as pure functions of the current `products`, `searchQuery` and `selectedCategoryId` values.
- `Cart`:
  - `CartItem`;
  - the pure update functions behind each operation (`find`, `map`, `filter`, and the append);
  - the `CartService` class, whose `cartItems` field is a `seq<CartItem>` that the methods reassign.

**Prices.** Prices are integers in minor currency units (agorot), so totals are exact. For example, the service tests' 15.50 and 29.90 become 1550 and 2990.

**Cart invariant.** `CartService.Valid()` says that ids are unique and every quantity is at least 1. `cartItems` is private to the class, and the constructor establishes the invariant. So every method may assume it, and every method re-establishes it.

**Category 0.** The code tests `!categoryFilter` (src/app/dashboard/dashboard.component.ts:47), so a selection of `0` admits every category, just like `null` (`CategoryActive`, `ZeroCategoryMeansAll`).

**Order of lower-casing and trimming.** The code lower-cases the query and then trims it (src/app/dashboard/dashboard.component.ts:37), and the model does the same. Lower-casing maps no character to or from whitespace, so the term is empty exactly when the query is blank (`TrimLowerEmptyIff`).

`Cart.CheckoutTotalsScenario` is a client method with no contract of its own. It drives a `CartService` through the totals test of the service (src/app/services/cart.service.spec.ts:116-128):

1. Add the first product, the second product, then the first product again. The count is 3, the total is 6090 and there are 2 lines.
2. Remove the first product. The count is 1, the total is 2990, and the remaining line has id 2.

## Model

| member | source | states |
|---|---|---|
| Text.LowerChar | src/app/dashboard/dashboard.component.ts:37 | the result is never an ASCII capital; a capital maps to the letter 32 code points above it, and every other character is unchanged |
| Text.ToLower | src/app/dashboard/dashboard.component.ts:37 | `toLowerCase` keeps the length and lower-cases each position independently |
| Text.TrimStart | src/app/dashboard/dashboard.component.ts:37 | the result is a suffix of the input; everything dropped is whitespace; the result is empty or starts with non-whitespace |
| Text.TrimEnd | src/app/dashboard/dashboard.component.ts:37 | the result is a prefix of the input; everything dropped is whitespace; the result is empty or ends with non-whitespace |
| Text.Trim | src/app/dashboard/dashboard.component.ts:37 | `trim` returns a slice `s[i..j]` of the input with only whitespace before `i` and after `j`; it gives the empty string exactly when the input is all whitespace; otherwise the result starts and ends with non-whitespace |
| Text.WhitespaceTrimmedSlice | src/app/dashboard/dashboard.component.ts:37 | dropping a whitespace prefix and then a whitespace suffix leaves a slice of the input with only whitespace around it |
| Text.IsWhitespace | src/app/dashboard/dashboard.component.ts:37 | definition: the characters `trim` strips, ECMAScript's WhiteSpace and LineTerminator code points |
| Text.Contains | src/app/dashboard/dashboard.component.ts:43-44 | definition: `includes`, the needle is a prefix of the hay or is included in the hay without its first character; its partner is `Text.ContainsIffOccurs` |
| Text.ContainsIffOccurs | src/app/dashboard/dashboard.component.ts:43-44 | `includes` holds exactly when the needle occurs at some position of the hay |
| Text.CharAbsent | src/app/dashboard/dashboard.component.ts:43-44 | a needle with a character that the hay lacks is not included in it |
| Text.LowerCharKeepsWhitespace | src/app/dashboard/dashboard.component.ts:37 | lower-casing a character neither creates nor removes whitespace |
| Text.TrimLowerEmptyIff | src/app/dashboard/dashboard.component.ts:37 | the search term is empty exactly when the query is all whitespace, the empty query included |
| Text.ToLowerWithoutCapitals | src/app/dashboard/dashboard.component.ts:37 | lower-casing a string without ASCII capitals leaves it unchanged |
| Text.TrimOfTrimmed | src/app/dashboard/dashboard.component.ts:37 | trimming a string whose ends are not whitespace leaves it unchanged |
| Dashboard.SearchTerm | src/app/dashboard/dashboard.component.ts:37 | definition: the query lower-cased, then trimmed |
| Dashboard.CategoryActive | src/app/dashboard/dashboard.component.ts:38-47 | definition: the selection is truthy, neither `null` nor `0` |
| Dashboard.MatchesSearch | src/app/dashboard/dashboard.component.ts:42-44 | definition: the term is empty, or the lower-cased name includes it, or the barcode, not lower-cased, includes it |
| Dashboard.MatchesCategory | src/app/dashboard/dashboard.component.ts:47 | definition: no category is active, or the product's `category_id` equals the selection |
| Dashboard.Matches | src/app/dashboard/dashboard.component.ts:40-50 | definition: the predicate passed to `filter`, the search test and the category test |
| Dashboard.FilteredProducts | src/app/dashboard/dashboard.component.ts:36-51 | definition: the catalog filtered with the search term of the query; its partners are `FilteredMembers`, `FilteredIsSubsequence` and `FilteredMultiplicity` |
| Dashboard.FilterMatching | src/app/dashboard/dashboard.component.ts:40-50 | the filter never returns more products than it was given |
| Dashboard.FilterMatchingMembers | src/app/dashboard/dashboard.component.ts:40-50 | a product survives the filter exactly when it is in the catalog and satisfies the predicate |
| Dashboard.FilteredMembers | src/app/dashboard/dashboard.component.ts:36-51 | a product is in `filteredProducts` exactly when it is in the catalog, it matches the lower-cased and trimmed term by name or barcode (or the term is empty), and its category is admitted |
| Dashboard.FilteredIsSubsequence | src/app/dashboard/dashboard.component.ts:36-51 | `filteredProducts` is an order-preserving subsequence of `products` |
| Dashboard.FilterMatchingIsSubsequence | src/app/dashboard/dashboard.component.ts:40-50 | the filter keeps the surviving products in catalog order |
| Dashboard.FilteredMultiplicity | src/app/dashboard/dashboard.component.ts:36-51 | each matching product occurs in the result as often as in the catalog, and each other product not at all |
| Dashboard.FilterMatchingMultiplicity | src/app/dashboard/dashboard.component.ts:40-50 | the filter keeps every copy of a matching product and no copy of any other |
| Dashboard.FilterKeepsAllIff | src/app/dashboard/dashboard.component.ts:40-50 | the filter keeps the full length exactly when every product matches, and is then the identity |
| Dashboard.TotalCount | src/app/dashboard/dashboard.component.ts:54 | `totalCount` is at most the catalog size; it is 0 exactly when no product matches; it equals the catalog size exactly when every product matches |
| Dashboard.NoFilterShowsAll | src/app/dashboard/dashboard.component.ts:42-47 | with a blank query and no active category, the result is the whole catalog in order, and `totalCount` is its size |
| Dashboard.ZeroCategoryMeansAll | src/app/dashboard/dashboard.component.ts:47 | selecting category 0 gives the same result as selecting none |
| Dashboard.ZeroCategoryFilter | src/app/dashboard/dashboard.component.ts:47 | for any search term, the filter with category 0 equals the filter with no category |
| Dashboard.CategorySelection | src/app/dashboard/dashboard.component.ts:47 | with a category c other than 0 selected, every shown product has category c, and every catalog product of category c that matches the search is shown |
| Dashboard.NameOrBarcodeSelects | src/app/dashboard/dashboard.component.ts:42-44 | a name match alone, or a barcode match alone, puts a product of an admitted category into the result |
| Dashboard.SearchByNameScenario | src/app/dashboard/dashboard.component.spec.ts:37-50 | searching the two test products for a word of the first name yields the first product only |
| Dashboard.BarcodeIsCaseSensitive | src/app/dashboard/dashboard.component.ts:37-44 | a barcode `AB12` contains the query `AB12`, yet the filter does not select the product, because only the query is lower-cased |
| Models.Product | src/app/models/product.ts:2-9 | the product record, with `category_id` as `categoryId` and the price in agorot |
| Cart.CartItem | src/app/services/cart.service.ts:5-12 | the cart line record, with the price in agorot |
| Cart.Snapshot | src/app/services/cart.service.ts:49-56 | definition: the line appended for a new product, taking its id, name, price, image and barcode, with quantity 1; its partner is `Cart.AddNewProduct` |
| Cart.TotalPriceOf | src/app/services/cart.service.ts:27 | definition: the left fold of price × quantity from 0; its partners are `TotalsOfConcat`, `TotalsAt` and `TotalPriceNonNegative` |
| Cart.ItemCountOf | src/app/services/cart.service.ts:32 | definition: the left fold of quantities from 0; its partners are `TotalsOfConcat`, `TotalsAt` and `ItemCountAtLeastLines` |
| Cart.FindById | src/app/services/cart.service.ts:38 | definition: the first line with the id, or none; its partner is `Cart.FindByIdSpec` |
| Cart.Bump | src/app/services/cart.service.ts:44 | definition: the `map` callback, one more unit on a line with the id and any other line unchanged |
| Cart.IncrementQuantity | src/app/services/cart.service.ts:42-46 | definition: `map` of that callback over the lines, position by position |
| Cart.AddedTo | src/app/services/cart.service.ts:38-57 | definition: the new list after `addToCart`, the mapped list when `find` succeeds and the list plus a snapshot otherwise; its partners are `AddNewProduct`, `AddExistingProduct` and `AddToCartEffect` |
| Cart.WithoutId | src/app/services/cart.service.ts:62 | definition: `filter` keeping the lines with another id, front to back; its partners are `WithoutIdKeeps`, `RemoveExisting` and `WithoutIdIsSubsequence` |
| Cart.Subtotal | src/app/services/cart.service.ts:27 | a line with a non-negative price and quantity contributes a non-negative amount |
| Cart.SubtotalOfBump | src/app/services/cart.service.ts:27 | one more unit adds exactly one price to a line's contribution |
| Cart.TotalPriceNonNegative | src/app/services/cart.service.ts:26-28 | the total price is never negative while no price or quantity is |
| Cart.ItemCountAtLeastLines | src/app/services/cart.service.ts:31-33 | with every quantity at least 1, the item count is at least the number of lines |
| Cart.TotalsOfConcat | src/app/services/cart.service.ts:26-33 | both totals distribute over concatenation of line lists |
| Cart.TotalsAt | src/app/services/cart.service.ts:26-33 | both totals split into the lines before k, line k, and the lines after k |
| Cart.TotalsOfPointBump | src/app/services/cart.service.ts:26-33 | carts differing only by one more unit of one line differ by 1 in item count and by that line's price in total |
| Cart.LineIdsMembers | src/app/services/cart.service.ts:38 | an id is among the cart's line ids exactly when some line carries it |
| Cart.LineIdsSize | src/app/services/cart.service.ts:38-56 | with unique ids there are as many line ids as lines |
| Cart.FindByIdSpec | src/app/services/cart.service.ts:38 | `find` succeeds exactly when some line has the id; it then yields a cart line with that id, the only one when ids are unique |
| Cart.AddNewProduct | src/app/services/cart.service.ts:47-56 | adding a product with a new id appends exactly one line at the end with quantity 1 and the product's id, name, price, image and barcode; earlier lines are untouched; the count rises by 1 and the total by the price; the invariant is kept |
| Cart.AddExistingProduct | src/app/services/cart.service.ts:38-46 | adding a product whose id has line k keeps the length and raises line k's quantity by exactly 1, taking nothing new from the product; every other line is unchanged; the invariant is kept |
| Cart.AddExistingTotals | src/app/services/cart.service.ts:26-46 | adding a product whose id has line k raises the count by 1 and the total by the price recorded in line k |
| Cart.AddToCartIds | src/app/services/cart.service.ts:36-57 | after an add, the line ids are the old ones plus the product's id |
| Cart.AddToCartEffect | src/app/services/cart.service.ts:31-57 | one add keeps the invariant, raises the item count by exactly 1, adds a line exactly when the id is new, and records the id |
| Cart.AddsFromEmpty | src/app/services/cart.service.ts:31-57 | after n adds to the empty cart: the cart is well formed, the item count is n, the line ids are the distinct ids added, and there is one line per distinct id |
| Cart.WithoutIdKeeps | src/app/services/cart.service.ts:62 | `removeItem` keeps exactly the lines with another id, and leaves the list unchanged when no line has the id |
| Cart.WithoutIdOfConcat | src/app/services/cart.service.ts:62 | the removal filter distributes over concatenation |
| Cart.WithoutIdSplit | src/app/services/cart.service.ts:62 | the removal filter splits at any index |
| Cart.RemoveExisting | src/app/services/cart.service.ts:62 | with unique ids, removing the id of line k deletes exactly that line and keeps the rest in order |
| Cart.RemoveExistingTotals | src/app/services/cart.service.ts:26-63 | removing the id of line k lowers the item count by its quantity and the total by its price × quantity |
| Cart.DeleteKeepsWellFormed | src/app/services/cart.service.ts:62 | deleting one line of a well-formed cart leaves it well formed |
| Cart.RemovePreservesWellFormed | src/app/services/cart.service.ts:62 | `removeItem` keeps the invariant and leaves no line with the removed id |
| Cart.WithoutIdIsSubsequence | src/app/services/cart.service.ts:62 | `removeItem` keeps the remaining lines in their original order |
| Cart.CartService.Valid | src/app/services/cart.service.ts:20 | definition: the invariant of the private `cartItems` list, unique ids and every quantity at least 1 |
| Cart.CartService.Items | src/app/services/cart.service.ts:23 | definition: the read-only view of `cartItems` |
| Cart.CartService.constructor | src/app/services/cart.service.ts:20 | a new cart is empty and well formed, with both totals 0 |
| Cart.CartService.TotalPrice | src/app/services/cart.service.ts:26-28 | `totalPrice` is 0 on the empty cart and never negative while no price is |
| Cart.CartService.ItemCount | src/app/services/cart.service.ts:31-33 | `itemCount` is 0 on the empty cart and at least the number of lines in a valid cart |
| Cart.CartService.AddToCart | src/app/services/cart.service.ts:36-58 | the invariant is kept and the item count rises by 1. A known id keeps the length, raises only that line's quantity and adds the recorded price to the total. A new id appends the snapshot and adds the product's price |
| Cart.CartService.RemoveItem | src/app/services/cart.service.ts:61-63 | the invariant is kept and no line has the id. Exactly the other lines remain, in order. An absent id changes nothing. When line k had the id, the list is the old one without line k, and the totals drop by that line's quantity and subtotal |
| Cart.CartService.ClearCart | src/app/services/cart.service.ts:66-68 | from any state: the empty, well-formed cart with both totals 0 |

## Left out

- Prices are integers in minor units. The source uses JavaScript doubles, so its floating-point rounding of totals is not modelled.
- Integer width is not modelled. Ids, prices and quantities are unbounded integers, while JavaScript stores them as doubles that lose precision above 2^53.
- Text.ToLower: folds only the ASCII letters A to Z. The Unicode case mapping of `toLowerCase` is not modelled: other letters with a case are left unchanged. None of the strings the tests lower-case contains a letter with case.
- Signals and `computed` become plain functions of the current values. Reactivity, change notification and the read-only `items` wrapper are not modelled beyond the `Items()` accessor.
- The `DashboardComponent` constructor is not modelled: its `forkJoin` load of products and categories, and the `loading` and `error` flags it sets. Asynchronous HTTP is outside the model. The `categories` list and its `Category` record (src/app/models/category.ts) are not modelled: the list is loaded but never read by the filter.
- `DashboardComponent.addToCart` is not modelled as a separate member: it only forwards to `CartService.addToCart`, which is modelled.
- `scrollTabs` is not modelled: it scrolls the DOM.
- `ProductService` is not modelled: it issues HTTP GETs for the two JSON fixtures.
- `ProductCardComponent`, `ShoppingBasketComponent`, `AppComponent` and the application configuration are not modelled. They hold view inputs, event emitters, a browser `alert` and dependency-injection setup. The checkout's call to `clearCart` is covered by `Cart.CartService.ClearCart`.
- Cart.CartService.AddToCart and Cart.CartService.RemoveItem: both require `Valid()`. The source has no such precondition, but `cartItems` is private and every method, like the constructor, keeps the invariant, so any caller meets it.
