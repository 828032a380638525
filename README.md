# Storefront page: catalog filter and shopping cart

This project models the logic of the single storefront page `src/pages/Index.tsx`.
The page shows a fixed catalog of eight products in five category tabs and a search box.
It keeps an in-memory cart. Four React state slots hold the search query, the selected
category, the cart and the active panel. Event handlers replace each slot wholesale.

- `Text` models the two string operations the search uses: `toLowerCase` as a character
  mapping for Latin and Cyrillic capitals, and `includes` as substring containment.
- `Catalog` holds the product and category data and the catalog filter.
- `ShoppingCart` holds the cart lines and the pure transformations behind `addToCart`,
  `removeFromCart` and `updateQuantity`. It also holds the two `reduce` sums, `cartTotal` and
  `cartItemsCount`, each proved equal to a reference sum.
- `StorefrontPage.IndexPage` is the page component as a class. Its four fields are the state
  slots. Its methods are the setters and handlers. They call the pure functions and keep the
  invariant that no two cart lines share a product id and every line comes from the catalog.
- `Sequences` and `Wrappers` are small shared helpers (subsequence, distinctness, `Option`).

A cart line's quantity is meant to stay at least one, but negative quantities are not clamped: `updateQuantity` removes a line only for exactly `0` and writes any
other number, negative ones included (`src/pages/Index.tsx:125-133`). The model follows the
code. `UpdateNonzeroOverwrites` states the behaviour for negative quantities too.
`QuantityButtonsKeepPositive` shows that the only calls the page makes (`quantity - 1` and
`quantity + 1`) never produce a quantity below one.

## Model

| member | source | states |
|---|---|---|
| Text.LowerChar | src/pages/Index.tsx:104 | the lower-cased character is never a capital of the modelled alphabets, non-capitals are unchanged and capitals change |
| Text.ToLowerCase | src/pages/Index.tsx:104 | lower-casing keeps the length and maps every character by LowerChar |
| Text.ToLowerCaseIdempotent | src/pages/Index.tsx:104 | lower-casing twice is the same as lower-casing once |
| Text.Includes | src/pages/Index.tsx:104 | `includes` finds the query when it is a prefix of the name, and never finds a query longer than the name |
| Text.IncludesFindsOccurrence | src/pages/Index.tsx:104 | when `includes` holds, the query occurs at some position of the name |
| Text.OccurrenceIsIncluded | src/pages/Index.tsx:104 | an occurrence of the query at any position makes `includes` hold |
| Text.IncludesIff | src/pages/Index.tsx:104 | `includes` holds exactly when the query occurs as a contiguous substring at some position |
| Text.IncludesEmpty | src/pages/Index.tsx:104 | the empty query is included in every name |
| Catalog.CatalogIds | src/pages/Index.tsx:22-87 | the catalog's ids are 1 to 8 in order, so no two products share an id |
| Catalog.CatalogProductsWellFormed | src/pages/Index.tsx:22-95 | every product has a price that is not negative and a category that is one of the tabs and not the wildcard `all` |
| Catalog.MatchesSearch | src/pages/Index.tsx:104 | the lower-cased name includes the lower-cased query; the empty query matches every product |
| Catalog.MatchesCategory | src/pages/Index.tsx:105 | the `all` category matches every product; any other category matches exactly the products that carry it |
| Catalog.Matches | src/pages/Index.tsx:103-106 | a product is kept when it passes both the search and the category test; the empty query in the `all` category keeps every product |
| Catalog.FilterProducts | src/pages/Index.tsx:103-107 | a product is in the result exactly when it is in the catalog and matches both search and category; the result is a subsequence of the catalog, in catalog order |
| Catalog.FilterCounts | src/pages/Index.tsx:103-107 | each product occurs in the result as often as in the catalog when it matches, and never when it does not |
| Catalog.CatalogFilterExactlyOnce | src/pages/Index.tsx:22-107 | on the real catalog every matching product is listed exactly once and every other product never |
| Catalog.FilterEverything | src/pages/Index.tsx:98-107 | the initial query `""` and category `all` list the whole catalog unchanged |
| Catalog.FilterIgnoresQueryCase | src/pages/Index.tsx:104 | lower-casing the query first lists the same products: the search ignores the query's case |
| Catalog.UnknownCategoryListsNothing | src/pages/Index.tsx:105 | a category other than `all` that no product carries lists nothing |
| ShoppingCart.Find | src/pages/Index.tsx:111 | `find` returns nothing exactly when no line has the id, and otherwise the first line with that id |
| ShoppingCart.WithQuantity | src/pages/Index.tsx:114 | the `{ ...item, quantity }` copy keeps every product field and the id, and carries the new quantity |
| ShoppingCart.BumpQuantity | src/pages/Index.tsx:113-115 | the lines for the id gain one unit; the length, the order and every other line are unchanged |
| ShoppingCart.SetQuantity | src/pages/Index.tsx:130 | the lines for the id get the new quantity; the length, the order and every other line are unchanged |
| ShoppingCart.AddToCart | src/pages/Index.tsx:109-119 | afterwards the product has a line; unique ids and positive quantities are preserved |
| ShoppingCart.AddToCartExisting | src/pages/Index.tsx:111-116 | with a line for the product, that line goes up by exactly one unit, and the length, the order and all other lines are unchanged |
| ShoppingCart.AddToCartNew | src/pages/Index.tsx:117 | without a line for the product, the result is the old cart followed by one line that copies the product with quantity 1 |
| ShoppingCart.AddTwiceMakesOneLine | src/pages/Index.tsx:109-119 | adding a new product twice gives one line of quantity 2, not two lines |
| ShoppingCart.RemoveFromCart | src/pages/Index.tsx:121-123 | afterwards no line has the id; a line is kept exactly when it was in the cart with a different id; the result keeps the cart's order |
| ShoppingCart.RemoveFromCartKeepsIdsUnique | src/pages/Index.tsx:122 | removal preserves unique ids |
| ShoppingCart.RemoveFromCartKeepsPositive | src/pages/Index.tsx:122 | removal keeps every quantity at least 1 |
| ShoppingCart.RemoveCounts | src/pages/Index.tsx:122 | every line with a different id keeps its number of occurrences, and lines with the id occur zero times |
| ShoppingCart.RemoveAbsentIsNoOp | src/pages/Index.tsx:122 | removing an id that has no line leaves the cart unchanged |
| ShoppingCart.RemoveExistingShrinksByOne | src/pages/Index.tsx:122 | with unique ids, removing an id that has a line shortens the cart by exactly one |
| ShoppingCart.UpdateQuantity | src/pages/Index.tsx:125-133 | updating preserves unique ids, and it preserves positive quantities when the new quantity is not negative |
| ShoppingCart.UpdateToZeroRemoves | src/pages/Index.tsx:126-127 | quantity 0 is exactly `removeFromCart` |
| ShoppingCart.UpdateNonzeroOverwrites | src/pages/Index.tsx:128-131 | any other quantity, negative ones included, overwrites only the matching lines' quantity; length, order and other lines are unchanged, and an absent id is a no-op |
| ShoppingCart.QuantityButtonsKeepPositive | src/pages/Index.tsx:345-353 | if all quantities are at least 1, the minus and plus buttons keep them at least 1 |
| ShoppingCart.EventsKeepIdsUnique | src/pages/Index.tsx:109-133 | any sequence of add, remove and update calls preserves unique ids |
| ShoppingCart.ReachableCartsHaveUniqueIds | src/pages/Index.tsx:100-133 | from the initial empty cart, no sequence of setter calls makes two lines share an id |
| ShoppingCart.Reduce | src/pages/Index.tsx:135-136 | the left-to-right `reduce` from an initial value equals that value plus the reference sum over the lines |
| ShoppingCart.SumAppend | src/pages/Index.tsx:135-136 | the sum over two concatenated carts is the sum of their sums |
| ShoppingCart.CartTotal | src/pages/Index.tsx:135 | `cartTotal` equals the sum of price times quantity over the lines |
| ShoppingCart.CartItemsCount | src/pages/Index.tsx:136 | `cartItemsCount` equals the sum of the quantities, which counts units and not lines |
| ShoppingCart.BumpQuantitySums | src/pages/Index.tsx:113-115 | with unique ids, bumping a line adds its price to the total and one to the unit count |
| ShoppingCart.AddToCartTotals | src/pages/Index.tsx:109-119 | with unique ids and consistent prices, adding a product raises the total by its price and the count by one |
| ShoppingCart.EmptyCartSums | src/pages/Index.tsx:135-136 | both sums are 0 on the empty cart |
| ShoppingCart.ExampleScenario | src/pages/Index.tsx:22-38 | adding products 1 and 2 gives a total of 11480; adding product 1 again gives lines of quantity 2 and 1, a total of 13970 and a count of 3 |
| StorefrontPage.IndexPage.constructor | src/pages/Index.tsx:98-101 | the initial state is an empty query, the `all` category, an empty cart and the home panel |
| StorefrontPage.IndexPage.FilteredProducts | src/pages/Index.tsx:103-107 | the listed products are exactly the catalog products that match the current query and category, in catalog order |
| StorefrontPage.IndexPage.Total | src/pages/Index.tsx:135 | the displayed total is the sum of price times quantity over the current cart |
| StorefrontPage.IndexPage.ItemsCount | src/pages/Index.tsx:136 | the badge count is the sum of the quantities in the current cart |
| StorefrontPage.IndexPage.SetSearchQuery | src/pages/Index.tsx:265 | the search box replaces the query and nothing else; the page invariant is kept |
| StorefrontPage.IndexPage.SetSelectedCategory | src/pages/Index.tsx:271 | the category tabs replace the selected category and nothing else; the page invariant is kept |
| StorefrontPage.IndexPage.SetActiveSection | src/pages/Index.tsx:146-190 | navigation replaces the active panel and nothing else; the page invariant is kept |
| StorefrontPage.IndexPage.AddToCart | src/pages/Index.tsx:109-119 | the cart becomes `AddToCart` of the old cart; the page invariant holds; the total rises by the price and the count by one |
| StorefrontPage.IndexPage.RemoveFromCart | src/pages/Index.tsx:121-123 | the cart becomes `RemoveFromCart` of the old cart; the invariant and positive quantities are kept |
| StorefrontPage.IndexPage.UpdateQuantity | src/pages/Index.tsx:125-133 | quantity 0 delegates to removal, otherwise the matching lines are overwritten; the invariant is kept, and positive quantities are kept for a non-negative quantity |

## Left out

- Rendering: JSX, styling, icons, images, the static home, about, reviews and contacts content and the footer are presentation only. This includes the home panel's "popular products" list (the first four catalog products) and the "nothing found" and "cart is empty" messages.
- Price formatting with `toLocaleString('ru-RU')` is a display concern of a locale library.
- Text.LowerChar: models only Unicode's lower-case mapping of Latin A-Z and Cyrillic U+0400-U+042F, which covers every character in the catalog's names. The rest of JavaScript's Unicode case mapping is not modelled.
- JavaScript numbers are IEEE doubles. The model uses unbounded integers. Prices, ids and quantities here are small integers, so sums are exact in both. NaN, fractional or non-numeric quantities are not modelled.
- React's `useState` machinery is not modelled: each setter call is one atomic replacement of its slot. Updater-function batching and render scheduling are left out.
- The category tabs are assumed to pass only the tab ids they list. The model lets `SetSelectedCategory` take any string, as the setter does, and `UnknownCategoryListsNothing` covers the other strings.
- StorefrontPage.IndexPage.AddToCart: requires the product to be a catalog product. The page only calls `addToCart` with elements of `products` (`src/pages/Index.tsx:224-239`, `src/pages/Index.tsx:282-297`). The requirement lets the page invariant say that a line's price is its product's catalog price.
- ShoppingCart.AddToCartTotals: requires unique ids and a matching price on any existing line. Without these, `map` bumps every line with the id, each at its own price. The page invariant supplies both.
