# ShopVibe shopping cart — a Dafny model

This project models the logic of the ShopVibe storefront. That logic is:

- the shopping-cart provider, with its four updates and its storage snapshot;
- the cart page's order summary, quantity buttons and simulated checkout;
- the product list's category and search filters;
- the header's cart badge and theme switch.

Everything is in whole cents, so the arithmetic is exact where the storefront uses JavaScript numbers.

Modules:

- `CartStore` (`cart_store.dfy`) models `context/shopping-cart-context.tsx`. The updaters are pure functions: `AddItem`, `RemoveItem`, `SetQuantity`. The provider is the class `ShoppingCart`, with a `cart` field and a `stored` field standing for the storage key `"cart"`. Each method replaces the cart through an updater and then runs the save step.
- `CartPage` (`cart_page.dfy`) models `app/cart/page.tsx`. It holds the totals, the free-shipping hint, the quantity-button rules and the progress updater. The class `Checkout` holds `isCheckingOut` and `checkoutProgress`.
- `ProductList` (`product_list.dfy`) models `components/product-list.tsx`. It holds category extraction, the two filters and the category toggle. The class `ProductListState` holds the component's state and its handlers.
- `Header` (`header.dfy`) models `components/header.tsx`.
- `Sequences`, `Strings`, `Catalog` and `Wrappers` are helpers:
  - `Sequences` models JavaScript `filter`, `reduce` and `[...new Set(xs)]`, each with a reference definition.
  - `Strings` models ASCII `toLowerCase` and `includes`.
  - `Catalog` holds the product record.
  - `Wrappers` holds `Option` and `Result`.

The storage snapshot is abstract. `Serialized(cart)` is what `JSON.stringify` writes. `Unparsable(text)` is text that `JSON.parse` rejects. `None` means the key is absent.

Two facts about the code that a reader might not expect:

- The store itself does not keep quantities at 1 or more. `updateQuantity` stores any number, and `UpdateQuantityIsUnchecked` shows that a quantity of 0 gets stored. Only the page's buttons keep quantities positive (`UiKeepsQuantitiesPositive`).
- Mounting rewrites the storage key with the empty cart before a saved cart is adopted. So a corrupt snapshot is replaced by an empty one. The `ShoppingCart` constructor follows this order.

## Model

| member | source | states |
|---|---|---|
| `Sequences.Filter` | components/product-list.tsx:45 | `filter` keeps exactly the passing elements: it returns a subsequence in the original order, with each passing element's full multiplicity and nothing else; when everything passes, it returns the input unchanged |
| `Sequences.ReduceIsSum` | components/header.tsx:24 | the left fold `reduce(acc + w(x), acc)` equals `acc` plus the reference right-fold sum, for every sequence |
| `Sequences.DedupeSpec` | components/product-list.tsx:28 | `[...new Set(s)]` has no duplicates; it holds exactly the elements of `s`, ordered by their first occurrence in `s` |
| `Strings.Includes` | components/product-list.tsx:52 | `s.includes(sub)` is true iff `sub` occurs in `s` as a contiguous block at some position |
| `Strings.ToLower` | components/product-list.tsx:50-52 | lowercasing keeps the length; each capital ASCII letter becomes its small letter; every other character is kept; no capital letter remains |
| `Strings.ToLowerIdempotent` | components/product-list.tsx:50 | lowercasing twice equals lowercasing once |
| `CartStore.Find` | context/shopping-cart-context.tsx:42 | `find` by id returns an item iff some line item has that id, and any item it returns is in the cart and carries that id |
| `CartStore.AddItem` | context/shopping-cart-context.tsx:40-50 | if the id is present: same length and order; every product record is kept, not replaced by the new product; matching items gain exactly one unit; the rest are unchanged. If the id is absent: the product is appended with quantity 1. Either way the id is then present, and unique ids and positive quantities are preserved |
| `CartStore.AddItemToPresent` | context/shopping-cart-context.tsx:42-45 | with unique ids, adding a present product is exactly a one-position update of its line item, quantity + 1 |
| `CartStore.RemoveItem` | context/shopping-cart-context.tsx:52-54 | afterwards no line item has the id; the result is a subsequence of the cart in the original order; it holds every other item with its multiplicity; removing an absent id changes nothing |
| `CartStore.RemoveItemKeepsUniqueIds` | context/shopping-cart-context.tsx:53 | removing by id keeps the ids unique |
| `CartStore.SetQuantity` | context/shopping-cart-context.tsx:56-58 | ids, order, length and product records are unchanged; matching items take exactly the given quantity; every other item is unchanged; an absent id changes nothing; unique ids are preserved |
| `CartStore.SetQuantityAtPresent` | context/shopping-cart-context.tsx:57 | with unique ids, updating a present id is a one-position update of its line item |
| `CartStore.UpdateQuantityIsUnchecked` | context/shopping-cart-context.tsx:56-58 | no validation: setting a present id to 0 leaves a line item with no units |
| `CartStore.FindUnique` | context/shopping-cart-context.tsx:42 | with unique ids, `find` returns the one line item that carries the id |
| `CartStore.QuantityOfUnique` | context/shopping-cart-context.tsx:6-8 | with unique ids, the units held of a present id are its line item's quantity, and of an absent id zero |
| `CartStore.AddItemQuantity` | context/shopping-cart-context.tsx:40-50 | with unique ids, one add raises the added id's units by exactly 1 and leaves every other id's units unchanged |
| `CartStore.AddAllQuantities` | context/shopping-cart-context.tsx:40-50 | any sequence of adds keeps ids unique, and each id gains exactly as many units as there were adds with that id |
| `CartStore.AddTimesToEmpty` | context/shopping-cart-context.tsx:40-50 | n ≥ 1 adds of one product to an empty cart give a single line item with quantity n |
| `CartStore.ParseSerialize` | context/shopping-cart-context.tsx:28 | parsing a written snapshot gives back the same line items in the same order |
| `CartStore.ShoppingCart.constructor` | context/shopping-cart-context.tsx:21-38 | an absent or unparsable snapshot leaves the cart empty and raises nothing; a parsed snapshot is adopted as-is; afterwards the storage key holds the current cart |
| `CartStore.ShoppingCart.Save` | context/shopping-cart-context.tsx:36-38 | the save step writes the current cart to the storage key and does not change the cart |
| `CartStore.ShoppingCart.AddToCart` | context/shopping-cart-context.tsx:40-50 | the cart becomes `AddItem` of the old cart; unique ids are kept; the snapshot equals the new cart |
| `CartStore.ShoppingCart.RemoveFromCart` | context/shopping-cart-context.tsx:52-54 | the cart becomes `RemoveItem` of the old cart; unique ids are kept; the snapshot equals the new cart |
| `CartStore.ShoppingCart.UpdateQuantity` | context/shopping-cart-context.tsx:56-58 | the cart becomes `SetQuantity` of the old cart; unique ids are kept; the snapshot equals the new cart |
| `CartStore.ShoppingCart.ClearCart` | context/shopping-cart-context.tsx:60-62 | the cart is empty whatever it held, so a second call changes nothing; the snapshot equals the empty cart |
| `CartStore.UseShoppingCart` | context/shopping-cart-context.tsx:79-85 | outside a provider the hook fails with its fixed message; inside one it returns that provider |
| `Header.TotalItems` | components/header.tsx:24 | the badge count equals the sum of the quantities of all line items (0 for the empty cart) |
| `Header.Badge` | components/header.tsx:107 | the badge is rendered iff the count is positive, and it shows that count |
| `Header.BadgeShownIffNonEmpty` | components/header.tsx:107 | when every quantity is at least 1, the badge shows iff the cart has a line item |
| `Header.TotalItemsAfterAdd` | components/header.tsx:24 | with unique ids, an add raises the badge count by exactly 1 |
| `Header.ToggleTheme` | components/header.tsx:122 | the result is always "light" or "dark", and it is "light" iff the current theme is "dark" |
| `Header.ToggleThemeTwice` | components/header.tsx:51 | toggling twice from "dark" or "light" returns to the starting theme |
| `CartPage.TotalPrice` | app/cart/page.tsx:48 | the subtotal equals the sum over line items of price × quantity |
| `CartPage.ShippingFee` | app/cart/page.tsx:49 | the fee is 0 or 10.00, and it is 0 iff the subtotal is strictly above 50.00 |
| `CartPage.ShippingFeeMonotone` | app/cart/page.tsx:49 | a larger subtotal never pays more shipping; exactly 50.00 pays 10.00, and 50.01 pays nothing |
| `CartPage.FinalTotal` | app/cart/page.tsx:50 | the total exceeds the subtotal by exactly the shipping fee, so it is either above 50.00 or the subtotal plus 10.00 |
| `CartPage.FreeShippingHint` | app/cart/page.tsx:166-168 | the hint is shown iff a fee is charged, and its amount is non-negative and equals 50.00 − subtotal |
| `CartPage.HintAmountStillPaysShipping` | app/cart/page.tsx:166-168 | adding exactly the hinted amount still leaves the 10.00 fee charged |
| `CartPage.CorrectedFreeShippingHint` | app/cart/page.tsx:166-168 | the corrected hint is shown iff a fee is charged; adding its amount makes shipping free, and one cent less does not |
| `CartPage.DecrementRequest` | app/cart/page.tsx:121 | the minus button never requests a quantity below 1, never requests more than the current quantity (when that is at least 1), requests q − 1 when q > 1, and requests exactly 1 when q ≤ 1 |
| `CartPage.IncrementRequest` | app/cart/page.tsx:130 | the plus button requests more than the current quantity, exactly q + 1 when q < 1, and from q ≥ 1 the minus button brings it back to q |
| `CartPage.Apply` | app/cart/page.tsx:121-138 | no single interface action (add, minus, plus, remove, checkout) lowers a line item below one unit or makes an id appear on two line items |
| `CartPage.UiKeepsQuantitiesPositive` | app/cart/page.tsx:121-138 | starting from quantities ≥ 1, any sequence of interface actions (adds, minus, plus, remove, checkout) keeps every quantity ≥ 1 |
| `CartPage.UiKeepsIdsUnique` | app/cart/page.tsx:121-138 | starting from unique ids, any sequence of interface actions keeps the ids unique |
| `CartPage.ItemsLabelCountsLines` | app/cart/page.tsx:159 | the "(n items)" label counts line items: never more than the badge count, and equal to it iff every line holds exactly one unit |
| `CartPage.TotalPriceAfterAdd` | app/cart/page.tsx:48 | with unique ids, an add raises the subtotal by one unit at the price the cart already holds for that id, or at the new product's price if the id is new |
| `CartPage.EmptyCartSummary` | app/cart/page.tsx:48-50 | an empty cart has subtotal 0, badge count 0 and total 10.00 |
| `CartPage.TwiceAddedScenario` | context/shopping-cart-context.tsx:40-50 | adding one product twice to an empty cart gives one line item with quantity 2 |
| `CartPage.TwoAt1999Summary` | app/cart/page.tsx:48-50 | one line of two units at 19.99 gives subtotal 39.98, fee 10.00 and total 49.98 |
| `CartPage.FreeShippingScenario` | app/cart/page.tsx:49-50 | a 60.00 subtotal ships free, so the total is 60.00 |
| `CartPage.NextProgress` | app/cart/page.tsx:31-37 | from a reachable value (0, 25, 50, 75, 100), one tick stays reachable, never decreases and never exceeds 100; below 100 it advances by exactly 25, and it reaches 100 exactly from 75 upwards |
| `CartPage.ProgressAfterTicks` | app/cart/page.tsx:31-37 | after n ticks from 0 the progress is min(25·n, 100) |
| `CartPage.Checkout.constructor` | app/cart/page.tsx:17-18 | the page starts with no checkout running and progress 0 |
| `CartPage.Checkout.HandleCheckout` | app/cart/page.tsx:52-54 | starting a checkout sets the flag and resets progress to 0; while one runs the button is disabled and nothing changes |
| `CartPage.Checkout.Tick` | app/cart/page.tsx:31-37 | while checking out, a tick applies the updater; progress stays reachable, never decreases and never exceeds 100 |
| `CartPage.Checkout.Complete` | app/cart/page.tsx:57-59 | completing checkout empties the cart, stores the empty snapshot and lowers the flag |
| `ProductList.UniqueCategories` | components/product-list.tsx:28 | the category list has no duplicates; it holds exactly the categories the products carry, in first-occurrence order |
| `ProductList.FilterProducts` | components/product-list.tsx:40-57 | the category filter followed by the search filter equals a single filter by "passes both", in catalog order |
| `ProductList.FilterProductsSpec` | components/product-list.tsx:40-57 | the filtered list is a subsequence of the products; it holds each passing product with its multiplicity and nothing else; with no category and no query it equals the products |
| `ProductList.FilterProductsSound` | components/product-list.tsx:44-54 | every listed product has the selected category, and under a query its lowercased title or lowercased description contains the lowercased query |
| `ProductList.FilterProductsComplete` | components/product-list.tsx:44-54 | no product that passes both filters is dropped |
| `ProductList.SearchIgnoresCase` | components/product-list.tsx:50-52 | two queries with the same lowercase form list the same products |
| `ProductList.NextCategory` | components/product-list.tsx:59-61 | the selection becomes "" iff the clicked category is already selected or is ""; otherwise it becomes the clicked category |
| `ProductList.NextCategoryTwice` | components/product-list.tsx:59-61 | clicking "All" always gives ""; clicking c twice gives "" unless c was already selected |
| `ProductList.ProductListState.constructor` | components/product-list.tsx:12-16 | every list starts empty and both filters start at "" |
| `ProductList.ProductListState.ApplyFilters` | components/product-list.tsx:40-57 | the filter effect sets the shown list to the filter of the current products, category and query |
| `ProductList.ProductListState.ReceiveProducts` | components/product-list.tsx:24-29 | the received products are stored, their unique categories extracted and the filters re-applied; the filters themselves are kept |
| `ProductList.ProductListState.SetSearchQuery` | components/product-list.tsx:82 | typing replaces the query and re-filters; nothing else changes |
| `ProductList.ProductListState.HandleCategoryChange` | components/product-list.tsx:59-61 | the selection follows `NextCategory`, and the list is re-filtered |
| `ProductList.ProductListState.ClearFilters` | components/product-list.tsx:118-121 | both filters reset to "", and the shown list equals the products |

## Findings

| source | as written | input that shows it | evidently intended | confidence | as-written member | corrected member |
|---|---|---|---|---|---|---|
| app/cart/page.tsx:166-168 | the hint says "Add $(50 − subtotal) more to get free shipping", but shipping is free only when the subtotal is strictly above 50 (line 49) | subtotal 39.98: the hint says add 10.02; the subtotal becomes 50.00, and the 10.00 fee is still charged | the hint names an amount that actually waives the fee: one cent more than 50 − subtotal | medium; not executed | `CartPage.HintAmountStillPaysShipping` | `CartPage.CorrectedFreeShippingHint` |

## Left out

- The product fetch (components/product-list.tsx:20-37) is network I/O. `ReceiveProducts` starts where the data arrives. The fetch error path and the `loading` flag are not modelled.
- Login and the token gate (context/auth-context.tsx), the cart page's redirect to login, app/layout.tsx, app/page.tsx, the product detail page and components/product-card.tsx are left out. They are routing, rendering and remote calls. The product card's only cart effect is `addToCart`, which is modelled by the `AddProduct` interface action.
- JSON and storage specifics: a snapshot is either a list of line items or unparsable text. A snapshot that parses to some other JSON value would be adopted unchecked by the source. That case is not modelled.
- The load step's `console.error` on a snapshot that fails to parse (context/shopping-cart-context.tsx:30) is console output. The model keeps only its effect on state: the cart stays empty.
- Timers: the 500 ms interval and the 2500 ms timeout are not modelled. Only the updater (`Tick`) and the completion step (`Complete`) are, and any interleaving of them is allowed.
- The toast, the navigation after checkout, and `toFixed(2)` formatting are display only.
- JavaScript floating point: prices are whole cents and ratings are hundredths. The model does not capture float drift in sums such as 19.99 × 2.
- Lowercasing covers ASCII letters only. JavaScript's full Unicode `toLowerCase` is not modelled.
- `Find`: its contract does not say which match it returns, only whether one exists. The source uses only that.
- React specifics are not modelled: batching of state updates, the development-mode double run of effects, re-render scheduling, and several tabs sharing one storage key.
