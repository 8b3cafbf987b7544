# Candy storefront: pricing, cart and stock allocation in Dafny

This project models the logic at the centre of a small freeze-dried candy shop, written in JavaScript and React:

- **The deal engine.** Two tiered "N for $X" discounts:
  - "Stock Up & Save": 3 Large or $10 bags for $27.
  - "Double Up": 2 Regular or $8 bags for $15.

  It also covers the customizable "Crunch Jackpot" bundle, where the shopper picks any 6 of 8 flavours for $50:
  - availability;
  - per-flavour stock;
  - the selection total;
  - the stock-bearing order lines that a selection expands to.
- **The bundle picker.** A guarded update of the flavour → quantity selection. It never exceeds a flavour's stock or the six-bag cap.
- **The stock client.** It folds the `products` rows into a SKU → quantity snapshot and looks up a SKU's level.
- **The order code.** Three letters from the customer's name, a dash and three digits.
- **The order page.** Quantities, subtotal, delivery fee and total, the empty-cart guard, the order lines, and the submission status.
- **The admin console.** The stock adjustment (read, clamp at zero, write), the pending-payment list, marking an order paid, and the stock badge.
- **The launch-deals section.** It hides itself when both deals are off and shows the bundle only while it is in stock. The check fails open: a snapshot that is missing or empty counts as in stock. A failed stock fetch also yields the empty map (`src/utils/inventoryService.js:14-17`, `26-29`), so after a failed fetch the bundle is shown as available.

## How the model is organised

There is one module per source file, plus `Common`:

| file | module | source |
|---|---|---|
| `common.dfy` | `Common` | helper module: `Option`, JavaScript `x \|\| 0` (`OrZero`) and `Math.max(0, x)` (`Max0`) |
| `inventory.dfy` | `Inventory` | `src/utils/inventoryService.js` |
| `deals.dfy` | `Deals` | `src/data/deals.js` |
| `bundle_customizer.dfy` | `BundleCustomizer` | `src/components/BundleCustomizer.jsx` |
| `order_utils.dfy` | `OrderUtils` | `src/utils/orderUtils.js` |
| `order.dfy` | `OrderPage` | `src/pages/Order.jsx` |
| `admin.dfy` | `Admin` | `src/pages/Admin.jsx` |
| `launch_deals.dfy` | `LaunchDeals` | `src/components/LaunchDeals.jsx` |

**Loops and state.**
- Loops in the source become methods with loop invariants, each proved against a specification function. Examples: the discount calculators, `isBundleAvailable`, `getBundleStock`, `getBundleOrderItems`, the selection-total `reduce` and the stock-map `forEach`.
- Component state that the source updates in place becomes a class:
  - `BundlePicker` holds the selections, the derived stock table and the expanded flag;
  - `OrderForm` holds the quantities, form data, pickup flag and status;
  - `AdminConsole` holds the two remote tables and the two lists shown on the page.

**JavaScript semantics, written out.**
- `x || 0` on a missing key reads 0.
- `Math.floor(n / k)` with `k > 0` is Euclidean division.
- `%` truncates toward zero, as `JsRem`.
- `Math.max(0, x)` is `Max0`.

**Simplifications.**
- Integers are unbounded; the source's quantities and prices are small integers.
- A null SKU or a missing customer name is the empty string.
- A timestamp is an integer.
- Anything that comes back from the network is an input: a query result, a failed write, an HTTP response or a confirmation dialog's answer. So is the random draw behind the order code.

**Where the model departs from the written code.**
- **Catalogue prices.** `src/pages/Order.jsx:42-44` multiplies each catalogue entry's top-level `price`. The catalogue in `src/data/products.js` keeps its prices only inside `sizes` (for example `src/data/products.js:11-12`). As written, every subtotal would therefore be `NaN`, with these consequences:
  - The empty-cart guard `subtotal === 0` (`src/pages/Order.jsx:59`) never fires, since `NaN === 0` is false, so an empty cart is submitted too.
  - `NaN >= 50` is false, so the fee is always $10 unless the order is a pickup.
  - The total is `NaN`.

  The model gives each catalogue entry a price, `Product(id, name, price)`, and proves the page's promises over that. The `NaN` arithmetic is not reproduced. `OrderPage.EmptyCartIffNoItems` and `OrderPage.Subtotal`'s contract therefore hold for a priced catalogue only, not for the catalogue as the code reads it.
- **No discounts on the order page.** The order page applies no deal discount and generates no order code. It computes the delivery threshold on the undiscounted subtotal. The model follows the code.

## Model

| member | source | states |
|---|---|---|
| `Inventory.GetStockLevel` | src/utils/inventoryService.js:36-38 | a SKU absent from the snapshot reads 0; a stored value comes back unchanged, negative values included (no clamping) |
| `Inventory.FetchStockData` | src/utils/inventoryService.js:8-30 | a query error or a thrown exception gives the empty map; rows give the map built by folding them in order |
| `Inventory.BuildStockMap` | src/utils/inventoryService.js:19-24 | the snapshot never has the empty (null) SKU as a key, and every value it holds is the quantity of some row carrying that SKU |
| `Inventory.BuildStockMapKeys` | src/utils/inventoryService.js:19-24 | the snapshot's keys are exactly the non-empty SKUs occurring in the rows; rows without a SKU are skipped |
| `Inventory.BuildStockMapLastWins` | src/utils/inventoryService.js:20-23 | for a SKU, the stored quantity is that of the last row carrying it (later rows overwrite earlier ones) |
| `Deals.IsEligibleForMixMatch` | src/data/deals.js:148-152 | true iff the size exists and is named "Large" or priced $10 (the deal being active) |
| `Deals.IsEligibleForRegularDeal` | src/data/deals.js:159-163 | true iff the size exists and is named "Regular" or priced $8 (the deal being active) |
| `Deals.JsRem` | src/data/deals.js:102 | JavaScript's truncating `%` for a positive divisor: strictly between `-k` and `k`, equal to the Euclidean remainder for a non-negative count, never positive for a negative one |
| `Deals.CalculateDiscount` | src/data/deals.js:84-108 | an inactive deal gives `{0, 0, 0}`; an active one gives the tier arithmetic applied to the sum of the quantities of non-bundle lines whose size matches by name or price |
| `Deals.TierSavings` | src/data/deals.js:101-108 | for `n >= 0` eligible items, `dealSets * k + n mod k == n`, `dealSets >= 0`, and savings equal `dealSets * (k * regular - dealPrice)` |
| `Deals.EligibleCountNonNegative` | src/data/deals.js:88-99 | with no negative quantity in the cart the eligible count is not negative |
| `Deals.CalculateMixMatchDiscount` | src/data/deals.js:84-109 | `dealSets == count div 3`; for a non-negative count the savings are exactly `3 * dealSets`; with no negative quantity the savings are never negative |
| `Deals.CalculateRegularDiscount` | src/data/deals.js:117-141 | `dealSets == count div 2`; for a non-negative count the savings are exactly `dealSets` ($1 per pair); with no negative quantity the savings are never negative |
| `Deals.EligibleCountAppend` | src/data/deals.js:91-99 | the eligible count of a cart is the sum of the counts of any split of it |
| `Deals.BundleLinesIgnored` | src/data/deals.js:93 | inserting a line whose key starts with `full-collection-bundle` anywhere in a cart never changes the count |
| `Deals.CalculatorAgreesWithPredicate` | src/data/deals.js:95-99 | for an active deal, a non-bundle line adds its full quantity iff the exported eligibility predicate holds for its size, and nothing otherwise |
| `Deals.DealsCanOverlap` | src/data/deals.js:96 | nothing stops one line from counting toward both deals: a Large size priced $8 counts with its full quantity in each |
| `Deals.CatalogueSizesInOnePool` | src/data/deals.js:148-163 | over the sizes the catalogue sells (Regular $8, Large $10, Bag $10), each size is eligible for exactly one of the two deals |
| `Deals.ConfiguredSavingsAgree` | src/data/deals.js:4-61 | the configured `savingsPerSet` of each tier equals `k * regular - dealPrice`, and the bundle's savings equal original minus sale price, $10, with the original price six $10 bags |
| `Deals.GetEligibleSkus` | src/data/deals.js:66-68 | the eight eligible SKUs, position by position, and no two alike |
| `Deals.GetMaxBundleQuantity` | src/data/deals.js:237-239 | a custom bundle is ordered one at a time |
| `Deals.IsBundleAvailable` | src/data/deals.js:171-182 | false for an inactive bundle; otherwise true iff the clamped stock summed over the eligible SKUs reaches `maxItems` |
| `Deals.ClampedStockSumMonotone` | src/data/deals.js:177-180 | the clamped stock sum never decreases when no eligible SKU loses stock |
| `Deals.RaisingStockKeepsBundleAvailable` | src/data/deals.js:171-182 | raising one SKU's stock never turns an available bundle unavailable |
| `Deals.GetBundleStock` | src/data/deals.js:190-197 | one entry for each eligible SKU and no other key; each value is the clamped stock level, never negative |
| `Deals.SelectionTotalRemove` | src/data/deals.js:229-231 | the selection total can be split at any key: that key's value plus the total of the rest |
| `Deals.SelectionTotalUpdate` | src/data/deals.js:229-231 | setting one key changes the total by the difference at that key; deleting it subtracts its old value |
| `Deals.GetBundleSelectionTotal` | src/data/deals.js:229-231 | the loop over the selection's entries returns the sum of all its values |
| `Deals.GetBundleOrderItems` | src/data/deals.js:204-222 | the lines produced are those of the specification `BundleItems`: one per eligible product with a positive selection |
| `Deals.BundleItemsShape` | src/data/deals.js:207-219 | every line costs $10, is flagged `isBundle` and `isBundleComponent`, names the bundle as parent, and carries the positive selected quantity of an eligible SKU |
| `Deals.BundleItemsCover` | src/data/deals.js:207-219 | every eligible product with a positive selection has its line |
| `Deals.BundleItemsInOrder` | src/data/deals.js:206-220 | the lines follow `eligibleProducts` order (strictly increasing product indices), and every product skipped has no positive selection |
| `Deals.BundleItemsQuantityTotal` | src/data/deals.js:204-231 | with distinct eligible SKUs and non-negative selections, the emitted quantities add up to the selection total restricted to the eligible SKUs (other keys are ignored) |
| `BundleCustomizer.IsComplete` | src/components/BundleCustomizer.jsx:32 | a complete selection leaves no room: no flavour's "+" button is enabled |
| `BundleCustomizer.CanAdd` | src/components/BundleCustomizer.jsx:153-156 | when "+" is enabled the flavour has stock, and one more bag fits both its stock and the six-bag cap |
| `BundleCustomizer.Transition` | src/components/BundleCustomizer.jsx:48-63 | a proposed quantity above the flavour's stock is refused; an accepted update sets that flavour to the proposed quantity, drops its key exactly at zero, and leaves every other flavour as it was |
| `BundleCustomizer.Remaining` | src/components/BundleCustomizer.jsx:65 | `remaining` is zero iff the selection is complete, and lies in `[0, 6]` for a total in `[0, 6]` |
| `BundleCustomizer.ProposedQty` | src/components/BundleCustomizer.jsx:49-50 | the proposed quantity is never negative; a SKU not yet selected proposes `max(0, delta)` |
| `BundleCustomizer.AcceptedUpdate` | src/components/BundleCustomizer.jsx:48-63 | an accepted update keeps the total within the cap and the changed flavour within its stock; a zero quantity removes the key; every other flavour is untouched |
| `BundleCustomizer.DecrementRefusedAboveStock` | src/components/BundleCustomizer.jsx:51-54 | the stock check applies to decrements too: a flavour still above its stock after one step down cannot be lowered |
| `BundleCustomizer.OverCapRefused` | src/components/BundleCustomizer.jsx:56-58 | an update pushing `total - current + newQty` past 6 is refused whatever the stock |
| `BundleCustomizer.CanAddIffIncrementAccepted` | src/components/BundleCustomizer.jsx:153-156 | for non-negative selections the "+" button is enabled exactly when the one-step increment would be accepted |
| `BundleCustomizer.BundlePicker.constructor` | src/components/BundleCustomizer.jsx:29-37 | starts collapsed with an empty selection; the stock table has one entry for each eligible SKU and no other key, holding that flavour's clamped stock |
| `BundleCustomizer.BundlePicker.RefreshStock` | src/components/BundleCustomizer.jsx:35-37 | a new snapshot re-derives the stock table (one clamped entry per eligible SKU) and keeps the picker's invariant |
| `BundleCustomizer.BundlePicker.UpdateSelection` | src/components/BundleCustomizer.jsx:48-63 | publishes exactly when the guarded transition accepts, and then the published map is the transition's; otherwise the selection is unchanged; positive entries and total ≤ 6 are preserved |
| `BundleCustomizer.BundlePicker.ToggleExpanded` | src/components/BundleCustomizer.jsx:73 | flips the expanded flag |
| `BundleCustomizer.BundlePicker.ClickAddToCart` | src/components/BundleCustomizer.jsx:242-279 | a click happens only in the expanded picker (line 112); `onAddToCart` fires iff the selection totals exactly 6 (both buttons are disabled otherwise, and the first re-checks), and then the picker collapses; otherwise it stays open |
| `OrderUtils.CleanName` | src/utils/orderUtils.js:9 | the cleaned name holds only ASCII letters, is no longer than the input, and keeps every letter of it |
| `OrderUtils.CleanNameSingle` | src/utils/orderUtils.js:9 | one character is kept iff it is an ASCII letter; with `CleanNameAppend` this determines the cleaning of every string |
| `OrderUtils.CleanNameInOrder` | src/utils/orderUtils.js:9 | the cleaned name is exactly the input's letters in their order: each character comes from a strictly later input position than the one before, and every letter of the input is taken |
| `OrderUtils.CleanNameCount` | src/utils/orderUtils.js:9 | each ASCII letter occurs as often in the cleaned name as in the input, and no other character occurs in it |
| `OrderUtils.CleanNameAppend` | src/utils/orderUtils.js:9 | cleaning distributes over concatenation |
| `OrderUtils.CleanNameIdempotent` | src/utils/orderUtils.js:9 | cleaning a cleaned name changes nothing |
| `OrderUtils.ToUpper` | src/utils/orderUtils.js:10 | upper-casing a letter gives an upper-case letter and leaves upper-case letters alone |
| `OrderUtils.Prefix` | src/utils/orderUtils.js:9-10 | three upper-case letters or `CUST`; `CUST` for no name or fewer than three letters; otherwise the first three cleaned letters, upper-cased |
| `OrderUtils.ThreeDigits` | src/utils/orderUtils.js:11-12 | a number in [100, 999] renders as three digits without a leading zero |
| `OrderUtils.ThreeDigitsRoundTrip` | src/utils/orderUtils.js:11-12 | reading back the three rendered digits gives the number again |
| `OrderUtils.GenerateOrderCode` | src/utils/orderUtils.js:8-13 | the code is prefix + "-" + three digits (length 7, or 8 for `CUST`), matches the code format, and its suffix reads back as `100 + draw` ∈ [100, 999] |
| `OrderPage.Subtotal` | src/pages/Order.jsx:42-44 | with non-negative quantities at positive prices, the subtotal is never negative, and is zero exactly when no catalogue entry has a positive quantity |
| `OrderPage.CalculateTotal` | src/pages/Order.jsx:41-52 | the subtotal is Σ price × quantity with absent quantities as 0; the fee is 0 iff pickup or subtotal ≥ $50, and $10 otherwise; total = subtotal + fee |
| `OrderPage.FreeDeliveryMonotone` | src/pages/Order.jsx:46-49 | free delivery, once reached, survives a larger subtotal |
| `OrderPage.OrderItems` | src/pages/Order.jsx:66-73 | there are never more order lines than catalogue entries, and every line carries a positive quantity |
| `OrderPage.OrderItemsSound` | src/pages/Order.jsx:66-73 | every order line is the line of a catalogue entry with a positive quantity, carrying its id, name, price and quantity |
| `OrderPage.OrderItemsComplete` | src/pages/Order.jsx:66-73 | every catalogue entry with a positive quantity has its line |
| `OrderPage.OrderItemsInOrder` | src/pages/Order.jsx:66-67 | the order lines follow catalogue order (strictly increasing entry indices), and every entry skipped has no positive quantity |
| `OrderPage.OrderItemsTotal` | src/pages/Order.jsx:42-44 | with no negative quantity, Σ price × quantity over the order lines equals the subtotal |
| `OrderPage.EmptyCartIffNoItems` | src/pages/Order.jsx:59-62 | at positive prices and non-negative quantities the subtotal is non-negative, and zero exactly when there is no order line: the guard refuses precisely the empty carts |
| `OrderPage.SubmittedLinesCoverSubtotal` | src/pages/Order.jsx:59-87 | a request that is sent carries at least one line, and its lines add up to its subtotal |
| `OrderPage.OrderForm.constructor` | src/pages/Order.jsx:13-31 | mounts idle and not pickup, with an empty cart or one of the product named in the URL |
| `OrderPage.OrderForm.UpdateQuantity` | src/pages/Order.jsx:33-39 | `q[id] := max(0, q[id] + delta)` with absent read as 0; quantities stay non-negative; every other id is unchanged |
| `OrderPage.OrderForm.SetPickup` | src/pages/Order.jsx:157-163 | the pickup toggle sets the flag |
| `OrderPage.OrderForm.SetFormData` | src/pages/Order.jsx:300-348 | the form fields are replaced |
| `OrderPage.OrderForm.BeginSubmit` | src/pages/Order.jsx:56-88 | a submit starts only from idle or error (the button is disabled while submitting, line 355; the success view replaces the form, line 102); a zero subtotal sends nothing and leaves the status; otherwise the status becomes submitting and the request carries the form, the order lines, the subtotal, fee, total and pickup flag |
| `OrderPage.OrderForm.FinishSubmit` | src/pages/Order.jsx:90-99 | settles a submitting request (the step is `submitting` → `success`/`error`): success on an ok response, error on a non-ok response or an exception |
| `Admin.StockBadge` | src/pages/Admin.jsx:270-271 | "In Stock" iff the count is positive; green iff above 10, orange iff 1 to 10, red iff 0 or below |
| `Admin.SetStock` | src/pages/Admin.jsx:127-130 | the rows with the SKU get the new quantity; every other row, and every other field, is unchanged |
| `Admin.SetStockReadBack` | src/pages/Admin.jsx:114-130 | after the write, reading the SKU gives the written quantity, the other SKUs read as before, and the number of rows per SKU is unchanged |
| `Admin.InsertByNewest` | src/pages/Admin.jsx:32 | inserting into a newest-first list keeps it newest-first and adds exactly the one order |
| `Admin.SortNewestFirst` | src/pages/Admin.jsx:32 | the result is newest-first and a permutation of the input |
| `Admin.PendingOrders` | src/pages/Admin.jsx:28-32 | the list is newest first, holds only pending-payment orders, and as a multiset equals the pending rows of the table |
| `Admin.PendingOrdersSpec` | src/pages/Admin.jsx:26-37 | the pending list is newest-first, holds only pending-payment orders of the table, holds every one of them, and as a multiset equals the filtered table |
| `Admin.MarkPaid` | src/pages/Admin.jsx:75 | only the orders with that id change, and only their status, to `paid` |
| `Admin.PaidLeavesPending` | src/pages/Admin.jsx:71-88 | once marked paid an order leaves the pending list, and every other pending order stays in it |
| `Admin.PaidEmail` | src/pages/Admin.jsx:81-85 | the email goes to the order's address with its code, named after the customer or "Customer" when there is no name |
| `Admin.AdjustedStock` | src/pages/Admin.jsx:125 | the written stock is never negative, and is exactly `current + delta` when that is not negative |
| `Admin.AdminConsole.constructor` | src/pages/Admin.jsx:8-9 | both lists start empty |
| `Admin.AdminConsole.FetchOrders` | src/pages/Admin.jsx:26-37 | on success the list becomes the pending orders, newest first; on error it is kept |
| `Admin.AdminConsole.FetchInventory` | src/pages/Admin.jsx:39-49 | on success the list becomes the products table; on error it is kept |
| `Admin.AdminConsole.UpdateStock` | src/pages/Admin.jsx:112-137 | a failed read, or a SKU not matching exactly one row, writes nothing; the write lands on the table as it stands at write time (the read at 114-118 and the write at 127-130 are separate round trips); a failed write adds nothing; otherwise `max(0, current + delta)`, computed from the read, is written to that SKU's rows only and the list is refetched |
| `Admin.LostStockUpdate` | src/pages/Admin.jsx:114-130 | a concrete lost update: read 5, add 1, an order takes 2 meanwhile (3 left); the write stores 6, not 4 |
| `Admin.AdminConsole.ConfirmPaid` | src/pages/Admin.jsx:71-88 | nothing happens without confirmation; the "paid" email goes out iff the write succeeded, and then only that order's status is `paid` and the pending list is refetched |
| `LaunchDeals.BundleInStock` | src/components/LaunchDeals.jsx:35-37 | fails open: a missing or empty snapshot counts as in stock, even for a bundle that is off; a loaded snapshot counts as in stock only for an active bundle whose clamped stock reaches `maxItems` |
| `LaunchDeals.Render` | src/components/LaunchDeals.jsx:29-194 | nothing is shown iff both deals are off; the bundle card iff the bundle is on; the mix-and-match card iff that deal is on; the order link and SAVE badge iff the bundle is in stock, otherwise SOLD OUT and a disabled button |
| `LaunchDeals.OrderLinkOffered` | src/components/LaunchDeals.jsx:35-37 | the order link is offered iff the bundle is on and either the snapshot is missing or empty (fail-open) or its clamped stock reaches `maxItems` |
| `LaunchDeals.RestockKeepsOrderLink` | src/components/LaunchDeals.jsx:35-37 | with a loaded snapshot, restocking a SKU never turns the bundle from in stock to sold out |
| `LaunchDeals.ConfiguredSectionShown` | src/components/LaunchDeals.jsx:32 | with the configured deals both cards are shown |

## Left out

- **Supabase I/O.** The queries, writes and RPC calls are not modelled. Each outcome is a parameter: success, error or exception. The realtime stock subscription and its unsubscribe (`src/utils/inventoryService.js:45-68`) are asynchronous callbacks and are left out.
- **`releaseStock`.** The cancel action (`src/pages/Admin.jsx:90-108`) calls the database procedure `admin_release_stock`. That procedure is not part of this model, so the stock it returns cannot be stated.
- **The server.** The server and its emails (`server/index.js`) are left out. The `fetch` calls to it are reduced to their response, or to the payload they would send.
- **Address search.** The Google Maps autocomplete, the image script and the connectivity script are left out.
- **Presentation.** Markup, animation and `progressPercent` are left out; `progressPercent` is floating point. The bundle image lookup `getBundleProductImage` is also left out.
- **Admin login.** The admin password check is left out. So are the `loading` flag and the tab switch that chooses which list to refresh.
- **Admin.AdminConsole.FetchInventory:** the inventory list keeps the table's order. Ordering by product name is left out, because string collation is the database's.
- **Admin.SortNewestFirst:** the order among pending orders with equal timestamps is the model's. The database promises only newest first.
- **Randomness.** `Math.random` is replaced by the draw `0 <= draw < 900` that it is scaled to.
- **Catalogue prices.** The catalogue's per-size prices and the `NaN` subtotal that the written code computes are not reproduced; see "Where the model departs from the written code".
- **Bundle aggregate line.** No synthetic bundle-total order line is modelled, because the code emits none.
- **OrderUtils.CleanName:** `trim` is not modelled separately. The characters it removes are all non-letters, which the cleaning drops anyway.
