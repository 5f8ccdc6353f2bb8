# Verdulería storefront — a Dafny model of its core rules

This project models the business logic of a small Next.js grocery store:
- the storefront (cart, checkout, banner, floating cart bar and the access middleware);
- the shipping-quote endpoint;
- the admin back office (orders, products, inquiries and the analytics reports).

The model proves properties about each part.

- `shipping.dfy`: `POST /api/calculateShipping`.
  - The request is a datatype.
  - The geocoder's and the router's answers are `Option` parameters, and the handler records the outbound calls it would make.
  - The distance becomes blocks of 100 m, rounded up.
  - The blocks are priced by a first-match scan over a 12-tier table, with a 5500 fallback. The scan is written as the loop of the source and proved equal to a step-function specification.
- `cart.dfy`, `checkout.dfy`, `cart_bar.dfy`: the cart context's `addToCart` / `removeFromCart` / `clearCart` as functions on the cart sequence; the order total and order-item rows built at checkout; the two-insert submit sequence; the floating cart bar.
- `admin_orders.dfy`, `admin_products.dfy`, `admin_inquiries.dfy`: the orders CSV export and its read-back, the payment/date filter, the local status update, the admin cancel, the product search and ten-per-page window, and the inquiries' row ranges and seen toggle. Each page is a class whose fields are the page's state.
- `analytics.dfy`, `product_sales.dfy`, `payment_report.dfy`, `weekday_report.dfy`, `cancellation_report.dfy`: the reports' grouping loops, proved against fold specifications. Totals are conserved, there is one entry per key, the sort is descending, the histogram is complete and the rate is bounded.
- `tally.dfy`: the insertion-ordered `Record<string, number>` plus `Object.entries` that three reports share.
- `dates.dfy`, `strings.dfy`, `wrappers.dfy`: the date-fns renderings, string helpers (prefix, ASCII case, join/split, decimal digits) and `Option`.
- `middleware.dfy`, `order_status.dfy`, `banner.dfy`: the access rule, the order-status tables with their label lookup, and the banner filter.

Money is whole pesos (`int`); distances and the cancellation percentage are `real`.

## Model

| member | source | states |
|---|---|---|
| Shipping.Blocks | src/app/api/calculateShipping/route.ts:139 | the block count is the least whole number of 100 m blocks covering the distance: 100·(b−1) < d ≤ 100·b |
| Shipping.BlocksMonotone | src/app/api/calculateShipping/route.ts:139 | a longer route never has fewer blocks |
| Shipping.BlocksBoundaries | src/app/api/calculateShipping/route.ts:139 | 0 m is 0 blocks, 50 m and 100 m are 1 block, 101 m is 2, 900 m is 9 |
| Shipping.FirstMatchBracket | src/app/api/calculateShipping/route.ts:156-162 | on an ascending table the scan is a step function: blocks in (maxBlocks[i−1], maxBlocks[i]] cost tier i's price |
| Shipping.FirstMatchBeyond | src/app/api/calculateShipping/route.ts:156-162 | past every tier the scan leaves the fallback price |
| Shipping.FirstMatchBounds | src/app/api/calculateShipping/route.ts:156-162 | the scanned price lies between the first tier's price and the fallback |
| Shipping.FirstMatchMonotone | src/app/api/calculateShipping/route.ts:141-162 | on an ascending table with a fallback above every price, more blocks never cost less |
| Shipping.PriceTableShape | src/app/api/calculateShipping/route.ts:141-156 | the store's table ascends strictly in maxBlocks and weakly in price, and 5500 is above every tier |
| Shipping.ShippingCost | src/app/api/calculateShipping/route.ts:141-162 | every price lies in [1800, 5500]; up to 5 blocks cost 1800; more than 60 blocks cost the 5500 fallback |
| Shipping.ShippingCostMonotone | src/app/api/calculateShipping/route.ts:141-162 | the cost is non-decreasing in the block count |
| Shipping.ShippingCostSteps | src/app/api/calculateShipping/route.ts:141-162 | each bracket of the store's table is priced by its own tier |
| Shipping.LookupPrice | src/app/api/calculateShipping/route.ts:156-162 | the loop that starts at the fallback and breaks at the first tier reaching the blocks returns exactly the scan specification |
| Shipping.Priced | src/app/api/calculateShipping/route.ts:113-173 | the route is requested from the store to the destination; a missing or zero distance (falsy) is a 500 with the generic error; otherwise the quote carries the routed distance, its blocks, their cost and the destination |
| Shipping.Handle | src/app/api/calculateShipping/route.ts:21-180 | high totals get coordinates only with no route: sent coordinates with no call, or the first geocoding candidate, with 400 when there is none. Otherwise a 2-element coords is used with no geocoding; else a truthy destination is geocoded (400 when not found); else 400 with no call. A geocoder failure is a 500 with the generic error on the normal path and an unhandled 500 on the high-total path, whose fetch sits outside the try. Every status is 200/400/500 and every quote is in [1800, 5500] |
| Shipping.Post | src/app/api/calculateShipping/route.ts:21-181 | the handler written with a mutable destination, early returns and the tier loop answers exactly what `Handle` specifies |
| Shipping.AddressScenario | src/app/api/calculateShipping/route.ts:71-173 | a typed address routed at 900 m is quoted 9 blocks at 2000 |
| Shipping.CoordsScenario | src/app/api/calculateShipping/route.ts:68-173 | coordinates routed at 50 m are quoted 1 block at 1800, and only the router is called |
| Cart.Increase | src/contexts/CartContext.tsx:49-53 | same length; the lines with the id gain `q`, every other line is unchanged |
| Cart.AddToCart | src/contexts/CartContext.tsx:43-58 | a present id keeps the length and products and raises only that line by `quantity ?? 1`; a new id appends exactly one line of that quantity; distinct ids stay distinct; the product is in the result |
| Cart.RemoveFromCart | src/contexts/CartContext.tsx:60-62 | no line with the id remains; removing an absent id leaves the cart unchanged |
| Cart.ClearCart | src/contexts/CartContext.tsx:64-67 | the cart is empty, with total and item count 0 |
| Cart.TotalAppend | src/app/checkout/page.tsx:49 | the total and item-count folds distribute over concatenation |
| Cart.IncreaseTotals | src/contexts/CartContext.tsx:48-54 | raising the one line with the id raises the item count by `q` and the total by its price times `q` |
| Cart.AddToCartTotals | src/contexts/CartContext.tsx:43-58 | with distinct ids, adding raises the item count by `quantity ?? 1` and the total by that many times the line's price |
| Cart.RemoveUndoesAdd | src/contexts/CartContext.tsx:56-62 | removing a newly added product gives back the cart from before the add |
| Cart.RemoveLine | src/contexts/CartContext.tsx:60-62 | with distinct ids, removing line k's product deletes exactly that line, keeps the rest in order, and takes its amount off the total and the item count |
| Cart.RemoveKeepsOthers | src/contexts/CartContext.tsx:61 | a line survives removal exactly when it is in the cart and has another id |
| Cart.RemoveKeepsDistinct | src/contexts/CartContext.tsx:61 | distinct ids stay distinct after a removal |
| Checkout.NewOrder | src/app/checkout/page.tsx:86-98 | the order row's total is the cart fold, and its name, address, phone, email, delivery option and both method fields come from the form |
| Checkout.OrderItems | src/app/checkout/page.tsx:109-114 | one item row per cart line, in order, carrying the new order id and the line's product id, quantity and price |
| Checkout.OrderTotalMatchesItems | src/app/checkout/page.tsx:97-114 | the item rows add up to the order row's total |
| Checkout.EmptyCartTotal | src/app/checkout/page.tsx:49 | an empty cart totals 0 |
| Checkout.CheckoutPage.constructor | src/app/checkout/page.tsx:17-33 | the page starts with the default form, not loading, no message, no navigation |
| Checkout.CheckoutPage.SubmitDisabled | src/app/checkout/page.tsx:258 | submit is disabled exactly while loading or with an empty cart |
| Checkout.CheckoutPage.HandleSubmit | src/app/checkout/page.tsx:81-160 | a failed order insert writes no items, keeps the cart and stays; a failed item insert keeps the cart and stays; only full success clears the cart and goes to /thanks; loading ends false |
| FloatingCartBar.ItemsCaption | src/components/FloatingCartBar.tsx:29 | the caption is plural ("productos") exactly when the count exceeds 1 |
| FloatingCartBar.Bar | src/components/FloatingCartBar.tsx:11-29 | hidden exactly for an empty cart or off /fruver, /sales, /search; when shown it carries the cart's total and item count |
| FloatingCartBar.BarFollowsCart | src/components/FloatingCartBar.tsx:11-20 | on a listed path, clearing the cart hides the bar and adding a product shows it |
| Banner.Shown | src/components/Banner.tsx:36-40 | a banner shows exactly when its minimum is absent or 0, or the total is below it |
| Banner.Visibles | src/components/Banner.tsx:36-40 | the visible banners are exactly the listed banners that show, and all of them when all show |
| Banner.VisiblesAppend | src/components/Banner.tsx:36-40 | the shown banners keep their list order: the filter works on a concatenation part by part |
| Banner.VisiblesSingle | src/components/Banner.tsx:36-40 | one banner is kept exactly when it is shown |
| Banner.Render | src/components/Banner.tsx:42-47 | the strip renders exactly under /fruver or /sales with some banner shown, and then lists the visible ones |
| Banner.Style | src/components/Banner.tsx:54-61 | success banners are green and warning banners yellow, and no other kind takes those classes |
| Banner.FreeShippingShownBelowThreshold | src/components/Banner.tsx:22-47 | with the static free-shipping banner, the strip renders exactly on the listed paths with a total under 15000 |
| Middleware.Middleware | src/middleware.ts:32-65 | public and framework prefixes pass without a user lookup; any other path passes exactly when there is a user, and otherwise redirects to /admin/login with next set to the path |
| Middleware.Serve | src/middleware.ts:67-70 | paths outside the matcher (with a dot) pass untouched; a matched path is decided by the access rule; a redirect only happens on a matched path with no user and carries the path |
| Middleware.RawPrefixes | src/middleware.ts:47-48 | matching is by raw prefix: /authors counts as a framework path and /admin/login-help as public |
| Middleware.StorefrontNeedsUser | src/middleware.ts:36-69 | the storefront paths / and /fruver redirect to login without a user and pass with one |
| OrderStatus.Parse | src/lib/constants.ts:22-29 | the six enum strings name their status and nothing else names one |
| OrderStatus.StatusTables | src/lib/constants.ts:22-71 | six pairwise-distinct statuses, each with a non-empty label and a colour, listed in ORDER_STATUSES in enum order with their labels |
| OrderStatus.EntriesOfStatuses | src/lib/constants.ts:40-62 | each ORDER_STATUSES entry is its status's value and label |
| OrderStatus.Find | src/lib/utils.ts:10 | `find` returns an entry with the value, and fails exactly when no entry has it |
| OrderStatus.FindInOrderStatuses | src/lib/utils.ts:10 | a stored status string finds exactly its own entry; an unknown one finds nothing |
| OrderStatus.GetStatusLabelFromList | src/lib/utils.ts:9-11 | each known status gets its Spanish label, an unknown string comes back unchanged, and a non-empty input never gives "" |
| AdminOrders.Cell | src/app/admin/orders/page.tsx:43 | a null field joins as the empty string |
| AdminOrders.ItemsOf | src/app/admin/orders/page.tsx:19 | exactly the items of the order |
| AdminOrders.ItemsOfAppend | src/app/admin/orders/page.tsx:19 | the selection keeps the items' order: it filters a concatenation part by part |
| AdminOrders.ItemsOfSingle | src/app/admin/orders/page.tsx:19 | one item is kept exactly when it belongs to the order |
| AdminOrders.ItemTexts | src/app/admin/orders/page.tsx:20-21 | one `name xqty` text per item, in order |
| AdminOrders.Fields | src/app/admin/orders/page.tsx:23-39 | 15 values in column order, each pinned to its source: the locale date and time, the customer, address, details, phone, email, delivery, payment and notification cells, the status, the cancellation reason and author cells, the total and the item list |
| AdminOrders.Rows | src/app/admin/orders/page.tsx:18-43 | one row per order, in order |
| AdminOrders.GenerateCsv | src/app/admin/orders/page.tsx:13-16 | the export is empty exactly when the orders or the items are empty |
| AdminOrders.ItemTextsClean | src/app/admin/orders/page.tsx:20-22 | item texts of clean product names hold no comma or line break |
| AdminOrders.ItemsOfClean | src/app/admin/orders/page.tsx:19 | selecting an order's items keeps them clean |
| AdminOrders.ProductosClean | src/app/admin/orders/page.tsx:20-22 | the products column of clean items holds no comma or line break |
| AdminOrders.FieldsClean | src/app/admin/orders/page.tsx:23-39 | with clean cells no field of a row holds a comma or line break |
| AdminOrders.HeaderClean | src/app/admin/orders/page.tsx:42 | the header line has no line break |
| AdminOrders.RowRoundTrip | src/app/admin/orders/page.tsx:43 | with clean cells a row splits on commas back into its 15 values |
| AdminOrders.CsvRoundTrip | src/app/admin/orders/page.tsx:18-44 | with clean cells the export splits into the header and one line per order, in order |
| AdminOrders.FilterOrders | src/app/admin/orders/page.tsx:76-85 | an order is kept exactly when it passes both the payment and the date filter, an empty filter passing all |
| AdminOrders.FilterOrdersAppend | src/app/admin/orders/page.tsx:76-85 | the listed orders keep their order: the filter works on a concatenation part by part |
| AdminOrders.FilterOrdersSingle | src/app/admin/orders/page.tsx:76-85 | one order is listed exactly when it passes both filters |
| AdminOrders.FilterComposes | src/app/admin/orders/page.tsx:76-85 | the filter is the payment filter followed by the date filter, in list order; with both empty every order is kept |
| AdminOrders.SetStatus | src/app/admin/orders/page.tsx:108-110 | same length; only the status of the orders with the id changes, every other field and order is unchanged |
| AdminOrders.SetStatusUndo | src/app/admin/orders/page.tsx:108-110 | changing a status and back restores the list; changing it twice is changing it once |
| AdminOrders.CancelPayload | src/app/admin/orders/page.tsx:264-271 | the admin cancel writes status "cancelled", the given reason and canceled_by "admin" for the order |
| AdminOrders.ApplyCancel | src/app/admin/orders/page.tsx:264-271 | the update changes the three fields of the order with the id and nothing else |
| AdminOrders.CancelledOrderView | src/app/admin/orders/page.tsx:233-271 | after an admin cancel the order reads "Cancelado", offers no cancel button, and shows the reason with "Administrador" |
| AdminOrders.CancelledRowView | src/app/admin/orders/page.tsx:233-256 | the same facts for a single row set to the cancel payload |
| AdminOrders.CancellationNotice | src/app/admin/orders/page.tsx:233-247 | the notice shows exactly for cancelled orders, always with a reason, naming "Administrador" exactly when the admin cancelled |
| AdminOrders.OpenDialogsAsWritten | src/app/admin/orders/page.tsx:257-259 | as written, the one flag opens the dialog of every listed order, each under its own id and in list order, or of none |
| AdminOrders.SharedDialogOpensOthers | src/app/admin/orders/page.tsx:248-260 | pressing cancel on a pending order also opens a delivered order's dialog |
| AdminOrders.OpenDialogs | src/app/admin/orders/page.tsx:248-260 | intended: only the pressed order's dialog is open, and it is open exactly when that order is listed |
| AdminOrders.OrdersPage.constructor | src/app/admin/orders/page.tsx:48-54 | empty lists and filters, no dialog, not loading |
| AdminOrders.OrdersPage.FetchData | src/app/admin/orders/page.tsx:56-70 | the lists become what was read, a failed read an empty list; the filters are kept |
| AdminOrders.OrdersPage.Filtered | src/app/admin/orders/page.tsx:76-85 | the listed orders are exactly those passing the page's filters |
| AdminOrders.OrdersPage.HandleExport | src/app/admin/orders/page.tsx:87-97 | with nothing listed it warns and produces no file; otherwise the file is the CSV of the listed orders |
| AdminOrders.OrdersPage.HandleStatusChange | src/app/admin/orders/page.tsx:99-113 | on failure the orders are kept with an error toast; on success only that order's status changes |
| AdminOrders.OrdersPage.PressCancel | src/app/admin/orders/page.tsx:248-256 | intended (see Findings): the dialog opens for the pressed order only if it is loaded and pending, and only for that order |
| AdminOrders.OrdersPage.CloseDialog | src/app/admin/orders/page.tsx:259 | the dialog closes and nothing else changes |
| AdminOrders.OrdersPage.ConfirmCancel | src/app/admin/orders/page.tsx:260-286 | intended (see Findings): sends the cancel payload for the one order whose dialog is open; a failure keeps lists and dialog; success reloads the lists and closes the dialog; loading ends false |
| AdminProducts.SearchFilter | src/app/admin/products/page.tsx:37-41 | a product is kept exactly when its lower-cased name contains the lower-cased search |
| AdminProducts.SearchFilterAppend | src/app/admin/products/page.tsx:38-41 | the search keeps the list's order: it filters a concatenation part by part |
| AdminProducts.SearchFilterSingle | src/app/admin/products/page.tsx:38-41 | one product is kept exactly when its name matches |
| AdminProducts.EmptySearchKeepsAll | src/app/admin/products/page.tsx:38-40 | the empty search keeps every product, in order |
| AdminProducts.RemoveProduct | src/app/admin/products/page.tsx:125 | exactly the products with other ids remain; an absent id changes nothing |
| AdminProducts.RemoveProductAppend | src/app/admin/products/page.tsx:125 | the remaining products keep their order: removal works on a concatenation part by part |
| AdminProducts.RemoveProductSingle | src/app/admin/products/page.tsx:125 | one product survives exactly when it has another id |
| AdminProducts.RemoveThenSearch | src/app/admin/products/page.tsx:37-125 | searching after a delete lists the old search result without the deleted product |
| AdminProducts.TotalPages | src/app/admin/products/page.tsx:46 | the count is 0 exactly for an empty list, otherwise the least number of 10-product pages holding the list |
| AdminProducts.PageOf | src/app/admin/products/page.tsx:45 | at most 10 products, the list's products from (page−1)·10 on, non-empty exactly for pages 1..count, full before the last page |
| AdminProducts.PagesArePrefix | src/app/admin/products/page.tsx:45 | the first n pages concatenated are the first 10·n products |
| AdminProducts.PagesCoverList | src/app/admin/products/page.tsx:45-46 | paging through all pages lists every product once, in order |
| AdminProducts.NextPage | src/app/admin/products/page.tsx:151-153 | intended: pressing next stays within 1..last page and advances exactly before the last page |
| AdminProducts.PrevPage | src/app/admin/products/page.tsx:139-141 | pressing previous stays within 1..last page and goes back exactly when past page 1 |
| AdminProducts.NextAsWrittenLeavesRange | src/app/admin/products/page.tsx:151-153 | as written, with no products next is enabled on page 1 and leads to an empty page 2 of 0 |
| AdminProducts.NextAsWrittenAgreesWhenNonEmpty | src/app/admin/products/page.tsx:152 | the written and the intended next agree on any non-empty list |
| AdminProducts.ProductsPage.constructor | src/app/admin/products/page.tsx:15-19 | no products, empty search, page 1 |
| AdminProducts.ProductsPage.Refilter | src/app/admin/products/page.tsx:37-43 | the listed products become the search over the products and the page goes back to 1 |
| AdminProducts.ProductsPage.Load | src/app/admin/products/page.tsx:21-43 | a successful read replaces the products and refilters; a failed read changes nothing |
| AdminProducts.ProductsPage.SetSearch | src/app/admin/products/page.tsx:37-43 | typing refilters by the new search and resets to page 1 |
| AdminProducts.ProductsPage.Delete | src/app/admin/products/page.tsx:117-126 | a successful delete removes only that product from the products and from the listed ones and resets to page 1 |
| AdminProducts.ProductsPage.Current | src/app/admin/products/page.tsx:45 | at most 10 listed products, and some whenever the list is non-empty |
| AdminProducts.ProductsPage.PressPrev | src/app/admin/products/page.tsx:139-141 | the page moves as `PrevPage` says and stays valid |
| AdminProducts.ProductsPage.PressNext | src/app/admin/products/page.tsx:151-153 | the page moves as the intended `NextPage` says and stays within range |
| AdminInquiries.RangeOf | src/app/admin/inquiries/page.tsx:24-25 | each page requests 20 rows starting at (page−1)·20 |
| AdminInquiries.RangesTile | src/app/admin/inquiries/page.tsx:24-25 | consecutive pages are contiguous and do not overlap |
| AdminInquiries.ToggleSeen | src/app/admin/inquiries/page.tsx:76-82 | only the seen flag of the inquiry with the id flips; every other row and field is unchanged |
| AdminInquiries.ToggleTwice | src/app/admin/inquiries/page.tsx:72-82 | toggling twice restores the list |
| AdminInquiries.SeenCaption | src/app/admin/inquiries/page.tsx:86 | the button reads "Vista" exactly for a seen inquiry |
| AdminInquiries.InquiriesPage.constructor | src/app/admin/inquiries/page.tsx:18-19 | no rows, page 1 |
| AdminInquiries.InquiriesPage.Requested | src/app/admin/inquiries/page.tsx:24-31 | the current page asks for 20 rows from a non-negative offset |
| AdminInquiries.InquiriesPage.Load | src/app/admin/inquiries/page.tsx:27-34 | a successful read replaces the rows, a failed one keeps them |
| AdminInquiries.InquiriesPage.Toggle | src/app/admin/inquiries/page.tsx:69-83 | a successful update flips that inquiry's flag; a failed one changes nothing |
| AdminInquiries.InquiriesPage.PressPrev | src/app/admin/inquiries/page.tsx:92-94 | goes back exactly when rows are shown and the page is not 1 |
| AdminInquiries.InquiriesPage.PressNext | src/app/admin/inquiries/page.tsx:100-102 | advances exactly when a full page of 20 is shown |
| Tally.Add | src/app/admin/analytics/page.tsx:45 | adds the amount to the key's sum (a missing key starts at 0), leaves other keys alone, and appends a new key to the entry order |
| Tally.TallyOf | src/app/admin/analytics/page.tsx:41-46 | folding the pairs keeps one key per distinct pair key |
| Tally.FirstIndex | src/app/admin/analytics/page.tsx:43-46 | the index of the first pair carrying a key: it carries the key and no earlier pair does |
| Tally.KeysFirstSeen | src/app/admin/analytics/page.tsx:43-46 | the tally lists its keys in the order of their first pair |
| Tally.TallyOfSnoc | src/app/admin/analytics/page.tsx:43-46 | one more pair is one more `Add` |
| Tally.TallySums | src/app/admin/analytics/page.tsx:43-46 | each key's sum is the sum of that key's amounts |
| Tally.TallyTotal | src/app/admin/analytics/page.tsx:43-46 | the sums add up to the sum of all amounts |
| Tally.EntriesOf | src/app/admin/analytics/page.tsx:48 | the entries pair each key, in order, with its sum |
| Tally.EntriesCover | src/app/admin/analytics/page.tsx:43-48 | a key has an entry exactly when some pair carries it |
| Tally.EntriesDistinct | src/app/admin/analytics/page.tsx:43-48 | one entry per distinct key |
| Tally.EntriesSums | src/app/admin/analytics/page.tsx:43-48 | each entry holds the sum of its key's amounts |
| Tally.EntriesTotal | src/app/admin/analytics/page.tsx:43-48 | the entries add up to the sum of all amounts |
| Tally.EntriesFirstSeen | src/app/admin/analytics/page.tsx:43-48 | `Object.entries` lists the keys in the order they were first seen: an earlier entry's key first occurs earlier in the pairs |
| Dates.IsoMinute | src/app/admin/analytics/page.tsx:86 | the rendered date holds no comma or line break |
| Dates.IsoMinuteParts | src/app/admin/analytics/page.tsx:86 | the rendered date reads back: split at the space, then at '-' and ':', it gives the padded year, month, day, hour and minute, each parsing back to its field |
| Dates.IsoShapeParts | src/app/admin/analytics/page.tsx:86 | any digit strings laid out as "yyyy-MM-dd HH:mm" split back at the space, '-' and ':' into exactly those strings |
| Dates.DayKeyParts | src/app/admin/analytics/page.tsx:44 | the dd/MM key splits back into its two padded numbers |
| Dates.DayKeyMatches | src/app/admin/analytics/page.tsx:44 | two dates share a key exactly when they share day and month |
| Analytics.DailyPairs | src/app/admin/analytics/page.tsx:43-45 | each order contributes its day key and total, in order |
| Analytics.DailyPairsTotal | src/app/admin/analytics/page.tsx:43-46 | the pairs' amounts add up to the orders' total |
| Analytics.ToDaily | src/app/admin/analytics/page.tsx:48 | one `{date, total}` per entry, in order, with the same sum |
| Analytics.DailyTotalsPerDay | src/app/admin/analytics/page.tsx:40-49 | one entry per distinct day key, each holding the sum of that day's totals |
| Analytics.DailyTotalsCoverDays | src/app/admin/analytics/page.tsx:40-49 | every order's day has an entry and no other day does |
| Analytics.DailyTotalsConserve | src/app/admin/analytics/page.tsx:40-49 | the daily totals add up to the total of all orders |
| Analytics.GetDailyTotals | src/app/admin/analytics/page.tsx:40-49 | the loop over the orders returns exactly the specified daily totals |
| Analytics.DailyStep | src/app/admin/analytics/page.tsx:43-46 | each iteration adds the order's total under its day key |
| Analytics.DailyKeysAreDays | src/app/admin/analytics/page.tsx:44-45 | two orders share a daily entry exactly when they fall on the same day and month |
| Analytics.FilterMonth | src/app/admin/analytics/page.tsx:73-76 | exactly the orders of the selected month and year |
| Analytics.FilterMonthAppend | src/app/admin/analytics/page.tsx:73-76 | the month filter keeps the orders' order: it filters a concatenation part by part |
| Analytics.FilterMonthSingle | src/app/admin/analytics/page.tsx:73-76 | one order is kept exactly when it falls in the month |
| Analytics.Average | src/app/admin/analytics/page.tsx:78-79 | 0 with no orders, otherwise the average times the count is the total |
| Analytics.TotalBounds | src/app/admin/analytics/page.tsx:78 | the total lies between count·min and count·max |
| Analytics.AverageBounds | src/app/admin/analytics/page.tsx:79 | the average lies between the smallest and the largest order total |
| Analytics.Fixed2 | src/app/admin/analytics/page.tsx:87 | the amount text holds no comma or line break |
| Analytics.ReportRow | src/app/admin/analytics/page.tsx:84-89 | four values per row, under ID, Fecha, Total and Estado: the order's id, its rendered date, its total with two decimals, and its status |
| Analytics.ReportLines | src/app/admin/analytics/page.tsx:84-92 | one comma-joined line per order, in order |
| Analytics.ReportFileName | src/app/admin/analytics/page.tsx:98 | the file name begins with "reporte-" |
| Analytics.ReportFileNameParts | src/app/admin/analytics/page.tsx:98 | between "reporte-" and ".csv" the name holds two digit strings separated by '-', reading back as the year and the month plus one |
| Analytics.ReportRowClean | src/app/admin/analytics/page.tsx:84-89 | with a clean id and status no value holds a comma or line break |
| Analytics.ReportLineRoundTrip | src/app/admin/analytics/page.tsx:92 | an order line has no line break and splits back into its four values |
| Analytics.ReportRoundTrip | src/app/admin/analytics/page.tsx:81-92 | the report splits into the header and one line per order, in order, each splitting back into its values |
| ProductSalesReport.Normalize | src/app/admin/analytics/ProductSalesReport.tsx:63-75 | an array keeps its first product, or "Desconocido" when empty; a single product passes through; null stays null |
| ProductSalesReport.NormalizeAll | src/app/admin/analytics/ProductSalesReport.tsx:63-75 | one normalised item per fetched item, in order |
| ProductSalesReport.Capitalize | src/app/admin/analytics/ProductSalesReport.tsx:80 | same length, first letter upper-cased, the rest lower-cased |
| ProductSalesReport.DisplayName | src/app/admin/analytics/ProductSalesReport.tsx:80 | never empty: "Producto" without a name, otherwise the capitalised name |
| ProductSalesReport.QuantityPairs | src/app/admin/analytics/ProductSalesReport.tsx:79-88 | each item contributes its product id and quantity, in order |
| ProductSalesReport.NamesOfKeys | src/app/admin/analytics/ProductSalesReport.tsx:81-87 | a product has a name exactly when it has a quantity entry |
| ProductSalesReport.FirstNameKept | src/app/admin/analytics/ProductSalesReport.tsx:81-87 | a product's name is fixed by its first item |
| ProductSalesReport.Values | src/app/admin/analytics/ProductSalesReport.tsx:91 | one sales record per entry with the recorded name, with the same quantity sum |
| ProductSalesReport.GroupLoop | src/app/admin/analytics/ProductSalesReport.tsx:77-89 | the loop builds exactly the specified quantity sums and first-seen names |
| ProductSalesReport.Group | src/app/admin/analytics/ProductSalesReport.tsx:77-91 | the grouped records are exactly the specification's |
| ProductSalesReport.GroupStep | src/app/admin/analytics/ProductSalesReport.tsx:79-89 | each iteration adds the item's quantity and names a new product |
| ProductSalesReport.PairsTotalQuantity | src/app/admin/analytics/ProductSalesReport.tsx:88 | the pairs add up to the items' total quantity |
| ProductSalesReport.GroupedDistinct | src/app/admin/analytics/ProductSalesReport.tsx:77-91 | one record per distinct product id |
| ProductSalesReport.GroupedEntry | src/app/admin/analytics/ProductSalesReport.tsx:77-91 | a record's quantity is the sum of its product's quantities and its name comes from its first item |
| ProductSalesReport.GroupedCovers | src/app/admin/analytics/ProductSalesReport.tsx:77-91 | every item's product has a record |
| ProductSalesReport.GroupedTotal | src/app/admin/analytics/ProductSalesReport.tsx:88-91 | the records' quantities add up to the items' total quantity |
| ProductSalesReport.Insert | src/app/admin/analytics/ProductSalesReport.tsx:91-93 | inserting into a non-increasing list keeps it non-increasing and adds exactly the record |
| ProductSalesReport.SortDesc | src/app/admin/analytics/ProductSalesReport.tsx:91-93 | the sorted list is non-increasing in quantity and a permutation of the records |
| ProductSalesReport.Chart | src/app/admin/analytics/ProductSalesReport.tsx:121 | the chart shows a prefix of the records: all of them when there are at most 10, otherwise exactly the first 10 |
| ProductSalesReport.ChartShowsTop | src/app/admin/analytics/ProductSalesReport.tsx:91-121 | on sorted data every charted record sells at least as much as any record left out |
| ProductSalesReport.Report.constructor | src/app/admin/analytics/ProductSalesReport.tsx:43-44 | no data, loading |
| ProductSalesReport.Report.OnOrders | src/app/admin/analytics/ProductSalesReport.tsx:46-105 | no orders: nothing is fetched and the data is empty; otherwise the order ids are requested, a failed fetch keeps the data, a successful one sets it to the sorted grouping; loading ends false |
| PaymentMethodReport.MethodOf | src/app/admin/analytics/PaymentMethodReport.tsx:33 | a non-empty method is kept, an empty or missing one becomes "Otro"; never empty |
| PaymentMethodReport.MethodPairs | src/app/admin/analytics/PaymentMethodReport.tsx:32-35 | each order counts 1 under its method |
| PaymentMethodReport.CountWith | src/app/admin/analytics/PaymentMethodReport.tsx:32-35 | no method counts more orders than there are |
| PaymentMethodReport.ToSlices | src/app/admin/analytics/PaymentMethodReport.tsx:37-40 | one `{name, value}` per entry, in order |
| PaymentMethodReport.GroupByMethod | src/app/admin/analytics/PaymentMethodReport.tsx:29-44 | the loop returns exactly the specified chart data |
| PaymentMethodReport.MethodStep | src/app/admin/analytics/PaymentMethodReport.tsx:32-35 | each iteration counts the order once under its method |
| PaymentMethodReport.CountsArePairSums | src/app/admin/analytics/PaymentMethodReport.tsx:32-35 | a method's summed pairs are its order count |
| PaymentMethodReport.PairsSumToLength | src/app/admin/analytics/PaymentMethodReport.tsx:32-35 | the pairs add up to the number of orders |
| PaymentMethodReport.SliceSumIsSumAll | src/app/admin/analytics/PaymentMethodReport.tsx:37-40 | the slices add up to the entries' sum |
| PaymentMethodReport.ChartDataDistinct | src/app/admin/analytics/PaymentMethodReport.tsx:37-40 | one slice per distinct method |
| PaymentMethodReport.ChartDataCount | src/app/admin/analytics/PaymentMethodReport.tsx:32-40 | each slice counts the orders paid its way, and is at least 1 |
| PaymentMethodReport.ChartDataTotal | src/app/admin/analytics/PaymentMethodReport.tsx:30-42 | the slices add up to the number of orders; no orders, no slices |
| WeekdayOrdersReport.CountOn | src/app/admin/analytics/WeekdayOrdersReport.tsx:24-28 | no weekday counts more orders than there are |
| WeekdayOrdersReport.Buckets | src/app/admin/analytics/WeekdayOrdersReport.tsx:22-28 | seven buckets, bucket d counting the orders on weekday d |
| WeekdayOrdersReport.BucketsSumToLength | src/app/admin/analytics/WeekdayOrdersReport.tsx:22-28 | the seven buckets add up to the number of orders |
| WeekdayOrdersReport.WeekdayData | src/app/admin/analytics/WeekdayOrdersReport.tsx:18-34 | the array loop yields seven bars labelled Dom..Sáb, bar d holding the count of weekday d |
| WeekdayOrdersReport.NoOrdersNoBars | src/app/admin/analytics/WeekdayOrdersReport.tsx:22 | no orders: all seven buckets are 0 |
| CancellationRateReport.CountCancelled | src/app/admin/analytics/CancellationRateReport.tsx:13 | the cancelled count never exceeds the number of orders |
| CancellationRateReport.CancellationRate | src/app/admin/analytics/CancellationRateReport.tsx:11-16 | total is the order count, cancelled is the cancelled count; the rate is 0 without orders, otherwise cancelled/total·100, and always in [0, 100] |
| CancellationRateReport.PercentBounds | src/app/admin/analytics/CancellationRateReport.tsx:14 | a part of a positive whole is between 0 and 100 percent |
| CancellationRateReport.CountExtremes | src/app/admin/analytics/CancellationRateReport.tsx:13 | the count is the total exactly when all orders are cancelled, and 0 exactly when none is |
| CancellationRateReport.RateExtremes | src/app/admin/analytics/CancellationRateReport.tsx:12-14 | the rate is 100 exactly when all orders are cancelled and 0 exactly when none is |
| CancellationRateReport.PercentExtremes | src/app/admin/analytics/CancellationRateReport.tsx:14 | a percentage is 100 exactly for the whole and 0 exactly for nothing |
| Strings.ToLower | src/app/admin/products/page.tsx:38-40 | lower-casing keeps the length and maps each character |
| Strings.SplitJoin | src/app/admin/orders/page.tsx:42-44 | splitting a join on a separator that no part holds gives back the parts |
| Strings.JoinAvoids | src/app/admin/orders/page.tsx:42-44 | a join of parts and separator free of a character is free of it |
| Strings.NatToString | src/app/admin/orders/page.tsx:37 | a natural number renders as one or more digits |
| Strings.ParseNatToString | src/app/admin/orders/page.tsx:37 | a rendered number reads back as itself |
| Strings.IntToString | src/app/admin/orders/page.tsx:37 | a number's text has no comma, semicolon or line break |
| Strings.PadNat | src/app/admin/analytics/page.tsx:44 | the zero-padded number has at least the width, only digits, and reads back as the number |

## Left out

- The haversine distance and the average of the two distances (`route.ts:7-19, 121-132`) are floating-point trigonometry that is only logged. The model never computes them, and the response does not depend on them.
- The outbound `fetch` calls and their URLs, the Supabase database, auth and storage calls, `localStorage`, `router.push`, toasts, the CSV blob download, emailjs and the WhatsApp link are I/O. Their answers are parameters (`Option` values or `failed` flags), and the only effects modelled are the state and returned values they lead to.
- Shipping.Handle: the shape of a geocoding candidate is not modelled; the first candidate is taken to be its coordinates. The outcomes of a malformed candidate are not in the model, and they differ by path:
  - Normal path (`route.ts:96`, `route.ts:106-111`): a candidate without `geometry` throws inside the try and becomes the catch's 500. A candidate whose `geometry` has no `coordinates` leaves `destCoords` undefined, and the `!destCoords` check answers 400.
  - High-total path (`route.ts:57-62`): the read happens outside the try. A candidate without `geometry` is an unhandled throw. A candidate without `coordinates` answers 200 with `shippingCost: null` and no `destinationCoords`.
- Shipping.Handle: a request body that is not JSON, and an `orderTotal` that is not a number, are not modelled. The total is an optional integer.
- `Date` parsing, the browser's time zone and locale renderings (`toLocaleDateString`, `toLocaleTimeString`, `toDateString`, `getDay`) are not computed. They are fields of the order records, carried as the platform gives them.
- AdminOrders.MatchesDate compares two day strings. It does not capture that `new Date("yyyy-mm-dd")` is parsed as UTC midnight, which can move the chosen day back by one in a negative-offset time zone.
- Dates.DayKeyMatches is stated only within the dd/MM key, so orders of the same day in different years share an entry. This is what the source does; the page only ever groups one month.
- Number formatting with `toLocaleString`, `toFixed(1)` on the percentage, and `toFixed(2)` on non-integer totals is not modelled. Analytics.Fixed2 covers whole-peso totals only.
- Strings.ToLower and ProductSalesReport.Capitalize map ASCII letters only. Non-ASCII case mapping is left unchanged.
- The CSV exports do no quoting. AdminOrders.CsvRoundTrip and Analytics.ReportRoundTrip are stated only for cells free of commas and line breaks.
- `Object.entries` lists integer-like keys first, in numeric order. The Tally module keeps plain insertion order, so a day key, method or product id that looks like an array index is ordered differently.
- ProductSalesReport.SortDesc: the JavaScript sort is stable, but the model states only that the result is non-increasing and a permutation. The order among equal quantities is not stated.
- ProductSalesReport.Report.OnOrders: the list's second `capitalize` on an already capitalised name (`ProductSalesReport.tsx:135`) is not modelled, and neither is the chart rendering.
- The `loading` flag of the payment report and the analytics page's own fetch of the orders (`page.tsx:58-71`) are not modelled. The reports take the orders as a parameter.
- The revenue-split report is not part of this model. It is a fixed 20/80 floating-point split used only for display.
- AdminInquiries.InquiriesPage.PressNext: a page holding exactly 20 rows enables "Siguiente" even when nothing follows. The next page then loads empty, and its buttons disappear. The model states the source's rule; it does not record the dead end as a finding.
- Analytics.FilterMonth, Analytics.ReportFileName: the year is taken as an already-parsed integer of four or more digits. The page keeps it as the raw text of a number field. There `new Date(Number(year), month)` maps the years 0–99 to 1900–1999, and an empty field to 1900. The file name embeds the raw text, so "02025" names the file "reporte-02025-…" where the model writes "reporte-2025-…".
- AdminOrders.ItemText: `${i.product?.name}` prints "undefined" for a missing product but "null" for a product whose name is null. The model keeps one `Option` for the name and prints "undefined" in both cases.
- The `CancelOrderDialog` component (reason entry and trimming) is not part of this model. The reason reaches `ConfirmCancel` as given.
- The storefront pages (market, fruver, search, sales), polling badges, timers, the debounce and pure rendering components have no logic beyond the folds and predicates modelled here.

## Findings

| source | as written | input that shows it | evidently intended | confidence | as-written member | corrected member |
|---|---|---|---|---|---|---|
| src/app/admin/products/page.tsx:151-153 | "Siguiente" is disabled only when `page === totalPages` | a search matching no product: `totalPages` is 0, so on page 1 "Siguiente" is enabled and moves to page 2, 3, … of 0 | disabled from the last page on, `page >= totalPages`, so the page stays within 1..max(1, totalPages) | not executed | AdminProducts.NextAsWrittenLeavesRange | AdminProducts.NextPage |
| src/app/admin/orders/page.tsx:248-260 | one `showCancelDialog` flag drives the cancel dialog rendered for every listed order | two listed orders, A pending and B delivered: pressing "Cancelar pedido" on A opens B's dialog too, and confirming B's sends a cancel for B | one open dialog, for the order whose button was pressed | not executed | AdminOrders.SharedDialogOpensOthers | AdminOrders.OpenDialogs |
