# FabricBazaar storefront core in Dafny

This project models the core of the FabricBazaar fabric storefront and proves
properties of the model. It covers:

- **The store layer.** This is the database-backed store with its product,
  order, customer, inventory-log, cart and cart-item tables, and the
  in-memory store with its product and order maps.
- **Barcode and currency helpers.** These are the client's barcode and
  currency helpers.
- **The server's routes.** These are the product-list dispatch, the 404
  rules, the review and image rules, and the analytics rollup.
- **The pure rules of five client pages.** These are the inventory page, the
  customers page, the review section, the product page and the admin
  analytics dashboard.

The imperative parts take the source's own form:

- Each store is a `class` whose tables are `seq` fields.
- Every operation is a `method` that changes only what its `modifies` clause
  names.
- Each method states its whole new state in terms of the old one.
- The store's `Valid()` invariant is preserved throughout. It says:
  - ids are unique and were handed out by one counter;
  - customer emails are unique;
  - a user has one cart, and a cart has one line per product;
  - barcodes come from the pattern list;
  - log entries record their change faithfully.
- The form state of the client pages consists of small classes.
- Loops in the source become Dafny loops with invariants:
  - the upload-path `forEach`;
  - the `reduce` that fills a dictionary by key.

Shared modules:

- `Wrappers` holds `Option`.
- `Seqs` models the JavaScript array methods: filter, reverse, slice, sum and
  a stable insertion sort.
- `Text` models `toLowerCase`, `includes`, `parseInt` and `parseFloat` on
  decimal text.
- `Tallies` models the "count by key" reduce.
- `Tables` holds the read queries that both stores and the routes share.

Modelling choices:

- **Ids are natural numbers from one counter per store.** `gen_random_uuid()`
  and `randomUUID()` are modelled as drawing a fresh id.
- **Money is integer cents**, because every money column is a decimal with
  scale 2.
- **Averages are exact reals.**
- **Timestamps are milliseconds passed in as `now`.**
- **`Math.random()` is a parameter `draw` in [0, 1).**
- **The database's `orderBy(desc(createdAt))` is reverse insertion order.**
  This assumes the clock does not go backwards.

Divergences between the two stores, modelled as written:

- **Search.** The database store searches names only. The in-memory store
  searches names and descriptions (`Tables.SearchesDiverge`).
- **`createOrder`.** The database store forces status "pending" and copies
  four fields. The in-memory store keeps a supplied status
  (`MemStorage.CreateOrderStatusDiverges`).
- **Low-stock thresholds differ by one.**
  - The store's low-stock query uses `stock <= 10`.
  - The analytics route and the dashboard use `stock < 10`.
  - A stock of exactly 10 is therefore "low" on one page and healthy on
    another (`Routes.LowStockThresholdsDiffer`, `Tables.LowStockIncludesTen`).

Behaviour of the code that is easy to overlook, modelled as written:

- `updateProductStock` accepts a negative `newStock`: nothing at
  `server/storage.ts:333-362` rejects it.
- `updateProduct` can change a stock without writing an inventory log: the
  patch at `server/storage.ts:154-174` may carry `stock`, and only
  `updateProductStock` appends a log entry.
- The add-to-cart guard tests `stock === 0`, so a product with negative stock
  can still be added (`ProductDetail.NegativeStockStillAdds`).
- The cart methods are written in the in-memory store's class but use the
  database tables. They are modelled on the database store, because that is
  where their tables live.

## Model

| member | source | states |
|---|---|---|
| Barcode.ValidateBarcode | client/src/lib/barcode.ts:22-24 | a barcode is accepted exactly when every character is a bar or white space and it is longer than ten characters |
| Barcode.ShortBarcodesRejected | client/src/lib/barcode.ts:23 | no string of length ten or less is accepted, including the empty string and ten bars |
| Barcode.PatternsValid | client/src/lib/barcode.ts:2-11 | every pattern of the client list, of the database store's list and of the in-memory store's list passes validation |
| Barcode.PatternValid | client/src/lib/barcode.ts:2-11 | any member of the client pattern list passes validation |
| Barcode.PickIndex | client/src/lib/barcode.ts:13 | `floor(draw * n)` for a draw in [0, 1) is an index below n |
| Barcode.GenerateBarcode | client/src/lib/barcode.ts:1-14 | the generated barcode is a member of the pattern list and passes validation |
| Barcode.GenerateQRCode | client/src/lib/barcode.ts:16-20 | the code is "QR:" followed by the data; dropping the three-character prefix gives the data back |
| Currency.Clean | client/src/lib/currency.ts:12 | no contract of its own; stated by `Currency.CleanMembership`, `Currency.CleanKeepsOrder` and `Currency.CleanIdempotent` |
| Currency.CleanMembership | client/src/lib/currency.ts:12 | no 'A', 'E', 'D', white-space or ',' survives cleaning, every other character of the input survives, and nothing is added |
| Currency.CleanKeepsOrder | client/src/lib/currency.ts:12 | the surviving characters keep their original order |
| Currency.CleanAppend | client/src/lib/currency.ts:12 | cleaning works character by character: cleaning a concatenation concatenates the cleaned parts |
| Currency.CleanNoop | client/src/lib/currency.ts:12 | a string without any stripped character is unchanged |
| Currency.CleanIdempotent | client/src/lib/currency.ts:12 | cleaning twice is cleaning once |
| Currency.CleanCons | client/src/lib/currency.ts:12 | the first character is dropped exactly when it is in the class |
| Currency.CleanIsCaseSensitive | client/src/lib/currency.ts:12 | "DEAD" cleans to the empty string while lower-case "aed" is kept |
| Currency.ParseAED | client/src/lib/currency.ts:10-14 | the value is the numeric prefix of the cleaned text, and 0 when it has none |
| Currency.FormatFixed2 | client/src/lib/currency.ts:17 | no contract of its own; stated by `Currency.FormatFixed2Parses`: the text reads back as the cent amount |
| Currency.FormatAEDSimple | client/src/lib/currency.ts:16-18 | no contract of its own; stated by `Currency.FormatParseRoundTrip`: `parseAED` of it gives back the amount |
| Currency.MagnitudeParses | client/src/lib/currency.ts:17 | the two-decimal rendering of a non-negative cent count reads back as that amount |
| Currency.NegativeFixed2Parses | client/src/lib/currency.ts:17 | a minus sign before a two-decimal rendering reads back as the negated amount |
| Currency.FormatFixed2Parses | client/src/lib/currency.ts:17 | `toFixed(2)` of any cent amount reads back as exactly that amount |
| Currency.CleanPrefix | client/src/lib/currency.ts:12-17 | the "AED " prefix that formatting adds is removed entirely by the cleaning step |
| Currency.FormatParseRoundTrip | client/src/lib/currency.ts:10-18 | parsing the simple format of any cent amount gives back that amount |
| Currency.CodeAloneIsZero | client/src/lib/currency.ts:13 | the bare currency code is worth 0 |
| Currency.EmptyIsZero | client/src/lib/currency.ts:13 | the empty text is worth 0 |
| Currency.LettersAreZero | client/src/lib/currency.ts:13 | letters that are not a number are worth 0 |
| Schema.ProductFromInsert | server/storage.ts:133-152 | no contract of its own; stated by `Schema.ProductDefaults` and `Schema.ProductInsertKeepsInput` |
| Schema.ProductDefaults | shared/schema.ts:19-23 | a product inserted without stock, images, specifications or active flag gets stock 0, no images, no specifications and is active |
| Schema.ProductInsertKeepsInput | shared/schema.ts:80-85 | an inserted product keeps every supplied value, while its id, barcode and timestamps come from the store |
| Schema.PatchProduct | server/storage.ts:154-166 | no contract of its own; stated by `Schema.PatchTouchesOnlyNamedFields` and `Schema.EmptyPatchOnlyStamps` |
| Schema.PatchTouchesOnlyNamedFields | server/storage.ts:154-166 | a partial update overwrites exactly the fields present in the patch; id, barcode and createdAt are kept, and updatedAt is set |
| Schema.EmptyPatchOnlyStamps | server/storage.ts:155-157 | an empty patch changes nothing but updatedAt |
| Schema.CustomerFromInsert | shared/schema.ts:59-60 | a customer inserted without totals has 0 orders and 0.00 spent, and keeps its email |
| Tables.ProductIndex | server/storage.ts:128-131 | the lookup finds a row with the id, and finds nothing exactly when no row has it |
| Tables.OrderIndex | server/storage.ts:220-223 | the same for orders |
| Tables.CustomerIndexByEmail | server/storage.ts:280-283 | the lookup by email finds a row with that email, and finds nothing exactly when none has it |
| Tables.CartIndexOf | server/storage.ts:716 | the cart lookup finds a cart of the user, and finds nothing exactly when the user has none |
| Tables.ItemIndexFor | server/storage.ts:761-767 | the line lookup finds the line of that product in that cart, and finds nothing exactly when there is none |
| Tables.DbProducts | server/storage.ts:113-126 | the listing holds exactly the active products, of the category when one is given, newest first: reversed, it keeps the table's order |
| Tables.MemProducts | server/storage.ts:551-557 | the in-memory listing selects the same products, in insertion order |
| Tables.ListingsAgree | server/storage.ts:113-126 | both stores list the same products, and the database listing is exactly the in-memory listing reversed |
| Tables.DbSearch | server/storage.ts:181-192 | the database search holds exactly the active products whose name contains the query, ignoring case, newest first |
| Tables.MemSearch | server/storage.ts:599-607 | the in-memory search holds exactly the active products whose name or description contains the query, in insertion order |
| Tables.DbSearchWithinMemSearch | server/storage.ts:188 | whatever the database search finds, the in-memory search finds too |
| Tables.SearchesDiverge | server/storage.ts:602-605 | an active product whose description alone matches is found by the in-memory search and not by the database search |
| Tables.LowStock | server/storage.ts:325-331 | the result is exactly the active products with stock at most the threshold (default 10), as a permutation of the filtered rows sorted ascending by stock |
| Tables.LowStockIncludesTen | server/storage.ts:329 | an active product with stock exactly 10 is reported by the default query |
| Tables.InventoryLogs | server/storage.ts:302-315 | for a product, exactly that product's entries, newest first; otherwise the newest 100 entries, newest first |
| Tables.JoinLine | server/storage.ts:726-740 | an item joins exactly when its product exists, and the line carries the item's fields and the product's name, first image, price and stock |
| Tables.CartLines | server/storage.ts:726-740 | every line of the view belongs to the cart and joins an existing product |
| Tables.LineOf | server/storage.ts:739-740 | one item contributes at most one line, and only when it is in the cart and its product exists |
| Tables.CartLinesAppend | server/storage.ts:726-740 | the view of two groups of items is the views of the groups in turn |
| Tables.CartTotal | server/storage.ts:742-744 | no contract of its own; stated by `Tables.CartTotalOfItems`: the total of the joined lines is the sum over the cart's live items |
| Tables.CartTotalOfItems | server/storage.ts:742-744 | the view's total is the sum of price at time × quantity over the cart's items whose product still exists |
| Tables.DeletedProductDropsOut | server/storage.ts:739 | no line of the view refers to a product that is gone |
| Tables.LiveItemsShown | server/storage.ts:738-740 | every item of the cart whose product exists appears in the view |
| Tables.CartOwnedBy | server/storage.ts:797-804 | the join with carts finds the cart only when it belongs to the user |
| Tables.OwnedItemIndex | server/storage.ts:797-806 | the ownership check finds the item exactly when some cart of the user holds it |
| Tables.OwnedIffInUsersCart | server/storage.ts:797-806 | with one cart per user, an item passes the check exactly when it is in that user's cart |
| Tallies.Tally | client/src/pages/product-detail.tsx:66-69 | one pass of the count-by-key reduce: each key seen maps to its number of occurrences, and the keys are listed in first-insertion order |
| Tallies.KeysInOrderExact | client/src/components/admin/analytics-dashboard.tsx:21-26 | the listed keys are exactly the keys that occur, each once |
| Tallies.TallyTotal | client/src/components/admin/analytics-dashboard.tsx:21-24 | the counts over the listed keys add up to the number of elements |
| DatabaseStorage.StockAction | server/storage.ts:339 | add exactly for a positive change, remove exactly for a negative one, adjustment exactly for none, and never sale |
| DatabaseStorage.LogReason | server/storage.ts:356 | a given non-empty reason is kept; otherwise "Stock " and the action's name |
| DatabaseStorage.StockLog | server/storage.ts:350-357 | the entry records the product, the previous and new stock, their absolute difference, the action of the change and the reason |
| DatabaseStorage.LogDeterminesNewStock | server/storage.ts:337-357 | a logged add raises the previous stock by the quantity, a remove lowers it, and an adjustment leaves it with quantity 0 |
| DatabaseStorage.DbOrderFromInsert | server/storage.ts:225-232 | the order copies only name, email, total and items; status and payment status are pending; phone, address and tracking are empty |
| DatabaseStorage.DbOrderIgnoresExtraFields | server/storage.ts:226-232 | inputs that agree on the four copied fields create the same order whatever status they supply |
| DatabaseStorage.DbBarcode | server/storage.ts:364-376 | the database store's generated barcode is in its pattern list and passes validation |
| DatabaseStorage.MergedTotal | server/storage.ts:769-792 | after a merge, the cart's total grows by price at time × added quantity |
| DatabaseStorage.ClearedCartIsEmpty | server/storage.ts:834-840 | after clearing, the view of the cart has no lines |
| DatabaseStorage.ClearKeepsOtherCarts | server/storage.ts:838 | clearing one cart leaves the view of every other cart unchanged |
| DatabaseStorage.Store.CreateProduct | server/storage.ts:133-152 | a new row with a fresh id, the input values and defaults, and a generated barcode is appended; nothing else changes |
| DatabaseStorage.Store.UpdateProduct | server/storage.ts:154-174 | an unknown id gives nothing and changes nothing; otherwise the row is replaced in place by the patched product, which is returned |
| DatabaseStorage.Store.AppendLog | server/storage.ts:317-323 | an inventory-log entry with the next id is appended; nothing else changes |
| DatabaseStorage.Store.DeleteProduct | server/storage.ts:176-179 | reports a deletion exactly when the id existed; afterwards no row has that id, and the other tables are unchanged |
| DatabaseStorage.Store.UpdateProductStock | server/storage.ts:333-362 | unknown id: false, with no product change and no log; known id: the stock is set and exactly one entry recording the change is appended |
| DatabaseStorage.Store.CreateOrder | server/storage.ts:225-239 | a pending order with a fresh id and only the four copied fields is appended |
| DatabaseStorage.Store.UpdateOrderStatus | server/storage.ts:241-248 | an unknown id gives nothing; otherwise only status and updatedAt of that order change |
| DatabaseStorage.Store.UpdateOrderPaymentStatus | server/storage.ts:250-257 | an unknown id gives nothing; otherwise only the payment status and updatedAt change |
| DatabaseStorage.Store.UpdateOrderTracking | server/storage.ts:259-266 | an unknown id gives nothing; otherwise only the tracking number and updatedAt change |
| DatabaseStorage.Store.CreateCustomer | server/storage.ts:285-291 | a customer with a new email is appended; an email already taken is refused (the unique column) and nothing changes |
| DatabaseStorage.Store.CartOf | server/storage.ts:716-723 | the user's existing cart is returned, or exactly one cart is created for the user when there is none |
| DatabaseStorage.Store.GetCartByUserId | server/storage.ts:714-747 | afterwards the user has a cart; the view is its lines with existing products, the total sums them, and no item changes |
| DatabaseStorage.Store.AddLine | server/storage.ts:760-792 | an existing line of that product gains the quantity and keeps its price; otherwise one new line with the supplied price is appended |
| DatabaseStorage.Store.AddToCart | server/storage.ts:749-793 | the cart is created when absent, the line is merged as above, and the cart's total grows by price × added quantity |
| DatabaseStorage.Store.UpdateCartItem | server/storage.ts:795-815 | an item not in the user's cart is refused with nothing changed; otherwise only that item's quantity changes |
| DatabaseStorage.Store.RemoveFromCart | server/storage.ts:817-832 | an item not in the user's cart is refused with nothing changed; otherwise exactly that item is removed |
| DatabaseStorage.Store.ClearCart | server/storage.ts:834-840 | always true; removes exactly the items of the user's cart and creates no cart |
| MemStorage.MemBarcode | server/storage.ts:655-664 | the in-memory store's generated barcode is one of its five patterns and passes validation |
| MemStorage.StatusOr | server/storage.ts:638 | a supplied non-empty status is kept, otherwise pending |
| MemStorage.MemOrderFromInsert | server/storage.ts:633-644 | the order keeps every supplied field, and its status defaults to pending |
| MemStorage.CreateOrderStatusDiverges | server/storage.ts:638 | a supplied status "shipped" is kept in memory but forced to pending by the database store |
| MemStorage.CreateOrderDefaultAgrees | server/storage.ts:638 | without a status both stores create a pending order |
| MemStorage.SeedProducts | server/storage.ts:406-495 | the store is seeded with four sample products |
| MemStorage.BlueSilk | server/storage.ts:407-429 | sample BL001: active, stock 156, the first pattern |
| MemStorage.RedCotton | server/storage.ts:430-450 | sample CT002: active, stock 8, the second pattern |
| MemStorage.GreenWool | server/storage.ts:451-471 | sample WL003: active, stock 43, the third pattern |
| MemStorage.PatternedPolyester | server/storage.ts:472-492 | sample PL004: active, stock 67, the fourth pattern |
| MemStorage.SeedAllListed | server/storage.ts:495 | a fresh store lists all four samples, in insertion order |
| MemStorage.SeedLowStock | server/storage.ts:495 | the database store's `stock <= 10` query, applied to the four in-memory samples, reports CT002 alone; the in-memory store itself has no low-stock query |
| MemStorage.OnlySecondLow | server/storage.ts:325-331 | among four active products where only the second has stock of at most 10, the query reports that one alone |
| MemStorage.Store.constructor | server/storage.ts:385-392 | a new store holds the four samples and no orders, and the next fresh id follows them |
| MemStorage.Store.CreateProduct | server/storage.ts:563-579 | the input over its defaults, with a fresh id and a generated barcode, is added |
| MemStorage.Store.UpdateProduct | server/storage.ts:581-593 | an unknown id gives nothing; otherwise the row becomes the patched product, stored in place |
| MemStorage.Store.DeleteProduct | server/storage.ts:595-597 | true exactly when the id was present, and then only that row is gone |
| MemStorage.Store.CreateOrder | server/storage.ts:633-644 | the order built from every supplied field is added under a fresh id |
| MemStorage.Store.UpdateOrderStatus | server/storage.ts:646-653 | an unknown id gives nothing; otherwise only the status changes (updatedAt is left alone) |
| Routes.ProductList | server/routes.ts:27-34 | no contract of its own; stated by `Routes.ProductListDispatch` |
| Routes.ProductListDispatch | server/routes.ts:27-34 | with a non-empty search the listing is the search and the category is ignored; otherwise it is the category listing |
| Routes.Found | server/routes.ts:45-47 | the reply is 404 exactly when the record is missing; otherwise it is 200 with the record |
| Routes.GetProduct | server/routes.ts:44-48 | 404 exactly when no row has the id; a 200 body is a row with that id |
| Routes.UpdateProduct | server/routes.ts:81-88 | 404 exactly when the id is unknown, and then the store is unchanged; otherwise the patched product is returned and stored in place of the row, and the other tables are unchanged |
| Routes.DeleteProduct | server/routes.ts:96-100 | 404 exactly when the id is unknown; otherwise the confirmation message, with exactly that row removed; afterwards no row has the id, and the other tables are unchanged |
| Routes.UpdateOrderStatus | server/routes.ts:152-159 | 404 exactly when the id is unknown, and then nothing changes; otherwise the body is the old order with the new status and update time, stored in its place, and the other tables are unchanged |
| Routes.ReviewFromRequest | server/routes.ts:118-121 | the stored review's product id is always the path id; the other fields come from the body |
| Routes.ReviewIgnoresBodyProductId | server/routes.ts:118-121 | bodies that differ only in their product id produce the same review |
| Routes.ImageUrls | server/routes.ts:60-66 | one upload path per file, in upload order, each carrying the file's index and name |
| Routes.ImagesOrDefault | server/routes.ts:70 | the uploaded paths when there are any, otherwise the single default image |
| Routes.CreateProduct | server/routes.ts:60-73 | 201 with the product built from the body with a fresh id and a generated barcode; its images are the upload paths or the default image; it is appended to the table, and the other tables are unchanged |
| Routes.AnalyticsStats | server/routes.ts:166-188 | the low-stock count is at most the product count, which is at most the table size; today's orders are at most all orders |
| Routes.Revenue | server/routes.ts:179-187 | no contract of its own; stated by `Routes.RevenueReadsBack`: the `toFixed(2)` text of the summed amounts reads back as that sum |
| Routes.StatsCountActiveProducts | server/routes.ts:168-172 | the product count is the number of active products, the low-stock count is the number of active products with stock strictly below 10, and today's count is the number of orders placed today |
| Routes.RevenueReadsBack | server/routes.ts:179-187 | the revenue text reads back as exactly the sum of the order totals |
| Routes.PlacedTodayIff | server/routes.ts:173-177 | an order counts as placed today exactly when it is undated or its creation time falls on the same day as now |
| Routes.UndatedOrderCountsToday | server/routes.ts:173-177 | an order without a creation date is counted among today's orders |
| Routes.LowStockThresholdsDiffer | server/routes.ts:172 | an active product with stock 10 is not low in the stats but is in the store's low-stock query |
| InventoryPage.ReasonOr | client/src/pages/inventory.tsx:80 | a non-empty reason is kept, otherwise "Manual stock adjustment" |
| InventoryPage.StockUpdateForm.constructor | client/src/pages/inventory.tsx:17-21 | the form starts with no product selected and empty fields |
| InventoryPage.StockUpdateForm.HandleUpdateStock | client/src/pages/inventory.tsx:67-82 | nothing is sent exactly when no product is selected or the stock text is empty; otherwise the parsed stock and the reason or its fallback |
| InventoryPage.StockUpdateForm.OnUpdateSuccess | client/src/pages/inventory.tsx:55-56 | after success the form is cleared and no product is selected |
| InventoryPage.NonNumericStockIsNaN | client/src/pages/inventory.tsx:79 | a stock text not starting with a number is sent as NaN |
| InventoryPage.QuickAdjust | client/src/pages/inventory.tsx:84-91 | the requested stock is max(0, current + adjustment), never negative, with the direction's reason |
| InventoryPage.AdjustReason | client/src/pages/inventory.tsx:89 | no contract of its own; stated by `InventoryPage.AdjustReasonDirection` |
| InventoryPage.AdjustReasonDirection | client/src/pages/inventory.tsx:89 | the reason starts with "Added " exactly for a positive adjustment, and with "Removed " otherwise |
| InventoryPage.QuickAdjustLogsDirection | client/src/pages/inventory.tsx:84-91 | from a non-negative stock, the store logs add exactly for a positive adjustment, and remove for a negative one unless the stock was 0 |
| InventoryPage.BadgeFor | client/src/pages/inventory.tsx:93-98 | Critical up to 5, Low up to 10, Medium up to 20, Good above, each an if-and-only-if |
| InventoryPage.BadgeMonotone | client/src/pages/inventory.tsx:93-98 | more stock never gives a worse badge |
| InventoryPage.AlertedProductsBadged | client/src/pages/inventory.tsx:27-29 | every product of the low-stock alert shows a Critical or Low badge |
| CustomersPage.FilteredCustomers | client/src/pages/customers.tsx:20-23 | exactly the customers whose name or email contains the term ignoring case, in their original order |
| CustomersPage.EmptyTermKeepsAll | client/src/pages/customers.tsx:20-23 | an empty term keeps every customer |
| CustomersPage.CustomerOrders | client/src/pages/customers.tsx:25-27 | exactly the orders with the customer's email, in their original order; none when no customer has the id |
| CustomersPage.TierFor | client/src/pages/customers.tsx:29-35 | VIP from 1000.00, Gold from 500.00, Silver from 200.00, Bronze below, with inclusive bounds, each an if-and-only-if |
| CustomersPage.TierMonotone | client/src/pages/customers.tsx:29-35 | spending more never lowers the tier |
| CustomersPage.FormatDate | client/src/pages/customers.tsx:37-44 | "Never" without a date, otherwise its rendering |
| CustomersPage.ActiveCustomers | client/src/pages/customers.tsx:52-54 | the active count is at most the number of customers |
| CustomersPage.NeverOrderedIsInactive | client/src/pages/customers.tsx:52-54 | a customer who never ordered is not active |
| CustomersPage.PerCustomerAverage | client/src/pages/customers.tsx:56 | no contract of its own; stated by `CustomersPage.AvgOrderValue` and `CustomersPage.IdleCustomerDilutes`: 0 for a customer without orders |
| CustomersPage.AvgOrderValue | client/src/pages/customers.tsx:55-57 | 0 when there are no customers; otherwise the value times the number of customers is the sum of each customer's average order, 0 for a customer without orders |
| CustomersPage.IdleCustomerDilutes | client/src/pages/customers.tsx:55-57 | a customer without orders adds nothing to the sum but counts in the divisor |
| ReviewSection.ReviewForm.constructor | client/src/components/review/review-section.tsx:27-32 | the form starts hidden and empty, with five stars |
| ReviewSection.ReviewForm.Toggle | client/src/components/review/review-section.tsx:125 | the button toggles the form and keeps its fields |
| ReviewSection.ReviewForm.PickStar | client/src/components/review/review-section.tsx:158 | star i picks rating i + 1, always within 1 to 5 |
| ReviewSection.ReviewForm.SetUserName | client/src/components/review/review-section.tsx:145 | only the name changes |
| ReviewSection.ReviewForm.SetComment | client/src/components/review/review-section.tsx:177 | only the comment changes |
| ReviewSection.ReviewForm.HandleSubmit | client/src/components/review/review-section.tsx:51-69 | nothing is posted exactly when the name or comment is empty; a posted review is unverified, with the picked rating in 1 to 5 |
| ReviewSection.ReviewForm.OnSubmitted | client/src/components/review/review-section.tsx:42-43 | after posting, the form is hidden and reset |
| ReviewSection.DaysBetween | client/src/components/review/review-section.tsx:73 | no contract of its own; stated by `ReviewSection.SameDayIsToday`: the floored whole-day difference |
| ReviewSection.TimeAgo | client/src/components/review/review-section.tsx:71-80 | no contract of its own; stated by `ReviewSection.TimeAgoBuckets` and `ReviewSection.FutureDateReadsAsDaysAgo` |
| ReviewSection.TimeAgoBuckets | client/src/components/review/review-section.tsx:71-80 | 0 days is Today, 1 is Yesterday, 2 to 6 are days, 7 to 29 are 1 to 4 weeks, and from 30 on it is months |
| ReviewSection.FutureDateReadsAsDaysAgo | client/src/components/review/review-section.tsx:77 | a negative difference reads as a negative number of days ago |
| ReviewSection.SameDayIsToday | client/src/components/review/review-section.tsx:73-75 | a review less than a day old reads "Today" |
| ReviewSection.Percentage | client/src/components/review/review-section.tsx:106 | 0 when there are no reviews, and never negative |
| ReviewSection.PercentageBounded | client/src/components/review/review-section.tsx:106 | a count within the total gives between 0 and 100 percent |
| ReviewSection.RatingBars | client/src/components/review/review-section.tsx:104-106 | five bars from 5 down to 1, each with its count (0 when missing) and percentage |
| ReviewSection.NoReviewsNoBars | client/src/components/review/review-section.tsx:106 | without reviews every bar is at 0 percent |
| ReviewSection.Stars | client/src/components/review/review-section.tsx:91-97 | star i is filled exactly when i is below the floor of the average |
| ReviewSection.FilledStarsIsFloor | client/src/components/review/review-section.tsx:95 | an average between 0 and 5 fills exactly its floor of stars |
| ProductDetail.AverageRating | client/src/pages/product-detail.tsx:63-64 | 0 without reviews; otherwise the average times the count is the sum of ratings |
| ProductDetail.AverageInRange | client/src/pages/product-detail.tsx:63-64 | with picker ratings, the average of a non-empty list is between 1 and 5 |
| ProductDetail.StarsShowAverage | client/src/pages/product-detail.tsx:124-131 | the page fills the floor of the average of the five stars, at least one |
| ProductDetail.RatingDistribution | client/src/pages/product-detail.tsx:66-69 | each rating maps to its number of reviews, and a rating is present exactly when it occurs |
| ProductDetail.CountsCoverReviews | client/src/pages/product-detail.tsx:66-69 | with picker ratings, the five counts add up to the number of reviews |
| ProductDetail.QuantitySelector.constructor | client/src/pages/product-detail.tsx:23 | the quantity starts at 1 |
| ProductDetail.QuantitySelector.Decrement | client/src/pages/product-detail.tsx:190 | minus lowers by one but never below 1 |
| ProductDetail.QuantitySelector.Increment | client/src/pages/product-detail.tsx:205 | plus raises by one |
| ProductDetail.QuantitySelector.Type | client/src/pages/product-detail.tsx:198 | the typed quantity is stored, and is at least 1 |
| ProductDetail.TypedQuantity | client/src/pages/product-detail.tsx:198 | at least 1; NaN gives 1; a number below 1 gives 1; a number of at least 1 is kept |
| ProductDetail.NonNumericQuantityIsOne | client/src/pages/product-detail.tsx:198 | text not starting with a number selects 1 |
| ProductDetail.HandleAddToCart | client/src/pages/product-detail.tsx:39-61 | adds exactly when signed in, loaded and stock is not 0, with the product's id and the quantity; sign-in first, then not loaded, then out of stock |
| ProductDetail.NegativeStockStillAdds | client/src/pages/product-detail.tsx:51 | a product with negative stock can still be added |
| AnalyticsDashboard.TotalValue | client/src/components/admin/analytics-dashboard.tsx:13-15 | no contract of its own; stated by `AnalyticsDashboard.RestockMovesValue` and `AnalyticsDashboard.TotalValueAppend` |
| AnalyticsDashboard.RestockMovesValue | client/src/components/admin/analytics-dashboard.tsx:13-15 | setting one product's stock moves the total value by its price times the change |
| AnalyticsDashboard.TotalValueAppend | client/src/components/admin/analytics-dashboard.tsx:13-15 | the value of two listings together is the sum of their values |
| AnalyticsDashboard.AveragePrice | client/src/components/admin/analytics-dashboard.tsx:17-19 | 0 for an empty listing; otherwise the average times the count is the sum of prices |
| AnalyticsDashboard.AveragePriceWithin | client/src/components/admin/analytics-dashboard.tsx:17-19 | the average price lies between any lower and upper bound of the prices |
| AnalyticsDashboard.CategoryDistribution | client/src/components/admin/analytics-dashboard.tsx:21-24 | each category maps to its number of products, is present exactly when it occurs, and the counts add up to the number of products |
| AnalyticsDashboard.Entries | client/src/components/admin/analytics-dashboard.tsx:26 | each listed category paired with its count, in key order |
| AnalyticsDashboard.TopThree | client/src/components/admin/analytics-dashboard.tsx:26-28 | at most three of the entries, with non-increasing counts; no entry left out has a larger count than one kept |
| AnalyticsDashboard.EntriesCounted | client/src/components/admin/analytics-dashboard.tsx:21-26 | the entries pair exactly the occurring categories with their counts |
| AnalyticsDashboard.TopSellingCategories | client/src/components/admin/analytics-dashboard.tsx:21-28 | three categories, or all of them when there are fewer, each with its true count, largest first; every category not shown has no more products than each one shown |
| AnalyticsDashboard.CategoryShareBounded | client/src/components/admin/analytics-dashboard.tsx:84 | a category's bar is between 0 and 100 percent |
| AnalyticsDashboard.StockLevels | client/src/components/admin/analytics-dashboard.tsx:111-125 | the first five products, each flagged "Low Stock" exactly when its stock is below 10 |
| AnalyticsDashboard.FlaggedIsAlerted | client/src/components/admin/analytics-dashboard.tsx:119-125 | a listed product flagged here also appears in the store's low-stock query |
| AnalyticsDashboard.StockBucketsPartition | client/src/components/admin/analytics-dashboard.tsx:147-155 | the buckets from 50 up, 10 to 49 and below 10 together count every product once |
| AnalyticsDashboard.RestockMatchesStats | client/src/components/admin/analytics-dashboard.tsx:155 | the dashboard's restock count over the product listing equals the server stats' low-stock count |

## Left out

- Users, sessions, categories and reviews storage, and the per-user login data: the source only passes them straight to the database. `server/storage.ts` product listing by category and the review queries are covered only as far as the tables above need them.
- The `seed.ts` data-loading script is not part of this model.
- MemStorage.Store.constructor: `initializeData` (`server/storage.ts:394-529`) also loads four categories and three reviews. This model does not store categories or reviews, so those are left out. The sample ids BL001 to PL004 become the ids 0 to 3, because ids here are numbers.
- Concurrency and atomicity: each store method is one sequential atomic step, although in the source `updateProductStock` and the cart operations are several separate writes.
- SQL `ilike` wildcards: `%` and `_` inside a search query are matched as literal characters. Case folding is ASCII only; white space is exactly the ECMAScript `\s` set.
- Floating point: `parseFloat` on money, `toFixed` rounding and sums in doubles are modelled exactly on integer cents and reals.
  - `parseInt` stops at the first non-digit, so it reads no exponent. `parseInt` also reads a `0x` hexadecimal prefix, which the model does not: it reads "0x1A" as 0, where the source gives 26.
  - `parseFloat` reads "Infinity" as infinity. Here it is not a number, so `Currency.ParseAED` gives 0 for it.
  - `Math.max`/`Math.min` over the prices (`client/src/components/admin/analytics-dashboard.tsx:163-164`) are left out, because on an empty list they give ±Infinity.
- Time:
  - `toDateString` compares local calendar days; the model compares UTC days (milliseconds divided by one day).
  - `Date.now()` and `new Date()` are parameters.
  - The clock is assumed not to go backwards, so newest-first is reverse insertion order.
- Locale formatting is a parameter of `FormatDate`. `formatAED` with `Intl.NumberFormat` is not modelled.
- The customers page's sort by last order date (`client/src/pages/customers.tsx:124`) is left out, along with the display-only parts of every page.
- Express/multer request parsing, zod validation errors (status 400) and server errors (status 500) are left out; only the decision rules of the routes are modelled.
- The network, react-query caching and toasts are left out. A page's request is the value its handler returns.
- Routes.AnalyticsStats: its own contract states only the bounds. What it counts is stated in `Routes.StatsCountActiveProducts` and `Routes.PlacedTodayIff`, and how its revenue reads back in `Routes.RevenueReadsBack`.
- AnalyticsDashboard.TopThree: ties between equal counts keep key order in the source's stable sort. The contract does not state their order.
- Object key order: a JavaScript object lists integer-like string keys in ascending order before the other keys. The model lists every key in first-insertion order. This matters for the product page's numeric ratings only as far as the map is concerned: the bars read the map by rating. It matters for the dashboard only when a category id looks like an integer.
- CustomersPage.ActiveCustomers: it states only the bound on the count. Which customers count is stated by `ActiveSince` and `CustomersPage.NeverOrderedIsInactive`.
