# luxestore core in Dafny

This project models the rules under the luxestore storefront's web framework and database calls, and proves properties about them. Money is in integer cents and star ratings are in tenths. `toFixed(2)` and `toFixed(1)` become explicit half-up rounding (`Money.RoundHalfUp`, and `Money.Round`, which rounds half away from zero).

The model covers:

- **Cart** (`CartModel`, `CartRoutes`). The cart document is one per user and holds lines `{product, quantity, price}`. Its `subtotal`, `total` and `itemCount` virtuals are modelled. The four cart routes (add or merge, set or remove a quantity, remove a product, clear) are methods on the `Store.Database` class. They keep the line schema (quantity at least 1) and "one line per product".
- **Order placement** (`OrderModel`, `OrderRoutes`):
  - the validation loop over the cart lines;
  - shipping, 8% tax and the total;
  - the order record built from the cart;
  - the pre-save order number `ORD-YYMM-NNNNN`;
  - the unique index on the order number;
  - the per-line `$inc` of stock;
  - clearing the cart.
- **Catalogue** (`ProductModel`, `ProductRoutes`): the `salePrice` virtual, `updateRating`, the category enum, the listing filter and its pagination arithmetic, categories, get by id, soft delete, and adding a review (at most one review per user).
- **Admin** (`Admin`): the dashboard's revenue, low-stock list, per-status counts and recent orders; the admin order listing with its unclamped pagination; and the status-update record.
- **Web client** (`ProductsPage`, `CartPage`):
  - the pagination bar, with first, last and neighbouring pages and ellipses;
  - `updateParam`, `goPage`, the `Number()` reading of the `page` parameter, and the parameters of the products request;
  - the cart page's summary, which agrees with the server's pricing when the cart has no discount;
  - the free-shipping hint and the quantity buttons.
- **Seed data** (`Seed`). `generateSlug`, the SKU format and `generateProducts` are modelled. The generator's random draws are a given stream of reals in [0, 1), and the generator is a loop that pushes 4 variants per template.

`Store.Database` is the database. It has three fields, each reassigned by the route methods:

- `products`, a map from id to product;
- `carts`, a map from user to cart, so a user has at most one cart;
- `orders`, a sequence in which an order's id is its position.

The listing and dashboard queries work on a snapshot `seq` of the collection, taken as already in the requested sort order.

## Model

| member | source | states |
|---|---|---|
| Money.RoundHalfUpNearest | backend/routes/orders.js:56 | rounding to the nearest unit is off by at most half a unit, ties going up |
| Money.RoundHalfUpMonotone | backend/routes/orders.js:56-57 | a larger amount never rounds to a smaller one |
| CartModel.NewCart | backend/models/Cart.js:11-14 | a new cart belongs to its user, has no lines and no coupon, and has the default discount 0 |
| CartModel.Subtotal | backend/models/Cart.js:23-27 | the `subtotal` virtual: the sum of price x quantity over the lines (its additivity and sign are the lemmas below) |
| CartModel.ItemCount | backend/models/Cart.js:33-35 | the `itemCount` virtual: the sum of the line quantities |
| CartModel.Total | backend/models/Cart.js:29-31 | the `total` virtual: the subtotal less the cart discount |
| CartModel.SumsAppend | backend/models/Cart.js:23-35 | subtotal and item count add up over any split of the lines |
| CartModel.ItemCountAtLeastLines | backend/models/Cart.js:5-35 | every line has quantity at least 1, so the item count is at least the number of lines |
| CartModel.SubtotalNonNegative | backend/models/Cart.js:23-27 | lines with non-negative prices have a non-negative subtotal |
| CartModel.SetQuantityEffect | backend/routes/cart.js:66 | setting one line's quantity to q moves the subtotal by price x (q - old) and the item count by q - old |
| CartModel.RemoveLineEffect | backend/routes/cart.js:62 | splicing out a line takes exactly its price x quantity off the subtotal and its quantity off the item count |
| Store.StoreCartKeepsWellFormed | backend/models/Cart.js:11 | storing a well-formed cart under its user keeps every stored cart keyed by its own user and well formed |
| CartRoutes.GetCart | backend/routes/cart.js:9-13 | a user without a cart gets no items and subtotal, total and item count 0; otherwise the stored lines with subtotal, item count and total = subtotal - discount |
| CartRoutes.MissingCartLooksEmpty | backend/routes/cart.js:12 | the default answer for a user without a cart is what a new empty cart shows |
| CartRoutes.LineIndex | backend/routes/cart.js:58 | `findIndex` by product: -1 exactly when no line has the product, otherwise the first line that has it |
| CartRoutes.WithoutProduct | backend/routes/cart.js:82 | the filter leaves no line of the removed product |
| CartRoutes.WithoutProductSplices | backend/routes/cart.js:82 | with one line per product, the filter keeps exactly the other lines in their order: the cart unchanged, or that one line spliced out |
| CartRoutes.SpliceKeepsInvariants | backend/routes/cart.js:62 | removing a line keeps quantities at least 1 and one line per product |
| CartRoutes.SetQuantityKeepsInvariants | backend/routes/cart.js:66 | setting a quantity of at least 1 keeps both cart invariants |
| CartRoutes.AppendKeepsInvariants | backend/routes/cart.js:37-39 | appending a line for a product not yet in the cart keeps both cart invariants |
| CartRoutes.WithoutProductKeepsInvariants | backend/routes/cart.js:82 | filtering out a product keeps both cart invariants |
| CartRoutes.LinePrice | backend/routes/cart.js:38 | `salePrice \|\| price`: the sale price unless it is 0, then the list price; never above the list price |
| CartRoutes.FullDiscountStoresFullPrice | backend/routes/cart.js:38 | with a 100% discount the sale price is 0, so the line stores the full price |
| CartRoutes.AddItem | backend/routes/cart.js:20-43 | the reply for each case: no product id 400, missing or inactive product 404, stock below quantity 400, merged quantity over stock 400, quantity below 1 on save 500. On success the existing line's quantity becomes old + new, or one line is appended at the end with `salePrice \|\| price`; the carts change only then |
| CartRoutes.UpdateItem | backend/routes/cart.js:50-71 | negative quantity 400, no cart 404, product not in cart 404, 0 removes exactly that line, a positive quantity is set only if at most the stock (400 otherwise; 500 when the product no longer exists); the carts change only on success |
| CartRoutes.RemoveItem | backend/routes/cart.js:78-84 | no cart 404 with nothing changed; otherwise the cart keeps exactly the lines of other products and the cart invariants |
| CartRoutes.ClearCart | backend/routes/cart.js:91-94 | an existing cart ends with no lines and discount 0 and its other fields unchanged; without a cart nothing is written |
| CartRoutes.ClearedCartView | backend/routes/cart.js:93 | a cleared cart reads as no items with subtotal, total and item count 0 |
| ProductModel.ParseCategory | backend/models/Product.js:22-27 | a string is accepted as a category only when it is that category's stored name |
| ProductModel.ParseCategoryName | backend/models/Product.js:26 | each of the nine category names is accepted and parses back to its category |
| ProductModel.SalePrice | backend/models/Product.js:58-63 | no discount gives the plain price; a valid product (price >= 0, discount in 0..100) has a sale price in [0, price] |
| ProductModel.SalePriceBounds | backend/models/Product.js:58-63 | price x (1 - discount/100) rounded to cents lies in [0, price] for price >= 0 and a discount in 0..100 |
| ProductModel.FullDiscountIsFree | backend/models/Product.js:59-60 | a 100% discount gives sale price 0 |
| ProductModel.RatingSumBounds | backend/models/Product.js:7 | n reviews rated 1..5 sum to between n and 5n stars |
| ProductModel.UpdateRating | backend/models/Product.js:66-76 | only rating and numReviews change; numReviews is the review count; rating is 0 without reviews, otherwise the mean in tenths rounded to the nearest tenth, a tie away from zero |
| ProductModel.RatingInRange | backend/models/Product.js:71-74 | with at least one valid review the recomputed rating is between 1.0 and 5.0 stars |
| OrderModel.DefaultStatusAllowed | backend/models/Order.js:38-42 | the default status `pending` is the first of the seven allowed statuses |
| OrderModel.PassesValidation | backend/models/Order.js:8-42 | the schema's checks: a listed payment method, a listed status, every address field present, every item quantity at least 1 |
| OrderModel.RandomSuffix | backend/models/Order.js:58 | `Math.floor(random * 100000)` is below 100000 |
| OrderModel.OrderNumber | backend/models/Order.js:56-59 | `ORD-` + the last two digits of the year + the month padded to two digits + `-` + the draw's suffix padded to five digits (its layout is OrderNumberFormat) |
| OrderModel.PreSave | backend/models/Order.js:53-62 | an order with a number is saved unchanged; one without gets exactly `OrderNumber(year, month, draw)`, which is not empty, and nothing else changes |
| OrderModel.PreSaveIdempotent | backend/models/Order.js:54 | re-saving keeps the number the first save assigned, whatever the clock and draw |
| OrderModel.LastTwoDigits | backend/models/Order.js:56 | the last two characters of a year from 10 on are two digits that read as the year modulo 100 |
| OrderModel.PaddedNumeral | backend/models/Order.js:57-58 | a number below 10^w padded to w with zeros has exactly w digits and reads back as the number |
| OrderModel.OrderNumberFormat | backend/models/Order.js:56-59 | the number has 14 characters: "ORD-", year mod 100 in two digits, the month 1..12 in two digits, "-", and the random suffix in five digits |
| OrderModel.OrderNumberInjective | backend/models/Order.js:56-59 | two generated numbers are equal only for the same year modulo 100, month and random suffix |
| OrderRoutes.Shipping | backend/routes/orders.js:9-11 | shipping is 0 exactly when the subtotal is at least $75, and $9.99 otherwise |
| OrderRoutes.Tax | backend/routes/orders.js:56 | 8% of the base, rounded to the cent (how close it is is TaxIsNearestCent) |
| OrderRoutes.TaxIsNearestCent | backend/routes/orders.js:56 | the tax is the nearest cent to 8% of subtotal + shipping (strictly within half a cent; no ties occur) |
| OrderRoutes.PriceCart | backend/routes/orders.js:54-57 | the stored subtotal, shipping, tax and total: total = subtotal + shipping + tax - discount |
| OrderRoutes.TotalCoversSubtotal | backend/routes/orders.js:54-57 | without a discount every amount is non-negative and the total is at least the subtotal |
| OrderRoutes.LineError | backend/routes/orders.js:50-51 | a line passes exactly when its product exists, is active and has at least the line's quantity in stock |
| OrderRoutes.FirstLineError | backend/routes/orders.js:49-52 | no error exactly when every line passes |
| OrderRoutes.CheckLines | backend/routes/orders.js:49-52 | the loop's result is the error of the first failing line, or none |
| OrderRoutes.OrderItems | backend/routes/orders.js:61-67 | one order item per cart line, in order, with the same product, price and quantity, the product's name, and as image the url of the product's first image, if it has one |
| OrderRoutes.FirstImageUrl | backend/routes/orders.js:64 | `images?.[0]?.url`: the first image's url, or nothing for a product without images |
| OrderRoutes.BuildOrder | backend/routes/orders.js:59-74 | the created order: the cart's user and items, the pricing of the cart, no number yet, status pending, unpaid and undelivered |
| OrderRoutes.OrderItemsValid | backend/models/Order.js:8 | cart lines with quantity at least 1, a complete address and a listed payment method give an order that passes validation |
| OrderRoutes.NumberTaken | backend/models/Order.js:14 | the unique index refuses a number exactly when a stored order already has it |
| OrderRoutes.OrderedQuantity | backend/routes/orders.js:77-81 | the total quantity the cart's lines take of one product, 0 when no line has it |
| OrderRoutes.OrderedQuantityOfLine | backend/routes/orders.js:77-81 | with one line per product, the quantity taken of a product is its own line's quantity, or 0 |
| OrderRoutes.AfterDecrement | backend/routes/orders.js:77-81 | decrementing keeps the same set of products |
| OrderRoutes.AfterDecrementStep | backend/routes/orders.js:79 | one more `$inc` lowers only that line's product, by the line's quantity |
| OrderRoutes.DecrementKeepsProductsValid | backend/routes/orders.js:49-81 | after validation passes, the decrement leaves no stock negative and every product valid |
| OrderRoutes.DecrementStock | backend/routes/orders.js:77-81 | the products become the decrement of every line |
| OrderRoutes.CommitOrder | backend/routes/orders.js:59-84 | the order is appended, each product loses exactly its line's quantity, and the cart ends with no lines and discount 0 |
| OrderRoutes.PlaceOrder | backend/routes/orders.js:38-89 | missing address or payment method 400; no cart or empty cart "Cart is empty"; a failing line answers its error; every failure is 400 and changes nothing. On success (201) the order is stored, the stock is decremented per line and the cart is cleared |
| ProductRoutes.BuildFilter | backend/routes/products.js:24-35 | the category filter is set exactly for a non-empty category; featured only for the text `true`; price and rating bounds as given |
| ProductRoutes.Matches | backend/routes/products.js:24-35 | the filter document: active, and each given category, featured, price and rating condition |
| ProductRoutes.Matching | backend/routes/products.js:42 | a product is matched exactly when it is in the catalogue and passes the filter |
| ProductRoutes.MatchingSingle | backend/routes/products.js:42 | a one-product catalogue yields that product exactly when it matches |
| ProductRoutes.MatchingAppend | backend/routes/products.js:42 | matching distributes over concatenation, so the matches keep catalogue order and multiplicity |
| ProductRoutes.PageNumber | backend/routes/products.js:37 | `max(1, page)` |
| ProductRoutes.PageSize | backend/routes/products.js:38 | the page size is clamped to [1, 100] and otherwise the given limit |
| ProductRoutes.PageCount | backend/routes/products.js:49 | `Math.ceil(total / pageSize)` on whole numbers (PageCountIsCeiling is its property) |
| ProductRoutes.PageCountIsCeiling | backend/routes/products.js:49 | the page count is the least number of pages holding all matches, 0 exactly when there are none |
| ProductRoutes.Window | backend/routes/products.js:39-42 | `skip(n).limit(k)` is the slice from n of length at most k, empty past the end |
| ProductRoutes.ListProducts | backend/routes/products.js:9-51 | page, total, page count, and the products = the window of the matches at skip (page - 1) x size |
| ProductRoutes.ListedProductsMatch | backend/routes/products.js:24-35 | every listed product is active and meets the category, featured, price and rating conditions that were given |
| ProductRoutes.PageAtMostHundred | backend/routes/products.js:38 | a page holds at most 100 products, and at most the limit when the limit is 1..100 |
| ProductRoutes.EveryMatchIsOnAPage | backend/routes/products.js:39-42 | the i-th match is listed on the page whose window covers position i |
| ProductRoutes.PageOfPosition | backend/routes/products.js:39 | position i lies in the window of page i / size + 1 |
| ProductRoutes.ThreeMatchesTwoPerPage | backend/tests/products.test.js:64-69 | 3 matches with limit 2 make 2 pages, and page 2 holds one product |
| ProductRoutes.PriceRangeListing | backend/tests/products.test.js:58-62 | with minPrice 50 and maxPrice 80 every listed price is in $50..$80 |
| ProductRoutes.Categories | backend/routes/products.js:58-61 | the categories of exactly the active products |
| ProductRoutes.GetProduct | backend/routes/products.js:68-72 | found exactly when the product exists and is active, and then it is the stored product |
| ProductRoutes.SoftDelete | backend/routes/products.js:103-106 | the product is marked inactive and nothing else changes; an unknown id changes nothing and still succeeds |
| ProductRoutes.DeletedIsHidden | backend/routes/products.js:105 | a deleted product is not found by id and is not listed |
| ProductRoutes.ReviewedBy | backend/routes/products.js:128-130 | true exactly when some review is by the user |
| ProductRoutes.AddReview | backend/routes/products.js:113-141 | invalid rating or blank comment 400, unknown product 404, a second review by the same user 400 with the reviews unchanged; otherwise exactly one review is appended and the rating recomputed (201) |
| ProductRoutes.AcceptedReviewAppendsOne | backend/routes/products.js:133-139 | an accepted review adds one entry at the end, numReviews grows by one, and reviews stay one per user |
| ProductRoutes.AcceptedReviewRating | backend/routes/products.js:133-139 | after a valid review the rating is between 1.0 and 5.0 stars |
| Admin.NoPaidOrderNoRevenue | backend/routes/admin.js:37 | with no paid order the revenue is 0 |
| Admin.TotalRevenue | backend/routes/admin.js:23-26 | the `$match isPaid` / `$sum totalAmount` aggregation: the sum of the paid orders' totals |
| Admin.CountActive | backend/routes/admin.js:27 | the number of active products, at most the catalogue's size |
| Admin.CountActiveSingle | backend/routes/admin.js:27 | one product counts 1 exactly when it is active |
| Admin.CountActiveAppend | backend/routes/admin.js:27 | the count distributes over concatenation |
| Admin.RevenueAppend | backend/routes/admin.js:23-26 | revenue adds up over a split of the orders |
| Admin.RevenueBounds | backend/routes/admin.js:23-26 | with non-negative totals the revenue is non-negative and at most the sum of all totals |
| Admin.LowStockCandidates | backend/routes/admin.js:30 | exactly the catalogue's active products with stock below 10, each at most as often as in the catalogue |
| Admin.InsertKeepsSorted | backend/routes/admin.js:30 | inserting by stock keeps ascending stock order |
| Admin.SortByStock | backend/routes/admin.js:30 | `.sort('stock')`: ascending stock and a permutation of its input |
| Admin.LowStock | backend/routes/admin.js:30 | `.sort('stock').limit(10)` of the candidates: min(10, candidates) products, in ascending stock, each a candidate taken at most as often as it occurs |
| Admin.LowStockComplete | backend/routes/admin.js:30 | with at most 10 candidates, all of them are listed |
| Admin.LowStockKeepsSmallest | backend/routes/admin.js:30 | a candidate left off has at least the stock of every listed product |
| Admin.StatusCountsCorrect | backend/routes/admin.js:31 | each status appears once in the tally and its count is exactly its number of orders, at least 1 |
| Admin.StatusCountsSum | backend/routes/admin.js:31 | the per-status counts add up to the number of orders |
| Admin.StatusCounts | backend/routes/admin.js:31 | the `$group` by status: one entry per status, in first-seen order, counting its orders |
| Admin.RecentOrders | backend/routes/admin.js:29 | the 5 newest orders (all of them if fewer), newest first |
| Admin.GetDashboard | backend/routes/admin.js:11-44 | order count, revenue, active product count, recent orders, low stock and the status tally |
| Admin.DashboardCountsAgree | backend/routes/admin.js:22-31 | the dashboard's per-status counts add up to its order count |
| Admin.WithStatus | backend/routes/admin.js:54 | no status keeps every order; otherwise exactly the orders with that status |
| Admin.WithStatusSingle | backend/routes/admin.js:54 | one order is kept exactly when it has the status or no status is asked for |
| Admin.WithStatusAppend | backend/routes/admin.js:54 | the status filter distributes over concatenation, so it keeps creation order and multiplicity |
| Admin.CeilDiv | backend/routes/admin.js:66 | `ceil(total / limit)` for a positive limit; none (null) for limit 0 |
| Admin.LimitCount | backend/routes/admin.js:61 | `.limit(n)` takes at most the available orders, and all of them for 0 |
| Admin.AdminOrders | backend/routes/admin.js:51-66 | skip (page - 1) x limit with no clamping: a negative skip is an error; otherwise the window of the status matches, newest first, their total and the page count |
| Admin.AdminOrdersMatchStatus | backend/routes/admin.js:54-58 | every listed order is a stored order with the requested status |
| Admin.AdminLimitNotClamped | backend/routes/admin.js:55-61 | unlike the catalogue listing, limit 500 on page 1 lists 500 orders |
| Admin.BuildUpdate | backend/routes/admin.js:75-81 | status always; tracking number only when given; delivery flag and time only for `delivered` |
| Admin.ApplyUpdate | backend/routes/admin.js:76-82 | `findByIdAndUpdate` with the update record: the fields the record has replace the order's, the rest stay |
| Admin.StatusUpdateEffect | backend/routes/admin.js:76-82 | the status is set; the tracking number changes only when given; isDelivered and deliveredAt change only for `delivered`; nothing else changes |
| Admin.UnlistedStatusIsStored | backend/routes/admin.js:82 | no enum check runs on update, so a status outside the seven is stored |
| Admin.UpdateOrderStatus | backend/routes/admin.js:73-84 | unknown order 404 with nothing changed; otherwise the order becomes the update applied to it and no other order changes |
| ProductsPage.KeptPages | frontend/src/pages/ProductsPage.js:155-156 | increasing, and holding exactly the pages 1..pages that are first, last or within 2 of the current page |
| ProductsPage.EndsAndCurrentKept | frontend/src/pages/ProductsPage.js:156 | the first page, the last page and an in-range current page are always shown |
| ProductsPage.EntriesLinks | frontend/src/pages/ProductsPage.js:157-161 | dropping the ellipses gives back exactly the kept pages, in order |
| ProductsPage.Entries | frontend/src/pages/ProductsPage.js:157-161 | the `reduce`: the kept pages with an ellipsis before each page more than 1 above the previous |
| ProductsPage.EntriesShape | frontend/src/pages/ProductsPage.js:157-161 | the bar starts and ends with a page; an ellipsis sits only between two pages more than 1 apart (never first, last or next to another); neighbouring pages differ by at most 1 |
| ProductsPage.PaginationEntries | frontend/src/pages/ProductsPage.js:157-161 | the accumulator loop builds exactly the entries of the kept pages |
| ProductsPage.ShowPagination | frontend/src/pages/ProductsPage.js:140-152 | the bar is drawn only when not loading, with products, and more than one page |
| ProductsPage.PrevDisabled | frontend/src/pages/ProductsPage.js:154 | the previous arrow is disabled exactly on page 1 |
| ProductsPage.NextDisabled | frontend/src/pages/ProductsPage.js:168 | the next arrow is disabled exactly on the last page |
| ProductsPage.ArrowsStayInRange | frontend/src/pages/ProductsPage.js:154-168 | previous is enabled exactly when page - 1 is a page, next exactly when page + 1 is |
| ProductsPage.UpdateParam | frontend/src/pages/ProductsPage.js:54-59 | the key is set for a non-empty value and deleted for an empty one, `page` is always removed, other keys unchanged |
| ProductsPage.GoPage | frontend/src/pages/ProductsPage.js:66-69 | only `page` changes, to the written number |
| ProductsPage.CurrentPage | frontend/src/pages/ProductsPage.js:29 | `Number(get('page') \|\| 1)`: a missing or empty page is 1, plain digits read as their value |
| ProductsPage.NumberValue | frontend/src/pages/ProductsPage.js:29 | `Number(text)` for decimal text, as a whole number or None (NaN or a fraction); its cases are the lemmas below |
| ProductsPage.WholeDecimalOfDigits | frontend/src/pages/ProductsPage.js:29 | unsigned digits read as their value |
| ProductsPage.NumberOfTrimmed | frontend/src/pages/ProductsPage.js:29 | text without white-space ends is read by its sign: `-` negates, `+` keeps, anything else is unsigned decimal text |
| ProductsPage.NumberOfSpaces | frontend/src/pages/ProductsPage.js:29 | text made only of white space reads as 0 |
| ProductsPage.NumberOfNegative | frontend/src/pages/ProductsPage.js:29 | `-` followed by digits reads as the negative of the digits |
| ProductsPage.NumberOfPositive | frontend/src/pages/ProductsPage.js:29 | `+` followed by digits reads as the digits |
| ProductsPage.WholeDecimalPoint | frontend/src/pages/ProductsPage.js:29 | in `d.f` the digit run stops at the point; the value is d exactly when f is all zeros, otherwise not a whole number |
| ProductsPage.NumberOfFraction | frontend/src/pages/ProductsPage.js:29 | `d.f` reads as the whole number d exactly when every digit of f is 0 (`2.0` and `2.` are 2), and as no whole number otherwise |
| ProductsPage.NumberOfText | frontend/src/pages/ProductsPage.js:29 | text starting with something other than a digit, a sign or a point is NaN |
| ProductsPage.NumberOfIntToString | frontend/src/pages/ProductsPage.js:29-69 | `String(n)` of any whole number, negative included, reads back as n |
| ProductsPage.PageAfterNavigation | frontend/src/pages/ProductsPage.js:29-69 | after a filter change the page reads as 1; after `goPage(n)` it reads as n, for any whole n |
| ProductsPage.BuildFetchParams | frontend/src/pages/ProductsPage.js:24-39 | sort (default newest), page and limit 20 always; each optional filter is sent exactly when non-empty, and then with the query string's own value (the search with the search box's) |
| ProductsPage.ClearedFilterNotSent | frontend/src/pages/ProductsPage.js:54-59 | clearing a filter stops it being sent and resets the page to 1 |
| CartPage.ClientSummary | frontend/src/pages/CartPage.js:24-30 | client shipping is 0 exactly from $75, else $9.99; tax 8% of subtotal + shipping; total the sum |
| CartPage.RenderCart | frontend/src/pages/CartPage.js:9-30 | the empty-cart state exactly for no items, otherwise the lines with the client summary |
| CartPage.SummaryMatchesOrder | frontend/src/pages/CartPage.js:24-30 | for a cart without a discount, the page's subtotal, shipping, tax and total equal the order's stored amounts |
| CartPage.SummaryOmitsDiscount | frontend/src/pages/CartPage.js:30 | the page's total is the order total plus the cart discount |
| CartPage.FreeShippingHint | frontend/src/pages/CartPage.js:67-69 | shown exactly when shipping is charged, and then $75 - subtotal, which is positive |
| CartPage.HintReachesFreeShipping | frontend/src/pages/CartPage.js:67-68 | adding the hinted amount reaches free shipping, one cent less does not |
| CartPage.StockCap | frontend/src/pages/CartPage.js:52 | `stock \|\| 99`: the product's stock, or 99 when it is 0 or unknown |
| CartPage.MinusDisabled | frontend/src/pages/CartPage.js:50 | minus is disabled while loading or at quantity 1 or below |
| CartPage.PlusDisabled | frontend/src/pages/CartPage.js:52 | plus is disabled while loading or once the quantity reaches the stock cap |
| CartPage.ButtonsRequestValidQuantities | frontend/src/pages/CartPage.js:50-52 | an enabled minus asks for at least 1; with stock, plus is disabled exactly at the stock, so an enabled plus asks for no more than the stock |
| CartPage.OutOfStockFallsBackTo99 | frontend/src/pages/CartPage.js:52 | with stock 0 the plus button stays enabled below 99 |
| CartPage.LoadingDisablesButtons | frontend/src/pages/CartPage.js:50-52 | while loading both buttons are disabled |
| Seed.CollapseRuns | backend/seed.js:90 | the result has only slug characters and no two dashes in a row, and has dashes at its ends exactly where the input has characters other than [a-z0-9]; where the inner dashes go is CollapseRunsSingle and CollapseRunsAppend |
| Seed.CollapseRunsSingle | backend/seed.js:90 | one character stays when it is in [a-z0-9] and becomes one dash otherwise |
| Seed.CollapseRunsAppend | backend/seed.js:90 | collapsing a concatenation joins the two results, and the two dashes merge into one exactly when a run of other characters spans the join; with CollapseRunsSingle this fixes the result character by character, so every maximal run becomes one dash |
| Seed.CollapseRunsKeepsAlnums | backend/seed.js:90 | collapsing keeps every letter and digit of the input, in order: the letters and digits of the result are exactly those of the input |
| Seed.Slug | backend/seed.js:89-90 | `generateSlug`: the lower-cased name with runs of other characters collapsed to a dash and the end dashes dropped, then `-` and the index |
| Seed.SlugBodyWellFormed | backend/seed.js:89-90 | the slug body holds only [a-z0-9-], no two consecutive dashes, and no leading or trailing dash |
| Seed.SlugIndexInjective | backend/seed.js:89-90 | equal slugs have equal indices, so distinct indices give distinct slugs |
| Seed.CategoryCode | backend/seed.js:117 | the first three letters of a seeded category, upper-cased, are three capitals |
| Seed.SkuFormat | backend/seed.js:117 | an SKU is "SKU-", three capitals, "-", and five digits that read back as the index |
| Seed.Sku | backend/seed.js:117 | `SKU-`, the category's first three letters upper-cased, `-`, and the index padded to five digits |
| Seed.VariantPrice | backend/seed.js:103-104 | the template's base price times 1, 1.4, 1.8 or 0.7 for the four variants, in cents |
| Seed.Pick | backend/seed.js:105 | `Math.floor(draw * n)` is an index below n |
| Seed.DiscountOf | backend/seed.js:106 | the discount is 0 or in 5..34 |
| Seed.RatingOf | backend/seed.js:119 | the rating is 3.0 to 5.0 stars |
| Seed.ComparePriceCoversPrice | backend/seed.js:114 | the compare-at price for a discount in 5..34 is at least the price |
| Seed.MakeProduct | backend/seed.js:101-121 | one pushed record, built from the template, the variant, the position and the draws |
| Seed.MakeProductGenerated | backend/seed.js:101-121 | the pushed record has the category, variant price, a brand of the category, name, slug with index i + 1, SKU with index i + 2, the discount, stock, rating and review-count ranges, and comparePrice exactly with a discount, equal to price / (1 - discount/100) rounded to the cent |
| Seed.GeneratedIsValid | backend/seed.js:103-121 | a generated product meets the schema's numeric constraints, and its compare-at price is at least its price |
| Seed.AllGeneratedValid | backend/seed.js:92-136 | every product of a generated catalogue meets the schema's numeric constraints |
| Seed.RowCount | backend/seed.js:18-87 | the seven categories hold 54 templates |
| Seed.ReadDraws | backend/seed.js:105-121 | one product takes 7 draws when its discount gate opens and 6 otherwise, each in [0, 1) |
| Seed.MakeVariant | backend/seed.js:102-130 | the product pushed for position i is generated from its template, and the draw cursor advances by that product's draws |
| Seed.GenerateVariants | backend/seed.js:101-131 | one template adds exactly 4 products, in variant order |
| Seed.GenerateCategory | backend/seed.js:100-132 | a category adds 4 products per template, continuing the positions |
| Seed.GenerateFrom | backend/seed.js:92-136 | for any category table, 4 products per template, each generated from its own template |
| Seed.GenerateProducts | backend/seed.js:92-136 | the seed catalogue has 216 products; product i comes from template i / 4, variant i mod 4, with slug index i + 1 and SKU index i + 2; every product meets the schema's numeric constraints |
| Strings.NatToStringValue | frontend/src/pages/ProductsPage.js:29 | a written number reads back as itself |
| Strings.TrimEmpty | backend/routes/products.js:118 | a comment trims to empty exactly when it is all white space |
| Strings.Trim | backend/routes/products.js:118 | `trim()`: the result is the text with a white-space prefix and a white-space suffix cut off, and it neither starts nor ends with white space |
| Strings.TrimUnchanged | frontend/src/pages/ProductsPage.js:29 | text with no white space at its ends is left as it is |

## Left out

- The database and the ORM: `findOne`, `populate`, `save`, `$text` search, aggregation pipelines and sorting. Collections are maps and sequences, and listings take a snapshot already in the requested order. A bad id (`CastError`) is not modelled.
- `ProductRoutes.Matches`: the `$text` search condition and the case-insensitive `RegExp` brand match are left out, because they belong to the database's text index and regular expressions.
- Floating point: prices are in cents. `Number()` parsing of query values is taken as already done, and a value that is not a number (NaN) is not modelled, except for `page` on the listing page.
- ProductsPage.CurrentPage: `Number()` is modelled for decimal text with white space around it and an optional sign and fraction. Exponent (`1e1`) and hexadecimal (`0x10`) forms, and `Infinity`, read as None here, though `Number` gives a value for them. None also stands for a fraction such as `2.5`, which is not a whole page. Values beyond 2^53, where doubles lose precision, are exact here.
- Product ids: ids are compared as values, in one canonical form. The source compares `toString()` text (backend/routes/cart.js:32, 58, 82), while `findById` also accepts an id written another way, such as upper-case hexadecimal. The source would then find the product but not its line, and add a second line for it. The model does not capture ids written in another form.
- `Promise.all`. The stock decrements are sequential writes, and nothing in the source makes them atomic.
- `Math.random` and `new Date()` are parameters: the draws, the year and month, and the delivery time.
- Authentication, the user collection and `GET /api/admin/users`: they wrap a User model that is not part of this model. The dashboard's user count is left out for the same reason.
- `GET /api/admin/analytics/revenue`: it is an aggregation by calendar date over `paidAt`, and it needs a date library.
- `GET /api/orders`, `GET /api/orders/:id`, and the admin product create and update routes: they are plain database reads and writes that run the schema validators.
- `seed()` (connect, delete, insert, console output) and the users it creates.
- Rendering, routing, the HTTP client and the React context.
- Strings: `toLowerCase` and `toUpperCase` are ASCII only. `trim` knows the ASCII white space, NBSP and BOM.
- The query string is one value per name, and its order is not modelled.
- Validation messages are shortened: "Order validation failed" and "Invalid value" stand for the framework's texts.
- The virtuals' `toFixed(2)` on sums of cents is exact, so it is the identity here.
- ProductModel.UpdateRating: works on a record and returns the updated record instead of assigning the document's fields.
- ProductModel.UpdateRating: rounds the exact mean, with ties away from zero as `toFixed` does on an exactly representable tie; a mean such as 1.15 that a binary float holds only approximately may round the other way in the source.
- Seed.Generated: does not state the description, short description, images, tags or the featured flag, although MakeProduct builds them.
- Seed.GenerateProducts: states neither the draw cursor nor which draw feeds which field; only MakeVariant states how far the cursor advances for one product.
- Seed.MakeProduct: the seeded rating and review count do not agree with the empty review list. The source does the same.
- OrderRoutes.TaxIsNearestCent: the source rounds a binary float. Cents and the exact rate 8/100 do not reproduce float ties, and there are none, as proved.
