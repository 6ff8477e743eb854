# Smart Computers storefront: checkout core in Dafny

This project models the checkout path of the Smart Computers Django storefront, with the database reduced to in-memory tables.

- **Product stock.** Stock goes down only through the guarded decrement `Product.reduce_stock`.
- **Order price.** `Order.save` fills in a missing price.
- **Session carts.** The cart views add, decrease and remove items, and the home page has a legacy toggle cart.
- **Pricing.** The cart page totals the cart. Checkout runs a stock-aware pricing loop with a 5% discount and a fixed delivery fee of 100.
- **Checkout.** `Checkout.get` shows the summary. `Checkout.post` checks its guards in order, then runs the commit loop: it reduces stock, creates the orders, upserts the analytics product snapshot, adds the analytics items under one sale header, and lays out the receipt rows.
- **Sales reports.** Both report views share one aggregation: revenue, order count and the top five products. The PDF report also builds a table.
- **Admin actions.** Restock adds 10 units to each selected product. The status actions overwrite the status of each selected order.

Modules, one file each:

| file | module | what it holds |
|---|---|---|
| `common.dfy` | `Common` | `Option`, decimal rendering of naturals, `s[:n]`, `join`, two-decimal amounts |
| `catalog.dfy` | `Catalog` | product and order rows, the stock decrement, the category filter, the order price default |
| `carts.dfy` | `Carts` | carts as insertion-ordered dicts, cart keys, the `Session` class with the cart views |
| `pricing.dfy` | `Pricing` | the cart page loop, the checkout pricing loop, the discount and totals |
| `reports.dfy` | `Reports` | analytics rows, the CASCADE delete, the shared aggregation, the PDF report contents |
| `receipt.dfy` | `Receipt` | the receipt's item rows and page cursor, and the placement of the totals block |
| `admin.dfy` | `Admin` | the restock and status actions as functions on the tables |
| `storefront.dfy` | `Storefront` | the `Store` class with its tables, the commit loop, and `Checkout.get` / `Checkout.post` |

Representation choices:

- **Ids.** Product ids are naturals. A cart is a sequence of `(id, qty)` entries with unique ids, in dict insertion order. Assigning to a present key keeps its place, assigning to a new key appends it, and deleting a key closes the gap.
- **Money.** Money is an integer. `DecimalField` amounts (the sale total, the snapshot price, the item price) are integers in hundredths. The discount `subtotal * 0.05` is kept exactly as `5 * subtotal` hundredths. The grand total is `95 * subtotal + 10000` hundredths.
- **In-memory objects.** The commit loop works on the product object read during pricing. `reduce_stock` saves that object over its row. Checkout runs single-threaded.

## Model

| member | source | states |
|---|---|---|
| Catalog.StockReduction | store/models/product.py:16-22 | `reduce_stock` succeeds iff `amount <= quantity`. On success the quantity is lower by exactly `amount`, and it can never go below zero. On failure the product is unchanged. No field other than `quantity` changes. |
| Catalog.ReduceByZero | store/models/product.py:18-19 | Reducing by 0 always succeeds and leaves the product as it was. |
| Storefront.Store.ReduceStock | store/models/product.py:16-22 | The method returns the flag and decremented instance given by `StockReduction`. The products table gets the decremented instance on success and stays untouched on failure. |
| Catalog.ProductsByCategory | store/models/product.py:34-35 | A category id selects exactly the products of that category. No id selects every product. Rows are never altered. |
| Catalog.IndexProducts | store/views/index.py:27-30 | The home page shows the filtered products for a given category parameter, otherwise all products. |
| Catalog.NewOrder | store/models/order.py:11-24 | A new order defaults to status Pending, quantity 1, empty address and phone, and no price. |
| Catalog.Saved | store/models/order.py:29-33 | `save` with an unset or zero price stores unit price × quantity. Any other price is kept. Only the price can change, and the stored row always has a price. |
| Catalog.SaveIdempotent | store/models/order.py:31-33 | Saving twice stores the same row as saving once. |
| Catalog.SaveKeepsLineTotal | store/models/order.py:31-32 | An order created with price = unit price × quantity is stored unchanged, even when that price is 0. |
| Storefront.Store.SaveOrder | store/models/order.py:29-33 | The orders table grows by exactly the row `Saved` describes. |
| Common.NatToString | store/views/cart.py:17 | `str()` of a natural is a non-empty string of decimal digits, one character long exactly for values below 10. |
| Common.NatToStringInjective | store/views/cart.py:17 | Different customer ids render as different strings. |
| Common.NatToStringValue | store/views/cart.py:17 | Reading back the decimal digits of `str(n)` gives `n`. |
| Common.Truncate | store/views/checkout.py:237 | `s[:n]` is a prefix of `s` of length `min(n, len(s))`. |
| Common.Join | store/views/checkout.py:111 | `sep.join(parts)` is empty for no parts and the part itself for one. |
| Common.JoinSnoc | store/views/checkout.py:111 | Joining one more part appends the separator and then that part. |
| Common.JoinShape | store/views/checkout.py:111 | For one or more parts, the join's length is the parts' total length plus one separator between each pair of neighbours. It starts with the first part and ends with the last. |
| Common.FormatCents | store/views/report.py:108 | An amount in hundredths renders as an optional `-` (present iff the amount is negative), digits, a `.` and two digits. |
| Common.FormatCentsRoundTrip | store/views/report.py:108 | The rendered amount reads back (`ParseCents`) as exactly the amount it was rendered from. |
| Carts.Get | store/views/cart.py:62 | `cart.get(id)` finds the entry stored under `id`, or reports that no entry has that id. |
| Carts.GetAt | store/views/cart.py:81-82 | In a dict-shaped cart, the value under an entry's id is that entry's quantity. |
| Carts.Put | store/views/cart.py:62 | `cart[id] = q` makes `q` the value under `id` and leaves every other id's value alone. No entry other than `(id, q)` is introduced. |
| Carts.PutWellFormed | store/views/cart.py:62 | Assigning a key keeps the ids unique. |
| Carts.IdsCons | store/views/cart.py:30 | The keys of a cart with one more entry in front start with that entry's id. |
| Carts.PutOrder | store/views/cart.py:62 | Assigning a present key keeps the key order. Assigning an absent key appends it at the end. |
| Carts.Without | store/views/cart.py:104-105 | `del cart[id]` removes `id` and leaves every other value alone. Deleting an absent id changes nothing. |
| Carts.WithoutWellFormed | store/views/cart.py:85 | Deleting a key keeps the ids unique. |
| Carts.WithoutOrder | store/views/cart.py:105 | Deleting a key keeps the remaining keys in their order. |
| Carts.Ids | store/views/cart.py:30 | The keys, in insertion order. |
| Carts.Added | store/views/cart.py:62 | Add sets the id's quantity to its previous value + 1, or to 1 if absent. Other ids are untouched, and all-positive quantities stay positive. |
| Carts.Decreased | store/views/cart.py:81-85 | Decrease subtracts 1 above 1 and removes the entry at 1 or below. An absent id leaves the cart unchanged, other ids are untouched, and positivity is kept. |
| Carts.Toggled | store/views/index.py:13-22 | The product's entry disappears exactly when the remove flag meets a quantity of 1. Every other id keeps its value. The full value table is `Carts.ToggledValues`. |
| Carts.ToggledValues | store/views/index.py:13-22 | The toggle increments a present product, or decrements it with the remove flag (dropping it at 1). An absent or zero entry becomes 1 even with the remove flag. Other ids are untouched, and positivity is kept. |
| Carts.ToggledWellFormed | store/views/index.py:13-22 | The toggle keeps the cart's ids unique. |
| Carts.ToggleEntry | store/views/index.py:13-22 | The in-place branches of `Index.post` compute exactly `Toggled`. |
| Carts.CartKey | store/views/cart.py:17 | The key is `cart_` followed by the customer id's digits, or `cart_anonymous` without a customer. A digit follows the prefix iff there is a customer. |
| Carts.CartKeysDistinct | store/views/cart.py:17 | Two session identities share a cart key only if they are the same identity. |
| Carts.IndexCartSeparate | store/views/index.py:11-24 | The home page's `cart` key never coincides with a cart view's key. |
| Carts.Session.Current | store/views/cart.py:18 | The current cart is the one stored under the session's key, or empty. It is always dict-shaped. |
| Carts.Session.AddToCart | store/views/cart.py:53-66 | A missing product value leaves the session alone. Otherwise the current cart becomes `Added`. |
| Carts.Session.DecreaseCartItem | store/views/cart.py:72-89 | The session changes only when the product value is given and present, and then the cart becomes `Decreased`. |
| Carts.Session.RemoveFromCart | store/views/cart.py:95-109 | The session changes only when the product value is given and present, and then the cart becomes `Without`. |
| Carts.Session.IndexToggle | store/views/index.py:8-25 | The cart under `cart` becomes `Toggled`. No other session entry changes. |
| Carts.Session.ClearCart | store/views/checkout.py:283-284 | The current identity's cart becomes empty. No other session entry changes. |
| Carts.Session.ForgetCustomer | store/views/checkout.py:123-131 | The session forgets its customer and keeps its carts. |
| Pricing.ViewLines | store/views/cart.py:30-39 | Every listed line belongs to a cart entry whose product exists, priced at that product, and every such entry is listed. There are no stock checks. |
| Pricing.CartPage | store/views/cart.py:15-44 | The cart-page loop yields exactly `ViewLines`, and its total is their sum of price × qty. |
| Pricing.Priced | store/views/checkout.py:96-108 | The pricing outcome, stated both ways. A line is accepted iff its product exists with `quantity >= qty`. A name is reported iff its product exists with too little stock. Missing products are dropped. The subtotal is the sum over accepted lines. The shortage list is empty iff no entry is short. |
| Pricing.Positions | store/views/checkout.py:96-108 | The positions a pricing loop keeps (listed, accepted or short entries), strictly increasing, each naming a kept entry, and covering every kept entry. |
| Pricing.LinesAtSnoc | store/views/cart.py:30-39 | Lines aligned with the kept positions of a cart's front stay aligned, and a kept last entry extends both by its line. |
| Pricing.NamesAtSnoc | store/views/checkout.py:107-108 | The same for the names of short products. |
| Pricing.ViewLinesInCartOrder | store/views/cart.py:30-39 | The cart page lists exactly one line per entry whose product exists, in cart order. |
| Pricing.PricedInCartOrder | store/views/checkout.py:96-106 | Checkout accepts exactly one line per entry with enough stock, in cart order. This fixes the receipt's row order. |
| Pricing.ShortagesInCartOrder | store/views/checkout.py:107-108 | The shortage list names the product of each short entry exactly once, in cart order. This fixes the order of the names in the error message. |
| Pricing.PriceCart | store/views/checkout.py:92-108 | The pricing loop computes exactly `Priced` (also used by checkout.py:31-47). |
| Pricing.DistinctSnoc | store/views/checkout.py:99-106 | Appending a line whose product is on no earlier line keeps product ids distinct. |
| Pricing.PricedDistinct | store/views/checkout.py:96-106 | Accepted lines of a dict-shaped cart name each product once. |
| Pricing.PricedMatchesView | store/views/checkout.py:96-108 | With no shortage, checkout accepts exactly the lines the cart page shows, at the same subtotal. |
| Pricing.StockErrorMessage | store/views/checkout.py:110-111 | The message starts with "Insufficient stock for: ". For one name it is exactly the prefix followed by that name. For several, the first name comes right after the prefix, the last ends the message, and the length is prefix + names + 2 per separator. |
| Pricing.StockErrorMessageSnoc | store/views/checkout.py:110-111 | The message for two or more names is the message for all but the last, then `, `, then the last name. With the one-name case this fixes every name, in order, with `, ` between neighbours. |
| Pricing.TotalsFor | store/views/checkout.py:118-120 | The discount is 5% of the subtotal, the delivery fee is 100, and total = subtotal − discount + fee, all in hundredths. |
| Pricing.PricingExampleAccepted | store/views/checkout.py:96-120 | Two units at 1000 with 10 in stock give subtotal 2000, discount 100.00 and total 2000.00. |
| Pricing.PricingExampleShort | store/views/checkout.py:107-108 | Two units asked with one in stock report the product's name and accept nothing. |
| Reports.DeleteReportOrder | store/views/checkout.py:192 | Deleting a sale header keeps exactly the other headers. Deleting an absent id changes nothing. |
| Reports.CascadeItems | store/models/report.py:23 | The CASCADE keeps exactly the items of other sale headers. |
| Reports.DeleteReportOrderAppend | store/views/checkout.py:192 | The deletion distributes over concatenation, so the kept headers stay in their order and keep their multiplicity: it is an order-preserving filter. |
| Reports.CascadeItemsAppend | store/models/report.py:23 | The CASCADE distributes over concatenation, so the kept items stay in their order and two identical items stay two: it is an order-preserving filter. |
| Reports.CascadeRemovesAppended | store/models/report.py:23 | Items appended under a header after other headers' items are all removed by its deletion, leaving the earlier items. |
| Reports.Revenue | store/views/report.py:20-28 | Revenue is the sum over completed sale headers, and 0 when none is completed. |
| Reports.CompletedCount | store/views/report.py:29 | The order count is the number of completed headers. It is 0 iff none is completed. |
| Reports.SoldNames | store/views/report.py:32-35 | The group keys are distinct. A name is a key iff some item with a product, under a completed header, carries it. |
| Reports.Grouped | store/views/report.py:35-37 | Each group sums the quantities and the price × quantity of that name's counted items. |
| Reports.Insert | store/views/report.py:38 | Insertion keeps the ranking in non-increasing quantity, adds one entry, and the entries are the old ones plus the new one. |
| Reports.InsertPermutes | store/views/report.py:38 | The inserted ranking is a permutation of the old entries plus the new one (as multisets). |
| Reports.InsertDistinct | store/views/report.py:35-38 | Inserting an entry with a new name keeps names distinct. |
| Reports.SortByQuantity | store/views/report.py:38 | The sort yields non-increasing quantities and is a permutation of its input (as multisets). |
| Reports.SortDistinct | store/views/report.py:35-38 | Sorting keeps names distinct. |
| Reports.TopProducts | store/views/report.py:32-38 | The query yields at most 5 entries in non-increasing quantity. Its full contract is `Reports.TopProductsRanking`. |
| Reports.TopProductsRanking | store/views/report.py:32-38 | The top products hold at most 5 entries with distinct names, in non-increasing quantity. Each entry sums its name's counted items. Any counted name left out sold no more than the fifth entry. |
| Reports.Summarize | store/views/report.py:20-38 | The shared aggregation. The count is 0 iff no header is completed, and then the revenue is 0. The ranking holds at most 5 entries with distinct names in non-increasing quantity, each the sum over its name's counted items. It is empty iff no item counts. |
| Reports.SalesReportView | store/views/report.py:18-50 | The on-screen report shows exactly the figures of `Summarize` over the report tables. |
| Reports.SalesReportPdfView | store/views/report.py:53-134 | The PDF report shows the same revenue and count as the on-screen report. Its table lists the on-screen ranking, one `TableRow` each under the header. "No completed sales recorded." appears iff no header is completed, and "No products sold." iff no item counts. The table ends above the footer. |
| Reports.RankingExample | store/views/report.py:32-38 | Sales of 3 units of A and 5 of B rank B before A. |
| Reports.ExampleGroups | store/views/report.py:32-37 | In the ranking example, the groups are A with 3 units and 300.00, then B with 5 units and 500.00. |
| Reports.TableRow | store/views/report.py:105-109 | A table row has three cells, and its name cell is at most 30 characters. |
| Reports.TableRowCells | store/views/report.py:105-109 | The name cell is the first 30 characters of the name (all of a shorter one). The quantity cell is digits that read back as the quantity. The revenue cell reads back as the revenue. |
| Reports.TableData | store/views/report.py:102-109 | The table data is the header followed by one `TableRow` per ranked product, in ranking order, each of three cells. |
| Reports.RenderSalesReport | store/views/report.py:81-134 | "No completed sales recorded." appears iff the count is 0. "No products sold." appears iff the ranking is empty. The table is the header plus one `TableRow` per product. The table stays above the footer. |
| Receipt.CursorInRange | store/views/checkout.py:241-245 | After every row the receipt cursor lies in [100, 780]. |
| Receipt.LayoutRows | store/views/checkout.py:234-245 | Row i is drawn at cursor i on page i, with the name cut to 30 characters, the quantity, the unit price and the line total. Every row lies in [100, 780]. |
| Receipt.FirstPageCursor | store/views/checkout.py:234-245 | The first 24 rows stay on page one, 20 points apart from 595. |
| Receipt.TotalsBaselines | store/views/checkout.py:247-268 | The totals block's seven lines descend from where it starts, ending 140 points lower. |
| Receipt.TotalsOverrunFooter | store/views/checkout.py:234-272 | As written, after 24 rows the total is drawn below the footer and the thank-you note below the page. |
| Receipt.TotalsStart | store/views/checkout.py:247-268 | The totals block stays at the cursor on the current page exactly when all seven of its baselines lie above the footer. Otherwise it starts at the top of the next page. |
| Receipt.TotalsAboveFooter | store/views/checkout.py:247-272 | With the page break, every line of the totals block lies between the footer and the top of the page. |
| Admin.Restocked | store/admin.py:18-21 | Every selected product gains exactly 10 units. Unselected products and all other fields are unchanged. |
| Admin.RestockAdds | store/admin.py:20 | Two restocks of a selection add 20 units. |
| Admin.WithStatus | store/admin.py:41-54 | Every selected order gets the new status from any prior one. Unselected orders are unchanged. |
| Admin.StatusIdempotent | store/admin.py:41-54 | A status action run twice equals one run. |
| Admin.LastStatusWins | store/admin.py:41-54 | Of two status actions on the same selection, the last decides. |
| Storefront.Store.RestockProducts | store/admin.py:18-21 | The products table becomes `Restocked`, and the reported count is the number of selected products. |
| Storefront.Store.MarkStatus | store/admin.py:41-54 | The orders table becomes `WithStatus`, and products are untouched. |
| Storefront.Store.MarkAsShipped | store/admin.py:41-44 | Selected orders become Shipped. |
| Storefront.Store.MarkAsDelivered | store/admin.py:46-49 | Selected orders become Delivered. |
| Storefront.Store.MarkAsCancelled | store/admin.py:51-54 | Selected orders become Cancelled, and no stock returns to the products. |
| Storefront.CommitLine | store/views/checkout.py:158-197 | One commit pass fails iff the in-memory product is short, and then leaves the tables alone. It never touches the sale headers. |
| Storefront.CommitLines | store/views/checkout.py:157-197 | The commit loop only appends orders and items, never removes products, and never touches the sale headers. Every item it adds hangs under the current header. |
| Storefront.OrderRows | store/views/checkout.py:161-169 | Each order the commit creates for a line priced at price × qty is Pending, with that price, the quantity, the address and the phone. |
| Storefront.ItemRows | store/views/checkout.py:184-189 | Each analytics item carries the header, the product's name, the quantity and the unit price in hundredths. |
| Storefront.CommitLinesSnoc | store/views/checkout.py:157-197 | When a prefix of the lines commits, the commit of one more line is that line's pass on the resulting tables. |
| Storefront.FailureIsFinal | store/views/checkout.py:191-197 | Once a stock update fails, the remaining lines do nothing. |
| Storefront.FailedAt | store/views/checkout.py:157-197 | A failed commit stopped at a line whose product was short. Its tables are those after committing exactly the earlier lines, so their stock reductions and orders remain. |
| Storefront.CommitNeverFails | store/views/checkout.py:99-159 | Single-threaded, a commit of lines each checked against its own product object never fails. It appends one order and one item per line. |
| Storefront.CommitStock | store/views/checkout.py:157-159 | With distinct products, each line's product ends lower by exactly its quantity. Products on no line are unchanged. |
| Storefront.CommitReportProductsStep | store/views/checkout.py:171-182 | On checked lines, the last line overwrites its product's snapshot with that product's price and post-reduction stock. |
| Storefront.CommitReportProducts | store/views/checkout.py:171-182 | The snapshot named after a product holds that product's price and post-reduction stock from the last line with that name. |
| Storefront.CommitKeepsOtherReportProducts | store/views/checkout.py:171-182 | Snapshots whose name is on no line keep their rows. |
| Storefront.FailureUndoesReportRows | store/views/checkout.py:149-192 | Deleting the header removes exactly the header and the items the commit created. |
| Storefront.ReceiptFor | store/views/checkout.py:199-272 | The receipt has one row per accepted line, and every line of its totals block lies between the footer and the top of the page. |
| Storefront.RowsFor | store/views/checkout.py:236-240 | The receipt has one row per accepted line, laid out by `RowFor`. |
| Storefront.CheckoutView | store/views/checkout.py:20-78 | `get` sends an empty cart, and only an empty cart, back to the cart. It shows the stock error exactly when the cart is non-empty and some entry is short. How it relates to `post` is `Storefront.GetAgreesWithPost`. |
| Storefront.PostGuard | store/views/checkout.py:84-146 | The guards run in order. The empty-cart redirect fires exactly when the cart is empty. The stock error fires exactly when the cart is non-empty and some entry is short. When the commit runs is `Storefront.GuardsPass`. |
| Storefront.GuardsPass | store/views/checkout.py:84-146 | `post` commits iff all of these hold: the cart is non-empty, no entry is short, a known customer with a truthy id is in the session, and both fields are given. |
| Storefront.GetAgreesWithPost | store/views/checkout.py:20-78 | `get` and `post` agree on the empty-cart and shortage outcomes. Where `get` shows a known customer's page, `post` either commits or asks for the delivery fields. Where `get` shows a guest page, `post` redirects to login. |
| Storefront.Store.CommitStep | store/views/checkout.py:158-190 | One pass writes exactly what `CommitLine` describes and keeps the store's invariant. |
| Storefront.Store.CommitEach | store/views/checkout.py:157-197 | The loop leaves the tables `CommitLines` describes and returns the failing product's name exactly when that commit fails. |
| Storefront.Store.CommitCart | store/views/checkout.py:149-197 | The loop creates the header, then equals `CommitLines`. On a failure it deletes the header with its items and returns the product's name. |
| Storefront.Store.CheckoutGet | store/views/checkout.py:20-78 | The page is `CheckoutView`. No table changes. An unknown customer is dropped from the session. |
| Storefront.Store.IssueReceipt | store/views/checkout.py:199-272 | The receipt is `ReceiptFor`: one row per line, as the loop lays them out. The totals block uses the corrected placement `Receipt.TotalsStart`, so every totals line lies between the footer and the top of the page. See "## Findings" and "## Left out". |
| Storefront.Store.PlaceOrder | store/views/checkout.py:149-286 | Past the guards, the commit is `CommitLines`. A finished commit clears the cart and issues `ReceiptFor`. A failed one deletes the header and keeps the cart. |
| Storefront.Store.CheckoutPost | store/views/checkout.py:80-286 | A firing guard changes no table and answers as `PostGuard` says, dropping an unknown customer. Past the guards the commit is `CommitLines`. Only a finished commit clears the cart and issues the receipt. A failed one deletes the header and keeps the cart. |
| Storefront.PricedChecked | store/views/checkout.py:99-106 | Every accepted line asks for no more than its product's stock. |
| Storefront.CommittedEntryStock | store/views/checkout.py:157-159 | After committing a dict-shaped cart's accepted lines, an in-stock entry's product is lower by exactly the entry's quantity. |
| Storefront.CommittedOtherStock | store/views/checkout.py:157-159 | After that commit, a product on no cart entry keeps its row. |
| Storefront.CheckoutCommits | store/views/checkout.py:96-197 | From a dict-shaped cart the commit always finishes. Every accepted product's stock drops by exactly its quantity, products outside the cart keep their rows, and one order and one item are added per accepted line under the single new header. |

## Findings

| source | as written | input that shows it | evidently intended | confidence | as-written member | corrected member |
|---|---|---|---|---|---|---|
| store/views/checkout.py:247-268 | The totals block is drawn straight below the last item row, with no page-break check. The item loop keeps the cursor only above 100, while the block needs 140 points. | A cart of 24 accepted lines: the cursor ends at 115, "Total:" lands at 15 (below the footer at 30) and the thank-you note at -25, off the page. | Break the page before the totals block when it does not fit above the footer. | high (not executed) | Receipt.TotalsOverrunFooter | Receipt.TotalsAboveFooter |

`Storefront.ReceiptFor` and `Storefront.Store.IssueReceipt` place the totals block with `Receipt.TotalsStart`, the corrected placement.

## Left out

- Concurrency. `reduce_stock` is a read-modify-write of the in-memory object followed by `save()`, and two overlapping checkouts can lose an update. The model runs one request at a time, so the stale-object commit cannot fail (`Storefront.CommitNeverFails`).
- HTTP, templates, redirects and session persistence. Responses are the `Outcome` datatype, and the session is a map from key to cart.
- The Django ORM (`filter`, `get_or_create`, `aggregate`, `annotate`). Tables are maps and sequences. Report products are keyed by name, so several rows with the same name (which `get_or_create` would reject) are not modelled.
- Product images and the `image` field of the analytics product. The checkout writes `ReportOrder.customer` as `None`, which the model writes too.
- Floating point. The discount is exact in hundredths, and no float rounding is modelled.
- reportlab drawing, fonts, the PDF bytes and the on-screen report's template. Only the row contents, the empty-state notes and the cursor arithmetic are modelled.
- Clocks (`datetime.now`, `timezone.now`, `auto_now_add`) and therefore the receipt date and the default order of the orders table (newest first).
- Logging.
- Column widths. `IntegerField` and `PositiveIntegerField` are 32-bit in the database, so a restock's +10 or a large quantity can overflow there. `DecimalField(max_digits=10, decimal_places=2)` bounds `ReportOrder.total` and the report prices. The model uses unbounded integers throughout.
- Reports.Insert: ties in quantity keep the order in which the names first appear. `order_by('-total_quantity')[:5]` leaves tied rows in an order the database chooses, so which of several names tied for fifth place make the top five is fixed by the model but not by the source.
- Non-numeric cart keys and product values. Ids are naturals, so `int(pid)` failures and keys like `"007"` are not modelled.
- Carts.Session.IndexToggle: the product value is always given. A missing value would store an entry under `None`.
- Reports.RenderSalesReport: requires at most five ranking entries. `Reports.Summarize` guarantees this, and `Reports.SalesReportPdfView` meets the requirement through that contract.
- Storefront.ReceiptFor: places the totals block with the corrected `Receipt.TotalsStart`, not straight below the last row as store/views/checkout.py:247-268 does. The as-written placement is modelled in `Receipt.TotalsOverrunFooter` (see "## Findings").
- Storefront.Store.IssueReceipt: the receipt it issues uses the corrected totals placement of `Storefront.ReceiptFor`. For carts whose rows end at or below 170 points, the source would draw the totals over or below the footer instead.
- Storefront.Store.PlaceOrder: the receipt it issues uses the corrected totals placement. Everything else (the commit, the failure page, clearing the cart) follows the source.
- Storefront.Store.CheckoutPost: the receipt it issues uses the corrected totals placement. The guards, the commit and clearing the cart follow the source.
- Customers beyond their names. Signup, login, profile, contacts and routing are not part of this model.
