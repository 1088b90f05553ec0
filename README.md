# Javas Nursery dashboard — a verified model of its business logic

This project models the business logic of the Javas Nursery point-of-sale dashboard, a Next.js app that talks to a Supabase backend. It covers:

- **Kasir** (cashier): a cart capped by stock, with a reseller or standard price mode, a fixed (`rp`) or percentage (`%`) discount and a grand total floored at zero. Checkout writes a sale, one sale line per cart line and the product stock.
- **Invoice** (wholesale): a second cart with no stock cap. Issuing an invoice records its items and sets each product's stock. Invoices can be marked paid (`lunas`), selected, and bulk-deleted; bulk deletion puts every item's quantity back into stock.
- **Stok** (stock): bulk import of products from CSV text, the downloadable CSV template, and the product search.
- **Pengeluaran** (expenses): the month's total, the totals per category, the largest category, the remaining budget and the expense filter.
- **Laporan** (report): total income, number of transactions and average order.
- **Dashboard**: today's sales and transaction count, total stock, and the low-stock list.

The backend tables are held in memory by the `Store.Database` class:

- a map from product id to stock;
- the `transactions` and `transaction_items` rows as sequences;
- the `invoices` rows, with their `invoice_items`, as a map.

Each page whose source updates state in place is a class whose methods change its fields and the database. Each method is proved against specification functions, and lemmas prove what the page promises about those functions. The derived figures (totals, filters, reports) are functions.

Modules, in dependency order:

- `Seqs`: `Option`, `Result`, the `Sum`/`SumReal` folds, `Filter`.
- `Text`: white-space trimming, ASCII lower-casing, `includes`, and `split`/`join` on one character.
- `Catalog`: product rows, cart lines, and the cart operations and stock writes both carts share.
- `Store`: the in-memory tables.
- `Kasir`, `Invoicing`, `Stok`, `Pengeluaran`, `Laporan`, `Dashboard`: one per page.

Money is modelled with integers: prices, quantities, subtotals, stock and expense amounts. The discount value and the cash amount the cashier types are reals, since the page reads them with `Number` and accepts fractions. So are the discount amount, grand total, change, `total_price` of a sale and the report's average.

## Model

| member | source | states |
|---|---|---|
| Catalog.Find | src/app/dashboard/kasir/page.tsx:45 | `cart.find` returns a line of the cart with that id, and returns nothing exactly when no line has the id |
| Catalog.FindDistinct | src/app/dashboard/kasir/page.tsx:45 | with one line per product, `find` returns exactly the line holding the id |
| Catalog.SetQty | src/app/dashboard/kasir/page.tsx:58 | `cart.map` with the new qty: the same number of lines, each for the same product, and every line of another product unchanged |
| Catalog.RemoveLine | src/app/dashboard/kasir/page.tsx:229 | `cart.filter(i => i.id !== id)`: no line of that product is left, and the lines kept are exactly the other products' lines |
| Catalog.WriteStock | src/app/dashboard/kasir/page.tsx:101 | one stock update keeps the set of products and gives the named product the new value when it exists |
| Catalog.StockWrites | src/app/dashboard/kasir/page.tsx:93-102 | the per-line stock writes keep the set of products; an unknown id changes nothing |
| Catalog.StockWritesElsewhere | src/app/dashboard/kasir/page.tsx:93-102 | a product with no line in the cart keeps its stock |
| Catalog.StockWritesAt | src/app/dashboard/kasir/page.tsx:101 | with distinct products, each product on a line ends at its snapshot stock minus the line's quantity |
| Store.Database.SetStock | src/app/dashboard/kasir/page.tsx:101 | `update({stock}).eq('id', id)` sets that product's stock, and matches no row when the id is missing |
| Store.Database.GetStock | src/app/dashboard/invoice/page.tsx:95 | the product's stock, or nothing when the product does not exist |
| Store.Database.InsertSale | src/app/dashboard/kasir/page.tsx:81-88 | appends one `transactions` row and returns its fresh id |
| Store.Database.InsertInvoice | src/app/dashboard/invoice/page.tsx:50-60 | adds the invoice under an id not used before and keeps ids increasing |
| Store.Database.InvoiceLines | src/app/dashboard/invoice/page.tsx:92 | the invoice's items, or none when it does not exist |
| Store.Database.DeleteInvoice | src/app/dashboard/invoice/page.tsx:99 | removes exactly that invoice |
| Kasir.CartAfterUpdate | src/app/dashboard/kasir/page.tsx:54-59 | `updateQty` never adds or removes a line and never changes which product a line holds; only quantities can change |
| Kasir.CartAfterAdd | src/app/dashboard/kasir/page.tsx:44-52 | `addToCart` keeps the number of lines when the product is already in the cart, and otherwise appends one line of qty 1 |
| Kasir.UpdateQtyEffect | src/app/dashboard/kasir/page.tsx:54-59 | `updateQty` changes only the matching line's qty, to newQty when 1 <= newQty <= its stock, and otherwise changes nothing; a value below 1 does not remove the line |
| Kasir.AddNewProduct | src/app/dashboard/kasir/page.tsx:44-50 | adding a product not in the cart appends exactly one line with qty 1 |
| Kasir.AddExistingProduct | src/app/dashboard/kasir/page.tsx:45-48 | adding a product already in the cart raises its qty by 1 when the stock allows, and otherwise leaves the cart unchanged; other lines never change |
| Kasir.UpdateChangesCart | src/app/dashboard/kasir/page.tsx:54-59 | an applied update to a line's quantity, with a new value, changes the cart |
| Kasir.UpdateKeepsCartOk | src/app/dashboard/kasir/page.tsx:55-57 | `updateQty` keeps every line at 1 <= qty <= stock with one line per product |
| Kasir.AddKeepsCartOk | src/app/dashboard/kasir/page.tsx:47 | `addToCart` keeps the same invariant for any product the page lists, all of which have stock above zero |
| Kasir.RemoveKeepsCartOk | src/app/dashboard/kasir/page.tsx:229 | deleting a line keeps the invariant and leaves no line of that product |
| Kasir.RemoveUndoesAdd | src/app/dashboard/kasir/page.tsx:50 | deleting a newly added product's line gives back the previous cart |
| Kasir.Subtotal | src/app/dashboard/kasir/page.tsx:61-66 | `calculateSubtotal`: the sum over the lines of unit price × qty, the unit price being the reseller or standard price and an unset price counting as 0 |
| Kasir.DiscountAmount | src/app/dashboard/kasir/page.tsx:68-70 | `discountAmount`: subtotal × value / 100 for '%', the value itself for 'rp'; the value is any number the cashier typed, fractions included |
| Kasir.SubtotalAppend | src/app/dashboard/kasir/page.tsx:61-66 | the subtotal is additive over the cart's lines |
| Kasir.SubtotalNonNegative | src/app/dashboard/kasir/page.tsx:61-66 | with prices and quantities that are not negative, the subtotal is not negative |
| Kasir.GrandTotal | src/app/dashboard/kasir/page.tsx:72 | the grand total is never negative; it is either 0 or subtotal − discount, and never below subtotal − discount |
| Kasir.GrandTotalDiscount | src/app/dashboard/kasir/page.tsx:68-72 | for any typed discount value, fractional ones included: a zero discount of either kind leaves the grand total equal to the subtotal, and a '%' value in [0, 100] or an 'rp' value in [0, subtotal] is subtracted in full |
| Kasir.ChangeAmount | src/app/dashboard/kasir/page.tsx:73 | `changeAmount`: cash − grand total when cash was entered, else 0 |
| Kasir.CashReceived | src/app/dashboard/kasir/page.tsx:85 | `cashAmount \|\| grandTotal`: the cash entered, or the grand total when none was |
| Kasir.Rejection | src/app/dashboard/kasir/page.tsx:76-77 | a checkout goes ahead exactly when the cart is not empty and, for cash payment, the cash covers the grand total; otherwise the first failing check names the alert |
| Kasir.AcceptedCashCheckout | src/app/dashboard/kasir/page.tsx:73-85 | an accepted cash checkout has a non-empty cart, change = cash − grand total >= 0, and records the cash entered as cash received |
| Kasir.SaleLinesAddUp | src/app/dashboard/kasir/page.tsx:93-100 | the recorded sale lines' subtotals add up to the cart's subtotal |
| Kasir.CheckoutStock | src/app/dashboard/kasir/page.tsx:93-102 | after checkout of a valid cart, each line's product holds snapshot stock − qty, which is never negative; other products are unchanged |
| Kasir.CheckoutScenario | src/app/dashboard/kasir/page.tsx:61-73 | 55000 × 2 with a 10% discount gives subtotal 110000, discount 11000 and grand total 99000; 100000 in cash gives 1000 change |
| Kasir.RecordSaleLines | src/app/dashboard/kasir/page.tsx:93-102 | the checkout loop appends one sale line per cart line and performs the stock writes of `StockWrites` |
| Kasir.KasirPage.constructor | src/app/dashboard/kasir/page.tsx:20-30 | the page starts with an empty cart, standard price, an `rp` discount of 0, cash payment and no cash |
| Kasir.KasirPage.UpdateQty | src/app/dashboard/kasir/page.tsx:54-59 | the cart becomes the specified update, the invariant holds, and the outcome says whether it was ignored, refused for stock, or applied |
| Kasir.KasirPage.AddToCart | src/app/dashboard/kasir/page.tsx:38-52 | for a product the page lists (stock above zero, or already in the cart) the cart becomes the specified add and keeps the invariant; it is refused (cart unchanged) exactly when the stock does not allow one more |
| Kasir.KasirPage.DeleteLine | src/app/dashboard/kasir/page.tsx:229 | the cart loses exactly that product's line and keeps the invariant |
| Kasir.KasirPage.Checkout | src/app/dashboard/kasir/page.tsx:75-118 | with any typed discount and cash amount, fractions included: an empty cart or too little cash is refused with nothing written; otherwise the sale, its lines and the stock writes are recorded, the receipt is returned, and the cart, discount and cash are cleared |
| Invoicing.CartAfterUpdate | src/app/dashboard/invoice/page.tsx:38-41 | `updateQty` never adds or removes a line and never changes which product a line holds |
| Invoicing.CartAfterAdd | src/app/dashboard/invoice/page.tsx:32-36 | `addToCart` keeps the number of lines when the product is already in the cart, and otherwise appends one line of qty 1 |
| Invoicing.UpdateQtyEffect | src/app/dashboard/invoice/page.tsx:38-41 | a value below 1 is ignored; otherwise only the matching line takes the new qty, with no stock cap |
| Invoicing.AddToCartEffect | src/app/dashboard/invoice/page.tsx:32-36 | a new product is appended with qty 1; a product in the cart gets qty + 1 with no stock check; other lines never change |
| Invoicing.CartOpsKeepInvariant | src/app/dashboard/invoice/page.tsx:32-41 | both cart operations keep one line per product with qty >= 1 |
| Invoicing.InvoiceTotal | src/app/dashboard/invoice/page.tsx:43 | `calculateTotal`: the sum over the lines of standard price × qty, an unset price counting as 0 |
| Invoicing.IssueLinesAddUp | src/app/dashboard/invoice/page.tsx:43-71 | the recorded items' subtotals add up to the invoice total |
| Invoicing.IssueCanDriveStockNegative | src/app/dashboard/invoice/page.tsx:73 | an invoice for 5 of a product with stock 3 leaves stock −2 |
| Invoicing.Restock | src/app/dashboard/invoice/page.tsx:94-97 | restocking keeps the set of products |
| Invoicing.RestockElsewhere | src/app/dashboard/invoice/page.tsx:94-97 | a product with no item on the invoice keeps its stock |
| Invoicing.RestockAt | src/app/dashboard/invoice/page.tsx:95-96 | with distinct products, each item's product gains exactly the item's quantity |
| Invoicing.IssueLinesDistinct | src/app/dashboard/invoice/page.tsx:64-72 | the issued items name the cart's products, one each |
| Invoicing.IssueThenRestockAt | src/app/dashboard/invoice/page.tsx:64-97 | a product on the invoice gets back the stock it had before the invoice was issued |
| Invoicing.IssueThenRestock | src/app/dashboard/invoice/page.tsx:64-97 | restocking an issued invoice's items restores every product's stock, given each line's snapshot stock was current at issue |
| Invoicing.AfterDelete | src/app/dashboard/invoice/page.tsx:91-100 | bulk deletion keeps the set of products and removes exactly the selected invoices |
| Invoicing.IssueThenDelete | src/app/dashboard/invoice/page.tsx:64-100 | issuing an invoice and then bulk-deleting it restores both the stock table and the invoice table |
| Invoicing.Toggle | src/app/dashboard/invoice/page.tsx:104-106 | `toggleSelect`: afterwards the id is selected exactly when it was not before |
| Invoicing.ToggleEffect | src/app/dashboard/invoice/page.tsx:104-106 | toggling flips exactly that id's membership and never creates duplicates |
| Invoicing.ToggleTwice | src/app/dashboard/invoice/page.tsx:104-106 | toggling twice restores the selected ids, and the exact sequence when the id was not selected |
| Invoicing.SelectAll | src/app/dashboard/invoice/page.tsx:205 | the header checkbox selects exactly the listed invoices, and clearing it selects none |
| Invoicing.MarkPaid | src/app/dashboard/invoice/page.tsx:80-81 | the invoice's status becomes `lunas`; every other invoice is unchanged |
| Invoicing.MarkPaidIdempotent | src/app/dashboard/invoice/page.tsx:80-81 | marking paid twice is marking paid once, and it never changes an invoice's items |
| Invoicing.NewestFirst | src/app/dashboard/invoice/page.tsx:24 | the invoice list holds each existing invoice exactly once |
| Invoicing.WriteInvoiceLines | src/app/dashboard/invoice/page.tsx:64-74 | the save loop appends the issued items to the invoice and performs the stock writes of `StockWrites` |
| Invoicing.RestockLines | src/app/dashboard/invoice/page.tsx:94-97 | the inner delete loop performs exactly the writes of `Restock` |
| Invoicing.InvoicePage.constructor | src/app/dashboard/invoice/page.tsx:6-20 | the page starts with an empty cart and selection, a pending status and empty form fields |
| Invoicing.InvoicePage.UpdateQty | src/app/dashboard/invoice/page.tsx:38-41 | the cart becomes the specified update and keeps its invariant |
| Invoicing.InvoicePage.AddToCart | src/app/dashboard/invoice/page.tsx:32-36 | the cart becomes the specified add and keeps its invariant |
| Invoicing.InvoicePage.SaveInvoice | src/app/dashboard/invoice/page.tsx:46-77 | a missing name or an empty cart is refused with nothing written; otherwise the invoice with its total, status, due date and items is stored under a fresh id, the stock is written, and the cart is cleared |
| Invoicing.InvoicePage.MarkAsLunas | src/app/dashboard/invoice/page.tsx:80-84 | the invoice table becomes `MarkPaid` of the old one and the list is refreshed |
| Invoicing.InvoicePage.ToggleSelect | src/app/dashboard/invoice/page.tsx:104-106 | the selection becomes `Toggle` of the old one and stays free of duplicates |
| Invoicing.InvoicePage.SelectAllListed | src/app/dashboard/invoice/page.tsx:205 | the selection becomes every listed invoice or none |
| Invoicing.InvoicePage.BulkDelete | src/app/dashboard/invoice/page.tsx:87-102 | an empty selection or a declined confirmation writes nothing; otherwise stock and invoices become `AfterDelete` of the selection, and the selection is cleared |
| Invoicing.IssueThenDeleteSession | src/app/dashboard/invoice/page.tsx:46-106 | saving an invoice, selecting it and bulk-deleting it leaves the stock and invoice tables as they were |
| Text.Trim | src/app/dashboard/stok/page.tsx:56 | `trim()`: white space removed from both ends, over the ECMAScript white-space set |
| Text.Split | src/app/dashboard/stok/page.tsx:55-57 | `split` on one character: always at least one piece |
| Text.Lower | src/app/dashboard/stok/page.tsx:130-134 | `toLowerCase`: the same length, ASCII letters lower-cased |
| Text.Contains | src/app/dashboard/stok/page.tsx:130-134 | `includes`: the needle occurs at some position of the text |
| Text.TrimEmptyIffBlank | src/app/dashboard/stok/page.tsx:56 | `row.trim() === ''` exactly when the row is all white space |
| Text.SplitPiecesAvoidSep | src/app/dashboard/stok/page.tsx:55-57 | no piece of a split holds the separator |
| Text.SplitConcat | src/app/dashboard/stok/page.tsx:55 | splitting two texts joined by the separator splits each on its own |
| Text.SplitJoin | src/app/dashboard/stok/page.tsx:57 | splitting pieces joined by the separator gives the pieces back, when no piece holds the separator |
| Text.JoinSplit | src/app/dashboard/stok/page.tsx:57 | joining the pieces of a split gives the text back |
| Text.ContainsLower | src/app/dashboard/stok/page.tsx:130-134 | a match in the original text is still a match after lower-casing both texts |
| Stok.NumberOf | src/app/dashboard/stok/page.tsx:61-64 | `Number` of a cell: trimmed; blank reads 0, an optionally signed run of digits reads its value, anything else NaN |
| Stok.ParseRow | src/app/dashboard/stok/page.tsx:57-66 | a line split on commas, its first seven cells taken in the order sku, name, category_id, cost_price, price, reseller_price, stock, the numbers read with `Number` |
| Stok.ParseCsv | src/app/dashboard/stok/page.tsx:55-66 | the text split into lines, the first dropped, blank lines skipped, each other line read as one product |
| Stok.NumberOfShow | src/app/dashboard/stok/page.tsx:61-64 | `Number` reads a written integer back as that integer |
| Stok.NumberEdgeCases | src/app/dashboard/stok/page.tsx:61-64 | a blank cell reads as 0; a missing cell, `Rp10` and `-` read as NaN; white space and a trailing carriage return are ignored |
| Stok.HeaderDiscarded | src/app/dashboard/stok/page.tsx:55 | the first line never becomes a product, whatever it says |
| Stok.HeaderOnly | src/app/dashboard/stok/page.tsx:55 | a text with only a header imports nothing |
| Stok.ParseCsvAppendLine | src/app/dashboard/stok/page.tsx:55-72 | each later line gives one product, in order, and a blank line gives none, so the reported count is the number of non-blank lines |
| Stok.ExtraCellsIgnored | src/app/dashboard/stok/page.tsx:57 | cells after the seventh are ignored |
| Stok.ShortRow | src/app/dashboard/stok/page.tsx:57-66 | a line with three cells or fewer gives NaN numbers and undefined missing cells, rather than being rejected |
| Stok.FormatRowRoundTrip | src/app/dashboard/stok/page.tsx:57-66 | a product written as a template line reads back as itself |
| Stok.CsvRoundTrip | src/app/dashboard/stok/page.tsx:35-66 | a CSV text in the template's layout imports back its products, in order |
| Stok.TemplateIsCsvText | src/app/dashboard/stok/page.tsx:36-37 | the downloaded template is the CSV text of its one example product |
| Stok.TemplateImport | src/app/dashboard/stok/page.tsx:35-66 | importing the template unchanged adds exactly AGL-001, Aglonema Suksom, ISI_ID_KATEGORI_DISINI, 35000, 55000, 50000, 10 |
| Stok.FilteredProducts | src/app/dashboard/stok/page.tsx:130-134 | a product is shown iff its lower-cased name, category name or SKU includes the lower-cased search text |
| Stok.EmptySearchKeepsAll | src/app/dashboard/stok/page.tsx:130-134 | an empty search shows every product in its original order |
| Stok.SearchIgnoresCase | src/app/dashboard/stok/page.tsx:130-134 | a product whose name, category or SKU includes the typed text is shown, however the text is cased |
| Stok.SearchNarrows | src/app/dashboard/stok/page.tsx:130-134 | typing more characters never brings a product back |
| Pengeluaran.MonthlyTotal | src/app/dashboard/pengeluaran/page.tsx:44-49 | `totalBulanIni`: the sum of the amounts of the expenses dated in the given month and year |
| Pengeluaran.MonthlyTotalAppend | src/app/dashboard/pengeluaran/page.tsx:44-49 | one more expense adds its amount to the month's total when it falls in the month, and nothing otherwise |
| Pengeluaran.OtherMonthsIgnored | src/app/dashboard/pengeluaran/page.tsx:44-49 | expenses from other months contribute nothing |
| Pengeluaran.RemainingBudget | src/app/dashboard/pengeluaran/page.tsx:58 | `sisaAnggaran`: the 20,000,000 budget minus the month's total, not floored at zero |
| Pengeluaran.RemainingCanBeNegative | src/app/dashboard/pengeluaran/page.tsx:58 | 25 million spent in the month leaves a remaining budget of −5 million |
| Pengeluaran.RemainingAfterExpense | src/app/dashboard/pengeluaran/page.tsx:58 | an expense in the month lowers the remaining budget by its amount |
| Pengeluaran.Totals | src/app/dashboard/pengeluaran/page.tsx:52-55 | `categoryTotals`: each category mapped to its running sum, one expense after another |
| Pengeluaran.Keys | src/app/dashboard/pengeluaran/page.tsx:52-55 | `Object.keys(categoryTotals)`: each category once, in the order it was first met |
| Pengeluaran.KeysAreCategories | src/app/dashboard/pengeluaran/page.tsx:52-55 | the keys of `categoryTotals` are exactly the categories present, each once |
| Pengeluaran.TotalIsCategorySum | src/app/dashboard/pengeluaran/page.tsx:52-55 | each category's total is the sum of its own expenses' amounts |
| Pengeluaran.TotalsAddUp | src/app/dashboard/pengeluaran/page.tsx:52-55 | the category totals add up to the sum of all amounts |
| Pengeluaran.CategoryTotals | src/app/dashboard/pengeluaran/page.tsx:52-55 | the accumulating loop yields exactly the totals and the keys in insertion order |
| Pengeluaran.LargestInvariant | src/app/dashboard/pengeluaran/page.tsx:56 | during the `reduce`, the running answer is the starting value while it beats every key, and otherwise the last key with the greatest total |
| Pengeluaran.LargestCategory | src/app/dashboard/pengeluaran/page.tsx:56 | `kategoriTerbesar`: the `reduce` over the keys with strict `>` starting from 'Belum Ada' |
| Pengeluaran.LargestCategoryIsLastMaximal | src/app/dashboard/pengeluaran/page.tsx:56 | the largest category is 'Belum Ada' with no expenses, and otherwise the category with the greatest total, the later one on a tie |
| Pengeluaran.TieGoesToLater | src/app/dashboard/pengeluaran/page.tsx:56 | two categories of 50000 each: the one met later wins |
| Pengeluaran.FilteredData | src/app/dashboard/pengeluaran/page.tsx:82-85 | an expense is shown iff its description includes the search text ignoring case and the category filter is empty or equal |
| Pengeluaran.NoFilterShowsAll | src/app/dashboard/pengeluaran/page.tsx:82-85 | no search and no category filter show every expense, in order |
| Pengeluaran.SearchFindsDescription | src/app/dashboard/pengeluaran/page.tsx:82-85 | an expense whose description includes the search text, of the filtered category, is shown |
| Pengeluaran.CategoryFilterExcludes | src/app/dashboard/pengeluaran/page.tsx:84 | a category filter never shows another category's expense |
| Laporan.StatsOf | src/app/dashboard/laporan/page.tsx:32-34 | income is the sum of total prices and the count is the number of rows; with rows, average × count = income; without rows, the average and income are 0 |
| Laporan.ShownIsLastData | src/app/dashboard/laporan/page.tsx:14-41 | starting from the zero figures, after any sequence of fetches the figures shown are those of the latest fetch that returned rows (still zero when none did), so the average times the count is always the income |
| Laporan.StatsAfterSale | src/app/dashboard/laporan/page.tsx:32-33 | one more sale raises income by its total and the count by one |
| Laporan.AverageBetween | src/app/dashboard/laporan/page.tsx:34 | the average order lies between the smallest and the largest order |
| Dashboard.TodaySales | src/app/dashboard/page.tsx:24 | `salesSum`: the sum of today's total prices, 0 without data |
| Dashboard.StatsOf | src/app/dashboard/page.tsx:36-41 | the four figures: today's sales, today's row count, the stock sum and the low-stock count, each 0 without data |
| Dashboard.TodayRows | src/app/dashboard/page.tsx:17-21 | today's query returns exactly the rows created at or after the start of today |
| Dashboard.LowStock | src/app/dashboard/page.tsx:28 | the low-stock list is exactly the products with stock <= 5, none without data, and no longer than the product list |
| Dashboard.NoDataShowsZeros | src/app/dashboard/page.tsx:17-42 | queries returning no data show zero sales, transactions, stock and low-stock count |
| Dashboard.StatsBounds | src/app/dashboard/page.tsx:26-42 | the transaction count is the number of today's rows, the low-stock count is at most the number of products, and with stocks that are not negative the total stock is not negative |
| Dashboard.LowStockSplits | src/app/dashboard/page.tsx:28 | the low-stock products and the others split the product list between them |
| Dashboard.SaleRecordedToday | src/app/dashboard/page.tsx:17-39 | a sale made today raises today's sales by its total and the count by one; an earlier sale changes neither |

## Left out

- Backend failures: every Supabase request succeeds. The pages' error branches are not modelled, and neither are the loops' ignored per-item write errors.
- Concurrency: two cashier sessions writing the same product, or any other write between issuing and deleting an invoice. `Invoicing.IssueThenDelete` states its result under the assumption that nothing else wrote in between.
- Backend schema: deleting an invoice is taken to delete its `invoice_items` too. The schema is not part of this model.
- Clock and time zone: the current month and year and the start of today are parameters. Expense dates are given as year, month and day. Converting date strings with `new Date`, and time-zone shifts, are not modelled.
- Product search: the stored search text, the `categories(name)` join and the product list order come from the backend and from React state.
- The cashier page's own product search (src/app/dashboard/kasir/page.tsx:175) is not part of this model.
- Stok.NumberOf: reads an optionally signed run of decimal digits, white space and the empty string as `Number` does. Decimal fractions, exponents, hexadecimal or binary literals and `Infinity` read as NaN here, although `Number` accepts them.
- Text.Lower: lower-cases ASCII letters only; `toLowerCase` also folds other Unicode letters.
- Pengeluaran.Keys: keys are in first-appearance order. JavaScript lists integer-like keys (such as a category named "2024") first, in numeric order.
- Amounts are exact integers and reals: there is no floating-point rounding and no NaN propagation in sums.
- The WhatsApp receipt, printing, image upload and compression, login, the category and settings pages, the sidebar, layouts and all rendering are outside this model.
- Invoicing.NewestFirst: orders invoices by id, which the model hands out in increasing order; the page orders by `created_at` descending.
