# Mainven inventory ledger, modelled in Dafny

Mainven is an iOS inventory tracker built on Core Data. Its accounting core keeps three ledger attributes per product:

- its stock quantity;
- its weighted-average cost price;
- its stock value, which should always equal cost × quantity.

These attributes change through purchase and sale transactions. When a transaction is edited, the old lines' effect is reverted, the old lines are deleted, and the new lines are applied and recorded. Several screens derive figures from that state:

- the dashboard's inventory snapshot;
- daily quantity, revenue and profit;
- the month's top-selling products;
- per-transaction card totals.

This project models that core and proves properties of it.

## Structure

- `Model`: the entities. There is one consistent record per entity: `Product`, `PurchaseItem`, `SaleItem`, `PurchaseTransaction` and `SaleTransaction`, plus the form data `SaleItemData`.
  - A product reference is an `Option<ObjectId>`. It *resolves* when it names a live product, so a reference to a deleted product reads as nil.
  - A date is abstracted to its day and month keys.
- `Store.Context`: the managed-object context shared by every service and view. It holds maps of products, purchases and sales, and a counter that supplies fresh identities and fresh `UUID()`s.
- `Ledger`: the effect of one line on one product, as pure functions.
  - `updateProductCost` (apply a purchase), the purchase revert, and the sale's stock change and its revert.
  - The same steps lifted to the product table and folded over a list of lines.
  - The algebra these satisfy:
    - the invariant stock value = cost × quantity after every step;
    - apply/revert round trips;
    - per-product totals over a list of lines;
    - what an edit restores.
- `Transactions.TransactionService`: `savePurchaseTransaction`, `saveSalesTransaction` and their private helpers, as methods that update the context in place. Each loop over lines is one method, with a step method for a single pass.
- `TransactionCardViews`, `SalesFigures`, `HomeTab`, `TopSalesProductsView` and `Dashboard.DashboardViewModel`: the read-only figures.
  - `reduce` chains are functions.
  - Loops with accumulators (the daily revenue and cost, the top-sellers dictionary and its sort) are methods proved against those functions.
- `Products.ProductService`, `ProductsTab` and `SalesTransactionView`: the product form saves, swipe-to-delete, and the add-sale sheet.

Costs, prices and values are exact reals. Quantities are unbounded integers.

### Behaviour of the code a reader may not expect

- Both product saves (`Mainven/Services/ProductService.swift:28-32` and `Mainven/ProductsTab.swift:176-180`) write the entered cost and quantity directly and set the stock value from them. No ledger step runs, so the weighted average is overwritten.
- `deleteSalesTransactions` (`Mainven/SalesTransactionView.swift:40-42`) deletes the sales without giving their stock back. The edit path does revert a sale's quantities first (`Mainven/Services/TransactionService.swift:127-136`).
- `customSalePrice` is handled differently in three places:
  - `addNewSaleItems` (`Mainven/Services/TransactionService.swift:153-159`) records the caller's custom price, which may be unset, next to a snapshot of the product's minimum sale price.
  - The card's `totalSalesValue` and the daily revenue charge the custom price, or the minimum price when it is unset.
  - The card's `profit` (`Mainven/TransactionCardViews.swift:67-74`) uses the custom price alone. The model reads an unset custom price as 0 there, Core Data's default for the attribute.
- The sales sheet (`Mainven/SalesTransactionView.swift:129-134`) records the product's `salePrice` and sets neither a custom nor a minimum price. The model records them as unset and 0.
- The entity declarations do not match the code that uses them. `SaleItem` declares no `minimumSalePrice`, `Product` declares no `salePrice`, and one declaration makes `customSalePrice` non-optional. The form struct `SaleItemData` (`Mainven/SalesTransactionView.swift:146-150`) declares only an id, a product and a quantity, yet `addNewSaleItems` reads its `customSalePrice` (`Mainven/Services/TransactionService.swift:157`). The model gives each entity and `SaleItemData` every attribute the code reads and writes, with `customSalePrice` optional.

## Model

| member | source | states |
|---|---|---|
| Ledger.ApplyPurchase | Mainven/Services/TransactionService.swift:83-97 | quantity grows by exactly the line's quantity; from zero stock the cost becomes the unit cost, otherwise cost × new quantity equals old cost × old quantity plus quantity × unit cost (the weighted average); the result satisfies value = cost × quantity; on a consistent product the value grows by exactly quantity × unit cost; only the ledger attributes change |
| Ledger.RevertPurchase | Mainven/Services/TransactionService.swift:42-53 | quantity drops by the line's quantity; reaching zero stock sets the cost to 0; otherwise the value is the old total less the line's total; the result satisfies value = cost × quantity; only the ledger attributes change |
| Ledger.ApplySale | Mainven/Services/TransactionService.swift:148-151 | quantity drops by the line's quantity, the cost is untouched, value is recomputed as cost × quantity, nothing else changes |
| Ledger.RevertSale | Mainven/Services/TransactionService.swift:130-132 | quantity grows by the line's quantity, the cost is untouched, value is recomputed, nothing else changes |
| Ledger.PurchaseRoundTrip | Mainven/Services/TransactionService.swift:45-53 | reverting a purchase right after applying it restores quantity and value; the cost comes back when the product held stock and is 0 when it did not |
| Ledger.SaleRoundTrip | Mainven/Services/TransactionService.swift:127-151 | on a consistent product, sale then revert, and revert then sale, are both the identity |
| Ledger.LedgerScenario | Mainven/Services/TransactionService.swift:83-97 | 10 units at 100 then 10 at 200 give cost 150, 20 units, value 3000; selling 5 leaves cost 150, 15 units, value 2250 |
| Ledger.ApplyPurchaseLine | Mainven/Services/TransactionService.swift:68-71 | one pass of the purchase loop keeps the set of products |
| Ledger.ApplyPurchases | Mainven/Services/TransactionService.swift:67-81 | applying purchase lines changes only ledger attributes and keeps every product consistent |
| Ledger.RevertPurchases | Mainven/Services/TransactionService.swift:39-57 | reverting purchase lines changes only ledger attributes and keeps every product consistent |
| Ledger.ApplySales | Mainven/Services/TransactionService.swift:146-161 | applying sale lines changes only quantity and value and keeps every product consistent |
| Ledger.RevertSales | Mainven/Services/TransactionService.swift:127-136 | reverting sale lines changes only quantity and value and keeps every product consistent |
| Ledger.ApplyPurchasesStep | Mainven/Services/TransactionService.swift:68-71 | the purchase fold from line i is line i followed by the fold from line i + 1, and it stays defined |
| Ledger.ApplySalesStep | Mainven/Services/TransactionService.swift:147-151 | the sale fold from line i is line i followed by the fold from line i + 1 |
| Ledger.ApplyPurchaseLineAt | Mainven/Services/TransactionService.swift:69-71 | one purchase line adds to product k its quantity and, on a consistent product, its value, and nothing for other products |
| Ledger.ApplyPurchasesAt | Mainven/Services/TransactionService.swift:67-81 | applying lines adds to each product exactly the quantity, and on a consistent product exactly the value, of the lines naming it |
| Ledger.RevertPurchaseLineAt | Mainven/Services/TransactionService.swift:42-53 | one revert line removes from product k its quantity and, when it does not reach zero stock, its value |
| Ledger.RevertPurchasesAt | Mainven/Services/TransactionService.swift:39-57 | reverting lines removes from each product exactly the quantity of the lines naming it, and their value when no step reaches zero stock |
| Ledger.PurchasedAppend | Mainven/Services/TransactionService.swift:67-81 | per product, the quantity and value of purchase lines add up over concatenation |
| Ledger.OrderedQuantityAppend | Mainven/Services/TransactionService.swift:146-161 | per product, the units ordered add up over concatenation |
| Ledger.SoldQuantityAppend | Mainven/Services/TransactionService.swift:127-136 | per product, the units on recorded sale lines add up over concatenation |
| Ledger.RevertOrderMatters | Mainven/Services/TransactionService.swift:40-53 | after buying 5 at 80 and 3 at 60 into an empty product and selling 3, reverting the two purchases in one order leaves a value of −180 and in the other −217.5, because reaching zero stock resets the cost |
| Ledger.ResaveAfterSellOut | Mainven/Services/TransactionService.swift:89-92 | buying 10 into an empty product, selling 10 and re-saving the purchase leaves stock at −10, where applying the same 10 units again would divide by zero |
| Ledger.ApplySalesAt | Mainven/Services/TransactionService.swift:146-161 | applying sale lines removes from each product exactly the quantity ordered of it |
| Ledger.RevertSalesAt | Mainven/Services/TransactionService.swift:127-136 | reverting sale lines gives back to each product exactly the quantity sold of it |
| Ledger.PurchaseEditKeepsQuantity | Mainven/Services/TransactionService.swift:20-34 | an edit whose new lines order the same quantity per product as the old ones leaves every product's quantity unchanged |
| Ledger.PurchaseEditAt | Mainven/Services/TransactionService.swift:20-34 | on one consistent product, when no revert step reaches zero stock, an edit whose new lines carry the same quantity and value of it restores its quantity and value, and its cost when it holds stock |
| Ledger.PurchaseEditKeepsLedger | Mainven/Services/TransactionService.swift:20-34 | the same over the whole table of consistent products: same keys, and every product's quantity, value and (with stock) cost restored |
| Ledger.SameStockSameCost | Mainven/Services/TransactionService.swift:53 | two consistent products with the same nonzero quantity and the same value have the same cost |
| Ledger.RevertedLineConsistent | Mainven/Services/TransactionService.swift:53 | a consistent product stays consistent through any number of purchase reverts |
| Ledger.AppliedLineConsistent | Mainven/Services/TransactionService.swift:96 | a consistent product stays consistent through any number of purchases |
| Ledger.SaleEditRestores | Mainven/Services/TransactionService.swift:108-122 | on consistent products, reverting a sale and applying new lines that sell the same quantity of each product as the old ones gives back the product table it started from |
| Ledger.SameQuantitySameProduct | Mainven/Services/TransactionService.swift:131-132 | two stock-only changes ending at the starting quantity give back the consistent product |
| Store.Context.FreshId | Mainven/Services/TransactionService.swift:26 | a `UUID()` or new object identity is used by no key of any table |
| Transactions.RecordedPurchaseItems | Mainven/Services/TransactionService.swift:67-81 | every recorded line is an input line with a live product, and every input line with a live product is recorded |
| Transactions.RecordedPurchaseItemsCount | Mainven/Services/TransactionService.swift:67-81 | each input line with a live product is recorded as many times as it occurs in the input, and no other line is recorded |
| Transactions.RecordedPurchaseTotals | Mainven/Services/TransactionService.swift:67-81 | per live product, the recorded lines carry the same quantity and value as the input lines naming it, which is what the save adds to its stock; a product that is gone gets nothing |
| Transactions.RecordedPurchaseLineTotals | Mainven/Services/TransactionService.swift:69-79 | the same for one pass of the loop |
| Transactions.RecordedSaleItems | Mainven/Services/TransactionService.swift:146-161 | as many recorded lines as input lines with a live product, each naming a live product and carrying its minimum sale price; which lines these are is stated by RecordedSaleItemsCount |
| Transactions.RecordedSaleItemsCount | Mainven/Services/TransactionService.swift:146-161 | each input line with a live product is recorded, with its own product, quantity and custom price, as many times as it occurs in the input; no other line is recorded |
| Transactions.RecordedSaleItemsLines | Mainven/Services/TransactionService.swift:146-161 | each recorded line's product, quantity and custom price are those of some input line; per live product the recorded lines carry exactly the units ordered of it, which the save takes out of its stock, and nothing for a product that is gone |
| Transactions.RecordedSaleLineQuantity | Mainven/Services/TransactionService.swift:148-159 | the same per-product units for one pass of the loop |
| Transactions.RecordedPurchaseItemsSnoc | Mainven/Services/TransactionService.swift:68-80 | recording one more input line appends that line when its product is live |
| Transactions.RecordedSaleItemsSnoc | Mainven/Services/TransactionService.swift:147-160 | recording one more input line appends its sale line when its product is live |
| Transactions.RecordedSaleLineSameListing | Mainven/Services/TransactionService.swift:156 | the line recorded for one input does not change when only stocks change |
| Transactions.RecordedSaleItemsSameListing | Mainven/Services/TransactionService.swift:156 | the lines recorded do not change when only stocks change |
| Transactions.TransactionService.SavePurchaseTransaction | Mainven/Services/TransactionService.swift:13-37 | an existing transaction keeps its key and id, and a new one gets a fresh key and a fresh id; the transaction afterwards holds exactly the form's date, note and supplier and the input lines with a live product; products become the old lines reverted and the new ones applied; sales are untouched |
| Transactions.TransactionService.OpenPurchaseTransaction | Mainven/Services/TransactionService.swift:20-31 | the revert runs only for an existing transaction; otherwise a fresh one is inserted; either way date, note and supplier are set and its lines kept |
| Transactions.TransactionService.InsertPurchaseTransaction | Mainven/Services/TransactionService.swift:25-26 | a new, empty transaction under an unused key with an identifier no other purchase carries |
| Transactions.TransactionService.RevertOldPurchaseStock | Mainven/Services/TransactionService.swift:39-57 | the product table becomes the old lines reverted in turn |
| Transactions.TransactionService.ClearExistingPurchaseItems | Mainven/Services/TransactionService.swift:59-65 | the transaction is left with no lines, everything else as it was |
| Transactions.TransactionService.AddNewPurchaseItems | Mainven/Services/TransactionService.swift:67-81 | products become the lines applied in order, and the lines with a live product are appended to the transaction |
| Transactions.TransactionService.AddNewPurchaseItemAt | Mainven/Services/TransactionService.swift:68-80 | one pass of that loop carries its invariant from line i to line i + 1 |
| Transactions.TransactionService.AddNewPurchaseItem | Mainven/Services/TransactionService.swift:69-79 | a line without a live product changes nothing; otherwise its product's cost is updated and the line appended |
| Transactions.TransactionService.UpdateProductCost | Mainven/Services/TransactionService.swift:83-97 | only that product changes, to its purchase-applied value |
| Transactions.TransactionService.SaveSalesTransaction | Mainven/Services/TransactionService.swift:101-125 | as for purchases: the key and id are kept or fresh; the transaction holds exactly the date, note, customer and recorded lines; products become the old sale reverted and the new lines sold; purchases are untouched |
| Transactions.TransactionService.OpenSaleTransaction | Mainven/Services/TransactionService.swift:108-119 | the revert runs only for an existing sale; otherwise a fresh one is inserted; date, note and customer are set |
| Transactions.TransactionService.InsertSaleTransaction | Mainven/Services/TransactionService.swift:113-114 | a new, empty sale under an unused key with an identifier no other sale carries |
| Transactions.TransactionService.RevertOldSaleStock | Mainven/Services/TransactionService.swift:127-136 | the product table becomes the old sale lines reverted in turn |
| Transactions.TransactionService.ClearExistingSaleItems | Mainven/Services/TransactionService.swift:138-144 | the sale is left with no lines, everything else as it was |
| Transactions.TransactionService.AddNewSaleItems | Mainven/Services/TransactionService.swift:146-161 | products become the lines sold in order, and one line per input with a live product is appended |
| Transactions.TransactionService.AddNewSaleItemAt | Mainven/Services/TransactionService.swift:147-160 | one pass of that loop carries its invariant from line i to line i + 1 |
| Transactions.TransactionService.AddNewSaleItem | Mainven/Services/TransactionService.swift:148-159 | a line without a live product changes nothing; otherwise its product sells the quantity and a line with the custom price and the product's minimum price is appended |
| TransactionCardViews.TotalPurchaseValue | Mainven/TransactionCardViews.swift:24-31 | 0 with no lines, and never negative for nonnegative quantities and costs |
| TransactionCardViews.TotalSalesValue | Mainven/TransactionCardViews.swift:58-65 | 0 with no lines, and never negative for nonnegative quantities and charged prices |
| TransactionCardViews.Profit | Mainven/TransactionCardViews.swift:67-74 | 0 with no lines, and 0 when no line's product exists |
| TransactionCardViews.CostOfItems | Mainven/TransactionCardViews.swift:67-74 | the current cost of the lines with a product: 0 with none |
| TransactionCardViews.ResolvedItems | Mainven/TransactionCardViews.swift:69 | at most the input's lines, each taken from the input with a live product, and every input line with a live product present; multiplicity is stated by ResolvedItemsCount |
| TransactionCardViews.ResolvedItemsCount | Mainven/TransactionCardViews.swift:69 | each line whose product exists occurs as often as in the input, and no other line occurs |
| TransactionCardViews.UnresolvedItems | Mainven/TransactionCardViews.swift:69 | at most the input's lines, each taken from the input with no live product, and every such input line present; multiplicity is stated by UnresolvedItemsCount |
| TransactionCardViews.UnresolvedItemsCount | Mainven/TransactionCardViews.swift:69 | each line whose product is gone occurs as often as in the input, and no other line occurs |
| TransactionCardViews.TotalPurchaseValueAppend | Mainven/TransactionCardViews.swift:24-31 | the purchase total is additive over concatenation of line lists, so it is the sum of quantity × cost |
| TransactionCardViews.TotalSalesValueAppend | Mainven/TransactionCardViews.swift:58-65 | the sales total is additive over concatenation, so it is the sum of quantity × charged price |
| TransactionCardViews.ProfitAppend | Mainven/TransactionCardViews.swift:67-74 | profit is additive over concatenation |
| TransactionCardViews.CostOfItemsAppend | Mainven/TransactionCardViews.swift:67-74 | the cost of lines is additive over concatenation |
| TransactionCardViews.TotalsOrderFree | Mainven/TransactionCardViews.swift:58-74 | any two lists with the same lines, in any order, have the same sales total, profit and cost |
| TransactionCardViews.PurchaseValueOrderFree | Mainven/TransactionCardViews.swift:24-31 | any two lists with the same purchase lines, in any order, have the same total value |
| TransactionCardViews.SalesValueOrderFree | Mainven/TransactionCardViews.swift:58-65 | any two lists with the same sale lines have the same sales total |
| TransactionCardViews.ProfitOrderFree | Mainven/TransactionCardViews.swift:67-74 | any two lists with the same sale lines have the same profit |
| TransactionCardViews.CostOrderFree | Mainven/TransactionCardViews.swift:67-74 | any two lists with the same sale lines have the same current cost |
| TransactionCardViews.UnresolvedLinesOnlyInSalesValue | Mainven/TransactionCardViews.swift:58-74 | lines whose product is gone add nothing to profit but do count in the sales total |
| TransactionCardViews.ProfitOfPricedLines | Mainven/TransactionCardViews.swift:58-74 | when every line with a product has a custom price, profit is the sales total of those lines less their current cost |
| TransactionCardViews.PricedLineProfit | Mainven/TransactionCardViews.swift:70 | one priced line's profit is its value less its cost |
| TransactionCardViews.SaleScenario | Mainven/TransactionCardViews.swift:58-74 | 5 units at 180 of a product costing 150 charge 900, cost 750 and profit 150 |
| SalesFigures.DailySales | Mainven/ViewModels/DashboardViewModel.swift:50 | exactly the transactions on the selected day, an undated one counting as today |
| SalesFigures.MonthSales | Mainven/ViewModels/DashboardViewModel.swift:81-84 | at most the input's transactions, each dated in the selected month and taken from the input, and every such input transaction present; multiplicity and order are stated by MonthSalesCount, OtherMonthIgnored and SameMonthCounted |
| SalesFigures.TotalQuantity | Mainven/ViewModels/DashboardViewModel.swift:52-57 | 0 with no lines, never negative for nonnegative quantities |
| SalesFigures.QuantitySold | Mainven/ViewModels/DashboardViewModel.swift:51-58 | 0 with no transactions |
| SalesFigures.Revenue | Mainven/ViewModels/DashboardViewModel.swift:63-66 | 0 with no transactions |
| SalesFigures.CostOfGoodsSold | Mainven/ViewModels/DashboardViewModel.swift:67-69 | 0 with no transactions |
| SalesFigures.DailyRevenueAndCost | Mainven/ViewModels/DashboardViewModel.swift:60-72 | the nested loops accumulate exactly the revenue and the current cost of every line of the given transactions |
| SalesFigures.OtherDayIgnored | Mainven/ViewModels/DashboardViewModel.swift:50 | a transaction on another day changes neither the day's sales, revenue nor cost |
| SalesFigures.SameDayCounted | Mainven/ViewModels/DashboardViewModel.swift:50 | a transaction on the day adds exactly its sales total to revenue and its lines' cost to the cost |
| SalesFigures.OtherMonthIgnored | Mainven/ViewModels/DashboardViewModel.swift:81-84 | a transaction that is undated or outside the month leaves the month's sales unchanged |
| SalesFigures.SameMonthCounted | Mainven/ViewModels/DashboardViewModel.swift:81-84 | a dated transaction in the month is appended once after the earlier ones |
| SalesFigures.MonthSalesCount | Mainven/ViewModels/DashboardViewModel.swift:81-84 | each transaction in the month occurs in the month's sales as often as in the input, and no other transaction occurs |
| SalesFigures.FiguresAppend | Mainven/ViewModels/DashboardViewModel.swift:51-72 | revenue, cost and quantity sold are additive over concatenation of transaction lists |
| HomeTab.TotalStock | Mainven/HomeTab.swift:92-94 | 0 for no products, never negative when no stock is negative |
| HomeTab.TotalStockValue | Mainven/HomeTab.swift:96-98 | 0 for no products |
| HomeTab.Valuation | Mainven/HomeTab.swift:96-98 | 0 for no products |
| HomeTab.TotalStockValueIsValuation | Mainven/HomeTab.swift:96-98 | on consistent products the total stock value is the sum of cost × quantity |
| HomeTab.SnapshotUpdate | Mainven/HomeTab.swift:92-98 | replacing one product moves the totals by exactly its differences |
| HomeTab.SnapshotAfterSale | Mainven/HomeTab.swift:92-98 | selling n units of one product lowers total stock by n and, on a consistent product, total value by n × its cost |
| HomeTab.SnapshotAfterPurchase | Mainven/HomeTab.swift:92-98 | buying n units at u raises total stock by n and, on a consistent product, total value by n × u |
| HomeTab.SoldValue | Mainven/Services/TransactionService.swift:150-151 | on a consistent product a sale of n lowers its value by n × its cost |
| HomeTab.TotalRevenueForSelectedDate | Mainven/HomeTab.swift:100-110 | the reduce-based revenue equals the revenue of the day's sales |
| HomeTab.ReduceItemsRevenueIsSum | Mainven/HomeTab.swift:103-108 | the inner reduce adds the lines' sales total to the running total |
| HomeTab.ReduceRevenueIsRevenue | Mainven/HomeTab.swift:102-109 | the threaded nested reduce adds exactly the revenue of the transactions |
| HomeTab.TotalProfitForSelectedDate | Mainven/HomeTab.swift:112-133 | the loop's profit is the reduce-based revenue less the current cost of the day's lines, so both revenue computations agree |
| TopSalesProductsView.TopSalesProducts | Mainven/TopSalesProductsView.swift:51-71 | the list ranks the month's tally: each listed entry carries its product's total, every counted product is listed once, the list is non-increasing; each entry's quantity is the sum of that product's units that month; every line with a product that month is listed; the list is empty exactly when no such line exists |
| TopSalesProductsView.CountMonthSales | Mainven/TopSalesProductsView.swift:60-68 | the dictionary after the nested loops is the tally of every line of the filtered transactions |
| TopSalesProductsView.CountSaleItems | Mainven/TopSalesProductsView.swift:62-66 | counting more lines extends the tally by exactly those lines |
| TopSalesProductsView.SortedByQuantity | Mainven/TopSalesProductsView.swift:70 | the sorted list ranks the dictionary: every entry once, with its count, non-increasing |
| TopSalesProductsView.ExtendRanking | Mainven/TopSalesProductsView.swift:70 | appending a remaining entry with the most units keeps a partial ranking |
| TopSalesProductsView.ExtendedEntries | Mainven/TopSalesProductsView.swift:70 | after appending, the listed entries are exactly the counted products no longer remaining |
| TopSalesProductsView.ExtendedOrder | Mainven/TopSalesProductsView.swift:70 | after appending, entries stay distinct and non-increasing, and no remaining product outranks a listed one |
| TopSalesProductsView.MaxExists | Mainven/TopSalesProductsView.swift:70 | a non-empty set of counted products has one with the most units |
| TopSalesProductsView.TallySnoc | Mainven/TopSalesProductsView.swift:64 | counting one more line is one `productSales[product, default: 0] += quantity` |
| TopSalesProductsView.TallyKeys | Mainven/TopSalesProductsView.swift:63-64 | a product is counted exactly when some line names it and it exists |
| TopSalesProductsView.TallyUnits | Mainven/TopSalesProductsView.swift:64 | each counted product's count is the sum of its lines' quantities |
| TopSalesProductsView.UnitsOfUnnamed | Mainven/TopSalesProductsView.swift:64 | a product no line names has no units |
| TopSalesProductsView.RankingMeaning | Mainven/TopSalesProductsView.swift:26-28 | a ranking of the tally lists every sold product with its units, and is empty exactly when no line has a product |
| Dashboard.ReduceItemsQuantityIsSum | Mainven/ViewModels/DashboardViewModel.swift:52-57 | the inner reduce adds the lines' quantities to the running total |
| Dashboard.ReduceQuantityIsQuantitySold | Mainven/ViewModels/DashboardViewModel.swift:51-58 | the threaded nested reduce adds exactly the units sold |
| Dashboard.DashboardViewModel.constructor | Mainven/ViewModels/DashboardViewModel.swift:22-24 | every published figure starts at zero and the lists empty |
| Dashboard.DashboardViewModel.FetchData | Mainven/ViewModels/DashboardViewModel.swift:26-41 | after a fetch, the snapshot, today's figures and this month's ranking are those of the fetched data |
| Dashboard.DashboardViewModel.UpdateDashboard | Mainven/ViewModels/DashboardViewModel.swift:43-75 | product count, total stock, total value, the day's units sold, revenue, and revenue less the current cost of the day's lines |
| Dashboard.DashboardViewModel.UpdateTopSales | Mainven/ViewModels/DashboardViewModel.swift:77-97 | the published list ranks the month's tally, each quantity the product's units sold that month |
| Products.ProductService.SaveProduct | Mainven/Services/ProductService.swift:11-35 | a live product keeps its key, id and sale price; otherwise a new one gets a fresh key and id; name, cost, minimum price, quantity and image are the arguments; value = cost × quantity; no other product changes |
| Products.ProductService.DeleteProduct | Mainven/Services/ProductService.swift:37-40 | exactly that product leaves the table; the others are unchanged |
| ProductsTab.AtOffsets | Mainven/ProductsTab.swift:50 | exactly the products listed at the swiped offsets |
| ProductsTab.ProductsTab.DeleteProducts | Mainven/ProductsTab.swift:48-50 | exactly the products at the offsets are removed |
| ProductsTab.AddEditProductSheet.SaveProduct | Mainven/ProductsTab.swift:172-180 | the sheet's product is updated, or a new one is created under a fresh key; an existing id is kept and a missing one drawn fresh; name, cost, sale price, quantity and image are the form's; value = cost × quantity; no other product changes |
| SalesTransactionView.SheetSaleItems | Mainven/SalesTransactionView.swift:121-135 | as many recorded lines as input lines with a live product, each naming a live product and carrying its sale price, with no custom or minimum price; which lines these are is stated by SheetSaleItemsCount |
| SalesTransactionView.SheetSaleItemsCount | Mainven/SalesTransactionView.swift:121-135 | a line of the shape the sheet writes for a live product is recorded exactly as many times as input lines order that quantity of that product; no other line is recorded |
| SalesTransactionView.SheetSaleItemsLines | Mainven/SalesTransactionView.swift:121-135 | each recorded line's product and quantity are those of some input line; per live product the recorded lines carry exactly the units ordered of it, which the save takes out of its stock, and nothing for a product that is gone |
| SalesTransactionView.SheetSaleLineQuantity | Mainven/SalesTransactionView.swift:122-134 | the same per-product units for one pass of the loop |
| SalesTransactionView.SheetSaleItemsSnoc | Mainven/SalesTransactionView.swift:121-135 | recording one more input appends its line when its product is live |
| SalesTransactionView.SalesTransactionView.DeleteSalesTransactions | Mainven/SalesTransactionView.swift:40-42 | exactly the sales at the offsets are removed, and no product changes |
| SalesTransactionView.AddSalesTransactionSheet.SaveSalesTransaction | Mainven/SalesTransactionView.swift:112-135 | without a customer nothing changes; otherwise a sale under a fresh key with a fresh id holds the form's date, note and customer and the recorded lines, and products become the lines sold |
| SalesTransactionView.AddSalesTransactionSheet.NewTransaction | Mainven/SalesTransactionView.swift:115-119 | a new sale under an unused key with an identifier no other sale carries and the given date, note and customer |
| SalesTransactionView.AddSalesTransactionSheet.AddSheetItems | Mainven/SalesTransactionView.swift:121-135 | products become the lines sold in order; the recorded lines are appended |
| SalesTransactionView.AddSalesTransactionSheet.AddSheetItemAt | Mainven/SalesTransactionView.swift:121-135 | one pass of the loop carries its invariant from line i to line i + 1 |
| SalesTransactionView.AddSalesTransactionSheet.AddSheetItem | Mainven/SalesTransactionView.swift:122-134 | a line without a product changes nothing; otherwise the product sells the quantity, its cost unchanged, and a line with its sale price is appended |

## Left out

- The SwiftUI views, sheets, pickers and navigation, apart from the save and delete actions modelled above. They are presentation only.
- Core Data persistence (`viewContext.save()`, fetch requests, `object(with:)`, `fatalError` on a failed save). A save is taken to commit the in-memory state, so a failing save is not modelled. `FetchData` takes the fetched products and sales as parameters.
- `UUID()` and new object identities are drawn from one counter in `Store.Context`. Only their freshness is modelled.
- The item UUIDs (`purchaseItemID`, `saleItemID`) are not stored. No figure reads them.
- Calendar arithmetic: a date is a pair of day and month keys, and "now" is a parameter. The two keys are independent, so nothing in the model ties a transaction counted on the selected day to the month holding that day.
- Floating-point rounding of `Double` is not modelled: costs are exact reals.
- `Int64` overflow of quantities is not modelled.
- Ledger.ApplyPurchase: its precondition excludes the one division the code can make by zero. That happens when a product with stock −n receives n units. In Swift the cost would then become NaN or infinite. The case is reachable: buy 10, sell 10, then re-save the purchase. The revert leaves −10, and re-applying 10 divides by zero; `Ledger.ResaveAfterSellOut` states this sequence.
- Transactions.TransactionService.SavePurchaseTransaction: it requires the same condition at every step of the edit.
- Core Data's delete rule is modelled as nullify: a line whose product was deleted reads as having no product.
- `NSSet` iteration order is not modelled: line sets are visited in list order. `TotalsOrderFree` and `PurchaseValueOrderFree` show that every card total is the same for any reordering of the lines.
- RevertPurchases: the purchase revert of an edit (`Mainven/Services/TransactionService.swift:40-53`) iterates an unordered set, and its result depends on the order. When one step reaches zero stock the cost is reset to 0, and the later steps then give a different cost and value. `Ledger.RevertOrderMatters` states a reachable case: from 5 units at cost 72.5, left by buying 5 at 80 and 3 at 60 and selling 3, the two orders end at values −180 and −217.5. `Transactions.TransactionService.SavePurchaseTransaction` and `RevertOldPurchaseStock` follow the list order only, so they describe one of the orders the app may take. `PurchaseEditKeepsLedger` is order-free only under its condition that no step reaches zero stock.
- TopSalesProductsView.TopSalesProducts: the order among products with equal units is left open, because the source's dictionary order is unspecified. It is also why the list is not fully determined.
- `deletePurchaseTransaction` is called from the purchases screen but defined nowhere in the source, so it is not modelled.
- The purchases screen (`PurchaseTransactionView`) only checks that a supplier is chosen and then calls the service. It is not modelled separately.
- Contacts (`ContactService`, the contact views) are not modelled. They are reflection-based create/update/delete with no ledger logic. Customers and suppliers appear only as identifiers.
- The profit colour on the sales card is not modelled. It is presentation only.
- HomeTab's `totalProducts` is the product count. `Dashboard.DashboardViewModel.UpdateDashboard` states that figure, and no separate member models it.
- `HomeTab` reads its products and sales as lists. Its profit resolves line products against a product table passed in, as the view model does against the context.
