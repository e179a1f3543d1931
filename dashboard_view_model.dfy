/**
 * `DashboardViewModel` (Mainven/ViewModels/DashboardViewModel.swift): an
 * observable object whose published fields hold the inventory snapshot,
 * the figures for a selected day and the month's top sellers, computed
 * from the products and sale transactions it last fetched. Sale lines
 * resolve their product against the context's live product table.
 */
module Dashboard {
  import opened Wrappers
  import opened Model
  import opened Store
  import opened SalesFigures
  import opened HomeTab
  import opened TopSalesProductsView

  /** The inner `saleItems?.reduce(total)` of `totalQuantitySoldForSelectedDate`. */
  function ReduceItemsQuantity(total: int, items: seq<SaleItem>): int
    decreases |items|
  {
    if items == [] then total
    else ReduceItemsQuantity(total, items[..|items| - 1]) + items[|items| - 1].quantity
  }

  /** The outer `dailySales.reduce(0)`, threading the running total through
      each transaction's lines. */
  function ReduceQuantity(total: int, txs: seq<SaleTransaction>): int
    decreases |txs|
  {
    if txs == [] then total
    else ReduceItemsQuantity(ReduceQuantity(total, txs[..|txs| - 1]), txs[|txs| - 1].items)
  }

  lemma {:induction false} ReduceItemsQuantityIsSum(total: int, items: seq<SaleItem>)
    ensures ReduceItemsQuantity(total, items) == total + TotalQuantity(items)
    decreases |items|
  {
    if items != [] {
      ReduceItemsQuantityIsSum(total, items[..|items| - 1]);
    }
  }

  /** The nested reduce adds exactly the units sold in `txs` to the total it
      starts from. */
  lemma {:induction false} ReduceQuantityIsQuantitySold(total: int, txs: seq<SaleTransaction>)
    ensures ReduceQuantity(total, txs) == total + QuantitySold(txs)
    decreases |txs|
  {
    if txs != [] {
      var rest := txs[..|txs| - 1];
      ReduceQuantityIsQuantitySold(total, rest);
      ReduceItemsQuantityIsSum(ReduceQuantity(total, rest), txs[|txs| - 1].items);
    }
  }

  class DashboardViewModel {
    const viewContext: Context

    var totalProducts: int
    var totalStock: int
    var totalStockValue: real

    var totalQuantitySoldForSelectedDate: int
    var totalRevenueForSelectedDate: real
    var totalProfitForSelectedDate: real

    var topSalesProducts: seq<TopSale>

    var products: seq<Product>
    var salesTransactions: seq<SaleTransaction>

    constructor (context: Context)
      ensures viewContext == context
      ensures totalProducts == 0 && totalStock == 0 && totalStockValue == 0.0
      ensures totalQuantitySoldForSelectedDate == 0
      ensures totalRevenueForSelectedDate == 0.0 && totalProfitForSelectedDate == 0.0
      ensures topSalesProducts == [] && products == [] && salesTransactions == []
    {
      viewContext := context;
      totalProducts, totalStock, totalStockValue := 0, 0, 0.0;
      totalQuantitySoldForSelectedDate := 0;
      totalRevenueForSelectedDate, totalProfitForSelectedDate := 0.0, 0.0;
      topSalesProducts := [];
      products, salesTransactions := [], [];
    }

    /** `fetchData()`: the two fetch requests' results are passed in, and
        both figures are brought up to date for `now`. */
    method FetchData(fetchedProducts: seq<Product>, fetchedSales: seq<SaleTransaction>, now: Date)
      modifies this
      ensures products == fetchedProducts && salesTransactions == fetchedSales
      ensures totalProducts == |products|
      ensures totalStock == TotalStock(products) && totalStockValue == TotalStockValue(products)
      ensures totalQuantitySoldForSelectedDate == QuantitySold(DailySales(salesTransactions, now, now))
      ensures totalRevenueForSelectedDate == Revenue(DailySales(salesTransactions, now, now))
      ensures totalProfitForSelectedDate == Revenue(DailySales(salesTransactions, now, now))
                                            - CostOfGoodsSold(viewContext.products, DailySales(salesTransactions, now, now))
      ensures RanksByQuantity(topSalesProducts, Tally(viewContext.products, Flatten(MonthSales(salesTransactions, now))))
    {
      products := fetchedProducts;
      salesTransactions := fetchedSales;
      UpdateDashboard(now, now);
      UpdateTopSales(now);
    }

    /** `updateDashboard(for:)`. */
    method UpdateDashboard(date: Date, now: Date)
      modifies this`totalProducts, this`totalStock, this`totalStockValue,
               this`totalQuantitySoldForSelectedDate, this`totalRevenueForSelectedDate, this`totalProfitForSelectedDate
      ensures totalProducts == |products|
      ensures totalStock == TotalStock(products)
      ensures totalStockValue == TotalStockValue(products)
      ensures totalQuantitySoldForSelectedDate == QuantitySold(DailySales(salesTransactions, date, now))
      ensures totalRevenueForSelectedDate == Revenue(DailySales(salesTransactions, date, now))
      ensures totalProfitForSelectedDate == Revenue(DailySales(salesTransactions, date, now))
                                            - CostOfGoodsSold(viewContext.products, DailySales(salesTransactions, date, now))
    {
      totalProducts := |products|;
      totalStock := TotalStock(products);
      totalStockValue := TotalStockValue(products);

      var dailySales := DailySales(salesTransactions, date, now);
      totalQuantitySoldForSelectedDate := ReduceQuantity(0, dailySales);
      ReduceQuantityIsQuantitySold(0, dailySales);

      var totalRevenue, totalCostOfSoldGoods := DailyRevenueAndCost(viewContext.products, dailySales);
      totalRevenueForSelectedDate := totalRevenue;
      totalProfitForSelectedDate := totalRevenue - totalCostOfSoldGoods;
    }

    /** `updateTopSales(for:)`: the same computation as the top-sales view. */
    method UpdateTopSales(month: Date)
      modifies this`topSalesProducts
      ensures RanksByQuantity(topSalesProducts, Tally(viewContext.products, Flatten(MonthSales(salesTransactions, month))))
      ensures forall i :: 0 <= i < |topSalesProducts| ==>
        topSalesProducts[i].quantity == UnitsOf(topSalesProducts[i].product, Flatten(MonthSales(salesTransactions, month)))
    {
      topSalesProducts := TopSalesProducts(viewContext.products, salesTransactions, month);
    }
  }
}
