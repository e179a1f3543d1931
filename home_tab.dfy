/**
 * The figures on the home tab (Mainven/HomeTab.swift): the inventory
 * snapshot over the fetched products, and revenue and profit for the
 * selected day over the fetched sale transactions. Product references on
 * sale lines resolve against `catalog`, the live product table.
 */
module HomeTab {
  import opened Wrappers
  import opened Model
  import opened Ledger
  import opened TransactionCardViews
  import opened SalesFigures

  /** `totalStock`: the sum of the stock quantities. */
  function TotalStock(products: seq<Product>): (r: int)
    ensures products == [] ==> r == 0
    ensures (forall i :: 0 <= i < |products| ==> products[i].stockQuantity >= 0) ==> r >= 0
    decreases |products|
  {
    if products == [] then 0
    else TotalStock(products[..|products| - 1]) + products[|products| - 1].stockQuantity
  }

  /** `totalStockValue`: the sum of the stored stock values. */
  function TotalStockValue(products: seq<Product>): (r: real)
    ensures products == [] ==> r == 0.0
    decreases |products|
  {
    if products == [] then 0.0
    else TotalStockValue(products[..|products| - 1]) + products[|products| - 1].stockValue
  }

  /** The stock valued at each product's cost. */
  function Valuation(products: seq<Product>): (r: real)
    ensures products == [] ==> r == 0.0
    decreases |products|
  {
    if products == [] then 0.0
    else
      var last := products[|products| - 1];
      Valuation(products[..|products| - 1]) + last.costPrice * last.stockQuantity as real
  }

  /** The inner `saleItems?.reduce(total)`: each line's sales value is added
      to the running total carried in from earlier transactions. */
  function ReduceItemsRevenue(total: real, items: seq<SaleItem>): real
    decreases |items|
  {
    if items == [] then total
    else ReduceItemsRevenue(total, items[..|items| - 1]) + SaleLineValue(items[|items| - 1])
  }

  /** The outer `reduce(0.0)` over the day's transactions, threading the
      total through each transaction's lines. */
  function ReduceRevenue(total: real, txs: seq<SaleTransaction>): real
    decreases |txs|
  {
    if txs == [] then total
    else ReduceItemsRevenue(ReduceRevenue(total, txs[..|txs| - 1]), txs[|txs| - 1].items)
  }

  /** `totalRevenueForSelectedDate`. */
  function TotalRevenueForSelectedDate(salesTransactions: seq<SaleTransaction>, selectedDate: Date, now: Date): (r: real)
    ensures r == Revenue(DailySales(salesTransactions, selectedDate, now))
  {
    var dailySales := DailySales(salesTransactions, selectedDate, now);
    ReduceRevenueIsRevenue(0.0, dailySales);
    ReduceRevenue(0.0, dailySales)
  }

  /** `totalProfitForSelectedDate`: the loop-accumulated revenue less the cost
      of goods, which agrees with the reduce-based revenue above. */
  method TotalProfitForSelectedDate(catalog: map<ObjectId, Product>, salesTransactions: seq<SaleTransaction>,
                                    selectedDate: Date, now: Date)
    returns (profit: real)
    ensures profit == TotalRevenueForSelectedDate(salesTransactions, selectedDate, now)
                      - CostOfGoodsSold(catalog, DailySales(salesTransactions, selectedDate, now))
  {
    var dailySales := DailySales(salesTransactions, selectedDate, now);
    var totalRevenue, totalCostOfSoldGoods := DailyRevenueAndCost(catalog, dailySales);
    profit := totalRevenue - totalCostOfSoldGoods;
  }

  // ----- properties -----

  /** The nested reduce adds exactly the revenue of the transactions to the
      total it starts from. */
  lemma {:induction false} ReduceItemsRevenueIsSum(total: real, items: seq<SaleItem>)
    ensures ReduceItemsRevenue(total, items) == total + TotalSalesValue(items)
    decreases |items|
  {
    if items != [] {
      ReduceItemsRevenueIsSum(total, items[..|items| - 1]);
    }
  }

  lemma {:induction false} ReduceRevenueIsRevenue(total: real, txs: seq<SaleTransaction>)
    ensures ReduceRevenue(total, txs) == total + Revenue(txs)
    decreases |txs|
  {
    if txs != [] {
      var rest := txs[..|txs| - 1];
      ReduceRevenueIsRevenue(total, rest);
      ReduceItemsRevenueIsSum(ReduceRevenue(total, rest), txs[|txs| - 1].items);
    }
  }

  /** When every product is consistent, the stored stock value is the stock
      valued at cost. */
  lemma {:induction false} TotalStockValueIsValuation(products: seq<Product>)
    requires forall i :: 0 <= i < |products| ==> Consistent(products[i])
    ensures TotalStockValue(products) == Valuation(products)
    decreases |products|
  {
    if products != [] {
      TotalStockValueIsValuation(products[..|products| - 1]);
    }
  }

  /** Replacing one product changes the snapshot sums by the difference. */
  lemma {:induction false} SnapshotUpdate(products: seq<Product>, i: nat, p: Product)
    requires i < |products|
    ensures TotalStock(products[i := p]) == TotalStock(products) - products[i].stockQuantity + p.stockQuantity
    ensures TotalStockValue(products[i := p]) == TotalStockValue(products) - products[i].stockValue + p.stockValue
    decreases |products|
  {
    var n := |products| - 1;
    if i < n {
      SnapshotUpdate(products[..n], i, p);
      assert products[i := p][..n] == products[..n][i := p];
    } else {
      assert products[i := p][..n] == products[..n];
    }
  }

  /** Selling `quantity` of the product at position `i` lowers the total
      stock by `quantity` and, for a consistent product, the total stock
      value by `quantity` units at cost. */
  lemma SnapshotAfterSale(products: seq<Product>, i: nat, quantity: int)
    requires i < |products|
    ensures TotalStock(products[i := ApplySale(products[i], quantity)]) == TotalStock(products) - quantity
    ensures Consistent(products[i]) ==>
      TotalStockValue(products[i := ApplySale(products[i], quantity)])
        == TotalStockValue(products) - quantity as real * products[i].costPrice
  {
    var p := products[i];
    SnapshotUpdate(products, i, ApplySale(p, quantity));
    SoldValue(p, quantity);
  }

  /** Buying `quantity` at `unitCost` for the product at position `i` raises
      the total stock by `quantity` and, for a consistent product, the total
      stock value by the purchase's value. */
  lemma SnapshotAfterPurchase(products: seq<Product>, i: nat, quantity: int, unitCost: real)
    requires i < |products| && PurchaseDefined(products[i], quantity)
    ensures TotalStock(products[i := ApplyPurchase(products[i], quantity, unitCost)]) == TotalStock(products) + quantity
    ensures Consistent(products[i]) ==>
      TotalStockValue(products[i := ApplyPurchase(products[i], quantity, unitCost)])
        == TotalStockValue(products) + quantity as real * unitCost
  {
    SnapshotUpdate(products, i, ApplyPurchase(products[i], quantity, unitCost));
  }

  lemma SoldValue(p: Product, quantity: int)
    ensures Consistent(p) ==> ApplySale(p, quantity).stockValue == p.stockValue - quantity as real * p.costPrice
  {
  }
}
