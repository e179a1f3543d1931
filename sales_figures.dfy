/**
 * The daily sales figures the home tab (Mainven/HomeTab.swift) and the
 * dashboard view model (Mainven/ViewModels/DashboardViewModel.swift) both
 * compute: which sale transactions fall on the selected day or month, and
 * the revenue, cost of goods and quantity of their lines. The calendar is
 * abstracted to the day and month keys of `Model.Date`.
 */
module SalesFigures {
  import opened Wrappers
  import opened Model
  import opened TransactionCardViews

  /** `Calendar.current.isDate($0.date ?? Date(), inSameDayAs: date)`: an
      undated transaction counts as dated `now`. */
  predicate OnDay(t: SaleTransaction, date: Date, now: Date) {
    t.date.GetOr(now).day == date.day
  }

  /** `calendar.isDate(transactionDate, equalTo: month, toGranularity: .month)`
      behind `guard let transactionDate = transaction.date`: an undated
      transaction never counts. */
  predicate InMonth(t: SaleTransaction, month: Date) {
    t.date.Some? && t.date.value.month == month.month
  }

  /** The transactions of `txs` on the selected day, in their order. */
  function DailySales(txs: seq<SaleTransaction>, date: Date, now: Date): (r: seq<SaleTransaction>)
    ensures |r| <= |txs|
    ensures forall i :: 0 <= i < |r| ==> r[i] in txs && OnDay(r[i], date, now)
    ensures forall i :: 0 <= i < |txs| && OnDay(txs[i], date, now) ==> txs[i] in r
    decreases |txs|
  {
    if txs == [] then []
    else
      var last := txs[|txs| - 1];
      DailySales(txs[..|txs| - 1], date, now) + (if OnDay(last, date, now) then [last] else [])
  }

  /** The dated transactions of `txs` in the selected month, in their order. */
  function MonthSales(txs: seq<SaleTransaction>, month: Date): (r: seq<SaleTransaction>)
    ensures |r| <= |txs|
    ensures forall i :: 0 <= i < |r| ==> r[i] in txs && InMonth(r[i], month)
    ensures forall i :: 0 <= i < |txs| && InMonth(txs[i], month) ==> txs[i] in r
    decreases |txs|
  {
    if txs == [] then []
    else
      var last := txs[|txs| - 1];
      MonthSales(txs[..|txs| - 1], month) + (if InMonth(last, month) then [last] else [])
  }

  /** The units on a list of sale lines. */
  function TotalQuantity(items: seq<SaleItem>): (r: int)
    ensures items == [] ==> r == 0
    ensures (forall i :: 0 <= i < |items| ==> items[i].quantity >= 0) ==> r >= 0
    decreases |items|
  {
    if items == [] then 0 else TotalQuantity(items[..|items| - 1]) + items[|items| - 1].quantity
  }

  /** The units sold in `txs`. */
  function QuantitySold(txs: seq<SaleTransaction>): (r: int)
    ensures txs == [] ==> r == 0
    decreases |txs|
  {
    if txs == [] then 0 else QuantitySold(txs[..|txs| - 1]) + TotalQuantity(txs[|txs| - 1].items)
  }

  /** The revenue of `txs`: the sales value of every line, with or without a
      product. */
  function Revenue(txs: seq<SaleTransaction>): (r: real)
    ensures txs == [] ==> r == 0.0
    decreases |txs|
  {
    if txs == [] then 0.0 else Revenue(txs[..|txs| - 1]) + TotalSalesValue(txs[|txs| - 1].items)
  }

  /** The current cost of the lines of `txs` whose product still exists. */
  function CostOfGoodsSold(catalog: map<ObjectId, Product>, txs: seq<SaleTransaction>): (r: real)
    ensures txs == [] ==> r == 0.0
    decreases |txs|
  {
    if txs == [] then 0.0 else CostOfGoodsSold(catalog, txs[..|txs| - 1]) + CostOfItems(catalog, txs[|txs| - 1].items)
  }

  /** The loop shared by `HomeTab.totalProfitForSelectedDate` and
      `DashboardViewModel.updateDashboard(for:)`: every line adds its sales
      value to the revenue, and a line whose product exists adds its
      quantity times the product's current cost to the cost of goods. */
  method DailyRevenueAndCost(catalog: map<ObjectId, Product>, dailySales: seq<SaleTransaction>)
    returns (totalRevenue: real, totalCostOfSoldGoods: real)
    ensures totalRevenue == Revenue(dailySales)
    ensures totalCostOfSoldGoods == CostOfGoodsSold(catalog, dailySales)
  {
    totalRevenue := 0.0;
    totalCostOfSoldGoods := 0.0;
    var i := 0;
    while i < |dailySales|
      invariant 0 <= i <= |dailySales|
      invariant totalRevenue == Revenue(dailySales[..i])
      invariant totalCostOfSoldGoods == CostOfGoodsSold(catalog, dailySales[..i])
    {
      var saleItems := dailySales[i].items;
      var j := 0;
      while j < |saleItems|
        invariant 0 <= j <= |saleItems|
        invariant totalRevenue == Revenue(dailySales[..i]) + TotalSalesValue(saleItems[..j])
        invariant totalCostOfSoldGoods == CostOfGoodsSold(catalog, dailySales[..i]) + CostOfItems(catalog, saleItems[..j])
      {
        var saleItem := saleItems[j];
        assert saleItems[..j + 1][..j] == saleItems[..j];
        totalRevenue := totalRevenue + SaleLineValue(saleItem);
        if saleItem.product.Some? && saleItem.product.value in catalog {
          totalCostOfSoldGoods := totalCostOfSoldGoods + LineCost(catalog, saleItem);
        }
        j := j + 1;
      }
      assert saleItems[..j] == saleItems;
      assert dailySales[..i + 1][..i] == dailySales[..i];
      i := i + 1;
    }
    assert dailySales[..i] == dailySales;
  }

  // ----- properties -----

  /** A transaction off the selected day changes none of the day's figures. */
  lemma OtherDayIgnored(catalog: map<ObjectId, Product>, txs: seq<SaleTransaction>, t: SaleTransaction, date: Date, now: Date)
    requires !OnDay(t, date, now)
    ensures DailySales(txs + [t], date, now) == DailySales(txs, date, now)
    ensures Revenue(DailySales(txs + [t], date, now)) == Revenue(DailySales(txs, date, now))
    ensures CostOfGoodsSold(catalog, DailySales(txs + [t], date, now)) == CostOfGoodsSold(catalog, DailySales(txs, date, now))
  {
    assert (txs + [t])[..|txs|] == txs;
    assert DailySales(txs, date, now) + [] == DailySales(txs, date, now);
  }

  /** A transaction on the selected day adds its card totals to the day's
      figures. */
  lemma SameDayCounted(catalog: map<ObjectId, Product>, txs: seq<SaleTransaction>, t: SaleTransaction, date: Date, now: Date)
    requires OnDay(t, date, now)
    ensures DailySales(txs + [t], date, now) == DailySales(txs, date, now) + [t]
    ensures Revenue(DailySales(txs + [t], date, now)) == Revenue(DailySales(txs, date, now)) + TotalSalesValue(t.items)
    ensures CostOfGoodsSold(catalog, DailySales(txs + [t], date, now))
         == CostOfGoodsSold(catalog, DailySales(txs, date, now)) + CostOfItems(catalog, t.items)
  {
    assert (txs + [t])[..|txs|] == txs;
    var d := DailySales(txs, date, now);
    assert (d + [t])[..|d|] == d;
  }

  /** A transaction outside the selected month, or undated, leaves the
      month's sales as they were. */
  lemma OtherMonthIgnored(txs: seq<SaleTransaction>, t: SaleTransaction, month: Date)
    requires !InMonth(t, month)
    ensures MonthSales(txs + [t], month) == MonthSales(txs, month)
  {
    assert (txs + [t])[..|txs|] == txs;
    assert MonthSales(txs, month) + [] == MonthSales(txs, month);
  }

  /** A dated transaction in the selected month is added once, after the
      month's earlier sales. */
  lemma SameMonthCounted(txs: seq<SaleTransaction>, t: SaleTransaction, month: Date)
    requires InMonth(t, month)
    ensures MonthSales(txs + [t], month) == MonthSales(txs, month) + [t]
  {
    assert (txs + [t])[..|txs|] == txs;
  }

  /** Each transaction in the month occurs in the month's sales exactly as
      often as in `txs`, and no other transaction occurs. */
  lemma {:induction false} MonthSalesCount(txs: seq<SaleTransaction>, month: Date)
    ensures forall t :: (multiset(MonthSales(txs, month))[t] == if InMonth(t, month) then multiset(txs)[t] else 0)
    decreases |txs|
  {
    if txs != [] {
      var rest := txs[..|txs| - 1];
      var last := txs[|txs| - 1];
      assert txs == rest + [last];
      MonthSalesCount(rest, month);
      if InMonth(last, month) {
        SameMonthCounted(rest, last, month);
      } else {
        OtherMonthIgnored(rest, last, month);
      }
    } else {
      assert MonthSales(txs, month) == [];
    }
  }

  /** Revenue, cost of goods and units sold add up over concatenation: the
      figures of two batches of transactions are the sums of their figures. */
  lemma {:induction false} FiguresAppend(catalog: map<ObjectId, Product>, a: seq<SaleTransaction>, b: seq<SaleTransaction>)
    ensures Revenue(a + b) == Revenue(a) + Revenue(b)
    ensures CostOfGoodsSold(catalog, a + b) == CostOfGoodsSold(catalog, a) + CostOfGoodsSold(catalog, b)
    ensures QuantitySold(a + b) == QuantitySold(a) + QuantitySold(b)
    decreases |b|
  {
    if b == [] {
      assert a + b == a;
    } else {
      var b' := b[..|b| - 1];
      assert (a + b)[..|a + b| - 1] == a + b';
      assert (a + b)[|a + b| - 1] == b[|b| - 1];
      FiguresAppend(catalog, a, b');
    }
  }
}
