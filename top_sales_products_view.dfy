/**
 * The monthly top sellers (Mainven/TopSalesProductsView.swift, computed
 * property `topSalesProducts`; `DashboardViewModel.updateTopSales(for:)`
 * repeats the same code). A dictionary from product to units is filled in
 * nested loops over the month's sale lines, then listed by units, most
 * first. The order of products with equal units is left open.
 */
module TopSalesProductsView {
  import opened Wrappers
  import opened Model
  import opened SalesFigures

  /** One row of the result: a product and the units sold of it. */
  datatype TopSale = TopSale(product: ObjectId, quantity: int)

  /** The lines of `txs`, transaction after transaction. */
  function Flatten(txs: seq<SaleTransaction>): seq<SaleItem>
    decreases |txs|
  {
    if txs == [] then [] else Flatten(txs[..|txs| - 1]) + txs[|txs| - 1].items
  }

  /** The units on the lines of `items` that name product `k`. */
  function UnitsOf(k: ObjectId, items: seq<SaleItem>): int
    decreases |items|
  {
    if items == [] then 0
    else
      var last := items[|items| - 1];
      UnitsOf(k, items[..|items| - 1]) + (if last.product == Some(k) then last.quantity else 0)
  }

  /** `productSales[product, default: 0] += Int(item.quantity)` behind
      `if let product = item.product`. */
  function Count(catalog: map<ObjectId, Product>, productSales: map<ObjectId, int>, item: SaleItem): map<ObjectId, int> {
    if Resolves(catalog, item.product) then
      var k := item.product.value;
      productSales[k := (if k in productSales then productSales[k] else 0) + item.quantity]
    else productSales
  }

  /** The dictionary after counting `items` into an empty one. */
  function Tally(catalog: map<ObjectId, Product>, items: seq<SaleItem>): map<ObjectId, int>
    decreases |items|
  {
    if items == [] then map[] else Count(catalog, Tally(catalog, items[..|items| - 1]), items[|items| - 1])
  }

  /** `top` lists the entries of `tally` once each, by units, most first. */
  predicate RanksByQuantity(top: seq<TopSale>, tally: map<ObjectId, int>) {
    && (forall i :: 0 <= i < |top| ==> top[i].product in tally && top[i].quantity == tally[top[i].product])
    && (forall k :: k in tally ==> exists i :: 0 <= i < |top| && top[i].product == k)
    && (forall i, j :: 0 <= i < j < |top| ==> top[i].product != top[j].product)
    && (forall i, j :: 0 <= i < j < |top| ==> top[i].quantity >= top[j].quantity)
  }

  /** `topSalesProducts`. */
  method TopSalesProducts(catalog: map<ObjectId, Product>, salesTransactions: seq<SaleTransaction>, selectedMonth: Date)
    returns (top: seq<TopSale>)
    ensures RanksByQuantity(top, Tally(catalog, Flatten(MonthSales(salesTransactions, selectedMonth))))
    ensures forall i :: 0 <= i < |top| ==>
      top[i].product in catalog && top[i].quantity == UnitsOf(top[i].product, Flatten(MonthSales(salesTransactions, selectedMonth)))
    ensures forall i :: 0 <= i < |Flatten(MonthSales(salesTransactions, selectedMonth))|
                        && Resolves(catalog, Flatten(MonthSales(salesTransactions, selectedMonth))[i].product) ==>
      exists j :: 0 <= j < |top| && top[j].product == Flatten(MonthSales(salesTransactions, selectedMonth))[i].product.value
    ensures top == [] <==>
      forall i :: 0 <= i < |Flatten(MonthSales(salesTransactions, selectedMonth))| ==>
        !Resolves(catalog, Flatten(MonthSales(salesTransactions, selectedMonth))[i].product)
  {
    var filtered := MonthSales(salesTransactions, selectedMonth);
    var productSales := CountMonthSales(catalog, filtered);
    top := SortedByQuantity(productSales);
    RankingMeaning(catalog, Flatten(filtered), top);
  }

  /** The nested loops of `topSalesProducts` that fill `productSales`. */
  method CountMonthSales(catalog: map<ObjectId, Product>, filtered: seq<SaleTransaction>)
    returns (productSales: map<ObjectId, int>)
    ensures productSales == Tally(catalog, Flatten(filtered))
  {
    productSales := map[];
    var i := 0;
    while i < |filtered|
      invariant 0 <= i <= |filtered|
      invariant productSales == Tally(catalog, Flatten(filtered[..i]))
    {
      productSales := CountSaleItems(catalog, productSales, Flatten(filtered[..i]), filtered[i].items);
      assert filtered[..i + 1][..i] == filtered[..i];
      i := i + 1;
    }
    assert filtered[..i] == filtered;
  }

  /** The inner loop: one transaction's lines counted into `productSales`,
      which already holds the count of the lines `counted`. */
  method CountSaleItems(catalog: map<ObjectId, Product>, productSales: map<ObjectId, int>,
                        ghost counted: seq<SaleItem>, saleItems: seq<SaleItem>)
    returns (r: map<ObjectId, int>)
    requires productSales == Tally(catalog, counted)
    ensures r == Tally(catalog, counted + saleItems)
  {
    r := productSales;
    var j := 0;
    assert counted + saleItems[..0] == counted;
    while j < |saleItems|
      invariant 0 <= j <= |saleItems|
      invariant r == Tally(catalog, counted + saleItems[..j])
    {
      var item := saleItems[j];
      TallySnoc(catalog, counted + saleItems[..j], item);
      assert counted + saleItems[..j + 1] == counted + saleItems[..j] + [item];
      if item.product.Some? && item.product.value in catalog {
        var product := item.product.value;
        r := r[product := (if product in r then r[product] else 0) + item.quantity];
      }
      j := j + 1;
    }
    assert saleItems[..j] == saleItems;
  }

  /** `productSales.sorted { $0.value > $1.value }`, as repeated selection of
      a remaining entry with the most units. */
  method SortedByQuantity(productSales: map<ObjectId, int>) returns (top: seq<TopSale>)
    ensures RanksByQuantity(top, productSales)
  {
    top := [];
    var remaining := productSales.Keys;
    while remaining != {}
      invariant PartialRanking(top, remaining, productSales)
      decreases |remaining|
    {
      MaxExists(productSales, remaining);
      var k :| k in remaining && forall k' :: k' in remaining ==> productSales[k'] <= productSales[k];
      ExtendRanking(top, remaining, productSales, k);
      top := top + [TopSale(k, productSales[k])];
      remaining := remaining - {k};
    }
  }

  /** The invariant of the selection loop: `top` ranks the entries not in
      `remaining`, and none of them has fewer units than a remaining one. */
  predicate PartialRanking(top: seq<TopSale>, remaining: set<ObjectId>, tally: map<ObjectId, int>) {
    && remaining <= tally.Keys
    && (forall i :: 0 <= i < |top| ==>
          top[i].product in tally && top[i].quantity == tally[top[i].product] && top[i].product !in remaining)
    && (forall k :: k in tally && k !in remaining ==> exists i :: 0 <= i < |top| && top[i].product == k)
    && (forall i, j :: 0 <= i < j < |top| ==> top[i].product != top[j].product)
    && (forall i, j :: 0 <= i < j < |top| ==> top[i].quantity >= top[j].quantity)
    && (forall i, k :: 0 <= i < |top| && k in remaining ==> top[i].quantity >= tally[k])
  }

  // ----- properties -----

  /** Moving a remaining entry with the most units to the end of the list
      keeps the selection invariant. */
  lemma ExtendRanking(top: seq<TopSale>, remaining: set<ObjectId>, tally: map<ObjectId, int>, k: ObjectId)
    requires PartialRanking(top, remaining, tally)
    requires k in remaining && forall k' :: k' in remaining ==> tally[k'] <= tally[k]
    ensures PartialRanking(top + [TopSale(k, tally[k])], remaining - {k}, tally)
  {
    ExtendedEntries(top, remaining, tally, k);
    ExtendedOrder(top, remaining, tally, k);
  }

  /** The entries part of `ExtendRanking`. */
  lemma ExtendedEntries(top: seq<TopSale>, remaining: set<ObjectId>, tally: map<ObjectId, int>, k: ObjectId)
    requires PartialRanking(top, remaining, tally)
    requires k in remaining
    ensures var top' := top + [TopSale(k, tally[k])];
      && (forall i :: 0 <= i < |top'| ==>
            top'[i].product in tally && top'[i].quantity == tally[top'[i].product] && top'[i].product !in remaining - {k})
      && (forall k0 :: k0 in tally && k0 !in remaining - {k} ==> exists i :: 0 <= i < |top'| && top'[i].product == k0)
  {
    var top' := top + [TopSale(k, tally[k])];
    assert forall i :: 0 <= i < |top| ==> top'[i] == top[i];
    forall k0 | k0 in tally && k0 !in remaining - {k}
      ensures exists i :: 0 <= i < |top'| && top'[i].product == k0
    {
      if k0 == k {
        assert top'[|top|].product == k0;
      } else {
        var i :| 0 <= i < |top| && top[i].product == k0;
        assert top'[i].product == k0;
      }
    }
  }

  /** The ordering part of `ExtendRanking`. */
  lemma ExtendedOrder(top: seq<TopSale>, remaining: set<ObjectId>, tally: map<ObjectId, int>, k: ObjectId)
    requires PartialRanking(top, remaining, tally)
    requires k in remaining && forall k' :: k' in remaining ==> tally[k'] <= tally[k]
    ensures var top' := top + [TopSale(k, tally[k])];
      && (forall i, j :: 0 <= i < j < |top'| ==> top'[i].product != top'[j].product)
      && (forall i, j :: 0 <= i < j < |top'| ==> top'[i].quantity >= top'[j].quantity)
      && (forall i, k0 :: 0 <= i < |top'| && k0 in remaining - {k} ==> top'[i].quantity >= tally[k0])
  {
    var top' := top + [TopSale(k, tally[k])];
    assert forall i :: 0 <= i < |top| ==> top'[i] == top[i];
  }

  /** A finite non-empty set of products has one with the most units. */
  lemma {:induction false} MaxExists(tally: map<ObjectId, int>, keys: set<ObjectId>)
    requires keys != {} && keys <= tally.Keys
    ensures exists k :: k in keys && forall k' :: k' in keys ==> tally[k'] <= tally[k]
    decreases |keys|
  {
    var x :| x in keys;
    if keys != {x} {
      var rest := keys - {x};
      MaxExists(tally, rest);
      var m :| m in rest && forall k' :: k' in rest ==> tally[k'] <= tally[m];
      if tally[x] < tally[m] {
        assert forall k' :: k' in keys ==> tally[k'] <= tally[m];
      } else {
        assert forall k' :: k' in keys ==> tally[k'] <= tally[x];
      }
    } else {
      assert forall k' :: k' in keys ==> tally[k'] <= tally[x];
    }
  }

  lemma TallySnoc(catalog: map<ObjectId, Product>, items: seq<SaleItem>, item: SaleItem)
    ensures Tally(catalog, items + [item]) == Count(catalog, Tally(catalog, items), item)
  {
    assert (items + [item])[..|items|] == items;
  }

  /** The dictionary holds exactly the live products some line names. */
  lemma {:induction false} TallyKeys(catalog: map<ObjectId, Product>, items: seq<SaleItem>)
    ensures forall k :: k in Tally(catalog, items) <==>
      (k in catalog && exists i :: 0 <= i < |items| && items[i].product == Some(k))
    decreases |items|
  {
    if items != [] {
      var rest := items[..|items| - 1];
      var last := items[|items| - 1];
      TallyKeys(catalog, rest);
      forall k
        ensures k in Tally(catalog, items) <==> (k in catalog && exists i :: 0 <= i < |items| && items[i].product == Some(k))
      {
        if k in catalog && (exists i :: 0 <= i < |items| && items[i].product == Some(k)) {
          var i :| 0 <= i < |items| && items[i].product == Some(k);
          if i < |rest| {
            assert rest[i].product == Some(k);
          }
        }
        if k in Tally(catalog, rest) {
          var i :| 0 <= i < |rest| && rest[i].product == Some(k);
          assert items[i].product == Some(k);
        }
      }
    }
  }

  /** Each entry of the dictionary is the units its product's lines carry. */
  lemma {:induction false} TallyUnits(catalog: map<ObjectId, Product>, items: seq<SaleItem>)
    ensures forall k :: k in Tally(catalog, items) ==> Tally(catalog, items)[k] == UnitsOf(k, items)
    decreases |items|
  {
    if items != [] {
      var rest := items[..|items| - 1];
      var last := items[|items| - 1];
      TallyUnits(catalog, rest);
      TallyKeys(catalog, rest);
      if Resolves(catalog, last.product) && last.product.value !in Tally(catalog, rest) {
        UnitsOfUnnamed(last.product.value, rest);
      }
    }
  }

  /** A product no line names has no units. */
  lemma {:induction false} UnitsOfUnnamed(k: ObjectId, items: seq<SaleItem>)
    requires forall i :: 0 <= i < |items| ==> items[i].product != Some(k)
    ensures UnitsOf(k, items) == 0
    decreases |items|
  {
    if items != [] {
      UnitsOfUnnamed(k, items[..|items| - 1]);
    }
  }

  /** Read back through the tally, a ranking of the month's lines lists each
      live product some line names, with the units of its lines, and is
      empty exactly when no line names a live product, which is when the
      "no sales data" text shows. */
  lemma RankingMeaning(catalog: map<ObjectId, Product>, items: seq<SaleItem>, top: seq<TopSale>)
    requires RanksByQuantity(top, Tally(catalog, items))
    ensures forall i :: 0 <= i < |top| ==> top[i].product in catalog && top[i].quantity == UnitsOf(top[i].product, items)
    ensures forall i :: 0 <= i < |items| && Resolves(catalog, items[i].product) ==>
      exists j :: 0 <= j < |top| && top[j].product == items[i].product.value
    ensures top == [] <==> forall i :: 0 <= i < |items| ==> !Resolves(catalog, items[i].product)
  {
    TallyKeys(catalog, items);
    TallyUnits(catalog, items);
    forall i | 0 <= i < |items| && Resolves(catalog, items[i].product)
      ensures exists j :: 0 <= j < |top| && top[j].product == items[i].product.value
    {
      assert items[i].product.value in Tally(catalog, items);
    }
    if top != [] {
      var k := top[0].product;
      var i :| 0 <= i < |items| && items[i].product == Some(k);
      assert Resolves(catalog, items[i].product);
    }
  }
}
