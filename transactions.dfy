/**
 * TransactionService (Mainven/Services/TransactionService.swift): saving a
 * new or edited purchase or sale transaction. An edit first reverts the
 * old lines' effect on stock, then deletes them, then applies and records
 * the new lines; a new transaction gets a fresh identifier.
 */
module Transactions {
  import opened Wrappers
  import opened Model
  import opened Store
  import opened Ledger

  /** The value of `transactionID` a save leaves on a transaction. */
  predicate IsExisting<T>(table: map<ObjectId, T>, transactionID: Option<ObjectId>) {
    transactionID.Some? && transactionID.value in table
  }

  /** The lines of the transaction being edited; none for a new one. */
  function OldPurchaseItems(purchases: map<ObjectId, PurchaseTransaction>, transactionID: Option<ObjectId>): seq<PurchaseItem> {
    if IsExisting(purchases, transactionID) then purchases[transactionID.value].items else []
  }

  function OldSaleItems(sales: map<ObjectId, SaleTransaction>, transactionID: Option<ObjectId>): seq<SaleItem> {
    if IsExisting(sales, transactionID) then sales[transactionID.value].items else []
  }

  /** What one pass of `addNewPurchaseItems` records: the line itself when
      its product is live. */
  function RecordedPurchaseLine(live: set<ObjectId>, item: PurchaseItem): seq<PurchaseItem> {
    if item.product.Some? && item.product.value in live then [item] else []
  }

  /** What one pass of `addNewSaleItems` records: a sale line carrying the
      product's minimum sale price when the product is live. */
  function RecordedSaleLine(ps: map<ObjectId, Product>, item: SaleItemData): seq<SaleItem> {
    if Resolves(ps, item.product)
    then [SaleItem(item.product, item.quantity, item.customSalePrice, ps[item.product.value].minimumSalePrice, 0.0)]
    else []
  }

  /** The purchase lines `addNewPurchaseItems` records: those with a live
      product, unchanged. */
  function RecordedPurchaseItems(live: set<ObjectId>, items: seq<PurchaseItem>): (r: seq<PurchaseItem>)
    ensures forall i :: 0 <= i < |r| ==> r[i] in items && r[i].product.Some? && r[i].product.value in live
    ensures forall i :: 0 <= i < |items| && items[i].product.Some? && items[i].product.value in live ==> items[i] in r
    decreases |items|
  {
    if items == [] then []
    else
      RecordedPurchaseItems(live, items[..|items| - 1]) + RecordedPurchaseLine(live, items[|items| - 1])
  }

  /** The sale lines `addNewSaleItems` records: one per input line with a
      live product, carrying the product's minimum sale price. */
  function RecordedSaleItems(ps: map<ObjectId, Product>, items: seq<SaleItemData>): (r: seq<SaleItem>)
    ensures |r| == LiveLines(ps, items)
    ensures forall i :: 0 <= i < |r| ==>
      (Resolves(ps, r[i].product) && r[i].minimumSalePrice == ps[r[i].product.value].minimumSalePrice && r[i].salePrice == 0.0)
    decreases |items|
  {
    if items == [] then []
    else
      RecordedSaleItems(ps, items[..|items| - 1]) + RecordedSaleLine(ps, items[|items| - 1])
  }

  class TransactionService {
    const viewContext: Context

    constructor (context: Context)
      ensures viewContext == context
    {
      viewContext := context;
    }

    // ----- purchases -----

    method SavePurchaseTransaction(transactionID: Option<ObjectId>, supplier: ContactId, date: Date, note: string,
                                   items: seq<PurchaseItem>)
      returns (key: ObjectId)
      requires viewContext.Valid()
      requires PurchasesDefined(RevertPurchases(viewContext.products, OldPurchaseItems(viewContext.purchases, transactionID)), items)
      modifies viewContext
      ensures viewContext.Valid()
      ensures key in viewContext.purchases
      ensures IsExisting(old(viewContext.purchases), transactionID) ==>
        key == transactionID.value && viewContext.purchases[key].transactionID == old(viewContext.purchases[key].transactionID)
      ensures !IsExisting(old(viewContext.purchases), transactionID) ==>
        key !in old(viewContext.purchases) && key !in old(viewContext.products) && key !in old(viewContext.sales)
        && FreshPurchaseID(old(viewContext.purchases), viewContext.purchases[key].transactionID)
      ensures viewContext.purchases == old(viewContext.purchases)[key := PurchaseTransaction(
        viewContext.purchases[key].transactionID, Some(date), Some(note), Some(supplier),
        RecordedPurchaseItems(old(viewContext.products).Keys, items))]
      ensures viewContext.products == ApplyPurchases(
        RevertPurchases(old(viewContext.products), OldPurchaseItems(old(viewContext.purchases), transactionID)), items)
      ensures viewContext.sales == old(viewContext.sales)
    {
      key := OpenPurchaseTransaction(transactionID, supplier, date, note);
      ghost var header := viewContext.purchases[key];
      ghost var recorded := RecordedPurchaseItems(old(viewContext.products).Keys, items);
      ClearExistingPurchaseItems(key);
      UpdateTwice(old(viewContext.purchases), key, header, header.(items := []));
      AddNewPurchaseItems(items, key);
      assert [] + recorded == recorded;
      UpdateTwice(old(viewContext.purchases), key, header.(items := []), header.(items := recorded));
    }

    /** The part of `savePurchaseTransaction` before the lines are replaced: the
        transaction being edited has its old lines' stock reverted; otherwise
        a new one is inserted. Either way date, note and supplier are set. */
    method OpenPurchaseTransaction(transactionID: Option<ObjectId>, supplier: ContactId, date: Date, note: string)
      returns (key: ObjectId)
      requires viewContext.Valid()
      modifies viewContext
      ensures viewContext.Valid()
      ensures key in viewContext.purchases
      ensures IsExisting(old(viewContext.purchases), transactionID) ==>
        key == transactionID.value && viewContext.purchases[key].transactionID == old(viewContext.purchases[key].transactionID)
      ensures !IsExisting(old(viewContext.purchases), transactionID) ==>
        key !in old(viewContext.purchases) && key !in old(viewContext.products) && key !in old(viewContext.sales)
        && FreshPurchaseID(old(viewContext.purchases), viewContext.purchases[key].transactionID)
      ensures viewContext.purchases == old(viewContext.purchases)[key := PurchaseTransaction(
        viewContext.purchases[key].transactionID, Some(date), Some(note), Some(supplier),
        OldPurchaseItems(old(viewContext.purchases), transactionID))]
      ensures viewContext.products == RevertPurchases(old(viewContext.products), OldPurchaseItems(old(viewContext.purchases), transactionID))
      ensures viewContext.sales == old(viewContext.sales)
    {
      if IsExisting(viewContext.purchases, transactionID) {
        key := transactionID.value;
        RevertOldPurchaseStock(key);
      } else {
        var uuid;
        key, uuid := InsertPurchaseTransaction();
      }
      var t := viewContext.purchases[key];
      viewContext.purchases := viewContext.purchases[key := t.(date := Some(date), note := Some(note), supplier := Some(supplier))];
    }

    /** `TransactionPurchase(context:)` followed by `transactionID = UUID()`: a new,
        empty transaction under a fresh key with a fresh identifier. */
    method InsertPurchaseTransaction() returns (key: ObjectId, uuid: Uuid)
      requires viewContext.Valid()
      modifies viewContext`purchases, viewContext`nextId
      ensures viewContext.Valid()
      ensures key !in old(viewContext.purchases) && key !in viewContext.products && key !in viewContext.sales
      ensures viewContext.purchases == old(viewContext.purchases)[key := PurchaseTransaction(Some(uuid), None, None, None, [])]
      ensures FreshPurchaseID(old(viewContext.purchases), Some(uuid))
    {
      key := viewContext.FreshId();
      viewContext.purchases := viewContext.purchases[key := PurchaseTransaction(None, None, None, None, [])];
      uuid := viewContext.FreshId();
      viewContext.purchases := viewContext.purchases[key := viewContext.purchases[key].(transactionID := Some(uuid))];
    }

    /** The purchase `revertOldStockChanges(for:)`. */
    method RevertOldPurchaseStock(key: ObjectId)
      requires viewContext.Valid() && key in viewContext.purchases
      modifies viewContext`products
      ensures viewContext.Valid()
      ensures viewContext.products == RevertPurchases(old(viewContext.products), viewContext.purchases[key].items)
    {
      var oldItems := viewContext.purchases[key].items;
      var i := 0;
      while i < |oldItems|
        invariant 0 <= i <= |oldItems|
        invariant viewContext.Valid()
        invariant RevertPurchases(viewContext.products, oldItems[i..]) == RevertPurchases(old(viewContext.products), oldItems)
      {
        var item := oldItems[i];
        assert oldItems[i..][0] == item && oldItems[i..][1..] == oldItems[i + 1..];
        if item.product.Some? && item.product.value in viewContext.products {
          var k := item.product.value;
          viewContext.products := viewContext.products[k := RevertPurchase(viewContext.products[k], item.quantity, item.costPrice)];
        }
        i := i + 1;
      }
    }

    /** `clearExistingPurchaseItems(for:)`: delete every line of the transaction. */
    method ClearExistingPurchaseItems(key: ObjectId)
      requires viewContext.Valid() && key in viewContext.purchases
      modifies viewContext`purchases
      ensures viewContext.Valid()
      ensures viewContext.purchases == old(viewContext.purchases)[key := old(viewContext.purchases[key]).(items := [])]
    {
      var existing := viewContext.purchases[key].items;
      while |viewContext.purchases[key].items| > 0
        invariant viewContext.Valid() && key in viewContext.purchases
        invariant viewContext.purchases == old(viewContext.purchases)[key := old(viewContext.purchases[key]).(items := viewContext.purchases[key].items)]
        invariant viewContext.purchases[key].items == existing[|existing| - |viewContext.purchases[key].items|..]
        decreases |viewContext.purchases[key].items|
      {
        var t := viewContext.purchases[key];
        viewContext.purchases := viewContext.purchases[key := t.(items := t.items[1..])];
      }
    }

    /** `addNewPurchaseItems(_:to:)`. */
    method AddNewPurchaseItems(items: seq<PurchaseItem>, key: ObjectId)
      requires viewContext.Valid() && key in viewContext.purchases
      requires PurchasesDefined(viewContext.products, items)
      modifies viewContext`products, viewContext`purchases
      ensures viewContext.Valid()
      ensures viewContext.products == ApplyPurchases(old(viewContext.products), items)
      ensures viewContext.purchases == old(viewContext.purchases)[key := old(viewContext.purchases[key]).(
        items := old(viewContext.purchases[key]).items + RecordedPurchaseItems(old(viewContext.products).Keys, items))]
    {
      ghost var live := viewContext.products.Keys;
      ghost var t0 := viewContext.purchases[key];
      var i := 0;
      assert items[..0] == [] && t0.items + [] == t0.items;
      while i < |items|
        invariant 0 <= i <= |items|
        invariant viewContext.Valid()
        invariant viewContext.products.Keys == live
        invariant PurchasesDefined(viewContext.products, items[i..])
        invariant ApplyPurchases(viewContext.products, items[i..]) == ApplyPurchases(old(viewContext.products), items)
        invariant viewContext.purchases == old(viewContext.purchases)[key := t0.(items := t0.items + RecordedPurchaseItems(live, items[..i]))]
      {
        AddNewPurchaseItemAt(items, i, key, old(viewContext.purchases), live, t0);
        i := i + 1;
      }
      assert items[..i] == items;
    }

    /** The loop of `addNewPurchaseItems` at line `i`: the lines before `i`
        are applied and recorded on `t0` in `purchases0`; afterwards line `i`
        is too. */
    method AddNewPurchaseItemAt(items: seq<PurchaseItem>, i: nat, key: ObjectId,
                                ghost purchases0: map<ObjectId, PurchaseTransaction>, ghost live: set<ObjectId>,
                                ghost t0: PurchaseTransaction)
      requires i < |items|
      requires viewContext.Valid() && viewContext.products.Keys == live
      requires PurchasesDefined(viewContext.products, items[i..])
      requires viewContext.purchases == purchases0[key := t0.(items := t0.items + RecordedPurchaseItems(live, items[..i]))]
      modifies viewContext`products, viewContext`purchases
      ensures viewContext.Valid() && viewContext.products.Keys == live
      ensures PurchasesDefined(viewContext.products, items[i + 1..])
      ensures ApplyPurchases(viewContext.products, items[i + 1..]) == ApplyPurchases(old(viewContext.products), items[i..])
      ensures viewContext.purchases == purchases0[key := t0.(items := t0.items + RecordedPurchaseItems(live, items[..i + 1]))]
    {
      var itemData := items[i];
      ApplyPurchasesStep(viewContext.products, items, i);
      ghost var recorded := RecordedPurchaseItems(live, items[..i]);
      ghost var extra := RecordedPurchaseLine(live, itemData);
      RecordedPurchaseItemsSnoc(live, items, i);
      AddNewPurchaseItem(itemData, key);
      assert t0.items + recorded + extra == t0.items + (recorded + extra);
    }

    /** One pass of the loop in `addNewPurchaseItems`: a line whose product
        is gone is skipped; otherwise the product's cost is updated and the
        line is recorded on the transaction. */
    method AddNewPurchaseItem(itemData: PurchaseItem, key: ObjectId)
      requires viewContext.Valid() && key in viewContext.purchases
      requires PurchaseLineDefined(viewContext.products, itemData)
      modifies viewContext`products, viewContext`purchases
      ensures viewContext.Valid()
      ensures viewContext.products == ApplyPurchaseLine(old(viewContext.products), itemData)
      ensures viewContext.purchases == old(viewContext.purchases)[key := old(viewContext.purchases[key]).(
        items := old(viewContext.purchases[key]).items
                 + RecordedPurchaseLine(old(viewContext.products).Keys, itemData))]
    {
      if itemData.product.Some? && itemData.product.value in viewContext.products {
        UpdateProductCost(itemData.product.value, itemData);
        var t := viewContext.purchases[key];
        viewContext.purchases := viewContext.purchases[key := t.(items := t.items + [itemData])];
      } else {
        assert old(viewContext.purchases[key]).items + [] == old(viewContext.purchases[key]).items;
      }
    }

    /** `updateProductCost(for:with:)`. */
    method UpdateProductCost(k: ObjectId, itemData: PurchaseItem)
      requires viewContext.Valid() && k in viewContext.products
      requires PurchaseDefined(viewContext.products[k], itemData.quantity)
      modifies viewContext`products
      ensures viewContext.Valid()
      ensures viewContext.products == old(viewContext.products)[k := ApplyPurchase(old(viewContext.products[k]), itemData.quantity, itemData.costPrice)]
    {
      var product := viewContext.products[k];
      var oldQuantity := product.stockQuantity;
      var oldCostPrice := product.costPrice;
      var newQuantity := itemData.quantity;
      var newCostPrice := itemData.costPrice;
      var cost := if oldQuantity == 0 then newCostPrice
                  else (oldQuantity as real * oldCostPrice + newQuantity as real * newCostPrice) / (oldQuantity as real + newQuantity as real);
      var quantity := oldQuantity + newQuantity;
      viewContext.products := viewContext.products[k := product.(costPrice := cost, stockQuantity := quantity, stockValue := cost * quantity as real)];
      assert viewContext.products[k] == ApplyPurchase(product, itemData.quantity, itemData.costPrice);
    }

    // ----- sales -----

    method SaveSalesTransaction(transactionID: Option<ObjectId>, customer: ContactId, date: Date, note: string,
                                items: seq<SaleItemData>)
      returns (key: ObjectId)
      requires viewContext.Valid()
      modifies viewContext
      ensures viewContext.Valid()
      ensures key in viewContext.sales
      ensures IsExisting(old(viewContext.sales), transactionID) ==>
        key == transactionID.value && viewContext.sales[key].transactionID == old(viewContext.sales[key].transactionID)
      ensures !IsExisting(old(viewContext.sales), transactionID) ==>
        key !in old(viewContext.sales) && key !in old(viewContext.products) && key !in old(viewContext.purchases)
        && FreshSaleID(old(viewContext.sales), viewContext.sales[key].transactionID)
      ensures viewContext.sales == old(viewContext.sales)[key := SaleTransaction(
        viewContext.sales[key].transactionID, Some(date), Some(note), Some(customer),
        RecordedSaleItems(old(viewContext.products), items))]
      ensures viewContext.products == ApplySales(
        RevertSales(old(viewContext.products), OldSaleItems(old(viewContext.sales), transactionID)), items)
      ensures viewContext.purchases == old(viewContext.purchases)
    {
      key := OpenSaleTransaction(transactionID, customer, date, note);
      ghost var header := viewContext.sales[key];
      ghost var recorded := RecordedSaleItems(old(viewContext.products), items);
      RecordedSaleItemsSameListing(old(viewContext.products), viewContext.products, items);
      ClearExistingSaleItems(key);
      UpdateTwice(old(viewContext.sales), key, header, header.(items := []));
      AddNewSaleItems(items, key);
      assert [] + recorded == recorded;
      UpdateTwice(old(viewContext.sales), key, header.(items := []), header.(items := recorded));
    }

    /** The part of `saveSalesTransaction` before the lines are replaced: the
        transaction being edited has its old lines' stock reverted; otherwise
        a new one is inserted. Either way date, note and customer are set. */
    method OpenSaleTransaction(transactionID: Option<ObjectId>, customer: ContactId, date: Date, note: string)
      returns (key: ObjectId)
      requires viewContext.Valid()
      modifies viewContext
      ensures viewContext.Valid()
      ensures key in viewContext.sales
      ensures IsExisting(old(viewContext.sales), transactionID) ==>
        key == transactionID.value && viewContext.sales[key].transactionID == old(viewContext.sales[key].transactionID)
      ensures !IsExisting(old(viewContext.sales), transactionID) ==>
        key !in old(viewContext.sales) && key !in old(viewContext.products) && key !in old(viewContext.purchases)
        && FreshSaleID(old(viewContext.sales), viewContext.sales[key].transactionID)
      ensures viewContext.sales == old(viewContext.sales)[key := SaleTransaction(
        viewContext.sales[key].transactionID, Some(date), Some(note), Some(customer),
        OldSaleItems(old(viewContext.sales), transactionID))]
      ensures viewContext.products == RevertSales(old(viewContext.products), OldSaleItems(old(viewContext.sales), transactionID))
      ensures viewContext.purchases == old(viewContext.purchases)
    {
      if IsExisting(viewContext.sales, transactionID) {
        key := transactionID.value;
        RevertOldSaleStock(key);
      } else {
        var uuid;
        key, uuid := InsertSaleTransaction();
      }
      var t := viewContext.sales[key];
      viewContext.sales := viewContext.sales[key := t.(date := Some(date), note := Some(note), customer := Some(customer))];
    }

    /** `TransactionSale(context:)` followed by `transactionID = UUID()`: a new,
        empty transaction under a fresh key with a fresh identifier. */
    method InsertSaleTransaction() returns (key: ObjectId, uuid: Uuid)
      requires viewContext.Valid()
      modifies viewContext`sales, viewContext`nextId
      ensures viewContext.Valid()
      ensures key !in old(viewContext.sales) && key !in viewContext.products && key !in viewContext.purchases
      ensures viewContext.sales == old(viewContext.sales)[key := SaleTransaction(Some(uuid), None, None, None, [])]
      ensures FreshSaleID(old(viewContext.sales), Some(uuid))
    {
      key := viewContext.FreshId();
      viewContext.sales := viewContext.sales[key := SaleTransaction(None, None, None, None, [])];
      uuid := viewContext.FreshId();
      viewContext.sales := viewContext.sales[key := viewContext.sales[key].(transactionID := Some(uuid))];
    }

    /** The sale `revertOldStockChanges(for:)`. */
    method RevertOldSaleStock(key: ObjectId)
      requires viewContext.Valid() && key in viewContext.sales
      modifies viewContext`products
      ensures viewContext.Valid()
      ensures viewContext.products == RevertSales(old(viewContext.products), viewContext.sales[key].items)
    {
      var oldItems := viewContext.sales[key].items;
      var i := 0;
      while i < |oldItems|
        invariant 0 <= i <= |oldItems|
        invariant viewContext.Valid()
        invariant RevertSales(viewContext.products, oldItems[i..]) == RevertSales(old(viewContext.products), oldItems)
      {
        var item := oldItems[i];
        assert oldItems[i..][0] == item && oldItems[i..][1..] == oldItems[i + 1..];
        if item.product.Some? && item.product.value in viewContext.products {
          var k := item.product.value;
          viewContext.products := viewContext.products[k := RevertSale(viewContext.products[k], item.quantity)];
        }
        i := i + 1;
      }
    }

    /** `clearExistingSaleItems(for:)`. */
    method ClearExistingSaleItems(key: ObjectId)
      requires viewContext.Valid() && key in viewContext.sales
      modifies viewContext`sales
      ensures viewContext.Valid()
      ensures viewContext.sales == old(viewContext.sales)[key := old(viewContext.sales[key]).(items := [])]
    {
      var existing := viewContext.sales[key].items;
      while |viewContext.sales[key].items| > 0
        invariant viewContext.Valid() && key in viewContext.sales
        invariant viewContext.sales == old(viewContext.sales)[key := old(viewContext.sales[key]).(items := viewContext.sales[key].items)]
        invariant viewContext.sales[key].items == existing[|existing| - |viewContext.sales[key].items|..]
        decreases |viewContext.sales[key].items|
      {
        var t := viewContext.sales[key];
        viewContext.sales := viewContext.sales[key := t.(items := t.items[1..])];
      }
    }

    /** One pass of the loop in `addNewSaleItems`: a line whose product is
        gone is skipped; otherwise the product's stock goes down and a sale
        line carrying the product's minimum sale price is recorded. */
    method AddNewSaleItem(itemData: SaleItemData, key: ObjectId)
      requires viewContext.Valid() && key in viewContext.sales
      modifies viewContext`products, viewContext`sales
      ensures viewContext.Valid()
      ensures viewContext.products == ApplySaleLine(old(viewContext.products), itemData)
      ensures viewContext.sales == old(viewContext.sales)[key := old(viewContext.sales[key]).(
        items := old(viewContext.sales[key]).items
                 + RecordedSaleLine(old(viewContext.products), itemData))]
    {
      if itemData.product.Some? && itemData.product.value in viewContext.products {
        var k := itemData.product.value;
        var product := viewContext.products[k];
        viewContext.products := viewContext.products[k := ApplySale(product, itemData.quantity)];
        var newSaleItem := SaleItem(itemData.product, itemData.quantity, itemData.customSalePrice, product.minimumSalePrice, 0.0);
        var t := viewContext.sales[key];
        viewContext.sales := viewContext.sales[key := t.(items := t.items + [newSaleItem])];
      } else {
        assert old(viewContext.sales[key]).items + [] == old(viewContext.sales[key]).items;
      }
    }

    /** The loop of `addNewSaleItems` at line `i`, against the table
        `listing` it started from. */
    method AddNewSaleItemAt(items: seq<SaleItemData>, i: nat, key: ObjectId,
                            ghost sales0: map<ObjectId, SaleTransaction>, ghost listing: map<ObjectId, Product>,
                            ghost t0: SaleTransaction)
      requires i < |items|
      requires viewContext.Valid() && StockOnlyChanges(listing, viewContext.products)
      requires viewContext.sales == sales0[key := t0.(items := t0.items + RecordedSaleItems(listing, items[..i]))]
      modifies viewContext`products, viewContext`sales
      ensures viewContext.Valid() && StockOnlyChanges(listing, viewContext.products)
      ensures ApplySales(viewContext.products, items[i + 1..]) == ApplySales(old(viewContext.products), items[i..])
      ensures viewContext.sales == sales0[key := t0.(items := t0.items + RecordedSaleItems(listing, items[..i + 1]))]
    {
      var itemData := items[i];
      ApplySalesStep(viewContext.products, items, i);
      ghost var recorded := RecordedSaleItems(listing, items[..i]);
      ghost var extra := RecordedSaleLine(listing, itemData);
      RecordedSaleItemsSnoc(listing, items, i);
      RecordedSaleLineSameListing(listing, viewContext.products, itemData);
      AddNewSaleItem(itemData, key);
      assert t0.items + recorded + extra == t0.items + (recorded + extra);
    }

    /** `addNewSaleItems(_:to:)`. */
    method AddNewSaleItems(items: seq<SaleItemData>, key: ObjectId)
      requires viewContext.Valid() && key in viewContext.sales
      modifies viewContext`products, viewContext`sales
      ensures viewContext.Valid()
      ensures viewContext.products == ApplySales(old(viewContext.products), items)
      ensures viewContext.sales == old(viewContext.sales)[key := old(viewContext.sales[key]).(
        items := old(viewContext.sales[key]).items + RecordedSaleItems(old(viewContext.products), items))]
    {
      ghost var listing := viewContext.products;
      ghost var t0 := viewContext.sales[key];
      var i := 0;
      assert items[..0] == [] && t0.items + [] == t0.items;
      while i < |items|
        invariant 0 <= i <= |items|
        invariant viewContext.Valid()
        invariant StockOnlyChanges(listing, viewContext.products)
        invariant ApplySales(viewContext.products, items[i..]) == ApplySales(listing, items)
        invariant viewContext.sales == old(viewContext.sales)[key := t0.(items := t0.items + RecordedSaleItems(listing, items[..i]))]
      {
        AddNewSaleItemAt(items, i, key, old(viewContext.sales), listing, t0);
        i := i + 1;
      }
      assert items[..i] == items;
    }
  }

  lemma RecordedPurchaseItemsSnoc(live: set<ObjectId>, items: seq<PurchaseItem>, i: nat)
    requires i < |items|
    ensures RecordedPurchaseItems(live, items[..i + 1])
      == RecordedPurchaseItems(live, items[..i])
         + RecordedPurchaseLine(live, items[i])
  {
    assert items[..i + 1][..i] == items[..i];
  }

  lemma RecordedSaleItemsSnoc(ps: map<ObjectId, Product>, items: seq<SaleItemData>, i: nat)
    requires i < |items|
    ensures RecordedSaleItems(ps, items[..i + 1])
      == RecordedSaleItems(ps, items[..i])
         + RecordedSaleLine(ps, items[i])
  {
    assert items[..i + 1][..i] == items[..i];
  }

  /** Every input line with a live product is recorded as often as it
      occurs, and no other line is. */
  lemma {:induction false} RecordedPurchaseItemsCount(live: set<ObjectId>, items: seq<PurchaseItem>)
    ensures forall x :: multiset(RecordedPurchaseItems(live, items))[x]
                        == if x.product.Some? && x.product.value in live then multiset(items)[x] else 0
    decreases |items|
  {
    if items != [] {
      var rest := items[..|items| - 1];
      var last := items[|items| - 1];
      assert items == rest + [last];
      RecordedPurchaseItemsCount(live, rest);
      assert RecordedPurchaseItems(live, items) == RecordedPurchaseItems(live, rest) + RecordedPurchaseLine(live, last);
    } else {
      assert RecordedPurchaseItems(live, items) == [];
    }
  }

  /** `addNewSaleItems` records each input line with a live product once,
      with its own product, quantity and custom price: a stored line occurs
      as often as the input line it copies, and a line not of that shape
      never occurs. */
  lemma {:induction false} RecordedSaleItemsCount(ps: map<ObjectId, Product>, items: seq<SaleItemData>)
    ensures forall s :: (multiset(RecordedSaleItems(ps, items))[s]
      == if Resolves(ps, s.product) && s.minimumSalePrice == ps[s.product.value].minimumSalePrice && s.salePrice == 0.0
         then multiset(items)[SaleItemData(s.product, s.quantity, s.customSalePrice)]
         else 0)
    decreases |items|
  {
    if items != [] {
      var rest := items[..|items| - 1];
      var last := items[|items| - 1];
      assert items == rest + [last];
      RecordedSaleItemsCount(ps, rest);
      assert RecordedSaleItems(ps, items) == RecordedSaleItems(ps, rest) + RecordedSaleLine(ps, last);
    } else {
      assert RecordedSaleItems(ps, items) == [];
    }
  }

  /** Each recorded sale line takes its product, quantity and custom price
      from an input line, and per product the recorded lines carry exactly
      the units the save takes out of its stock (`Ledger.ApplySalesAt`). */
  lemma {:induction false} RecordedSaleItemsLines(ps: map<ObjectId, Product>, items: seq<SaleItemData>)
    ensures forall i :: 0 <= i < |RecordedSaleItems(ps, items)| ==>
      SaleItemData(RecordedSaleItems(ps, items)[i].product, RecordedSaleItems(ps, items)[i].quantity,
                   RecordedSaleItems(ps, items)[i].customSalePrice) in items
    ensures forall k :: SoldQuantity(k, RecordedSaleItems(ps, items)) == if k in ps then OrderedQuantity(k, items) else 0
    decreases |items|
  {
    if items != [] {
      var rest := items[..|items| - 1];
      var last := items[|items| - 1];
      var head := RecordedSaleItems(ps, rest);
      var line := RecordedSaleLine(ps, last);
      RecordedSaleItemsLines(ps, rest);
      assert rest + [last] == items;
      var r := RecordedSaleItems(ps, items);
      assert r == head + line;
      forall i | 0 <= i < |r|
        ensures SaleItemData(r[i].product, r[i].quantity, r[i].customSalePrice) in items
      {
        if i < |head| {
          assert r[i] == head[i];
        } else {
          assert r[i] == line[0];
          assert items[|items| - 1] == last;
        }
      }
      SoldQuantityAppend(head, line);
      OrderedQuantityAppend(rest, [last]);
      forall k
        ensures SoldQuantity(k, line) == if k in ps then OrderedQuantity(k, [last]) else 0
      {
        RecordedSaleLineQuantity(ps, last, k);
      }
    } else {
      assert RecordedSaleItems(ps, items) == [];
    }
  }

  /** The lines a purchase records carry, per product, the quantity and
      value the same save adds to that product's stock
      (`Ledger.ApplyPurchasesAt`), and nothing for a product that is gone. */
  lemma {:induction false} RecordedPurchaseTotals(live: set<ObjectId>, items: seq<PurchaseItem>, k: ObjectId)
    ensures PurchasedQuantity(k, RecordedPurchaseItems(live, items)) == if k in live then PurchasedQuantity(k, items) else 0
    ensures PurchasedValue(k, RecordedPurchaseItems(live, items)) == if k in live then PurchasedValue(k, items) else 0.0
    decreases |items|
  {
    if items != [] {
      var rest := items[..|items| - 1];
      var last := items[|items| - 1];
      assert rest + [last] == items;
      RecordedPurchaseTotals(live, rest, k);
      PurchasedAppend(RecordedPurchaseItems(live, rest), RecordedPurchaseLine(live, last));
      PurchasedAppend(rest, [last]);
      RecordedPurchaseLineTotals(live, last, k);
    }
  }

  lemma RecordedPurchaseLineTotals(live: set<ObjectId>, item: PurchaseItem, k: ObjectId)
    ensures PurchasedQuantity(k, RecordedPurchaseLine(live, item)) == if k in live then PurchasedQuantity(k, [item]) else 0
    ensures PurchasedValue(k, RecordedPurchaseLine(live, item)) == if k in live then PurchasedValue(k, [item]) else 0.0
  {
    assert [item][1..] == [];
  }

  lemma RecordedSaleLineQuantity(ps: map<ObjectId, Product>, item: SaleItemData, k: ObjectId)
    ensures SoldQuantity(k, RecordedSaleLine(ps, item)) == if k in ps then OrderedQuantity(k, [item]) else 0
  {
    assert [item][1..] == [];
    var line := RecordedSaleLine(ps, item);
    if line != [] {
      assert line[1..] == [];
    }
  }

  lemma UpdateTwice<K, V>(m: map<K, V>, k: K, a: V, b: V)
    ensures m[k := a][k := b] == m[k := b]
  {
  }

  lemma RecordedSaleLineSameListing(a: map<ObjectId, Product>, b: map<ObjectId, Product>, item: SaleItemData)
    requires StockOnlyChanges(a, b)
    ensures RecordedSaleLine(a, item) == RecordedSaleLine(b, item)
  {
  }

  /** Recorded sale lines depend only on what a stock change leaves alone. */
  lemma {:induction false} RecordedSaleItemsSameListing(a: map<ObjectId, Product>, b: map<ObjectId, Product>, items: seq<SaleItemData>)
    requires StockOnlyChanges(a, b)
    ensures RecordedSaleItems(a, items) == RecordedSaleItems(b, items)
    decreases |items|
  {
    if items != [] {
      RecordedSaleItemsSameListing(a, b, items[..|items| - 1]);
    }
  }
}
