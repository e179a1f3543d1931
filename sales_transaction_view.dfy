/**
 * The sales tab (Mainven/SalesTransactionView.swift): the add-sale sheet,
 * which saves a new sale without going through the transaction service,
 * and swipe-to-delete on the listed sales. The sheet's lines carry no
 * custom price; each recorded line takes the product's sale price.
 */
module SalesTransactionView {
  import opened Wrappers
  import opened Model
  import opened Store
  import opened Ledger
  import opened ProductsTab
  import Transactions

  /** What one pass of the sheet's loop records: a line carrying the
      product's sale price when the product is live. */
  function SheetSaleLine(ps: map<ObjectId, Product>, item: SaleItemData): seq<SaleItem> {
    if Resolves(ps, item.product)
    then [SaleItem(item.product, item.quantity, None, 0.0, ps[item.product.value].salePrice)]
    else []
  }

  /** The sale lines the sheet records: one per input line with a live
      product, carrying the product's sale price. */
  function SheetSaleItems(ps: map<ObjectId, Product>, items: seq<SaleItemData>): (r: seq<SaleItem>)
    ensures |r| == LiveLines(ps, items)
    ensures forall i :: 0 <= i < |r| ==>
      Resolves(ps, r[i].product) && r[i].salePrice == ps[r[i].product.value].salePrice
      && r[i].customSalePrice.None? && r[i].minimumSalePrice == 0.0
    decreases |items|
  {
    if items == [] then []
    else
      var last := items[|items| - 1];
      SheetSaleItems(ps, items[..|items| - 1]) + SheetSaleLine(ps, last)
  }

  /** Each line the sheet records takes its product and quantity from an
      input line, and per product the recorded lines carry exactly the
      units the save takes out of its stock (`Ledger.ApplySalesAt`). */
  lemma {:induction false} SheetSaleItemsLines(ps: map<ObjectId, Product>, items: seq<SaleItemData>)
    ensures forall i :: 0 <= i < |SheetSaleItems(ps, items)| ==>
      exists j :: 0 <= j < |items| && items[j].product == SheetSaleItems(ps, items)[i].product
                  && items[j].quantity == SheetSaleItems(ps, items)[i].quantity
    ensures forall k :: SoldQuantity(k, SheetSaleItems(ps, items)) == if k in ps then OrderedQuantity(k, items) else 0
    decreases |items|
  {
    if items != [] {
      var rest := items[..|items| - 1];
      var last := items[|items| - 1];
      var head := SheetSaleItems(ps, rest);
      var line := SheetSaleLine(ps, last);
      SheetSaleItemsLines(ps, rest);
      assert rest + [last] == items;
      var r := SheetSaleItems(ps, items);
      assert r == head + line;
      forall i | 0 <= i < |r|
        ensures exists j :: 0 <= j < |items| && items[j].product == r[i].product && items[j].quantity == r[i].quantity
      {
        if i < |head| {
          assert r[i] == head[i];
          var j :| 0 <= j < |rest| && rest[j].product == head[i].product && rest[j].quantity == head[i].quantity;
          assert items[j] == rest[j];
        } else {
          assert r[i] == line[0];
          assert items[|items| - 1] == last;
        }
      }
      SoldQuantityAppend(head, line);
      OrderedQuantityAppend(rest, [last]);
      forall k
        ensures SoldQuantity(k, line) == if k in ps then OrderedQuantity(k, [last]) else 0
      {
        SheetSaleLineQuantity(ps, last, k);
      }
    } else {
      assert SheetSaleItems(ps, items) == [];
    }
  }

  /** The sheet records each input line with a live product once, with its
      own product and quantity: a stored line occurs as often as the input
      orders that quantity of that product, and a line not of the shape the
      sheet writes never occurs. */
  lemma {:induction false} SheetSaleItemsCount(ps: map<ObjectId, Product>, items: seq<SaleItemData>)
    ensures forall s :: (multiset(SheetSaleItems(ps, items))[s]
      == if Resolves(ps, s.product) && s.customSalePrice.None? && s.minimumSalePrice == 0.0
            && s.salePrice == ps[s.product.value].salePrice
         then LinesOrdering(items, s.product, s.quantity)
         else 0)
    decreases |items|
  {
    if items != [] {
      var rest := items[..|items| - 1];
      var last := items[|items| - 1];
      SheetSaleItemsCount(ps, rest);
      assert SheetSaleItems(ps, items) == SheetSaleItems(ps, rest) + SheetSaleLine(ps, last);
    } else {
      assert SheetSaleItems(ps, items) == [];
    }
  }

  lemma SheetSaleLineQuantity(ps: map<ObjectId, Product>, item: SaleItemData, k: ObjectId)
    ensures SoldQuantity(k, SheetSaleLine(ps, item)) == if k in ps then OrderedQuantity(k, [item]) else 0
  {
    assert [item][1..] == [];
    var line := SheetSaleLine(ps, item);
    if line != [] {
      assert line[1..] == [];
    }
  }

  lemma SheetSaleItemsSnoc(ps: map<ObjectId, Product>, items: seq<SaleItemData>, i: nat)
    requires i < |items|
    ensures SheetSaleItems(ps, items[..i + 1])
      == SheetSaleItems(ps, items[..i])
         + (if Resolves(ps, items[i].product)
            then [SaleItem(items[i].product, items[i].quantity, None, 0.0, ps[items[i].product.value].salePrice)]
            else [])
  {
    assert items[..i + 1][..i] == items[..i];
  }

  class SalesTransactionView {
    const viewContext: Context

    constructor (context: Context)
      ensures viewContext == context
    {
      viewContext := context;
    }

    /** `deleteSalesTransactions(offsets:)`: `salesTransactions` is the list on
        screen. The sales at the swiped offsets are deleted; no product's
        stock is given back. */
    method DeleteSalesTransactions(salesTransactions: seq<ObjectId>, offsets: set<nat>)
      requires viewContext.Valid()
      requires forall i :: i in offsets ==> i < |salesTransactions|
      modifies viewContext`sales
      ensures viewContext.Valid()
      ensures viewContext.sales == old(viewContext.sales) - AtOffsets(salesTransactions, offsets)
      ensures viewContext.products == old(viewContext.products)
    {
      var remaining := offsets;
      while remaining != {}
        invariant remaining <= offsets
        invariant viewContext.Valid()
        invariant viewContext.sales == old(viewContext.sales) - AtOffsets(salesTransactions, offsets - remaining)
        decreases |remaining|
      {
        var i :| i in remaining;
        assert AtOffsets(salesTransactions, offsets - (remaining - {i}))
            == AtOffsets(salesTransactions, offsets - remaining) + {salesTransactions[i]};
        viewContext.sales := viewContext.sales - {salesTransactions[i]};
        remaining := remaining - {i};
      }
      assert offsets - remaining == offsets;
    }
  }

  class AddSalesTransactionSheet {
    const viewContext: Context

    constructor (context: Context)
      ensures viewContext == context
    {
      viewContext := context;
    }

    /** `saveSalesTransaction()`: without a customer nothing happens;
        otherwise a new sale is inserted with a fresh identifier and the
        form's date, note and customer, each line with a live product sells
        its quantity, and a line is recorded for it. */
    method SaveSalesTransaction(selectedCustomer: Option<ContactId>, transactionDate: Date, note: string,
                                saleItems: seq<SaleItemData>)
      returns (key: Option<ObjectId>)
      requires viewContext.Valid()
      modifies viewContext`products, viewContext`sales, viewContext`nextId
      ensures viewContext.Valid()
      ensures selectedCustomer.None? ==>
        key.None? && viewContext.products == old(viewContext.products) && viewContext.sales == old(viewContext.sales)
      ensures selectedCustomer.Some? ==>
        key.Some? && key.value !in old(viewContext.sales)
        && key.value !in old(viewContext.products) && key.value !in viewContext.purchases
        && key.value in viewContext.sales
        && FreshSaleID(old(viewContext.sales), viewContext.sales[key.value].transactionID)
        && viewContext.sales == old(viewContext.sales)[key.value := SaleTransaction(
             viewContext.sales[key.value].transactionID, Some(transactionDate), Some(note), selectedCustomer,
             SheetSaleItems(old(viewContext.products), saleItems))]
        && viewContext.products == ApplySales(old(viewContext.products), saleItems)
    {
      if selectedCustomer.None? {
        return None;
      }
      var k, uuid := NewTransaction(selectedCustomer.value, transactionDate, note);
      AddSheetItems(saleItems, k);
      assert [] + SheetSaleItems(old(viewContext.products), saleItems) == SheetSaleItems(old(viewContext.products), saleItems);
      Transactions.UpdateTwice(old(viewContext.sales), k,
                  SaleTransaction(Some(uuid), Some(transactionDate), Some(note), selectedCustomer, []),
                  SaleTransaction(Some(uuid), Some(transactionDate), Some(note), selectedCustomer,
                                  SheetSaleItems(old(viewContext.products), saleItems)));
      key := Some(k);
    }

    /** The sheet's loop over its lines, in order. */
    method AddSheetItems(items: seq<SaleItemData>, key: ObjectId)
      requires viewContext.Valid() && key in viewContext.sales
      modifies viewContext`products, viewContext`sales
      ensures viewContext.Valid()
      ensures viewContext.products == ApplySales(old(viewContext.products), items)
      ensures viewContext.sales == old(viewContext.sales)[key := old(viewContext.sales[key]).(
        items := old(viewContext.sales[key]).items + SheetSaleItems(old(viewContext.products), items))]
    {
      ghost var listing := viewContext.products;
      ghost var t0 := viewContext.sales[key];
      var i := 0;
      assert items[..0] == [] && t0.items + [] == t0.items;
      while i < |items|
        invariant 0 <= i <= |items|
        invariant viewContext.Valid()
        invariant StockOnlyChanges(listing, viewContext.products)
        invariant ApplySales(viewContext.products, items[i..]) == ApplySales(listing, items)
        invariant viewContext.sales == old(viewContext.sales)[key := t0.(items := t0.items + SheetSaleItems(listing, items[..i]))]
      {
        AddSheetItemAt(items, i, key, old(viewContext.sales), listing, t0);
        i := i + 1;
      }
      assert items[..i] == items;
    }

    /** The sheet's loop at line `i`, against the table `listing` it
        started from. */
    method AddSheetItemAt(items: seq<SaleItemData>, i: nat, key: ObjectId,
                          ghost sales0: map<ObjectId, SaleTransaction>, ghost listing: map<ObjectId, Product>,
                          ghost t0: SaleTransaction)
      requires i < |items|
      requires viewContext.Valid() && StockOnlyChanges(listing, viewContext.products)
      requires viewContext.sales == sales0[key := t0.(items := t0.items + SheetSaleItems(listing, items[..i]))]
      modifies viewContext`products, viewContext`sales
      ensures viewContext.Valid() && StockOnlyChanges(listing, viewContext.products)
      ensures ApplySales(viewContext.products, items[i + 1..]) == ApplySales(old(viewContext.products), items[i..])
      ensures viewContext.sales == sales0[key := t0.(items := t0.items + SheetSaleItems(listing, items[..i + 1]))]
    {
      var itemData := items[i];
      ApplySalesStep(viewContext.products, items, i);
      ghost var recorded := SheetSaleItems(listing, items[..i]);
      ghost var extra := if Resolves(listing, itemData.product)
                         then [SaleItem(itemData.product, itemData.quantity, None, 0.0,
                                        listing[itemData.product.value].salePrice)]
                         else [];
      SheetSaleItemsSnoc(listing, items, i);
      AddSheetItem(itemData, key);
      assert t0.items + recorded + extra == t0.items + (recorded + extra);
    }

    /** `TransactionSale(context:)` with a fresh `transactionID`, the given
        date, note and customer, and no lines yet. */
    method NewTransaction(customer: ContactId, transactionDate: Date, note: string)
      returns (key: ObjectId, uuid: Uuid)
      requires viewContext.Valid()
      modifies viewContext`sales, viewContext`nextId
      ensures viewContext.Valid()
      ensures key !in old(viewContext.sales) && key !in viewContext.products && key !in viewContext.purchases
      ensures FreshSaleID(old(viewContext.sales), Some(uuid))
      ensures viewContext.sales == old(viewContext.sales)[key := SaleTransaction(
        Some(uuid), Some(transactionDate), Some(note), Some(customer), [])]
    {
      key := viewContext.FreshId();
      uuid := viewContext.FreshId();
      viewContext.sales := viewContext.sales[key := SaleTransaction(Some(uuid), Some(transactionDate), Some(note), Some(customer), [])];
    }

    /** One pass of the sheet's loop: a line without a live product is
        skipped; otherwise the product sells the quantity and a line with
        the product's sale price is appended to the sale. */
    method AddSheetItem(itemData: SaleItemData, key: ObjectId)
      requires viewContext.Valid() && key in viewContext.sales
      modifies viewContext`products, viewContext`sales
      ensures viewContext.Valid()
      ensures viewContext.products == ApplySaleLine(old(viewContext.products), itemData)
      ensures viewContext.sales == old(viewContext.sales)[key := old(viewContext.sales[key]).(
        items := old(viewContext.sales[key]).items
                 + (if Resolves(old(viewContext.products), itemData.product)
                    then [SaleItem(itemData.product, itemData.quantity, None, 0.0,
                                   old(viewContext.products)[itemData.product.value].salePrice)]
                    else []))]
    {
      if itemData.product.Some? && itemData.product.value in viewContext.products {
        var k := itemData.product.value;
        var product := viewContext.products[k];
        viewContext.products := viewContext.products[k := ApplySale(product, itemData.quantity)];
        var newSaleItem := SaleItem(itemData.product, itemData.quantity, None, 0.0, product.salePrice);
        var t := viewContext.sales[key];
        viewContext.sales := viewContext.sales[key := t.(items := t.items + [newSaleItem])];
      } else {
        assert old(viewContext.sales[key]).items + [] == old(viewContext.sales[key]).items;
      }
    }
  }
}
