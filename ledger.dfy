/**
 * The effect of line items on a product's stock, quantity and weighted-average
 * cost (Mainven/Services/TransactionService.swift), as functions on product
 * values and on the product table, with the algebra they satisfy.
 * Costs are exact reals; the source's doubles round.
 */
module Ledger {
  import opened Wrappers
  import opened Model

  /** Only the three ledger attributes of `r` may differ from `p`. */
  predicate LedgerOnlyChange(p: Product, r: Product) {
    r == p.(costPrice := r.costPrice, stockQuantity := r.stockQuantity, stockValue := r.stockValue)
  }

  /** Only quantity and value of `r` may differ from `p`. */
  predicate StockOnlyChange(p: Product, r: Product) {
    r == p.(stockQuantity := r.stockQuantity, stockValue := r.stockValue)
  }

  // ----- single product -----

  /** The weighted average divides by the new quantity, unless the product
      had no stock. */
  predicate PurchaseDefined(p: Product, quantity: int) {
    p.stockQuantity == 0 || p.stockQuantity + quantity != 0
  }

  /** `updateProductCost`: receive `quantity` units at `unitCost`. */
  function ApplyPurchase(p: Product, quantity: int, unitCost: real): (r: Product)
    requires PurchaseDefined(p, quantity)
    ensures r.stockQuantity == p.stockQuantity + quantity
    ensures p.stockQuantity == 0 ==> r.costPrice == unitCost
    ensures p.stockQuantity != 0 ==>
      r.costPrice * r.stockQuantity as real == p.costPrice * p.stockQuantity as real + quantity as real * unitCost
    ensures Consistent(r)
    ensures Consistent(p) ==> r.stockValue == p.stockValue + quantity as real * unitCost
    ensures LedgerOnlyChange(p, r)
  {
    var oldQuantity := p.stockQuantity as real;
    var newQuantity := quantity as real;
    var cost := if p.stockQuantity == 0 then unitCost
                else (oldQuantity * p.costPrice + newQuantity * unitCost) / (oldQuantity + newQuantity);
    var q := p.stockQuantity + quantity;
    assert p.stockQuantity != 0 ==> cost * (oldQuantity + newQuantity) == oldQuantity * p.costPrice + newQuantity * unitCost;
    p.(costPrice := cost, stockQuantity := q, stockValue := cost * q as real)
  }

  /** The purchase branch of `revertOldStockChanges`: back out `quantity`
      units bought at `unitCost`. */
  function RevertPurchase(p: Product, quantity: int, unitCost: real): (r: Product)
    ensures r.stockQuantity == p.stockQuantity - quantity
    ensures r.stockQuantity == 0 ==> r.costPrice == 0.0
    ensures r.stockQuantity != 0 ==>
      r.stockValue == p.costPrice * p.stockQuantity as real - quantity as real * unitCost
    ensures Consistent(r)
    ensures LedgerOnlyChange(p, r)
  {
    var currentTotal := p.costPrice * p.stockQuantity as real;
    var itemTotal := unitCost * quantity as real;
    var before := p.stockQuantity - quantity;
    var cost := if before == 0 then 0.0 else (currentTotal - itemTotal) / before as real;
    assert before != 0 ==> cost * before as real == currentTotal - itemTotal;
    p.(costPrice := cost, stockQuantity := before, stockValue := cost * before as real)
  }

  /** The stock effect of selling `quantity` units. */
  function ApplySale(p: Product, quantity: int): (r: Product)
    ensures r.stockQuantity == p.stockQuantity - quantity
    ensures r.costPrice == p.costPrice
    ensures Consistent(r)
    ensures StockOnlyChange(p, r)
  {
    var q := p.stockQuantity - quantity;
    p.(stockQuantity := q, stockValue := p.costPrice * q as real)
  }

  /** The sale branch of `revertOldStockChanges`. */
  function RevertSale(p: Product, quantity: int): (r: Product)
    ensures r.stockQuantity == p.stockQuantity + quantity
    ensures r.costPrice == p.costPrice
    ensures Consistent(r)
    ensures StockOnlyChange(p, r)
  {
    var q := p.stockQuantity + quantity;
    p.(stockQuantity := q, stockValue := p.costPrice * q as real)
  }

  /** Reverting a purchase right after applying it restores quantity and
      value; the cost comes back when the product held stock before, and is
      reset to 0 when it did not. */
  lemma {:induction false} PurchaseRoundTrip(p: Product, quantity: int, unitCost: real)
    requires PurchaseDefined(p, quantity)
    requires Consistent(p)
    ensures var r := RevertPurchase(ApplyPurchase(p, quantity, unitCost), quantity, unitCost);
      && r.stockQuantity == p.stockQuantity
      && r.stockValue == p.stockValue
      && (p.stockQuantity != 0 ==> r.costPrice == p.costPrice)
      && (p.stockQuantity == 0 ==> r.costPrice == 0.0)
      && LedgerOnlyChange(p, r)
  {
    var a := ApplyPurchase(p, quantity, unitCost);
    var r := RevertPurchase(a, quantity, unitCost);
    if p.stockQuantity != 0 {
      var q := p.stockQuantity as real;
      assert a.costPrice * a.stockQuantity as real == p.costPrice * q + quantity as real * unitCost;
      assert r.stockValue == p.costPrice * q;
      assert r.costPrice * q == p.costPrice * q;
      assert (r.costPrice - p.costPrice) * q == 0.0;
    }
  }

  /** Selling then reverting the sale, or the other way round, is the identity
      on a consistent product. */
  lemma {:induction false} SaleRoundTrip(p: Product, quantity: int)
    requires Consistent(p)
    ensures RevertSale(ApplySale(p, quantity), quantity) == p
    ensures ApplySale(RevertSale(p, quantity), quantity) == p
  {
  }

  /** Two purchases and a sale on an empty product: 10 units at 100, then 10
      at 200, average to a cost of 150; selling 5 leaves 15 units worth 2250. */
  lemma LedgerScenario(p: Product)
    requires p.stockQuantity == 0 && p.costPrice == 0.0 && p.stockValue == 0.0
    ensures var a := ApplyPurchase(p, 10, 100.0);
      && a.costPrice == 100.0 && a.stockQuantity == 10 && a.stockValue == 1000.0
      && var b := ApplyPurchase(a, 10, 200.0);
      && b.costPrice == 150.0 && b.stockQuantity == 20 && b.stockValue == 3000.0
      && var c := ApplySale(b, 5);
      && c.costPrice == 150.0 && c.stockQuantity == 15 && c.stockValue == 2250.0
  {
  }

  /** Buying 10 units into an empty product, selling all 10, then
      re-saving the purchase: the revert leaves -10 units, and applying the
      same 10 units again meets the zero denominator `PurchaseDefined`
      rules out. */
  lemma ResaveAfterSellOut(p: Product, unitCost: real)
    requires p.stockQuantity == 0
    ensures var r := RevertPurchase(ApplySale(ApplyPurchase(p, 10, unitCost), 10), 10, unitCost);
      r.stockQuantity == -10 && !PurchaseDefined(r, 10)
  {
  }

  /** The purchase revert depends on the order it visits the lines in.
      Buying 5 units at 80 and 3 at 60 into an empty product, then selling
      3, leaves 5 units at cost 72.5. Reverting the 5 first reaches zero
      stock, resets the cost, and ends at a value of -180; reverting the 3
      first ends at -217.5. */
  lemma RevertOrderMatters(p: Product)
    requires p.stockQuantity == 0
    ensures var s := ApplySale(ApplyPurchase(ApplyPurchase(p, 5, 80.0), 3, 60.0), 3);
      && s.stockQuantity == 5 && s.costPrice == 72.5 && s.stockValue == 362.5
      && RevertPurchase(RevertPurchase(s, 5, 80.0), 3, 60.0).stockValue == -180.0
      && RevertPurchase(RevertPurchase(s, 3, 60.0), 5, 80.0).stockValue == -217.5
  {
  }

  // ----- the product table -----

  /** Products whose only differences from `ps` are ledger attributes. */
  ghost predicate LedgerOnlyChanges(ps: map<ObjectId, Product>, rs: map<ObjectId, Product>) {
    ps.Keys == rs.Keys && forall k :: k in ps ==> LedgerOnlyChange(ps[k], rs[k])
  }

  ghost predicate StockOnlyChanges(ps: map<ObjectId, Product>, rs: map<ObjectId, Product>) {
    ps.Keys == rs.Keys && forall k :: k in ps ==> StockOnlyChange(ps[k], rs[k])
  }

  predicate PurchaseLineDefined(ps: map<ObjectId, Product>, item: PurchaseItem) {
    Resolves(ps, item.product) ==> PurchaseDefined(ps[item.product.value], item.quantity)
  }

  /** One iteration of `addNewPurchaseItems`: a line without a live product
      is skipped. */
  function ApplyPurchaseLine(ps: map<ObjectId, Product>, item: PurchaseItem): (rs: map<ObjectId, Product>)
    requires PurchaseLineDefined(ps, item)
    ensures rs.Keys == ps.Keys
  {
    if Resolves(ps, item.product) then
      var k := item.product.value;
      ps[k := ApplyPurchase(ps[k], item.quantity, item.costPrice)]
    else ps
  }

  /** One iteration of the purchase `revertOldStockChanges`. */
  function RevertPurchaseLine(ps: map<ObjectId, Product>, item: PurchaseItem): map<ObjectId, Product> {
    if Resolves(ps, item.product) then
      var k := item.product.value;
      ps[k := RevertPurchase(ps[k], item.quantity, item.costPrice)]
    else ps
  }

  /** Every weighted average met while applying `items` in turn has a
      nonzero denominator. */
  ghost predicate PurchasesDefined(ps: map<ObjectId, Product>, items: seq<PurchaseItem>)
    decreases |items|
  {
    items == [] ||
    (PurchaseLineDefined(ps, items[0]) && PurchasesDefined(ApplyPurchaseLine(ps, items[0]), items[1..]))
  }

  /** No revert step of `items` drops a product to zero stock, so each one
      backs out exactly its own contribution. */
  ghost predicate RevertsStayNonzero(ps: map<ObjectId, Product>, items: seq<PurchaseItem>)
    decreases |items|
  {
    items == [] ||
    ((Resolves(ps, items[0].product) ==> ps[items[0].product.value].stockQuantity != items[0].quantity)
     && RevertsStayNonzero(RevertPurchaseLine(ps, items[0]), items[1..]))
  }

  /** The product table after the loop of `addNewPurchaseItems`. */
  ghost function ApplyPurchases(ps: map<ObjectId, Product>, items: seq<PurchaseItem>): (rs: map<ObjectId, Product>)
    requires PurchasesDefined(ps, items)
    ensures LedgerOnlyChanges(ps, rs)
    ensures AllConsistent(ps) ==> AllConsistent(rs)
    decreases |items|
  {
    if items == [] then ps else ApplyPurchases(ApplyPurchaseLine(ps, items[0]), items[1..])
  }

  /** The product table after the purchase `revertOldStockChanges`. */
  ghost function RevertPurchases(ps: map<ObjectId, Product>, items: seq<PurchaseItem>): (rs: map<ObjectId, Product>)
    ensures LedgerOnlyChanges(ps, rs)
    ensures AllConsistent(ps) ==> AllConsistent(rs)
    decreases |items|
  {
    if items == [] then ps else RevertPurchases(RevertPurchaseLine(ps, items[0]), items[1..])
  }

  function ApplySaleLine(ps: map<ObjectId, Product>, item: SaleItemData): map<ObjectId, Product> {
    if Resolves(ps, item.product) then
      var k := item.product.value;
      ps[k := ApplySale(ps[k], item.quantity)]
    else ps
  }

  function RevertSaleLine(ps: map<ObjectId, Product>, item: SaleItem): map<ObjectId, Product> {
    if Resolves(ps, item.product) then
      var k := item.product.value;
      ps[k := RevertSale(ps[k], item.quantity)]
    else ps
  }

  /** The product table after the stock loop of `addNewSaleItems`. */
  ghost function ApplySales(ps: map<ObjectId, Product>, items: seq<SaleItemData>): (rs: map<ObjectId, Product>)
    ensures StockOnlyChanges(ps, rs)
    ensures AllConsistent(ps) ==> AllConsistent(rs)
    decreases |items|
  {
    if items == [] then ps else ApplySales(ApplySaleLine(ps, items[0]), items[1..])
  }

  /** The product table after the sale `revertOldStockChanges`. */
  ghost function RevertSales(ps: map<ObjectId, Product>, items: seq<SaleItem>): (rs: map<ObjectId, Product>)
    ensures StockOnlyChanges(ps, rs)
    ensures AllConsistent(ps) ==> AllConsistent(rs)
    decreases |items|
  {
    if items == [] then ps else RevertSales(RevertSaleLine(ps, items[0]), items[1..])
  }

  /** The first step of `ApplyPurchases` on the lines from `i` on. */
  lemma ApplyPurchasesStep(ps: map<ObjectId, Product>, items: seq<PurchaseItem>, i: nat)
    requires i < |items| && PurchasesDefined(ps, items[i..])
    ensures PurchaseLineDefined(ps, items[i])
    ensures PurchasesDefined(ApplyPurchaseLine(ps, items[i]), items[i + 1..])
    ensures ApplyPurchases(ps, items[i..]) == ApplyPurchases(ApplyPurchaseLine(ps, items[i]), items[i + 1..])
  {
    assert items[i..][0] == items[i] && items[i..][1..] == items[i + 1..];
  }

  /** The first step of `ApplySales` on the lines from `i` on. */
  lemma ApplySalesStep(ps: map<ObjectId, Product>, items: seq<SaleItemData>, i: nat)
    requires i < |items|
    ensures ApplySales(ps, items[i..]) == ApplySales(ApplySaleLine(ps, items[i]), items[i + 1..])
  {
    assert items[i..][0] == items[i] && items[i..][1..] == items[i + 1..];
  }

  // ----- per-product totals of a list of lines -----

  /** The units one purchase line adds to product `k`. */
  function QuantityFor(k: ObjectId, item: PurchaseItem): int {
    if item.product == Some(k) then item.quantity else 0
  }

  /** The value one purchase line adds to product `k`. */
  function ValueFor(k: ObjectId, item: PurchaseItem): real {
    if item.product == Some(k) then item.quantity as real * item.costPrice else 0.0
  }

  function PurchasedQuantity(k: ObjectId, items: seq<PurchaseItem>): int
    decreases |items|
  {
    if items == [] then 0 else QuantityFor(k, items[0]) + PurchasedQuantity(k, items[1..])
  }

  function PurchasedValue(k: ObjectId, items: seq<PurchaseItem>): real
    decreases |items|
  {
    if items == [] then 0.0 else ValueFor(k, items[0]) + PurchasedValue(k, items[1..])
  }

  function OrderedQuantity(k: ObjectId, items: seq<SaleItemData>): int
    decreases |items|
  {
    if items == [] then 0
    else (if items[0].product == Some(k) then items[0].quantity else 0) + OrderedQuantity(k, items[1..])
  }

  function SoldQuantity(k: ObjectId, items: seq<SaleItem>): int
    decreases |items|
  {
    if items == [] then 0
    else (if items[0].product == Some(k) then items[0].quantity else 0) + SoldQuantity(k, items[1..])
  }

  /** The number of lines of `items` that name a live product. */
  function LiveLines(ps: map<ObjectId, Product>, items: seq<SaleItemData>): nat
    decreases |items|
  {
    if items == [] then 0
    else LiveLines(ps, items[..|items| - 1]) + (if Resolves(ps, items[|items| - 1].product) then 1 else 0)
  }

  /** The number of lines of `items` that order `quantity` units of
      `product`, whatever their custom price. */
  function LinesOrdering(items: seq<SaleItemData>, product: Option<ObjectId>, quantity: int): nat
    decreases |items|
  {
    if items == [] then 0
    else
      var last := items[|items| - 1];
      LinesOrdering(items[..|items| - 1], product, quantity)
      + (if last.product == product && last.quantity == quantity then 1 else 0)
  }

  lemma {:induction false} PurchasedAppend(a: seq<PurchaseItem>, b: seq<PurchaseItem>)
    ensures forall k :: PurchasedQuantity(k, a + b) == PurchasedQuantity(k, a) + PurchasedQuantity(k, b)
    ensures forall k :: PurchasedValue(k, a + b) == PurchasedValue(k, a) + PurchasedValue(k, b)
    decreases |a|
  {
    if a == [] {
      assert a + b == b;
    } else {
      assert (a + b)[1..] == a[1..] + b;
      PurchasedAppend(a[1..], b);
    }
  }

  lemma {:induction false} OrderedQuantityAppend(a: seq<SaleItemData>, b: seq<SaleItemData>)
    ensures forall k :: OrderedQuantity(k, a + b) == OrderedQuantity(k, a) + OrderedQuantity(k, b)
    decreases |a|
  {
    if a == [] {
      assert a + b == b;
    } else {
      assert (a + b)[1..] == a[1..] + b;
      OrderedQuantityAppend(a[1..], b);
    }
  }

  lemma {:induction false} SoldQuantityAppend(a: seq<SaleItem>, b: seq<SaleItem>)
    ensures forall k :: SoldQuantity(k, a + b) == SoldQuantity(k, a) + SoldQuantity(k, b)
    decreases |a|
  {
    if a == [] {
      assert a + b == b;
    } else {
      assert (a + b)[1..] == a[1..] + b;
      SoldQuantityAppend(a[1..], b);
    }
  }

  /** One purchase line on product `k`. */
  lemma ApplyPurchaseLineAt(ps: map<ObjectId, Product>, item: PurchaseItem, k: ObjectId)
    requires PurchaseLineDefined(ps, item)
    requires k in ps
    ensures var next := ApplyPurchaseLine(ps, item);
      && k in next
      && next[k].stockQuantity == ps[k].stockQuantity + QuantityFor(k, item)
      && (Consistent(ps[k]) ==> next[k].stockValue == ps[k].stockValue + ValueFor(k, item))
  {
  }

  /** Applying purchase lines adds, per product, their quantity and, on a
      consistent product, their value. */
  lemma {:induction false} ApplyPurchasesAt(ps: map<ObjectId, Product>, items: seq<PurchaseItem>, k: ObjectId)
    requires PurchasesDefined(ps, items)
    requires k in ps
    ensures ApplyPurchases(ps, items)[k].stockQuantity == ps[k].stockQuantity + PurchasedQuantity(k, items)
    ensures Consistent(ps[k]) ==>
      ApplyPurchases(ps, items)[k].stockValue == ps[k].stockValue + PurchasedValue(k, items)
    decreases |items|
  {
    if items != [] {
      var next := ApplyPurchaseLine(ps, items[0]);
      var rest := items[1..];
      ApplyPurchaseLineAt(ps, items[0], k);
      ApplyPurchasesAt(next, rest, k);
      assert ApplyPurchases(ps, items) == ApplyPurchases(next, rest);
      if Consistent(ps[k]) {
        assert Consistent(next[k]);
      }
    }
  }

  /** One revert line on product `k`. */
  lemma RevertPurchaseLineAt(ps: map<ObjectId, Product>, item: PurchaseItem, k: ObjectId)
    requires k in ps
    ensures var next := RevertPurchaseLine(ps, item);
      && k in next
      && next[k].stockQuantity == ps[k].stockQuantity - QuantityFor(k, item)
      && (Consistent(ps[k]) && (item.product == Some(k) ==> ps[k].stockQuantity != item.quantity) ==>
            next[k].stockValue == ps[k].stockValue - ValueFor(k, item))
  {
  }

  /** Reverting purchase lines removes, per product, their quantity and, when
      no step reaches zero stock, their value. */
  lemma {:induction false} RevertPurchasesAt(ps: map<ObjectId, Product>, items: seq<PurchaseItem>, k: ObjectId)
    requires k in ps
    ensures RevertPurchases(ps, items)[k].stockQuantity == ps[k].stockQuantity - PurchasedQuantity(k, items)
    ensures RevertsStayNonzero(ps, items) && Consistent(ps[k]) ==>
      RevertPurchases(ps, items)[k].stockValue == ps[k].stockValue - PurchasedValue(k, items)
    decreases |items|
  {
    if items != [] {
      var next := RevertPurchaseLine(ps, items[0]);
      var rest := items[1..];
      RevertPurchaseLineAt(ps, items[0], k);
      RevertPurchasesAt(next, rest, k);
      assert RevertPurchases(ps, items) == RevertPurchases(next, rest);
      if RevertsStayNonzero(ps, items) && Consistent(ps[k]) {
        assert RevertsStayNonzero(next, rest);
        assert Consistent(next[k]);
      }
    }
  }

  lemma {:induction false} ApplySalesAt(ps: map<ObjectId, Product>, items: seq<SaleItemData>, k: ObjectId)
    requires k in ps
    ensures ApplySales(ps, items)[k].stockQuantity == ps[k].stockQuantity - OrderedQuantity(k, items)
    decreases |items|
  {
    if items != [] {
      ApplySalesAt(ApplySaleLine(ps, items[0]), items[1..], k);
    }
  }

  lemma {:induction false} RevertSalesAt(ps: map<ObjectId, Product>, items: seq<SaleItem>, k: ObjectId)
    requires k in ps
    ensures RevertSales(ps, items)[k].stockQuantity == ps[k].stockQuantity + SoldQuantity(k, items)
    decreases |items|
  {
    if items != [] {
      RevertSalesAt(RevertSaleLine(ps, items[0]), items[1..], k);
    }
  }

  /** Editing a purchase transaction (revert its old lines, then apply the new
      ones) leaves every product's stock quantity unchanged when the new lines
      order the same quantity of each product as the old ones. */
  lemma PurchaseEditKeepsQuantity(ps: map<ObjectId, Product>, oldItems: seq<PurchaseItem>, newItems: seq<PurchaseItem>)
    requires PurchasesDefined(RevertPurchases(ps, oldItems), newItems)
    requires forall k :: k in ps ==> PurchasedQuantity(k, newItems) == PurchasedQuantity(k, oldItems)
    ensures var rs := ApplyPurchases(RevertPurchases(ps, oldItems), newItems);
      rs.Keys == ps.Keys && forall k :: k in ps ==> rs[k].stockQuantity == ps[k].stockQuantity
  {
    var mid := RevertPurchases(ps, oldItems);
    forall k | k in ps
      ensures ApplyPurchases(mid, newItems)[k].stockQuantity == ps[k].stockQuantity
    {
      RevertPurchasesAt(ps, oldItems, k);
      ApplyPurchasesAt(mid, newItems, k);
    }
  }

  /** The edit of `PurchaseEditKeepsLedger`, on one product. */
  lemma PurchaseEditAt(ps: map<ObjectId, Product>, oldItems: seq<PurchaseItem>, newItems: seq<PurchaseItem>, k: ObjectId)
    requires k in ps && Consistent(ps[k])
    requires RevertsStayNonzero(ps, oldItems)
    requires PurchasesDefined(RevertPurchases(ps, oldItems), newItems)
    requires PurchasedQuantity(k, newItems) == PurchasedQuantity(k, oldItems)
    requires PurchasedValue(k, newItems) == PurchasedValue(k, oldItems)
    ensures var rs := ApplyPurchases(RevertPurchases(ps, oldItems), newItems);
      && k in rs
      && rs[k].stockQuantity == ps[k].stockQuantity
      && rs[k].stockValue == ps[k].stockValue
      && (ps[k].stockQuantity != 0 ==> rs[k].costPrice == ps[k].costPrice)
  {
    var mid := RevertPurchases(ps, oldItems);
    var rs := ApplyPurchases(mid, newItems);
    RevertPurchasesAt(ps, oldItems, k);
    assert Consistent(mid[k]) by {
      assert LedgerOnlyChange(ps[k], mid[k]);
      RevertedLineConsistent(ps, oldItems, k);
    }
    ApplyPurchasesAt(mid, newItems, k);
    assert Consistent(rs[k]) by {
      AppliedLineConsistent(mid, newItems, k);
    }
    assert rs[k].stockQuantity == ps[k].stockQuantity;
    assert rs[k].stockValue == ps[k].stockValue;
    if ps[k].stockQuantity != 0 {
      SameStockSameCost(ps[k], rs[k]);
    }
  }

  /** On consistent products, equal nonzero quantity and equal value force
      equal cost. */
  lemma SameStockSameCost(a: Product, b: Product)
    requires Consistent(a) && Consistent(b)
    requires a.stockQuantity == b.stockQuantity != 0 && a.stockValue == b.stockValue
    ensures a.costPrice == b.costPrice
  {
    var q := a.stockQuantity as real;
    assert (a.costPrice - b.costPrice) * q == 0.0;
  }

  /** A product that was consistent stays consistent through reverts. */
  lemma {:induction false} RevertedLineConsistent(ps: map<ObjectId, Product>, items: seq<PurchaseItem>, k: ObjectId)
    requires k in ps && Consistent(ps[k])
    ensures Consistent(RevertPurchases(ps, items)[k])
    decreases |items|
  {
    if items != [] {
      RevertedLineConsistent(RevertPurchaseLine(ps, items[0]), items[1..], k);
    }
  }

  lemma {:induction false} AppliedLineConsistent(ps: map<ObjectId, Product>, items: seq<PurchaseItem>, k: ObjectId)
    requires PurchasesDefined(ps, items)
    requires k in ps && Consistent(ps[k])
    ensures Consistent(ApplyPurchases(ps, items)[k])
    decreases |items|
  {
    if items != [] {
      AppliedLineConsistent(ApplyPurchaseLine(ps, items[0]), items[1..], k);
    }
  }

  /** With the same per-product quantities and values, and no revert step
      dropping a product to zero stock, an edit restores every product's
      quantity and value, and its cost wherever it holds stock. */
  lemma PurchaseEditKeepsLedger(ps: map<ObjectId, Product>, oldItems: seq<PurchaseItem>, newItems: seq<PurchaseItem>)
    requires AllConsistent(ps)
    requires RevertsStayNonzero(ps, oldItems)
    requires PurchasesDefined(RevertPurchases(ps, oldItems), newItems)
    requires forall k :: k in ps ==> PurchasedQuantity(k, newItems) == PurchasedQuantity(k, oldItems)
    requires forall k :: k in ps ==> PurchasedValue(k, newItems) == PurchasedValue(k, oldItems)
    ensures var rs := ApplyPurchases(RevertPurchases(ps, oldItems), newItems);
      && rs.Keys == ps.Keys
      && forall k :: k in ps ==>
           && rs[k].stockQuantity == ps[k].stockQuantity
           && rs[k].stockValue == ps[k].stockValue
           && (ps[k].stockQuantity != 0 ==> rs[k].costPrice == ps[k].costPrice)
  {
    forall k | k in ps {
      PurchaseEditAt(ps, oldItems, newItems, k);
    }
  }

  /** Editing a sale transaction restores the product table exactly when the
      new lines sell the same quantity of each product as the old ones. */
  lemma SaleEditRestores(ps: map<ObjectId, Product>, oldItems: seq<SaleItem>, newItems: seq<SaleItemData>)
    requires AllConsistent(ps)
    requires forall k :: k in ps ==> OrderedQuantity(k, newItems) == SoldQuantity(k, oldItems)
    ensures ApplySales(RevertSales(ps, oldItems), newItems) == ps
  {
    var mid := RevertSales(ps, oldItems);
    var rs := ApplySales(mid, newItems);
    forall k | k in ps
      ensures rs[k] == ps[k]
    {
      RevertSalesAt(ps, oldItems, k);
      ApplySalesAt(mid, newItems, k);
      SameQuantitySameProduct(ps[k], mid[k], rs[k]);
    }
  }

  /** Two stock changes in a row that end at the starting quantity, on a
      consistent product, give back the product. */
  lemma SameQuantitySameProduct(p: Product, m: Product, r: Product)
    requires Consistent(p) && Consistent(r)
    requires StockOnlyChange(p, m) && StockOnlyChange(m, r)
    requires r.stockQuantity == p.stockQuantity
    ensures r == p
  {
  }
}
