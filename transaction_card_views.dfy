/**
 * The totals a transaction card shows (Mainven/TransactionCardViews.swift):
 * the value of a purchase, and the value and profit of a sale. Each is one
 * `reduce` over the transaction's lines, written here as a fold over the
 * last line so it reads in the order the reduce accumulates.
 */
module TransactionCardViews {
  import opened Wrappers
  import opened Model

  /** What one purchase line contributes to `totalPurchaseValue`. */
  function PurchaseLineValue(item: PurchaseItem): real {
    item.quantity as real * item.costPrice
  }

  /** What one sale line contributes to `totalSalesValue`: quantity times the
      custom price, or the minimum sale price when none was set. */
  function SaleLineValue(item: SaleItem): real {
    item.quantity as real * ChargedPrice(item)
  }

  /** `PurchaseTransactionCardView.totalPurchaseValue`. */
  function TotalPurchaseValue(items: seq<PurchaseItem>): (r: real)
    ensures items == [] ==> r == 0.0
    ensures (forall i :: 0 <= i < |items| ==> items[i].quantity >= 0 && items[i].costPrice >= 0.0) ==> r >= 0.0
    decreases |items|
  {
    if items == [] then 0.0
    else
      var last := items[|items| - 1];
      assert last.quantity >= 0 && last.costPrice >= 0.0 ==> PurchaseLineValue(last) >= 0.0;
      TotalPurchaseValue(items[..|items| - 1]) + PurchaseLineValue(last)
  }

  /** `SalesTransactionCardView.totalSalesValue`: every line counts, whether
      or not its product still exists. */
  function TotalSalesValue(items: seq<SaleItem>): (r: real)
    ensures items == [] ==> r == 0.0
    ensures (forall i :: 0 <= i < |items| ==> items[i].quantity >= 0 && ChargedPrice(items[i]) >= 0.0) ==> r >= 0.0
    decreases |items|
  {
    if items == [] then 0.0
    else
      var last := items[|items| - 1];
      assert last.quantity >= 0 && ChargedPrice(last) >= 0.0 ==> SaleLineValue(last) >= 0.0;
      TotalSalesValue(items[..|items| - 1]) + SaleLineValue(last)
  }

  /** The profit on one line whose product exists: the custom price (0 when
      unset) less the product's current cost, per unit. */
  function LineProfit(catalog: map<ObjectId, Product>, item: SaleItem): real
    requires Resolves(catalog, item.product)
  {
    item.customSalePrice.GetOr(0.0) * item.quantity as real
      - catalog[item.product.value].costPrice * item.quantity as real
  }

  /** `SalesTransactionCardView.profit`: lines whose product is gone add
      nothing. */
  function Profit(catalog: map<ObjectId, Product>, items: seq<SaleItem>): (r: real)
    ensures items == [] ==> r == 0.0
    ensures (forall i :: 0 <= i < |items| ==> !Resolves(catalog, items[i].product)) ==> r == 0.0
    decreases |items|
  {
    if items == [] then 0.0
    else
      var last := items[|items| - 1];
      Profit(catalog, items[..|items| - 1])
        + (if Resolves(catalog, last.product) then LineProfit(catalog, last) else 0.0)
  }

  /** The current cost of one line whose product exists. */
  function LineCost(catalog: map<ObjectId, Product>, item: SaleItem): real
    requires Resolves(catalog, item.product)
  {
    item.quantity as real * catalog[item.product.value].costPrice
  }

  /** The current cost of the lines whose product exists. */
  function CostOfItems(catalog: map<ObjectId, Product>, items: seq<SaleItem>): (r: real)
    ensures items == [] ==> r == 0.0
    ensures (forall i :: 0 <= i < |items| ==> !Resolves(catalog, items[i].product)) ==> r == 0.0
    decreases |items|
  {
    if items == [] then 0.0
    else
      var last := items[|items| - 1];
      CostOfItems(catalog, items[..|items| - 1])
        + (if Resolves(catalog, last.product) then LineCost(catalog, last) else 0.0)
  }

  /** The lines whose product still exists, in their order. */
  function ResolvedItems(catalog: map<ObjectId, Product>, items: seq<SaleItem>): (r: seq<SaleItem>)
    ensures |r| <= |items|
    ensures forall i :: 0 <= i < |r| ==> r[i] in items && Resolves(catalog, r[i].product)
    ensures forall i :: 0 <= i < |items| && Resolves(catalog, items[i].product) ==> items[i] in r
    decreases |items|
  {
    if items == [] then []
    else
      var last := items[|items| - 1];
      var rest := items[..|items| - 1];
      assert forall i :: 0 <= i < |rest| ==> rest[i] == items[i];
      ResolvedItems(catalog, rest) + (if Resolves(catalog, last.product) then [last] else [])
  }

  /** The lines whose product is gone. */
  function UnresolvedItems(catalog: map<ObjectId, Product>, items: seq<SaleItem>): (r: seq<SaleItem>)
    ensures |r| <= |items|
    ensures forall i :: 0 <= i < |r| ==> r[i] in items && !Resolves(catalog, r[i].product)
    ensures forall i :: 0 <= i < |items| && !Resolves(catalog, items[i].product) ==> items[i] in r
    decreases |items|
  {
    if items == [] then []
    else
      var last := items[|items| - 1];
      var rest := items[..|items| - 1];
      assert forall i :: 0 <= i < |rest| ==> rest[i] == items[i];
      UnresolvedItems(catalog, rest) + (if Resolves(catalog, last.product) then [] else [last])
  }

  // ----- properties -----

  /** Each line whose product exists occurs in `ResolvedItems` as often as
      in the input, and no other line occurs. */
  lemma {:induction false} ResolvedItemsCount(catalog: map<ObjectId, Product>, items: seq<SaleItem>)
    ensures forall s :: (multiset(ResolvedItems(catalog, items))[s] == if Resolves(catalog, s.product) then multiset(items)[s] else 0)
    decreases |items|
  {
    if items != [] {
      var rest := items[..|items| - 1];
      var last := items[|items| - 1];
      assert items == rest + [last];
      ResolvedItemsCount(catalog, rest);
      assert ResolvedItems(catalog, items) == ResolvedItems(catalog, rest) + (if Resolves(catalog, last.product) then [last] else []);
    } else {
      assert ResolvedItems(catalog, items) == [];
    }
  }

  /** Each line whose product is gone occurs in `UnresolvedItems` as often
      as in the input, and no other line occurs. */
  lemma {:induction false} UnresolvedItemsCount(catalog: map<ObjectId, Product>, items: seq<SaleItem>)
    ensures forall s :: (multiset(UnresolvedItems(catalog, items))[s] == if Resolves(catalog, s.product) then 0 else multiset(items)[s])
    decreases |items|
  {
    if items != [] {
      var rest := items[..|items| - 1];
      var last := items[|items| - 1];
      assert items == rest + [last];
      UnresolvedItemsCount(catalog, rest);
      assert UnresolvedItems(catalog, items) == UnresolvedItems(catalog, rest) + (if Resolves(catalog, last.product) then [] else [last]);
    } else {
      assert UnresolvedItems(catalog, items) == [];
    }
  }

  lemma {:induction false} TotalPurchaseValueAppend(a: seq<PurchaseItem>, b: seq<PurchaseItem>)
    ensures TotalPurchaseValue(a + b) == TotalPurchaseValue(a) + TotalPurchaseValue(b)
    decreases |b|
  {
    if b == [] {
      assert a + b == a;
    } else {
      var b' := b[..|b| - 1];
      assert (a + b)[..|a + b| - 1] == a + b';
      assert (a + b)[|a + b| - 1] == b[|b| - 1];
      TotalPurchaseValueAppend(a, b');
    }
  }

  lemma {:induction false} TotalSalesValueAppend(a: seq<SaleItem>, b: seq<SaleItem>)
    ensures TotalSalesValue(a + b) == TotalSalesValue(a) + TotalSalesValue(b)
    decreases |b|
  {
    if b == [] {
      assert a + b == a;
    } else {
      var b' := b[..|b| - 1];
      assert (a + b)[..|a + b| - 1] == a + b';
      assert (a + b)[|a + b| - 1] == b[|b| - 1];
      TotalSalesValueAppend(a, b');
    }
  }

  lemma {:induction false} ProfitAppend(catalog: map<ObjectId, Product>, a: seq<SaleItem>, b: seq<SaleItem>)
    ensures Profit(catalog, a + b) == Profit(catalog, a) + Profit(catalog, b)
    decreases |b|
  {
    if b == [] {
      assert a + b == a;
    } else {
      var b' := b[..|b| - 1];
      assert (a + b)[..|a + b| - 1] == a + b';
      assert (a + b)[|a + b| - 1] == b[|b| - 1];
      ProfitAppend(catalog, a, b');
    }
  }

  lemma {:induction false} CostOfItemsAppend(catalog: map<ObjectId, Product>, a: seq<SaleItem>, b: seq<SaleItem>)
    ensures CostOfItems(catalog, a + b) == CostOfItems(catalog, a) + CostOfItems(catalog, b)
    decreases |b|
  {
    if b == [] {
      assert a + b == a;
    } else {
      var b' := b[..|b| - 1];
      assert (a + b)[..|a + b| - 1] == a + b';
      assert (a + b)[|a + b| - 1] == b[|b| - 1];
      CostOfItemsAppend(catalog, a, b');
    }
  }

  /** Lines are an unordered set (`NSSet`): a list with the same lines as
      `a`, in any order, has every card total of `a`. */
  lemma TotalsOrderFree(catalog: map<ObjectId, Product>, a: seq<SaleItem>, b: seq<SaleItem>)
    requires multiset(a) == multiset(b)
    ensures TotalSalesValue(a) == TotalSalesValue(b)
    ensures Profit(catalog, a) == Profit(catalog, b)
    ensures CostOfItems(catalog, a) == CostOfItems(catalog, b)
  {
    SalesValueOrderFree(a, b);
    ProfitOrderFree(catalog, a, b);
    CostOrderFree(catalog, a, b);
  }

  /** `totalPurchaseValue` does not depend on the order of the line set. */
  lemma {:induction false} PurchaseValueOrderFree(a: seq<PurchaseItem>, b: seq<PurchaseItem>)
    requires multiset(a) == multiset(b)
    ensures TotalPurchaseValue(a) == TotalPurchaseValue(b)
    decreases |a|
  {
    if a == [] {
      assert |b| == |multiset(b)| == 0;
    } else {
      var n := |a| - 1;
      var j := RemoveLast(a, b);
      var x := a[n];
      var b0, b1 := b[..j], b[j + 1..];
      PurchaseValueOrderFree(a[..n], b0 + b1);
      TotalPurchaseValueAppend(b0, b1);
      TotalPurchaseValueAppend(b0 + [x], b1);
      TotalPurchaseValueAppend(b0, [x]);
      assert TotalPurchaseValue(a) == TotalPurchaseValue(a[..n]) + PurchaseLineValue(x);
      assert TotalPurchaseValue([x]) == PurchaseLineValue(x);
    }
  }

  lemma {:induction false} SalesValueOrderFree(a: seq<SaleItem>, b: seq<SaleItem>)
    requires multiset(a) == multiset(b)
    ensures TotalSalesValue(a) == TotalSalesValue(b)
    decreases |a|
  {
    if a == [] {
      assert |b| == |multiset(b)| == 0;
    } else {
      var n := |a| - 1;
      var j := RemoveLast(a, b);
      var x := a[n];
      var b0, b1 := b[..j], b[j + 1..];
      SalesValueOrderFree(a[..n], b0 + b1);
      TotalSalesValueAppend(b0, b1);
      TotalSalesValueAppend(b0 + [x], b1);
      TotalSalesValueAppend(b0, [x]);
      assert TotalSalesValue(a) == TotalSalesValue(a[..n]) + SaleLineValue(x);
      assert TotalSalesValue([x]) == SaleLineValue(x);
    }
  }

  lemma {:induction false} ProfitOrderFree(catalog: map<ObjectId, Product>, a: seq<SaleItem>, b: seq<SaleItem>)
    requires multiset(a) == multiset(b)
    ensures Profit(catalog, a) == Profit(catalog, b)
    decreases |a|
  {
    if a == [] {
      assert |b| == |multiset(b)| == 0;
    } else {
      var n := |a| - 1;
      var j := RemoveLast(a, b);
      var x := a[n];
      var b0, b1 := b[..j], b[j + 1..];
      ProfitOrderFree(catalog, a[..n], b0 + b1);
      ProfitAppend(catalog, b0, b1);
      ProfitAppend(catalog, b0 + [x], b1);
      ProfitAppend(catalog, b0, [x]);
      assert Profit(catalog, a) == Profit(catalog, a[..n]) + (if Resolves(catalog, x.product) then LineProfit(catalog, x) else 0.0);
      assert Profit(catalog, [x]) == (if Resolves(catalog, x.product) then LineProfit(catalog, x) else 0.0);
    }
  }

  lemma {:induction false} CostOrderFree(catalog: map<ObjectId, Product>, a: seq<SaleItem>, b: seq<SaleItem>)
    requires multiset(a) == multiset(b)
    ensures CostOfItems(catalog, a) == CostOfItems(catalog, b)
    decreases |a|
  {
    if a == [] {
      assert |b| == |multiset(b)| == 0;
    } else {
      var n := |a| - 1;
      var j := RemoveLast(a, b);
      var x := a[n];
      var b0, b1 := b[..j], b[j + 1..];
      CostOrderFree(catalog, a[..n], b0 + b1);
      CostOfItemsAppend(catalog, b0, b1);
      CostOfItemsAppend(catalog, b0 + [x], b1);
      CostOfItemsAppend(catalog, b0, [x]);
      assert CostOfItems(catalog, a) == CostOfItems(catalog, a[..n]) + (if Resolves(catalog, x.product) then LineCost(catalog, x) else 0.0);
      assert CostOfItems(catalog, [x]) == (if Resolves(catalog, x.product) then LineCost(catalog, x) else 0.0);
    }
  }

  /** Where the last line of `a` sits in a reordering `b`, and what is left
      of both once it is taken out. */
  lemma RemoveLast<T>(a: seq<T>, b: seq<T>) returns (j: nat)
    requires a != [] && multiset(a) == multiset(b)
    ensures j < |b| && b[j] == a[|a| - 1]
    ensures b == b[..j] + [b[j]] + b[j + 1..]
    ensures multiset(b[..j] + b[j + 1..]) == multiset(a[..|a| - 1])
  {
    var n := |a| - 1;
    var x, a0 := a[n], a[..n];
    assert a == a0 + [x];
    assert x in multiset(b);
    j :| 0 <= j < |b| && b[j] == x;
    var b0, b1 := b[..j], b[j + 1..];
    assert b == b0 + [x] + b1;
    forall y
      ensures multiset(a0)[y] == multiset(b0 + b1)[y]
    {
      assert multiset(a)[y] == multiset(a0)[y] + multiset{x}[y];
      assert multiset(b)[y] == multiset(b0)[y] + multiset{x}[y] + multiset(b1)[y];
    }
    assert multiset(a0) == multiset(b0 + b1);
  }

  /** Lines whose product is gone are left out of `profit` yet still counted
      in `totalSalesValue`. */
  lemma {:induction false} UnresolvedLinesOnlyInSalesValue(catalog: map<ObjectId, Product>, items: seq<SaleItem>)
    ensures Profit(catalog, items) == Profit(catalog, ResolvedItems(catalog, items))
    ensures TotalSalesValue(items)
         == TotalSalesValue(ResolvedItems(catalog, items)) + TotalSalesValue(UnresolvedItems(catalog, items))
    decreases |items|
  {
    if items != [] {
      var rest := items[..|items| - 1];
      var last := items[|items| - 1];
      UnresolvedLinesOnlyInSalesValue(catalog, rest);
      if Resolves(catalog, last.product) {
        ProfitAppend(catalog, ResolvedItems(catalog, rest), [last]);
        TotalSalesValueAppend(ResolvedItems(catalog, rest), [last]);
        assert UnresolvedItems(catalog, items) == UnresolvedItems(catalog, rest) + [];
        assert UnresolvedItems(catalog, rest) + [] == UnresolvedItems(catalog, rest);
      } else {
        assert ResolvedItems(catalog, items) == ResolvedItems(catalog, rest) + [];
        assert ResolvedItems(catalog, rest) + [] == ResolvedItems(catalog, rest);
        TotalSalesValueAppend(UnresolvedItems(catalog, rest), [last]);
      }
    }
  }

  /** When every line with a product carries a custom price, the card's
      profit is the sales value of those lines less their current cost. */
  lemma {:induction false} ProfitOfPricedLines(catalog: map<ObjectId, Product>, items: seq<SaleItem>)
    requires forall i :: 0 <= i < |items| && Resolves(catalog, items[i].product) ==> items[i].customSalePrice.Some?
    ensures Profit(catalog, items) == TotalSalesValue(ResolvedItems(catalog, items)) - CostOfItems(catalog, items)
    decreases |items|
  {
    if items != [] {
      var rest := items[..|items| - 1];
      var last := items[|items| - 1];
      ProfitOfPricedLines(catalog, rest);
      if Resolves(catalog, last.product) {
        TotalSalesValueAppend(ResolvedItems(catalog, rest), [last]);
        assert TotalSalesValue([last]) == SaleLineValue(last);
        PricedLineProfit(catalog, last);
      } else {
        assert ResolvedItems(catalog, items) == ResolvedItems(catalog, rest) + [];
        assert ResolvedItems(catalog, rest) + [] == ResolvedItems(catalog, rest);
      }
    }
  }

  /** Selling 5 units at a custom price of 180 of a product that cost 150
      charges 900, of which 150 is profit. */
  lemma SaleScenario(catalog: map<ObjectId, Product>, item: SaleItem)
    requires Resolves(catalog, item.product) && catalog[item.product.value].costPrice == 150.0
    requires item.quantity == 5 && item.customSalePrice == Some(180.0)
    ensures TotalSalesValue([item]) == 900.0
    ensures Profit(catalog, [item]) == 150.0
    ensures CostOfItems(catalog, [item]) == 750.0
  {
  }

  /** With a custom price set, a line's profit is its sales value less its
      cost. */
  lemma PricedLineProfit(catalog: map<ObjectId, Product>, item: SaleItem)
    requires Resolves(catalog, item.product) && item.customSalePrice.Some?
    ensures LineProfit(catalog, item) == SaleLineValue(item) - LineCost(catalog, item)
  {
  }
}
