/**
 * The managed-object context every service and view shares: the live
 * products, purchase and sale transactions, and a supply of fresh
 * identifiers standing for `UUID()` and for new object identities.
 * Committing (`viewContext.save()`) is taken to publish this state as it is.
 */
module Store {
  import opened Wrappers
  import opened Model

  predicate RefBelow(ref: Option<nat>, bound: nat) {
    ref.Some? ==> ref.value < bound
  }

  predicate PurchaseBelow(t: PurchaseTransaction, bound: nat) {
    && RefBelow(t.transactionID, bound)
    && forall i :: 0 <= i < |t.items| ==> RefBelow(t.items[i].product, bound)
  }

  predicate SaleBelow(t: SaleTransaction, bound: nat) {
    && RefBelow(t.transactionID, bound)
    && forall i :: 0 <= i < |t.items| ==> RefBelow(t.items[i].product, bound)
  }

  /** `id` is a new `UUID()`: no entry of the table carries it. */
  predicate FreshProductID(table: map<ObjectId, Product>, id: Option<Uuid>) {
    id.Some? && forall k :: k in table ==> table[k].productID != id
  }

  predicate FreshPurchaseID(table: map<ObjectId, PurchaseTransaction>, id: Option<Uuid>) {
    id.Some? && forall k :: k in table ==> table[k].transactionID != id
  }

  predicate FreshSaleID(table: map<ObjectId, SaleTransaction>, id: Option<Uuid>) {
    id.Some? && forall k :: k in table ==> table[k].transactionID != id
  }

  class Context {
    var products: map<ObjectId, Product>
    var purchases: map<ObjectId, PurchaseTransaction>
    var sales: map<ObjectId, SaleTransaction>
    var nextId: nat

    /** Every identifier in use, as a key, a stored id or a reference, lies
        below `nextId`, so the next one handed out is fresh. */
    ghost predicate Valid()
      reads this
    {
      && (forall k :: k in products ==> k < nextId && RefBelow(products[k].productID, nextId))
      && (forall k :: k in purchases ==> k < nextId && PurchaseBelow(purchases[k], nextId))
      && (forall k :: k in sales ==> k < nextId && SaleBelow(sales[k], nextId))
    }

    constructor ()
      ensures Valid()
      ensures products == map[] && purchases == map[] && sales == map[]
    {
      products, purchases, sales := map[], map[], map[];
      nextId := 0;
    }

    /** `UUID()`, or a new object's identity. */
    method FreshId() returns (id: nat)
      requires Valid()
      modifies this`nextId
      ensures Valid()
      ensures id == old(nextId) && nextId == id + 1
      ensures id !in products && id !in purchases && id !in sales
    {
      id := nextId;
      nextId := nextId + 1;
    }
  }
}
