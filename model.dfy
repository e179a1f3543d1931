/**
 * The Core Data entities of the inventory tracker (Mainven/Models), one
 * consistent record per entity. Objects are identified by an abstract
 * `ObjectId` (the managed-object identity); `Uuid` stands for the stored
 * identifier attributes (`productID`, `transactionID`). Both are drawn from
 * the fresh-id supply of `Store.Context`.
 */
module Model {
  import opened Wrappers

  type ObjectId = nat
  type Uuid = nat
  type ContactId = nat

  /** A calendar date, abstracted to the keys the dashboards compare:
      its day and its month. */
  datatype Date = Date(day: int, month: int)

  datatype Product = Product(
    productID: Option<Uuid>,
    name: Option<string>,
    image: Option<seq<bv8>>,
    costPrice: real,
    minimumSalePrice: real,
    salePrice: real,
    stockQuantity: int,
    stockValue: real)

  /** A purchase line; the same record is the form's input line and the
      stored line item, which copies the input's fields. */
  datatype PurchaseItem = PurchaseItem(
    product: Option<ObjectId>,
    quantity: int,
    costPrice: real,
    minimumSalePrice: real)

  /** A sale line as entered in a form. */
  datatype SaleItemData = SaleItemData(
    product: Option<ObjectId>,
    quantity: int,
    customSalePrice: Option<real>)

  /** A stored sale line item. */
  datatype SaleItem = SaleItem(
    product: Option<ObjectId>,
    quantity: int,
    customSalePrice: Option<real>,
    minimumSalePrice: real,
    salePrice: real)

  datatype PurchaseTransaction = PurchaseTransaction(
    transactionID: Option<Uuid>,
    date: Option<Date>,
    note: Option<string>,
    supplier: Option<ContactId>,
    items: seq<PurchaseItem>)

  datatype SaleTransaction = SaleTransaction(
    transactionID: Option<Uuid>,
    date: Option<Date>,
    note: Option<string>,
    customer: Option<ContactId>,
    items: seq<SaleItem>)

  /** A freshly inserted `Product(context:)`: every attribute at its default. */
  const NewProduct := Product(None, None, None, 0.0, 0.0, 0.0, 0, 0.0)

  /** The ledger invariant: stock value is cost times quantity. */
  predicate Consistent(p: Product) {
    p.stockValue == p.costPrice * p.stockQuantity as real
  }

  ghost predicate AllConsistent(ps: map<ObjectId, Product>) {
    forall k :: k in ps ==> Consistent(ps[k])
  }

  /** `if let product = item.product`: a reference resolves when it names a
      live product; a reference to a deleted product reads as nil. */
  predicate Resolves(ps: map<ObjectId, Product>, ref: Option<ObjectId>) {
    ref.Some? && ref.value in ps
  }

  /** The price a sale line was charged: `customSalePrice ?? minimumSalePrice`. */
  function ChargedPrice(item: SaleItem): real {
    item.customSalePrice.GetOr(item.minimumSalePrice)
  }
}
