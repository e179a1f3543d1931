/**
 * The products tab (Mainven/ProductsTab.swift): swipe-to-delete on the
 * listed products, and the add/edit sheet's save. The sheet writes the
 * form's sale price, not the minimum sale price.
 */
module ProductsTab {
  import opened Wrappers
  import opened Model
  import opened Store

  /** The products at `offsets` in the listed `products`. */
  function AtOffsets(products: seq<ObjectId>, offsets: set<nat>): (r: set<ObjectId>)
    requires forall i :: i in offsets ==> i < |products|
    ensures forall i :: i in offsets ==> products[i] in r
    ensures forall k :: k in r ==> exists i :: i in offsets && products[i] == k
  {
    set i | i in offsets :: products[i]
  }

  class ProductsTab {
    const viewContext: Context

    constructor (context: Context)
      ensures viewContext == context
    {
      viewContext := context;
    }

    /** `deleteProducts(offsets:)`: `products` is the list on screen, and the
        products at the swiped offsets are deleted, in no particular order. */
    method DeleteProducts(products: seq<ObjectId>, offsets: set<nat>)
      requires viewContext.Valid()
      requires forall i :: i in offsets ==> i < |products|
      modifies viewContext`products
      ensures viewContext.Valid()
      ensures viewContext.products == old(viewContext.products) - AtOffsets(products, offsets)
    {
      var remaining := offsets;
      while remaining != {}
        invariant remaining <= offsets
        invariant viewContext.Valid()
        invariant viewContext.products == old(viewContext.products) - AtOffsets(products, offsets - remaining)
        decreases |remaining|
      {
        var i :| i in remaining;
        assert AtOffsets(products, offsets - (remaining - {i})) == AtOffsets(products, offsets - remaining) + {products[i]};
        viewContext.products := viewContext.products - {products[i]};
        remaining := remaining - {i};
      }
      assert offsets - remaining == offsets;
    }
  }

  class AddEditProductSheet {
    const viewContext: Context
    /** The product the sheet was opened on; none when adding. */
    const product: Option<ObjectId>

    constructor (context: Context, product: Option<ObjectId>)
      ensures viewContext == context && this.product == product
    {
      viewContext := context;
      this.product := product;
    }

    /** `saveProduct()`: the edited product, or a new one; its `productID`
        is kept when set and drawn fresh otherwise; the form's fields are
        written and the stock value set from them. */
    method SaveProduct(name: string, costPrice: real, salePrice: real, stockQuantity: int, image: Option<seq<bv8>>)
      returns (key: ObjectId)
      requires viewContext.Valid()
      requires product.Some? ==> product.value in viewContext.products
      modifies viewContext`products, viewContext`nextId
      ensures viewContext.Valid()
      ensures key in viewContext.products
      ensures viewContext.products == old(viewContext.products)[key := viewContext.products[key]]
      ensures product.Some? ==> key == product.value
      ensures product.None? ==> key !in old(viewContext.products) && key !in viewContext.purchases && key !in viewContext.sales
      ensures key in old(viewContext.products) && old(viewContext.products[key].productID).Some? ==>
        viewContext.products[key].productID == old(viewContext.products[key].productID)
      ensures key !in old(viewContext.products) || old(viewContext.products[key].productID).None? ==>
        FreshProductID(old(viewContext.products), viewContext.products[key].productID)
      ensures viewContext.products[key].minimumSalePrice ==
        if key in old(viewContext.products) then old(viewContext.products[key].minimumSalePrice) else NewProduct.minimumSalePrice
      ensures viewContext.products[key].name == Some(name)
      ensures viewContext.products[key].costPrice == costPrice
      ensures viewContext.products[key].salePrice == salePrice
      ensures viewContext.products[key].stockQuantity == stockQuantity
      ensures viewContext.products[key].image == image
      ensures Consistent(viewContext.products[key])
      ensures AllConsistent(old(viewContext.products)) ==> AllConsistent(viewContext.products)
    {
      if product.Some? {
        key := product.value;
      } else {
        key := viewContext.FreshId();
        viewContext.products := viewContext.products[key := NewProduct];
      }
      if viewContext.products[key].productID.None? {
        var uuid := viewContext.FreshId();
        viewContext.products := viewContext.products[key := viewContext.products[key].(productID := Some(uuid))];
      }
      var productToSave := viewContext.products[key];
      productToSave := productToSave.(name := Some(name), costPrice := costPrice, salePrice := salePrice,
                                      stockQuantity := stockQuantity, image := image,
                                      stockValue := costPrice * stockQuantity as real);
      viewContext.products := viewContext.products[key := productToSave];
    }
  }
}
