/**
 * `ProductService` (Mainven/Services/ProductService.swift): creating or
 * editing a product from the product form, and deleting one. The stock
 * value is set from the entered cost and quantity; no ledger step runs.
 */
module Products {
  import opened Wrappers
  import opened Model
  import opened Store

  class ProductService {
    const viewContext: Context

    constructor (context: Context)
      ensures viewContext == context
    {
      viewContext := context;
    }

    /** `saveProduct(productID:name:costPrice:minimumSalePrice:stockQuantity:image:)`.
        An identity that names a live product edits it; otherwise a new
        product with a fresh `productID` is inserted. The sale price is not
        part of this form: an edit keeps it, a new product has the default. */
    method SaveProduct(productID: Option<ObjectId>, name: string, costPrice: real, minimumSalePrice: real,
                       stockQuantity: int, image: Option<seq<bv8>>)
      returns (key: ObjectId)
      requires viewContext.Valid()
      modifies viewContext`products, viewContext`nextId
      ensures viewContext.Valid()
      ensures key in viewContext.products
      ensures viewContext.products == old(viewContext.products)[key := viewContext.products[key]]
      ensures Resolves(old(viewContext.products), productID) ==>
        key == productID.value
        && viewContext.products[key].productID == old(viewContext.products[key].productID)
        && viewContext.products[key].salePrice == old(viewContext.products[key].salePrice)
      ensures !Resolves(old(viewContext.products), productID) ==>
        key !in old(viewContext.products) && key !in viewContext.purchases && key !in viewContext.sales
        && FreshProductID(old(viewContext.products), viewContext.products[key].productID)
        && viewContext.products[key].salePrice == NewProduct.salePrice
      ensures viewContext.products[key].name == Some(name)
      ensures viewContext.products[key].costPrice == costPrice
      ensures viewContext.products[key].minimumSalePrice == minimumSalePrice
      ensures viewContext.products[key].stockQuantity == stockQuantity
      ensures viewContext.products[key].image == image
      ensures Consistent(viewContext.products[key])
      ensures AllConsistent(old(viewContext.products)) ==> AllConsistent(viewContext.products)
    {
      if productID.Some? && productID.value in viewContext.products {
        key := productID.value;
      } else {
        key := viewContext.FreshId();
        viewContext.products := viewContext.products[key := NewProduct];
        var uuid := viewContext.FreshId();
        viewContext.products := viewContext.products[key := viewContext.products[key].(productID := Some(uuid))];
      }
      var productToSave := viewContext.products[key];
      productToSave := productToSave.(name := Some(name), costPrice := costPrice, minimumSalePrice := minimumSalePrice,
                                      stockQuantity := stockQuantity, image := image);
      productToSave := productToSave.(stockValue := productToSave.costPrice * productToSave.stockQuantity as real);
      viewContext.products := viewContext.products[key := productToSave];
    }

    /** `deleteProduct(product:)`: that product leaves the table and every
        other product stays as it was. Lines that referenced it read as
        having no product from then on. */
    method DeleteProduct(key: ObjectId)
      requires viewContext.Valid()
      modifies viewContext`products
      ensures viewContext.Valid()
      ensures viewContext.products == old(viewContext.products) - {key}
      ensures AllConsistent(old(viewContext.products)) ==> AllConsistent(viewContext.products)
    {
      viewContext.products := viewContext.products - {key};
    }
  }
}
