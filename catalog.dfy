/**
 * The product row the cart, order and listing code reads
 * (backend/apps/products/models.py, `Product`). Money is held as an integer
 * number of paise, the two decimal places of `price` made exact; `createdAt`
 * is the creation instant as a count of some fixed clock unit.
 */
module Catalog {
  import opened Wrappers

  type ProductId = string
  type CategoryId = string

  datatype Product = Product(
    id: ProductId,
    slug: string,
    name: string,
    description: string,
    price: int,
    categoryId: CategoryId,
    isAvailable: bool,
    createdAt: int)

  /** The product table, looked up by primary key. */
  type ProductTable = map<ProductId, Product>

  /** Every row is stored under its own id. */
  predicate WellKeyed(products: ProductTable) {
    forall id :: id in products ==> products[id].id == id
  }

  /** `Product.objects.get(id=id)`; `None` stands for `DoesNotExist`. */
  function LookupProduct(products: ProductTable, id: ProductId): (r: Option<Product>)
    ensures r.None? <==> id !in products
    ensures r.Some? ==> r.value == products[id]
  {
    if id in products then Some(products[id]) else None
  }

  /** `Product.objects.get(id=id, is_available=True)`. */
  function LookupAvailable(products: ProductTable, id: ProductId): (r: Option<Product>)
    ensures r.Some? <==> id in products && products[id].isAvailable
    ensures r.Some? ==> r.value == products[id]
  {
    if id in products && products[id].isAvailable then Some(products[id]) else None
  }
}
