/**
 * The product catalog that the cart and payment views read. Only the fields
 * the views use are kept: the id, the display name, the unit price in cents,
 * the category ("" when the product has none) and the image reference.
 */
module Catalog {

  import opened Wrappers

  type ProductId = nat

  /** Money is kept in integer cents (the source uses two-decimal fixed point). */
  type Cents = int

  datatype Product = Product(id: ProductId, name: string, price: Cents, category: string, image: string)

  /** The product table, keyed by primary key. */
  type Products = map<ProductId, Product>

  ghost predicate KeyedById(products: Products)
  {
    forall id :: id in products ==> products[id].id == id
  }

  /** `Product.objects.get(id=...)`: the product, or nothing when the id is unknown. */
  function Lookup(products: Products, id: ProductId): (r: Option<Product>)
    ensures r.Some? <==> id in products
    ensures r.Some? ==> r.value == products[id]
  {
    if id in products then Some(products[id]) else None
  }
}
