/** The product record other stores look products up in. The product catalogue
 *  itself (products.js) is not part of this model: callers hand the list in. */
module Products {
  import opened Common

  datatype Product = Product(
    id: string,
    name: string,
    description: string,
    price: int,
    categoryId: string,      // "" when the product has no category
    allowSize: bool,
    allowTopping: bool)

  /** getProductById: the first product with that id. */
  function ProductById(products: seq<Product>, id: string): (r: Option<Product>)
    ensures r.Some? <==> exists j :: 0 <= j < |products| && products[j].id == id
    ensures r.Some? ==> r.value in products && r.value.id == id
    ensures r.Some? ==> exists j :: 0 <= j < |products| && products[j] == r.value &&
                         forall k :: 0 <= k < j ==> products[k].id != id
  {
    var i := FirstIndex(products, (p: Product) => p.id == id);
    if i < 0 then None else Some(products[i])
  }
}
