/** The server-owned product record and the cart line the context builds from it. */
module Catalog {
  import opened Wrappers

  /** A product as the backend returns it. Optional JSON fields are `Option`s. */
  datatype Product = Product(
    id: int,
    name: string,
    brand: string,
    description: Option<string>,
    price: real,
    category: Option<string>,
    stockQuantity: int,
    productAvailable: bool,
    imageData: Option<string>,
    imageName: Option<string>,
    releaseDate: Option<string>)

  /** `{ ...product, quantity }`: a cart line is the product's fields plus a quantity. */
  datatype CartLine = CartLine(product: Product, quantity: int)
  {
    function Id(): int { product.id }
  }

  /** JavaScript truthiness of an optional string: present and not "". */
  predicate Truthy(s: Option<string>) {
    s.Some? && s.value != ""
  }
}
