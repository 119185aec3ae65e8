/** The product record that the catalog delivers and that the cart and the favorites list hold snapshots of. */
module Catalog {

  /** A product as the remote catalog describes it. Only `id` and `price` take part in
      any rule of the model; the other fields are carried along unchanged.
      `price` is an integer number of cents, so that sums of prices are exact. */
  datatype Product = Product(
    id: int,
    title: string,
    description: string,
    category: string,
    brand: string,
    price: int,
    discountPercentage: real,
    rating: real,
    stock: int,
    thumbnail: string,
    images: seq<string>)
}
