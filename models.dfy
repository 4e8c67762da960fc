/** The catalog product record. */
module Models {

  /**
   * A catalog product. `price` is in minor currency units (agorot), so that
   * sums are exact; `imageUrl` may be empty, meaning "no image".
   */
  datatype Product = Product(
    id: int,
    categoryId: int,
    name: string,
    price: int,
    barcode: string,
    imageUrl: string)
}
