/**
 * The product record the catalog hands to the cart and the product list.
 * Prices are whole cents and rating averages are hundredths, so that all
 * arithmetic in the model is exact.
 */
module Catalog {
  datatype Rating = Rating(rate: int, count: int)

  datatype Product = Product(
    id: int,
    title: string,
    price: int,
    description: string,
    category: string,
    image: string,
    rating: Rating)
}
