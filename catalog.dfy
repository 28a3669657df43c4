/**
 * The product record every listing in the storefront shares (the props of
 * the product card). Prices are whole cents.
 */
module Catalog {

  /** One seller's offer for a product. */
  datatype Source = Source(name: string, price: int, logo: string)

  /** A product with its offers; `lowestPrice` is meant to be the cheapest offer. */
  datatype Product = Product(
    id: string,
    name: string,
    image: string,
    rating: real,
    reviewCount: int,
    lowestPrice: int,
    sources: seq<Source>)

  /** `x` is the price of some offer and no offer is cheaper. */
  predicate IsLowestPrice(x: int, sources: seq<Source>)
  {
    (exists s <- sources :: s.price == x) && forall s <- sources :: x <= s.price
  }
}
