/**
 * The storefront's static fixtures: the product and movie category tables
 * and the featured products and movies. Prices are in integer cents.
 */
module MockData {
  import opened Catalog

  /** A row of a category table. */
  datatype Category = Category(id: string, name: string, image: string, count: nat)

  /** A featured movie; its per-site ratings are not part of this model. */
  datatype Movie = Movie(id: string, title: string, poster: string, year: nat, rating: real, reviewCount: nat)

  const ProductCategories: seq<Category> := [
    Category("electronics", "Electronics", "https://images.unsplash.com/photo-1526738549149-8e07eca6c147", 120),
    Category("home-appliances", "Home Appliances", "https://images.unsplash.com/photo-1574269906883-67810cb1bd23", 75),
    Category("fashion", "Fashion", "https://images.unsplash.com/photo-1525507119028-ed4c629a60a3", 200),
    Category("beauty", "Beauty", "https://images.unsplash.com/photo-1596462502278-27bfdc403348", 90),
    Category("books", "Books", "https://images.unsplash.com/photo-1495446815901-a7297e633e8d", 150),
    Category("sports", "Sports", "https://images.unsplash.com/photo-1517649763962-0c623066013b", 85)
  ]

  const MovieCategories: seq<Category> := [
    Category("action", "Action", "https://images.unsplash.com/photo-1513106580091-1d82408b8cd6", 45),
    Category("comedy", "Comedy", "https://images.unsplash.com/photo-1483225280852-715131383333", 60),
    Category("drama", "Drama", "https://images.unsplash.com/photo-1485846234645-a62644f84728", 75),
    Category("scifi", "Sci-Fi", "https://images.unsplash.com/photo-1446776811953-b23d57bd21aa", 30),
    Category("horror", "Horror", "https://images.unsplash.com/photo-1542281286-9e0a16bb7366", 40),
    Category("animation", "Animation", "https://images.unsplash.com/photo-1534103362078-d07e750bd0c4", 50)
  ]

  const AmazonLogo: string := "https://upload.wikimedia.org/wikipedia/commons/thumb/a/a9/Amazon_logo.svg/200px-Amazon_logo.svg.png"
  const BestBuyLogo: string := "https://upload.wikimedia.org/wikipedia/commons/thumb/f/f5/Best_Buy_Logo.svg/220px-Best_Buy_Logo.svg.png"
  const WalmartLogo: string := "https://upload.wikimedia.org/wikipedia/commons/thumb/1/14/Walmart_Spark.svg/200px-Walmart_Spark.svg.png"
  const AppleLogo: string := "https://upload.wikimedia.org/wikipedia/commons/thumb/f/fa/Apple_logo_black.svg/180px-Apple_logo_black.svg.png"
  const SamsungLogo: string := "https://upload.wikimedia.org/wikipedia/commons/thumb/2/24/Samsung_Logo.svg/200px-Samsung_Logo.svg.png"
  const DysonLogo: string := "https://upload.wikimedia.org/wikipedia/commons/thumb/5/5c/Dyson_logo.svg/200px-Dyson_logo.svg.png"
  const BoseLogo: string := "https://upload.wikimedia.org/wikipedia/commons/thumb/8/8b/Bose_logo.svg/200px-Bose_logo.svg.png"

  const FeaturedProducts: seq<Product> := [
    Product("p1", "Sony WH-1000XM4 Wireless Noise Canceling Headphones",
      "https://images.unsplash.com/photo-1546435770-a3e426bf472b", 8.7, 1245, 29999,
      [Source("Amazon", 29999, AmazonLogo), Source("BestBuy", 32999, BestBuyLogo), Source("Walmart", 30999, WalmartLogo)]),
    Product("p2", "Apple iPad Pro 11-inch",
      "https://images.unsplash.com/photo-1544244015-0df4b3ffc6b0", 9.2, 987, 79999,
      [Source("Amazon", 79999, AmazonLogo), Source("Apple", 79999, AppleLogo), Source("BestBuy", 79999, BestBuyLogo)]),
    Product("p3", "Samsung 55-inch QLED 4K Smart TV",
      "https://images.unsplash.com/photo-1593359677879-a4bb92f829d1", 8.5, 765, 64999,
      [Source("Amazon", 64999, AmazonLogo), Source("BestBuy", 69999, BestBuyLogo), Source("Samsung", 69999, SamsungLogo)]),
    Product("p4", "Dyson V11 Cordless Vacuum Cleaner",
      "https://images.unsplash.com/photo-1584184924103-e310d9dc82fc", 8.9, 543, 49999,
      [Source("Amazon", 54999, AmazonLogo), Source("BestBuy", 49999, BestBuyLogo), Source("Dyson", 54999, DysonLogo)]),
    Product("p5", "Bose QuietComfort 45 Headphones",
      "https://images.unsplash.com/photo-1605464315542-bda3e2f4e605", 8.8, 432, 27999,
      [Source("Amazon", 27999, AmazonLogo), Source("BestBuy", 29999, BestBuyLogo), Source("Bose", 29999, BoseLogo)])
  ]

  const FeaturedMovies: seq<Movie> := [
    Movie("m1", "Dune: Part Two", "https://images.unsplash.com/photo-1635805737707-575885ab0820", 2024, 8.6, 2345),
    Movie("m2", "The Batman", "https://images.unsplash.com/photo-1531259683007-016a7b628fc3", 2022, 8.2, 1876),
    Movie("m3", "Barbie", "https://images.unsplash.com/photo-1469131792215-9c5eda70d1ee", 2023, 7.8, 2156),
    Movie("m4", "Oppenheimer", "https://images.unsplash.com/photo-1518676590629-3dcbd9c5a5c9", 2023, 9.0, 2789),
    Movie("m5", "Inside Out 2", "https://images.unsplash.com/photo-1594909122845-11baa439b7bf", 2023, 8.7, 1658)
  ]

  /** Every featured product's lowest price is the minimum of its source prices. */
  lemma {:induction false} FeaturedLowestPricesConsistent()
    ensures forall k :: 0 <= k < |FeaturedProducts| ==>
      IsLowestPrice(FeaturedProducts[k].lowestPrice, FeaturedProducts[k].sources)
  {
    forall k | 0 <= k < |FeaturedProducts|
      ensures IsLowestPrice(FeaturedProducts[k].lowestPrice, FeaturedProducts[k].sources)
    {
      var p := FeaturedProducts[k];
      var cheapest := if k == 3 then p.sources[1] else p.sources[0];
      assert cheapest in p.sources && cheapest.price == p.lowestPrice;
    }
  }

  /** No id occurs in both tables, and each table's ids are distinct. */
  lemma CategoryIdsDistinct()
    ensures forall i, j :: 0 <= i < j < |ProductCategories| ==> ProductCategories[i].id != ProductCategories[j].id
    ensures forall i, j :: 0 <= i < j < |MovieCategories| ==> MovieCategories[i].id != MovieCategories[j].id
    ensures forall i, j :: 0 <= i < |ProductCategories| && 0 <= j < |MovieCategories| ==>
      ProductCategories[i].id != MovieCategories[j].id
  {
  }
}
