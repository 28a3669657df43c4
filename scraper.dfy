/**
 * The simulated scraper service: a fixed directory of supported shopping
 * sites, a memo cache from category to generated product list, product list
 * generation from random draws, and cache clearing.
 *
 * The source keeps the cache in a static field of the class; here it is a
 * field of one service object. Each call of `Math.random` is a parameter
 * (a "draw"): a draw that the source floors is the resulting natural number,
 * a draw used as a fraction is a real in [0, 1).
 */
module Scraper {
  import opened Wrappers
  import opened Text
  import opened Catalog

  const PlaceholderImage: string := "/placeholder.svg"

  /** An entry of the site directory. */
  datatype Site = Site(name: string, url: string, logo: string)

  /** The supported shopping sites, in directory order. */
  const SupportedSites: seq<Site> := [
    Site("Amazon", "https://www.amazon.com", PlaceholderImage),
    Site("Flipkart", "https://www.flipkart.com", PlaceholderImage),
    Site("eBay", "https://www.ebay.com", PlaceholderImage),
    Site("Etsy", "https://www.etsy.com", PlaceholderImage),
    Site("Walmart", "https://www.walmart.com", PlaceholderImage),
    Site("Snapdeal", "https://www.snapdeal.com", PlaceholderImage),
    Site("Best Buy", "https://www.bestbuy.com", PlaceholderImage),
    Site("Target", "https://www.target.com", PlaceholderImage),
    Site("AliExpress", "https://www.aliexpress.com", PlaceholderImage),
    Site("Myntra", "https://www.myntra.com", PlaceholderImage)
  ]

  /** The directory's site names, in directory order. */
  function SiteNames(): (names: seq<string>)
    ensures |names| == |SupportedSites|
    ensures forall i :: 0 <= i < |names| ==> names[i] == SupportedSites[i].name
  {
    seq(|SupportedSites|, i requires 0 <= i < |SupportedSites| => SupportedSites[i].name)
  }

  /** What every service call answers: a success flag with data, or an error message. */
  datatype ScraperResponse = ScraperResponse(success: bool, data: Option<seq<Product>>, error: Option<string>)

  const DetailsNotImplemented: string := "Product details scraping is not implemented yet"

  // ---------------------------------------------------------------- draws

  /** The two draws for one offer: which site, and where in the price band. */
  datatype SourceDraw = SourceDraw(siteIndex: nat, priceJitter: real)

  /** The draws for one product, in the order the source makes them. */
  datatype ProductDraw = ProductDraw(
    extraSources: nat,
    extraBase: nat,
    sources: seq<SourceDraw>,
    ratingJitter: real,
    extraReviews: nat)

  /** All draws of one generation: how many products beyond 15, and each product's draws. */
  datatype Draws = Draws(extraProducts: nat, products: seq<ProductDraw>)

  /** Each site index names a directory entry and each price jitter is a fraction in [0, 1). */
  predicate SourceDrawsInRange(ds: seq<SourceDraw>)
  {
    forall j :: 0 <= j < |ds| ==> ds[j].siteIndex < |SupportedSites| && 0.0 <= ds[j].priceJitter < 1.0
  }

  predicate ProductDrawInRange(d: ProductDraw)
  {
    && d.extraSources < 4
    && |d.sources| == 3 + d.extraSources
    && d.extraBase < 950
    && SourceDrawsInRange(d.sources)
    && 0.0 <= d.ratingJitter < 1.0
    && d.extraReviews < 990
  }

  /** The draws lie in the ranges `Math.random` and the source's scaling give them. */
  predicate DrawsInRange(d: Draws)
  {
    && d.extraProducts < 15
    && |d.products| == 15 + d.extraProducts
    && forall i :: 0 <= i < |d.products| ==> ProductDrawInRange(d.products[i])
  }

  // ------------------------------------------------- pieces of a product

  /** `product-${category}-${i}`. */
  function ProductId(category: string, i: nat): string
  {
    "product-" + category + "-" + NatToString(i)
  }

  /** Two products of one category get the same id only if they have the same index. */
  lemma ProductIdInjective(category: string, i: nat, j: nat)
    requires ProductId(category, i) == ProductId(category, j)
    ensures i == j
  {
    SamePrefixCancels("product-" + category + "-", NatToString(i), NatToString(j));
    NatToStringInjective(i, j);
  }

  /** The category with its first character upper-cased, then ` Product ${i + 1}`. */
  function ProductName(category: string, i: nat): string
  {
    Capitalize(category) + " Product " + NatToString(i + 1)
  }

  /**
   * `n * x`, written as the sum of `n` copies of `x` so that unfolding it
   * never introduces a product of two unknowns; `ScaleIsProduct` proves the
   * two agree.
   */
  function Scale(n: nat, x: real): real
  {
    if n == 0 then 0.0 else x + Scale(n - 1, x)
  }

  lemma {:induction false} ScaleIsProduct(n: nat, x: real)
    ensures Scale(n, x) == (n as real) * x
  {
    if n > 0 {
      ScaleIsProduct(n - 1, x);
      assert (n as real) * x == x + ((n - 1) as real) * x;
    }
  }

  /** Scaling a value in [85, 115] by `n` gives a value in [85n, 115n]. */
  lemma {:induction false} ScaleWithinBand(n: nat, x: real)
    requires 85.0 <= x <= 115.0
    ensures 85.0 * (n as real) <= Scale(n, x) <= 115.0 * (n as real)
  {
    if n > 0 {
      ScaleWithinBand(n - 1, x);
    }
  }

  /**
   * `Math.round(basePrice * (0.85 + jitter * 0.3) * 100)`, the price in
   * cents, computed exactly: `Math.round(y)` is the floor of `y + 1/2`.
   */
  function JitteredPriceCents(basePrice: nat, jitter: real): int
  {
    (Scale(basePrice, 85.0 + 30.0 * jitter) + 0.5).Floor
  }

  /** A jittered price stays within 15% of the base price, ends included. */
  lemma PriceWithinBand(basePrice: nat, jitter: real)
    requires 0.0 <= jitter < 1.0
    ensures 85 * basePrice <= JitteredPriceCents(basePrice, jitter) <= 115 * basePrice
  {
    ScaleWithinBand(basePrice, 85.0 + 30.0 * jitter);
    RoundedWithinBand(basePrice, Scale(basePrice, 85.0 + 30.0 * jitter));
  }

  /** `Math.round(x)` of an exact price `x` between 85 and 115 times `basePrice` stays between them. */
  lemma RoundedWithinBand(basePrice: nat, x: real)
    requires 85.0 * (basePrice as real) <= x <= 115.0 * (basePrice as real)
    ensures 85 * basePrice <= (x + 0.5).Floor <= 115 * basePrice
  {
    var lo, hi := 85 * basePrice, 115 * basePrice;
    assert lo as real == 85.0 * (basePrice as real);
    assert hi as real == 115.0 * (basePrice as real);
    FloorBetween(x + 0.5, lo, hi);
  }

  /** Rounding down a real that lies in [lo, hi + 1) gives an integer in [lo, hi]. */
  lemma FloorBetween(y: real, lo: int, hi: int)
    requires lo as real <= y < hi as real + 1.0
    ensures lo <= y.Floor <= hi
  {
  }

  /** The offer built from one site draw. */
  function SourceFrom(d: SourceDraw, basePrice: nat): Source
    requires d.siteIndex < |SupportedSites|
  {
    var site := SupportedSites[d.siteIndex];
    Source(site.name, JitteredPriceCents(basePrice, d.priceJitter), site.logo)
  }

  /** One offer per site draw, in draw order. */
  function SourcesFrom(ds: seq<SourceDraw>, basePrice: nat): (r: seq<Source>)
    requires SourceDrawsInRange(ds)
    ensures |r| == |ds|
  {
    seq(|ds|, j requires 0 <= j < |ds| => SourceFrom(ds[j], basePrice))
  }

  // ------------------------------------------- sorting offers by price

  predicate SortedByPrice(s: seq<Source>)
  {
    forall i, j :: 0 <= i < j < |s| ==> s[i].price <= s[j].price
  }

  /** Inserts `x` before the first offer that is not cheaper than it. */
  function InsertByPrice(x: Source, s: seq<Source>): (r: seq<Source>)
    requires SortedByPrice(s)
    ensures |r| == |s| + 1
    ensures SortedByPrice(r)
    ensures multiset(r) == multiset(s) + multiset{x}
    ensures r[0] == x || (s != [] && r[0] == s[0])
  {
    if s == [] || x.price <= s[0].price then
      [x] + s
    else
      assert s == [s[0]] + s[1..];
      var rest := InsertByPrice(x, s[1..]);
      assert rest[0].price >= s[0].price;
      [s[0]] + rest
  }

  /** `[...sources].sort((a, b) => a.price - b.price)`: a stable sort of a copy, cheapest first. */
  function SortByPrice(s: seq<Source>): (r: seq<Source>)
    ensures |r| == |s|
    ensures SortedByPrice(r)
    ensures multiset(r) == multiset(s)
  {
    if s == [] then []
    else
      assert s == [s[0]] + s[1..];
      InsertByPrice(s[0], SortByPrice(s[1..]))
  }

  /** The price of the first offer of the sorted copy. */
  function LowestPrice(sources: seq<Source>): int
    requires sources != []
  {
    SortByPrice(sources)[0].price
  }

  /** The first price of the sorted copy is the minimum of the offers' prices. */
  lemma LowestPriceIsMinimum(sources: seq<Source>)
    requires sources != []
    ensures IsLowestPrice(LowestPrice(sources), sources)
  {
    var sorted := SortByPrice(sources);
    assert sorted[0] in multiset(sorted);
    assert sorted[0] in sources;
    forall s | s in sources
      ensures LowestPrice(sources) <= s.price
    {
      assert s in multiset(sources);
      assert s in sorted;
      var k :| 0 <= k < |sorted| && sorted[k] == s;
    }
  }

  // ------------------------------------------------ generated products

  /** The product the source builds at index `i` from the draws `d`. */
  function ProductFrom(category: string, i: nat, d: ProductDraw): Product
    requires ProductDrawInRange(d)
  {
    var basePrice := 50 + d.extraBase;
    var sources := SourcesFrom(d.sources, basePrice);
    Product(
      ProductId(category, i),
      ProductName(category, i),
      PlaceholderImage,
      3.0 + d.ratingJitter * 2.0,
      10 + d.extraReviews,
      LowestPrice(sources),
      sources)
  }

  /** `products` is exactly the list the source generates for `category` from the draws `d`. */
  ghost predicate GeneratedFrom(category: string, d: Draws, products: seq<Product>)
  {
    && DrawsInRange(d)
    && |products| == 15 + d.extraProducts
    && forall i :: 0 <= i < |products| ==> products[i] == ProductFrom(category, i, d.products[i])
  }

  /** The offer names a directory site and carries that same site's logo. */
  ghost predicate FromDirectory(s: Source)
  {
    exists site <- SupportedSites :: s.name == site.name && s.logo == site.logo
  }

  /** Every offer is within 15% of `basePrice` (in cents: between 85 and 115 times it). */
  ghost predicate PricesAround(sources: seq<Source>, basePrice: int)
  {
    forall s <- sources :: 85 * basePrice <= s.price <= 115 * basePrice
  }

  /** What a generated product at index `i` of `category` always satisfies. */
  ghost predicate WellFormedProduct(category: string, i: nat, p: Product)
  {
    && p.id == ProductId(category, i)
    && p.name == ProductName(category, i)
    && p.image == PlaceholderImage
    && 3.0 <= p.rating < 5.0
    && 10 <= p.reviewCount <= 999
    && WellFormedOffers(p.sources, p.lowestPrice)
  }

  /** What the offers of a generated product and their lowest price always satisfy. */
  ghost predicate WellFormedOffers(sources: seq<Source>, lowestPrice: int)
  {
    && 3 <= |sources| <= 6
    && (forall s <- sources :: FromDirectory(s))
    && (exists basePrice :: 50 <= basePrice <= 999 && PricesAround(sources, basePrice))
    && IsLowestPrice(lowestPrice, sources)
  }

  /** What every generated (and so every cached) product list satisfies. */
  ghost predicate WellFormedCatalog(category: string, products: seq<Product>)
  {
    && 15 <= |products| <= 29
    && forall i :: 0 <= i < |products| ==> WellFormedProduct(category, i, products[i])
  }

  /** Offers built from in-range site draws come from the directory and lie in the band around `basePrice`. */
  lemma SourcesFromInBand(ds: seq<SourceDraw>, basePrice: nat)
    requires SourceDrawsInRange(ds)
    ensures forall s <- SourcesFrom(ds, basePrice) :: FromDirectory(s)
    ensures PricesAround(SourcesFrom(ds, basePrice), basePrice)
  {
    var sources := SourcesFrom(ds, basePrice);
    forall j | 0 <= j < |sources|
      ensures FromDirectory(sources[j])
      ensures 85 * basePrice <= sources[j].price <= 115 * basePrice
    {
      assert SupportedSites[ds[j].siteIndex] in SupportedSites;
      PriceWithinBand(basePrice, ds[j].priceJitter);
    }
  }

  /** The offers built from 3 to 6 in-range site draws around a base in [50, 999], with their lowest price, are well formed. */
  lemma OffersFromWellFormed(ds: seq<SourceDraw>, basePrice: nat)
    requires SourceDrawsInRange(ds) && 3 <= |ds| <= 6 && 50 <= basePrice <= 999
    ensures WellFormedOffers(SourcesFrom(ds, basePrice), LowestPrice(SourcesFrom(ds, basePrice)))
  {
    SourcesFromInBand(ds, basePrice);
    LowestPriceIsMinimum(SourcesFrom(ds, basePrice));
  }

  /** The fields of a generated product, and the offers it carries. */
  lemma ProductFromFields(category: string, i: nat, d: ProductDraw)
    requires ProductDrawInRange(d)
    ensures ProductFrom(category, i, d).id == ProductId(category, i)
    ensures ProductFrom(category, i, d).name == ProductName(category, i)
    ensures ProductFrom(category, i, d).image == PlaceholderImage
    ensures 3.0 <= ProductFrom(category, i, d).rating < 5.0
    ensures 10 <= ProductFrom(category, i, d).reviewCount <= 999
    ensures ProductFrom(category, i, d).sources == SourcesFrom(d.sources, 50 + d.extraBase)
    ensures ProductFrom(category, i, d).lowestPrice == LowestPrice(SourcesFrom(d.sources, 50 + d.extraBase))
  {
  }

  lemma ProductFromWellFormed(category: string, i: nat, d: ProductDraw)
    requires ProductDrawInRange(d)
    ensures WellFormedProduct(category, i, ProductFrom(category, i, d))
  {
    ProductFromFields(category, i, d);
    OffersFromWellFormed(d.sources, 50 + d.extraBase);
  }

  lemma GeneratedIsWellFormed(category: string, d: Draws, products: seq<Product>)
    requires GeneratedFrom(category, d, products)
    ensures WellFormedCatalog(category, products)
  {
    forall i | 0 <= i < |products|
      ensures WellFormedProduct(category, i, products[i])
    {
      assert d.products[i] in d.products;
      ProductFromWellFormed(category, i, d.products[i]);
    }
  }

  /** The ids of a generated list are pairwise distinct. */
  lemma CatalogIdsDistinct(category: string, products: seq<Product>)
    requires WellFormedCatalog(category, products)
    ensures forall i, j :: 0 <= i < j < |products| ==> products[i].id != products[j].id
  {
    forall i, j | 0 <= i < j < |products|
      ensures products[i].id != products[j].id
    {
      if products[i].id == products[j].id {
        ProductIdInjective(category, i, j);
      }
    }
  }

  /** The inner loop of the generator: one offer per site draw, in draw order. */
  method GenerateSources(basePrice: nat, draws: seq<SourceDraw>) returns (sources: seq<Source>)
    requires SourceDrawsInRange(draws)
    ensures |sources| == |draws|
    ensures forall j :: 0 <= j < |draws| ==> sources[j] == SourceFrom(draws[j], basePrice)
  {
    sources := [];
    var j := 0;
    while j < |draws|
      invariant 0 <= j <= |draws|
      invariant |sources| == j
      invariant forall k :: 0 <= k < j ==> sources[k] == SourceFrom(draws[k], basePrice)
    {
      var site := SupportedSites[draws[j].siteIndex];
      var price := JitteredPriceCents(basePrice, draws[j].priceJitter);
      sources := sources + [Source(site.name, price, site.logo)];
      j := j + 1;
    }
  }

  /** One pass of the outer loop: the offers, their lowest price and the product built from them. */
  method GenerateProduct(category: string, i: nat, d: ProductDraw) returns (product: Product)
    requires ProductDrawInRange(d)
    ensures product == ProductFrom(category, i, d)
  {
    var sourceCount := 3 + d.extraSources;
    var basePrice := 50 + d.extraBase;
    var sources := GenerateSources(basePrice, d.sources[..sourceCount]);
    assert d.sources[..sourceCount] == d.sources;
    assert sources == SourcesFrom(d.sources, basePrice);
    var sortedSources := SortByPrice(sources);
    var lowestPrice := sortedSources[0].price;
    product := Product(
      ProductId(category, i),
      ProductName(category, i),
      PlaceholderImage,
      3.0 + d.ratingJitter * 2.0,
      10 + d.extraReviews,
      lowestPrice,
      sources);
  }

  /** The generator: 15 to 29 products, each with 3 to 6 offers and their lowest price. */
  method GenerateProducts(category: string, draws: Draws) returns (products: seq<Product>)
    requires DrawsInRange(draws)
    ensures GeneratedFrom(category, draws, products)
    ensures WellFormedCatalog(category, products)
  {
    products := [];
    var productCount := 15 + draws.extraProducts;
    var i := 0;
    while i < productCount
      invariant 0 <= i <= productCount
      invariant |products| == i
      invariant forall k :: 0 <= k < i ==> products[k] == ProductFrom(category, k, draws.products[k])
    {
      assert ProductDrawInRange(draws.products[i]);
      var product := GenerateProduct(category, i, draws.products[i]);
      products := products + [product];
      i := i + 1;
    }
    GeneratedIsWellFormed(category, draws, products);
  }

  // --------------------------------------------------------------- cache

  /** The list stored under exactly the key `key`, if any. */
  function CachedList(cache: map<string, seq<Product>>, key: string): (r: Option<seq<Product>>)
    ensures r.Some? <==> key in cache
    ensures r.Some? ==> r.value == cache[key]
  {
    if key in cache then Some(cache[key]) else None
  }

  // ------------------------------------------------ lookup as written

  /**
   * The names a plain object literal such as the source's `{}` inherits
   * from `Object.prototype`. Each holds a function or an object, so reading
   * one is truthy.
   */
  const ObjectPrototypeMembers: set<string> := {
    "constructor", "hasOwnProperty", "isPrototypeOf", "propertyIsEnumerable",
    "toLocaleString", "toString", "valueOf", "__proto__",
    "__defineGetter__", "__defineSetter__", "__lookupGetter__", "__lookupSetter__"
  }

  /** What reading `cache[key]` on a plain object gives. */
  datatype PropertyValue = OwnList(products: seq<Product>) | Inherited(member: string) | Undefined

  /** `cache[key]` as JavaScript evaluates it: own entry first, then the prototype. */
  function CacheProperty(cache: map<string, seq<Product>>, key: string): (v: PropertyValue)
    ensures v.OwnList? <==> key in cache
    ensures v.Undefined? <==> key !in cache && key !in ObjectPrototypeMembers
  {
    if key in cache then OwnList(cache[key])
    else if key in ObjectPrototypeMembers then Inherited(key)
    else Undefined
  }

  /** The source's hit test `if (this.cache[category])`: arrays (even empty ones), functions and objects are truthy. */
  predicate IsTruthy(v: PropertyValue)
  {
    !v.Undefined?
  }

  /** On an empty cache the hit test as written succeeds for `"constructor"`, with no product list behind it. */
  lemma ConstructorIsFalseHit()
    ensures IsTruthy(CacheProperty(map[], "constructor"))
    ensures CacheProperty(map[], "constructor") == Inherited("constructor")
    ensures CachedList(map[], "constructor") == None
  {
  }

  /** Apart from the inherited names, the hit test as written and the own-key lookup agree. */
  lemma OwnLookupAgreesOffPrototype(cache: map<string, seq<Product>>, key: string)
    requires key !in ObjectPrototypeMembers
    ensures IsTruthy(CacheProperty(cache, key)) <==> CachedList(cache, key).Some?
    ensures CachedList(cache, key).Some? ==> CacheProperty(cache, key) == OwnList(CachedList(cache, key).value)
  {
  }

  class ScraperService {
    /** Category to the product list generated for it. */
    var cache: map<string, seq<Product>>

    /** Every cached list is a well-formed list for its own key. */
    ghost predicate Valid()
      reads this
    {
      forall key :: key in cache ==> WellFormedCatalog(key, cache[key])
    }

    constructor ()
      ensures Valid()
      ensures cache == map[]
    {
      cache := map[];
    }

    /**
     * A hit returns the stored list and changes nothing; a miss generates a
     * list from the draws, stores it under exactly `category` and leaves
     * every other key as it was. Either way the answer is a success whose
     * data is what is now cached under `category`.
     */
    method ScrapeProducts(category: string, draws: Draws) returns (response: ScraperResponse)
      requires Valid()
      requires DrawsInRange(draws)
      modifies this
      ensures Valid()
      ensures response.success && response.data.Some? && response.error.None?
      ensures category in cache && response.data.value == cache[category]
      ensures WellFormedCatalog(category, response.data.value)
      ensures category in old(cache) ==> cache == old(cache)
      ensures category !in old(cache) ==>
        && GeneratedFrom(category, draws, response.data.value)
        && cache == old(cache)[category := response.data.value]
    {
      var hit := CachedList(cache, category);
      if hit.Some? {
        return ScraperResponse(true, Some(hit.value), None);
      }
      var products := GenerateProducts(category, draws);
      cache := cache[category := products];
      response := ScraperResponse(true, Some(products), None);
    }

    /** Always fails with the fixed message, whatever the id; the cache is not touched. */
    method ScrapeProductDetails(productId: string) returns (response: ScraperResponse)
      ensures !response.success && response.data.None?
      ensures response.error == Some(DetailsNotImplemented)
    {
      response := ScraperResponse(false, None, Some(DetailsNotImplemented));
    }

    /** Drops every key at once. */
    method ClearCache()
      modifies this
      ensures Valid()
      ensures cache == map[]
    {
      cache := map[];
    }
  }

  /** Two scrapes of one category with no clearing between them give the same list. */
  method RepeatedScrapeIsStable(service: ScraperService, category: string, first: Draws, second: Draws)
    returns (r1: ScraperResponse, r2: ScraperResponse)
    requires service.Valid()
    requires DrawsInRange(first) && DrawsInRange(second)
    modifies service
    ensures r1 == r2
  {
    r1 := service.ScrapeProducts(category, first);
    r2 := service.ScrapeProducts(category, second);
  }

  /** After clearing, a scrape of any category generates afresh from the new draws. */
  method ScrapeAfterClearRegenerates(service: ScraperService, category: string, draws: Draws)
    returns (r: ScraperResponse)
    requires service.Valid()
    requires DrawsInRange(draws)
    modifies service
    ensures r.data.Some? && GeneratedFrom(category, draws, r.data.value)
    ensures service.cache == map[category := r.data.value]
  {
    service.ClearCache();
    r := service.ScrapeProducts(category, draws);
  }
}
