/**
 * The category page: a route id is classified as a movie or a product
 * category, resolved against the constant tables, and mapped to a title, a
 * count and the list of items shown.
 */
module Categories {
  import opened Wrappers
  import opened Catalog
  import opened MockData

  const AllMoviesId: string := "movies"
  const AllProductsId: string := "all-products"

  /** `cats.some(cat => cat.id === id)`. */
  predicate ContainsId(cats: seq<Category>, id: string)
  {
    exists k :: 0 <= k < |cats| && cats[k].id == id
  }

  /** `cats.find(cat => cat.id === id)`: the first row with that id, if any. */
  function FindById(cats: seq<Category>, id: string): (r: Option<Category>)
    ensures r.None? <==> !ContainsId(cats, id)
    ensures r.Some? ==>
              exists k :: 0 <= k < |cats| && cats[k] == r.value && r.value.id == id &&
                forall j :: 0 <= j < k ==> cats[j].id != id
  {
    if cats == [] then None
    else if cats[0].id == id then Some(cats[0])
    else
      var rest := FindById(cats[1..], id);
      assert ContainsId(cats, id) ==> ContainsId(cats[1..], id) by {
        if ContainsId(cats, id) {
          var k :| 0 <= k < |cats| && cats[k].id == id;
          assert cats[1..][k - 1].id == id;
        }
      }
      if rest.Some? then
        var k :| 0 <= k < |cats[1..]| && cats[1..][k] == rest.value && rest.value.id == id &&
          forall j :: 0 <= j < k ==> cats[1..][j].id != id;
        assert cats[k + 1] == rest.value;
        rest
      else
        rest
  }

  /** `id === 'movies' || movieCategories.some(cat => cat.id === id)`. */
  predicate IsMovie(id: string)
  {
    id == AllMoviesId || ContainsId(MovieCategories, id)
  }

  /** No movie row reuses a special id, and every movie row has a name. */
  lemma MovieRowsAreOrdinary()
    ensures forall k :: 0 <= k < |MovieCategories| ==>
              MovieCategories[k].id != AllMoviesId && MovieCategories[k].id != AllProductsId &&
              MovieCategories[k].name != ""
  {
    forall k | 0 <= k < |MovieCategories|
      ensures MovieCategories[k].id != AllMoviesId && MovieCategories[k].id != AllProductsId
      ensures MovieCategories[k].name != ""
    {
      assert MovieCategories[k].id[0] != AllMoviesId[0];
      assert |MovieCategories[k].id| < |AllProductsId|;
    }
  }

  /** The part of a category the page shows: its name and its count. */
  datatype Heading = Heading(name: string, count: nat)

  function HeadingOf(c: Category): Heading
  {
    Heading(c.name, c.count)
  }

  /** The category object the page resolves, or none (`undefined`). */
  function Resolve(id: string): (r: Option<Heading>)
    ensures id == AllMoviesId ==> r == Some(Heading("All Movies", |FeaturedMovies|))
    ensures id == AllProductsId ==> r == Some(Heading("All Products", |FeaturedProducts|))
    ensures id != AllMoviesId && IsMovie(id) ==>
              r.Some? && r.value.name != "" &&
              exists k :: 0 <= k < |MovieCategories| && MovieCategories[k].id == id && r.value == HeadingOf(MovieCategories[k])
    ensures id != AllProductsId && !IsMovie(id) ==> (r.Some? <==> ContainsId(ProductCategories, id))
    ensures id != AllProductsId && !IsMovie(id) && r.Some? ==>
              exists k :: 0 <= k < |ProductCategories| && ProductCategories[k].id == id && r.value == HeadingOf(ProductCategories[k])
  {
    MovieRowsAreOrdinary();
    if IsMovie(id) then
      if id == AllMoviesId then Some(Heading("All Movies", |FeaturedMovies|))
      else
        var c := FindById(MovieCategories, id);
        if c.Some? then Some(HeadingOf(c.value)) else None
    else
      if id == AllProductsId then Some(Heading("All Products", |FeaturedProducts|))
      else
        var c := FindById(ProductCategories, id);
        if c.Some? then Some(HeadingOf(c.value)) else None
  }

  /** What the page lists: every featured movie or every featured product, whatever the category. */
  datatype Listing = Movies(movies: seq<Movie>) | Products(products: seq<Product>)

  function Items(id: string): (l: Listing)
    ensures l.Movies? <==> IsMovie(id)
    ensures l.Movies? ==> l.movies == FeaturedMovies
    ensures l.Products? ==> l.products == FeaturedProducts
  {
    if IsMovie(id) then Movies(FeaturedMovies) else Products(FeaturedProducts)
  }

  /** `category?.name || 'Category'`. */
  function Title(id: string): (t: string)
    ensures Resolve(id).None? ==> t == "Category"
    ensures Resolve(id).Some? && Resolve(id).value.name != "" ==> t == Resolve(id).value.name
  {
    var r := Resolve(id);
    if r.Some? && r.value.name != "" then r.value.name else "Category"
  }

  /** `category?.count || 0`. */
  function Count(id: string): (n: nat)
    ensures Resolve(id).None? ==> n == 0
    ensures Resolve(id).Some? ==> n == Resolve(id).value.count
  {
    var r := Resolve(id);
    if r.Some? then r.value.count else 0
  }

  /** An id that is neither special nor in either table shows products under "Category" with count 0. */
  lemma UnknownIdFallsBack(id: string)
    requires id != AllMoviesId && id != AllProductsId
    requires !ContainsId(MovieCategories, id) && !ContainsId(ProductCategories, id)
    ensures Items(id) == Products(FeaturedProducts)
    ensures Title(id) == "Category" && Count(id) == 0
  {
  }

  /** Every row of the movie table resolves to itself and lists movies. */
  lemma {:induction false} MovieRowsResolve(k: nat)
    requires k < |MovieCategories|
    ensures IsMovie(MovieCategories[k].id)
    ensures Resolve(MovieCategories[k].id) == Some(HeadingOf(MovieCategories[k]))
    ensures Title(MovieCategories[k].id) == MovieCategories[k].name
    ensures Count(MovieCategories[k].id) == MovieCategories[k].count
  {
    var id := MovieCategories[k].id;
    assert ContainsId(MovieCategories, id);
    MovieRowsAreOrdinary();
    var j :| 0 <= j < |MovieCategories| && MovieCategories[j].id == id &&
      Resolve(id).value == HeadingOf(MovieCategories[j]);
    MockData.CategoryIdsDistinct();
    assert j == k;
  }

  /** The entertainment links of the home page footer, as written. */
  const FooterMovieLinks: seq<string> := ["action", "comedy", "drama", "sci-fi"]

  /** The footer's "Sci-Fi Movies" link is not a movie id, so it shows products under "Category" with count 0. */
  lemma {:induction false} SciFiLinkShowsProducts()
    ensures !IsMovie(FooterMovieLinks[3])
    ensures Items(FooterMovieLinks[3]).Products?
    ensures Title(FooterMovieLinks[3]) == "Category" && Count(FooterMovieLinks[3]) == 0
  {
    var id := FooterMovieLinks[3];
    assert !ContainsId(MovieCategories, id) by {
      forall k | 0 <= k < |MovieCategories| ensures MovieCategories[k].id != id {
        assert MovieCategories[k].id[4] != id[4];
      }
    }
    assert !ContainsId(ProductCategories, id) by {
      forall k | 0 <= k < |ProductCategories| ensures ProductCategories[k].id != id {
        assert ProductCategories[k].id[1] != id[1];
      }
    }
    UnknownIdFallsBack(id);
  }

  /** The footer links with the table's own id for science fiction. */
  const CorrectedFooterMovieLinks: seq<string> := ["action", "comedy", "drama", "scifi"]

  /** Every corrected footer link opens its movie category with that category's name and count. */
  lemma {:induction false} CorrectedFooterLinksShowMovies(k: nat)
    requires k < |CorrectedFooterMovieLinks|
    ensures IsMovie(CorrectedFooterMovieLinks[k])
    ensures Items(CorrectedFooterMovieLinks[k]) == Movies(FeaturedMovies)
    ensures Resolve(CorrectedFooterMovieLinks[k]) == Some(HeadingOf(MovieCategories[k]))
  {
    assert CorrectedFooterMovieLinks[k] == MovieCategories[k].id;
    MovieRowsResolve(k);
  }
}
