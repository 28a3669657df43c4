/**
 * The quick-commerce page: its search filter over product names and the
 * state changes around fetching, switching tabs and refreshing.
 *
 * The service method the page fetches from is not part of this model, so
 * each fetch takes its response as a parameter and returns the category it
 * asks for.
 */
module QuickCommerce {
  import opened Wrappers
  import opened Text
  import opened Sequences
  import opened Catalog
  import Scraper
  import Controls

  const AllTab: string := "all"

  /** `product.name.toLowerCase().includes(query)` for an already lower-cased query. */
  predicate Matches(p: Product, lowerQuery: string)
  {
    Includes(ToLowerCase(p.name), lowerQuery)
  }

  /** `products.filter(...)`: the matching products, in their order, each as often as it occurs. */
  function KeepMatching(products: seq<Product>, lowerQuery: string): (r: seq<Product>)
    ensures IsSubsequence(r, products)
    ensures forall p :: multiset(r)[p] == if Matches(p, lowerQuery) then multiset(products)[p] else 0
  {
    if products == [] then []
    else
      assert products == [products[0]] + products[1..];
      if Matches(products[0], lowerQuery) then [products[0]] + KeepMatching(products[1..], lowerQuery)
      else KeepMatching(products[1..], lowerQuery)
  }

  /** The search effect: a blank query shows everything, any other query the case-insensitive matches. */
  function FilterByQuery(products: seq<Product>, searchQuery: string): seq<Product>
  {
    if Trim(searchQuery) == "" then products else KeepMatching(products, ToLowerCase(searchQuery))
  }

  /** A query of whitespace only (or the empty query) filters nothing out. */
  lemma BlankQueryKeepsAll(products: seq<Product>, searchQuery: string)
    requires IsBlank(searchQuery)
    ensures FilterByQuery(products, searchQuery) == products
  {
    TrimEmptyIffBlank(searchQuery);
  }

  /**
   * Any other query keeps exactly the products whose lower-cased name
   * contains the lower-cased query (untrimmed), as a subsequence.
   */
  lemma QueryKeepsExactlyMatches(products: seq<Product>, searchQuery: string)
    requires !IsBlank(searchQuery)
    ensures IsSubsequence(FilterByQuery(products, searchQuery), products)
    ensures forall p ::
              multiset(FilterByQuery(products, searchQuery))[p] ==
              if exists i: nat :: OccursAt(ToLowerCase(p.name), ToLowerCase(searchQuery), i)
              then multiset(products)[p] else 0
  {
    TrimEmptyIffBlank(searchQuery);
    forall p ensures Matches(p, ToLowerCase(searchQuery)) <==>
      exists i: nat :: OccursAt(ToLowerCase(p.name), ToLowerCase(searchQuery), i)
    {
      IncludesIffOccurs(ToLowerCase(p.name), ToLowerCase(searchQuery));
    }
  }

  /** The filtered list is always an order-preserving subsequence of the products. */
  lemma FilterIsSubsequence(products: seq<Product>, searchQuery: string)
    ensures IsSubsequence(FilterByQuery(products, searchQuery), products)
  {
    if Trim(searchQuery) == "" {
      SubsequenceReflexive(products);
    }
  }

  /** The search never shows more products than were fetched. */
  lemma FilterNeverLonger(products: seq<Product>, searchQuery: string)
    ensures |FilterByQuery(products, searchQuery)| <= |products|
  {
    FilterIsSubsequence(products, searchQuery);
    SubsequenceNotLonger(FilterByQuery(products, searchQuery), products);
  }

  /** The argument `fetchProducts(cat)` passes on: `cat === 'all' ? undefined : cat`. */
  function RequestedCategory(cat: string): (r: Option<string>)
    ensures r.None? <==> cat == AllTab
    ensures r.Some? ==> r.value == cat
  {
    if cat == AllTab then None else Some(cat)
  }

  /** The category a tab value asks for: the lower-cased tab value, with any spelling of "all" meaning none. */
  function TabRequest(tab: string): (r: Option<string>)
    ensures r.None? <==> ToLowerCase(tab) == AllTab
    ensures r.Some? ==> r.value == ToLowerCase(tab)
  {
    RequestedCategory(ToLowerCase(tab))
  }

  /** The tab labels of the page, in display order. */
  const TabLabels: seq<string> := ["All", "Groceries", "Fresh Vegetables", "Fresh Fruits", "Dairy",
    "Bakery", "Beverages", "Snacks", "Household", "Personal Care", "Baby Products"]

  /** The value a tab carries: "all" for the "All" tab, its tabLabel otherwise. */
  function TabValue(tabLabel: string): (v: string)
    ensures tabLabel == "All" ==> v == AllTab
    ensures tabLabel != "All" ==> v == tabLabel
  {
    if tabLabel == "All" then AllTab else tabLabel
  }

  /** Of the page's tabs, only "All" asks for every category; every other tab asks for its lower-cased tabLabel. */
  lemma OnlyAllTabRequestsEverything(k: nat)
    requires k < |TabLabels|
    ensures TabRequest(TabValue(TabLabels[k])).None? <==> k == 0
    ensures k > 0 ==> TabRequest(TabValue(TabLabels[k])) == Some(ToLowerCase(TabLabels[k]))
  {
    if k > 0 {
      var tabLabel := TabLabels[k];
      assert tabLabel[0] != 'a' && tabLabel[0] != 'A';
      assert ToLowerCase(tabLabel)[0] == LowerChar(tabLabel[0]);
      assert ToLowerCase(tabLabel) != AllTab;
    } else {
      assert ToLowerCase(AllTab) == AllTab;
    }
  }

  /** `category || 'all'`: the route category, unless it is absent or empty. */
  function InitialTab(routeCategory: Option<string>): (tab: string)
    ensures routeCategory.None? ==> tab == AllTab
    ensures routeCategory.Some? && routeCategory.value == "" ==> tab == AllTab
    ensures routeCategory.Some? && routeCategory.value != "" ==> tab == routeCategory.value
  {
    if routeCategory.Some? && routeCategory.value != "" then routeCategory.value else AllTab
  }

  /** `response.success && response.data`. */
  predicate Succeeded(response: Scraper.ScraperResponse)
  {
    response.success && response.data.Some?
  }

  class QuickCommercePage {
    var products: seq<Product>
    var filteredProducts: seq<Product>
    var isLoading: bool
    var searchQuery: string
    var selectedTab: string

    /** The first render: nothing loaded, no query, the tab taken from the route. */
    constructor (routeCategory: Option<string>)
      ensures products == [] && filteredProducts == []
      ensures !isLoading && searchQuery == ""
      ensures selectedTab == InitialTab(routeCategory)
    {
      products := [];
      filteredProducts := [];
      isLoading := false;
      searchQuery := "";
      selectedTab := InitialTab(routeCategory);
    }

    /**
     * `fetchProducts(cat)`: on success both lists become the returned data;
     * on failure (an error answer or a thrown error, which the source only
     * reports in a toast) both stay as they were. Loading ends either way.
     */
    method FetchProducts(cat: string, response: Scraper.ScraperResponse) returns (requested: Option<string>)
      modifies this`products, this`filteredProducts, this`isLoading
      ensures requested == RequestedCategory(cat)
      ensures Succeeded(response) ==> products == response.data.value && filteredProducts == response.data.value
      ensures !Succeeded(response) ==> products == old(products) && filteredProducts == old(filteredProducts)
      ensures !isLoading
    {
      isLoading := true;
      requested := RequestedCategory(cat);
      if response.success && response.data.Some? {
        products := response.data.value;
        filteredProducts := response.data.value;
      }
      isLoading := false;
    }

    /** The search effect, run whenever the query or the products change. */
    method ApplySearchFilter()
      modifies this`filteredProducts
      ensures filteredProducts == FilterByQuery(products, searchQuery)
      ensures IsSubsequence(filteredProducts, products)
    {
      FilterIsSubsequence(products, searchQuery);
      if Trim(searchQuery) == "" {
        filteredProducts := products;
      } else {
        var query := ToLowerCase(searchQuery);
        filteredProducts := KeepMatching(products, query);
      }
    }

    /** Typing in the search box. */
    method SetSearchQuery(text: string)
      modifies this`searchQuery
      ensures searchQuery == text
    {
      searchQuery := text;
    }

    /** Picking a tab: the tab changes and the search box is cleared. */
    method HandleTabChange(value: string)
      modifies this`selectedTab, this`searchQuery
      ensures selectedTab == value && searchQuery == ""
    {
      selectedTab := value;
      searchQuery := "";
    }

    /** The effect run when the selected tab changes: fetch for the lower-cased tab. */
    method FetchSelectedTab(response: Scraper.ScraperResponse) returns (requested: Option<string>)
      modifies this`products, this`filteredProducts, this`isLoading
      ensures requested == TabRequest(selectedTab)
      ensures Succeeded(response) ==> products == response.data.value && filteredProducts == response.data.value
      ensures !Succeeded(response) ==> products == old(products) && filteredProducts == old(filteredProducts)
      ensures !isLoading
    {
      requested := FetchProducts(ToLowerCase(selectedTab), response);
    }

    /** "Refresh Data": every cached list is dropped, then the current tab is fetched again. */
    method HandleClearCache(service: Scraper.ScraperService, response: Scraper.ScraperResponse)
      returns (requested: Option<string>)
      modifies this`products, this`filteredProducts, this`isLoading, service
      ensures service.Valid() && service.cache == map[]
      ensures requested == TabRequest(selectedTab)
      ensures Succeeded(response) ==> products == response.data.value && filteredProducts == response.data.value
      ensures !Succeeded(response) ==> products == old(products) && filteredProducts == old(filteredProducts)
      ensures !isLoading
    {
      service.ClearCache();
      requested := FetchProducts(ToLowerCase(selectedTab), response);
    }

    /** Starting the scraper from the control panel fetches the lower-cased submitted category. */
    method HandleScraperStart(options: Controls.ScraperOptions, response: Scraper.ScraperResponse)
      returns (requested: Option<string>)
      modifies this`products, this`filteredProducts, this`isLoading
      ensures requested == TabRequest(options.category)
      ensures Succeeded(response) ==> products == response.data.value && filteredProducts == response.data.value
      ensures !Succeeded(response) ==> products == old(products) && filteredProducts == old(filteredProducts)
      ensures !isLoading
    {
      requested := FetchProducts(ToLowerCase(options.category), response);
    }
  }
}
