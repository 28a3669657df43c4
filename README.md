# SmartPickr storefront core, in Dafny

SmartPickr is a price-comparison storefront. Its one piece of real logic is
`ScraperService`, a simulated scraper. It keeps a cache from a category
name to a product list. On a miss it synthesises 15 to 29 products, each
with 3 to 6 offers from a fixed directory of shopping sites, jittered
prices and a lowest price. Around it sit a few small components:

- the scraper control panel, which selects sites and submits a request;
- the quick-commerce page, with a case-insensitive search filter and its fetch and tab transitions;
- the rating circle, which clamps a rating and picks a colour band;
- the category page, which resolves a route id against constant tables.

The modules follow the source files:

| file | models |
|---|---|
| `scraper.dfy` | `src/utils/ScraperService.ts`: the `ScraperService` class, its site directory, generation and cache |
| `controls.dfy` | `src/components/ScraperControls.tsx`: the `ScraperControls` class and its handlers |
| `quick_commerce.dfy` | `src/pages/QuickCommercePage.tsx`: the search filter and the `QuickCommercePage` class |
| `rating.dfy` | `src/components/RatingCircle.tsx`: clamp, percentage, colour band, arc offset |
| `categories.dfy` | `src/pages/CategoryPage.tsx`: movie/product classification and category lookup |
| `mock_data.dfy` | `src/data/mockData.ts`: the category tables and featured items |
| `catalog.dfy` | the product card record shared by all of them |
| `text.dfy`, `sequences.dfy`, `wrappers.dfy` | JavaScript string operations, subsequences, `Option` |

Modelling choices:

- Every `Math.random()` call is a parameter. A floored draw is a natural number below its bound. A fractional draw is a real in [0, 1).
- `ScrapeProducts` takes all the draws of one call as a `Draws` value, and `DrawsInRange` states their ranges.
- Prices are integer cents. `Math.round(basePrice * factor * 100)` becomes the floor of the exact real value plus one half.
- Asynchronous calls are synchronous methods.
- The static `cache` field is a field of one `ScraperService` object.
- The quick-commerce page fetches from a service method that the repository does not define. Each fetch therefore takes the service's response as a parameter and returns the category it asks for.

Two facts about the service shape the model:

- `ScraperService.ts` has only the general branch; nothing generates food or quick-commerce products.
- The stored sources keep generation order; only a copy is sorted, to read the lowest price (`src/utils/ScraperService.ts:74-84`).

## Model

| member | source | states |
|---|---|---|
| `Scraper.SiteNames` | src/utils/ScraperService.ts:19-30 | the directory's site names, one per site, in directory order |
| `Scraper.ProductIdInjective` | src/utils/ScraperService.ts:78 | two indices that give the same `product-<category>-<i>` id are equal |
| `Scraper.ScaleIsProduct` | src/utils/ScraperService.ts:64 | the repeated-addition product used for `basePrice * factor` equals real multiplication |
| `Scraper.ScaleWithinBand` | src/utils/ScraperService.ts:63-64 | with a factor in [85, 115], the scaled base lies in [85·base, 115·base] |
| `Scraper.PriceWithinBand` | src/utils/ScraperService.ts:62-64 | every jittered price in cents lies in [85·base, 115·base] |
| `Scraper.RoundedWithinBand` | src/utils/ScraperService.ts:64 | rounding to the nearest cent keeps a price inside the integer band |
| `Scraper.FloorBetween` | src/utils/ScraperService.ts:64 | the floor of a value between two integer bounds stays between them |
| `Scraper.InsertByPrice` | src/utils/ScraperService.ts:74 | insertion into a price-sorted list keeps it sorted and adds exactly one element |
| `Scraper.SortByPrice` | src/utils/ScraperService.ts:74 | the sorted copy is ordered by price and is a permutation of the offers |
| `Scraper.LowestPriceIsMinimum` | src/utils/ScraperService.ts:74-75 | the first price of the sorted copy is at most every offer's price and is one of them |
| `Scraper.SourcesFromInBand` | src/utils/ScraperService.ts:58-71 | every offer takes its name and logo from one directory entry, and its price lies in the band around the base |
| `Scraper.OffersFromWellFormed` | src/utils/ScraperService.ts:51-75 | 3 to 6 offers built around a base price in [50, 999] all come from the directory, all lie in the band around that base, and the price taken from the sorted copy is their minimum |
| `Scraper.ProductFromWellFormed` | src/utils/ScraperService.ts:51-85 | each generated product has the id and name shape, the placeholder image, a rating in [3, 5), 10 to 999 reviews, 3 to 6 offers around a base in [50, 999], and a consistent lowest price |
| `Scraper.GeneratedIsWellFormed` | src/utils/ScraperService.ts:47-86 | a generated list has 15 to 29 products, and product i is well formed for index i |
| `Scraper.CatalogIdsDistinct` | src/utils/ScraperService.ts:49-78 | the product ids in a generated list are pairwise distinct |
| `Scraper.GenerateSources` | src/utils/ScraperService.ts:58-71 | the inner loop pushes one offer per draw, in draw order |
| `Scraper.GenerateProduct` | src/utils/ScraperService.ts:51-85 | one pass of the outer loop body builds exactly the product its draws determine |
| `Scraper.GenerateProducts` | src/utils/ScraperService.ts:44-86 | the outer loop builds exactly the list the draws determine, and that list is well formed |
| `Scraper.CachedList` | src/utils/ScraperService.ts:37-39 | a cached list is found exactly when its key is an own key of the cache |
| `Scraper.CacheProperty` | src/utils/ScraperService.ts:37 | reading `cache[key]` on a plain object yields the own list, an inherited prototype member, or undefined |
| `Scraper.ConstructorIsFalseHit` | src/utils/ScraperService.ts:37 | on an empty cache the key "constructor" passes the truthiness test although no list is cached |
| `Scraper.OwnLookupAgreesOffPrototype` | src/utils/ScraperService.ts:37 | for keys that are not prototype member names, the truthiness test and the own-key lookup agree |
| `Scraper.ScraperService.constructor` | src/utils/ScraperService.ts:16 | the cache starts empty |
| `Scraper.ScraperService.ScrapeProducts` | src/utils/ScraperService.ts:32-91 | the call succeeds. A hit returns the stored list and changes nothing. A miss stores the generated, well-formed list under exactly that key and leaves every other key as it was |
| `Scraper.ScraperService.ScrapeProductDetails` | src/utils/ScraperService.ts:101-108 | the call always fails with the fixed message, and the cache is untouched |
| `Scraper.ScraperService.ClearCache` | src/utils/ScraperService.ts:111-114 | every key is removed |
| `Scraper.RepeatedScrapeIsStable` | src/utils/ScraperService.ts:37-89 | two calls with the same key return the same response, whatever the second call's draws |
| `Scraper.ScrapeAfterClearRegenerates` | src/utils/ScraperService.ts:89-114 | after a clear, the next call is a miss. It returns freshly generated data, and that list becomes the only cache entry |
| `Controls.RemoveAll` | src/components/ScraperControls.tsx:48 | the filtered list drops every occurrence of the name, is a subsequence of the old list, and keeps every other name as often as before |
| `Controls.RemoveAbsentIsIdentity` | src/components/ScraperControls.tsx:48 | filtering out a name that does not occur changes nothing |
| `Controls.RemoveAppended` | src/components/ScraperControls.tsx:48-49 | filtering out a name that was only appended restores the list before the append |
| `Controls.ToggleFlipsMembership` | src/components/ScraperControls.tsx:45-51 | a click selects an unselected name by appending it, and deselects a selected one, keeping the rest in order |
| `Controls.ToggleUnselectedTwiceRestores` | src/components/ScraperControls.tsx:46-49 | two clicks on an unselected name restore the original selection |
| `Controls.ToggleKeepsDistinct` | src/components/ScraperControls.tsx:46-49 | clicks never make a name occur twice |
| `Controls.ToggleStaysInDirectory` | src/components/ScraperControls.tsx:41-49 | clicks on directory names keep the selection within the directory |
| `Controls.SubmittedCategory` | src/components/ScraperControls.tsx:78 | only the empty text falls back to "general", and the submitted category is never empty |
| `Controls.SubmitDisabled` | src/components/ScraperControls.tsx:210 | the button is disabled exactly when loading or when nothing is selected |
| `Controls.ScraperControls.constructor` | src/components/ScraperControls.tsx:37-43 | every directory site is selected in order, with 50 products, no proxy, caching on and an empty category |
| `Controls.ScraperControls.ToggleSite` | src/components/ScraperControls.tsx:45-51 | the selection becomes the toggled selection, and nothing else changes |
| `Controls.ScraperControls.SelectAll` | src/components/ScraperControls.tsx:53-55 | the selection becomes the full directory list |
| `Controls.ScraperControls.SelectNone` | src/components/ScraperControls.tsx:57-59 | the selection becomes empty |
| `Controls.ScraperControls.SetCategory` | src/components/ScraperControls.tsx:98 | the category becomes the typed text |
| `Controls.ScraperControls.Submit` | src/components/ScraperControls.tsx:61-82 | nothing is submitted exactly when the selection is empty. Otherwise the options carry the current selection, the panel's settings, and the category with its fallback |
| `QuickCommerce.KeepMatching` | src/pages/QuickCommercePage.tsx:71-73 | the kept products are a subsequence, and each product is kept as often as it occurs when its lower-cased name contains the query, and never otherwise |
| `QuickCommerce.BlankQueryKeepsAll` | src/pages/QuickCommercePage.tsx:67-68 | a query of whitespace only, or the empty query, keeps every product |
| `QuickCommerce.QueryKeepsExactlyMatches` | src/pages/QuickCommercePage.tsx:69-75 | any other query keeps exactly the products whose lower-cased name has the lower-cased, untrimmed query at some position |
| `QuickCommerce.FilterIsSubsequence` | src/pages/QuickCommercePage.tsx:66-76 | the filtered list is always an order-preserving subsequence of the products |
| `QuickCommerce.FilterNeverLonger` | src/pages/QuickCommercePage.tsx:66-76 | the filtered list is never longer than the fetched products |
| `QuickCommerce.RequestedCategory` | src/pages/QuickCommercePage.tsx:44 | "all" asks for no category, and any other value asks for itself |
| `QuickCommerce.TabRequest` | src/pages/QuickCommercePage.tsx:38-44 | a tab asks for its lower-cased value, or for no category when that is "all" |
| `QuickCommerce.TabValue` | src/pages/QuickCommercePage.tsx:147 | the "All" tab carries "all", and every other tab its label |
| `QuickCommerce.OnlyAllTabRequestsEverything` | src/pages/QuickCommercePage.tsx:23-147 | of the page's tabs only "All" asks for every category, and each other tab asks for its lower-cased label |
| `QuickCommerce.InitialTab` | src/pages/QuickCommercePage.tsx:21 | the initial tab is the route category, or "all" when it is absent or empty |
| `QuickCommerce.QuickCommercePage.constructor` | src/pages/QuickCommercePage.tsx:17-21 | both lists start empty, nothing is loading, the query is empty, and the tab comes from the route |
| `QuickCommerce.QuickCommercePage.FetchProducts` | src/pages/QuickCommercePage.tsx:41-64 | on success both lists become the returned data, on failure both stay as they were, and loading ends either way |
| `QuickCommerce.QuickCommercePage.ApplySearchFilter` | src/pages/QuickCommercePage.tsx:66-76 | the filtered list becomes the filter of the products by the query, a subsequence of the products |
| `QuickCommerce.QuickCommercePage.SetSearchQuery` | src/pages/QuickCommercePage.tsx:137 | the query becomes the typed text |
| `QuickCommerce.QuickCommercePage.HandleTabChange` | src/pages/QuickCommercePage.tsx:87-90 | the tab becomes the picked value and the query is cleared |
| `QuickCommerce.QuickCommercePage.FetchSelectedTab` | src/pages/QuickCommercePage.tsx:37-39 | a tab change fetches for the lower-cased tab, with the fetch outcome above |
| `QuickCommerce.QuickCommercePage.HandleClearCache` | src/pages/QuickCommercePage.tsx:78-85 | the service cache is emptied, then the current tab is fetched again |
| `QuickCommerce.QuickCommercePage.HandleScraperStart` | src/pages/QuickCommercePage.tsx:92-98 | starting the scraper fetches for the lower-cased submitted category |
| `Rating.MaxRatingOrDefault` | src/components/RatingCircle.tsx:15 | the maximum rating defaults to 10 |
| `Rating.NormalizedRating` | src/components/RatingCircle.tsx:20 | the clamped rating lies in [0, max] when max ≥ 0: a negative rating becomes 0, one above max becomes max, and one in range is kept. When max is negative it equals max |
| `Rating.Percentage` | src/components/RatingCircle.tsx:21 | the percentage is NaN exactly when max is 0. It lies in [0, 100] when max is positive: exactly 0 for a negative rating, exactly 100 for a rating above max, and rating/max·100 in range. It is 100 when max is negative |
| `Rating.QuotientAtMostOne` | src/components/RatingCircle.tsx:21 | a clamped rating divided by a positive maximum lies in [0, 1] |
| `Rating.ColorBand` | src/components/RatingCircle.tsx:24-31 | exactly one band is picked: green from 75, yellow from 60 to below 75, red below 60 or for NaN |
| `Rating.StrokeDashoffset` | src/components/RatingCircle.tsx:67 | the offset and the percentage add up to 100, so the offset lies in [0, 100] when the percentage does |
| `Rating.DashoffsetInRange` | src/components/RatingCircle.tsx:20-67 | with a positive maximum, the arc offset of any rating lies in [0, 100] |
| `Rating.PercentageMonotone` | src/components/RatingCircle.tsx:20-21 | a higher rating never gives a lower percentage |
| `Rating.DivideMonotone` | src/components/RatingCircle.tsx:21 | dividing by a positive maximum and scaling by 100 preserves order |
| `Rating.BandMonotone` | src/components/RatingCircle.tsx:20-31 | a higher rating never gives a worse band |
| `Rating.DefaultScaleThresholds` | src/components/RatingCircle.tsx:15-31 | on the default scale of 10, a rating of 7.5 or more is green, 6 to below 7.5 yellow, and below 6 red |
| `MockData.FeaturedLowestPricesConsistent` | src/data/mockData.ts:85-156 | every featured product's lowest price is the minimum of its offer prices |
| `MockData.CategoryIdsDistinct` | src/data/mockData.ts:5-82 | the ids within each category table are distinct, and no id is in both tables |
| `Categories.FindById` | src/pages/CategoryPage.tsx:20-23 | the lookup finds nothing exactly when no row has the id, and otherwise returns the first row with it |
| `Categories.Resolve` | src/pages/CategoryPage.tsx:14-23 | "movies" and "all-products" give their summary headings. A movie id gives its table row. Any other id gives its product row, or nothing when no product row has it |
| `Categories.Items` | src/pages/CategoryPage.tsx:14-27 | the page lists every featured movie exactly for movie ids, and every featured product otherwise |
| `Categories.Title` | src/pages/CategoryPage.tsx:35 | an unresolved category is titled "Category", and a resolved one by its name |
| `Categories.Count` | src/pages/CategoryPage.tsx:37 | an unresolved category counts 0, and a resolved one its own count |
| `Categories.UnknownIdFallsBack` | src/pages/CategoryPage.tsx:14-37 | an id found nowhere lists products under "Category" with count 0 |
| `Categories.MovieRowsResolve` | src/pages/CategoryPage.tsx:14-37 | every movie table row resolves to itself, with its own name and count |
| `Categories.SciFiLinkShowsProducts` | src/pages/Index.tsx:206 | the footer's "sci-fi" link is not a movie id, so it lists products under "Category" with count 0 |
| `Categories.CorrectedFooterLinksShowMovies` | src/pages/Index.tsx:203-206 | with the table's id "scifi", every footer movie link opens its movie category |
| `Text.NatToString` | src/utils/ScraperService.ts:78-79 | the canonical decimal form: the digits denote exactly the number, a number below 10 prints as one digit, and there is no leading zero except for zero itself |
| `Text.NatToStringInjective` | src/utils/ScraperService.ts:78 | different numbers print differently |
| `Text.ToLowerCase` | src/pages/QuickCommercePage.tsx:70-72 | lower-casing keeps the length, maps each character, and leaves no upper-case letter |
| `Text.Capitalize` | src/utils/ScraperService.ts:79 | the first character is upper-cased and the rest is kept |
| `Text.IncludesIffOccurs` | src/pages/QuickCommercePage.tsx:72 | `includes` holds exactly when the substring occurs at some position |
| `Text.TrimStart` | src/pages/QuickCommercePage.tsx:67 | the result is a suffix of the input that does not start with whitespace, and everything dropped before it is whitespace |
| `Text.TrimEnd` | src/pages/QuickCommercePage.tsx:67 | the result is a prefix of the input that does not end with whitespace, and everything dropped after it is whitespace |
| `Text.TrimEmptyIffBlank` | src/pages/QuickCommercePage.tsx:67 | trimming gives the empty string exactly for strings made only of whitespace |

## Left out

- Randomness itself: the draws are parameters, and their distribution is not modelled.
- Floating point: prices are exact cents, and `Math.round` on a binary double, `toFixed` and the floating-point rating values are not modelled.
- `Scraper.PriceWithinBand`: the price it bounds, `Scraper.JitteredPriceCents`, computes `Math.round(basePrice * factor * 100)` on exact reals, so a double rounding difference at a half cent is not captured.
- `Text.ToLowerCase`: maps ASCII letters only, because Unicode case mapping is not modelled.
- `Text.Capitalize`: upper-cases ASCII letters only, while JavaScript's `toUpperCase` maps all of Unicode and can change the length (ß becomes SS).
- The catch branch of `scrapeProducts` cannot be reached for a string category, so `ScrapeProducts` never fails.
- The static cache is shared by the whole program. Here it is one `ScraperService` object, and aliasing between callers is not modelled.
- `scrapeQuickCommerceProducts`, `scrapeFoodItems`, `quickCommercePlatforms` and `foodDeliveryPlatforms` are called by the pages but not defined in the service. The quick-commerce fetch's response is therefore a parameter.
- `QuickCommerce.QuickCommercePage.FetchProducts`: a thrown error is treated like a failed response, because both leave the lists unchanged and only differ in the toast text.
- Toasts, `console.log`, Promises, rendering, routing and navigation are not modelled.
- The slider and switch setters of the control panel are not modelled, because the service never reads `maxProducts`, `useProxy` or `cacheResults`.
- The random delivery-time label of the quick-commerce page is display-only.
- The food category page is UI around undefined service methods. Its cuisine lookup mirrors the category page.
- Movie per-site ratings, the detailed product and the detailed movie fixtures are not modelled, because nothing in the model reads them.
- Product card badges and the other display components are rendering only.
- Rating inputs that are NaN or infinite are not modelled, because reals have neither. The NaN that a maximum of 0 produces is modelled.

## Findings

| source | as written | input that shows it | evidently intended | confidence | as-written member | corrected member |
|---|---|---|---|---|---|---|
| src/utils/ScraperService.ts:37 | the hit test `if (this.cache[category])` reads a plain object, so names inherited from `Object.prototype` count as cached | category "constructor" on an empty cache: the test passes and the answer's data is the `Object` function, not a product list | a hit only for categories that have their own cached list | not executed | `Scraper.ConstructorIsFalseHit` | `Scraper.ScraperService.ScrapeProducts` |
| src/pages/Index.tsx:206 | the footer links "Sci-Fi Movies" to `/category/sci-fi`, but the movie table's id is "scifi" (src/data/mockData.ts:65) | route id "sci-fi": the page lists products under the title "Category" with count 0 | the link opens the Sci-Fi movie category | not executed | `Categories.SciFiLinkShowsProducts` | `Categories.CorrectedFooterLinksShowMovies` |
