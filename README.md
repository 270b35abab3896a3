# Dungyzon scraper backend: the caching and fallback core in Dafny

The backend is an Express proxy in front of a third-party scraping service. It answers
search, product-details, reviews, offers and quick-info requests for an e-commerce site.
It forwards each product request to the scraper with regional fallback over three
marketplace domains (`.com`, `.ca`, `.co.uk`). A search goes through the `fetchData`
helper to `.com` only, without fallback (src/controllers/scraperController.js:108-110).
The backend keeps the JSON answers in an in-process TTL cache
under keys such as `product:<ASIN>:<variant>` and `search:<query>`. An administrative
endpoint deletes cache keys by type and ASIN. A small file-backed cache keeps
`{data, expiry}` records in a JSON file.

This project models that core and proves properties of it:

- `JsonValues`: decoded JSON, and the three JavaScript notions the controller relies on.
  These are truthiness, property access that may be `undefined`, and object literals
  whose `undefined` members are not serialized.
- `ValidateInput`: the two Joi validators, as a predicate and as a function that
  returns Joi's first error.
- `ScraperHelpers`: `normalizeAsin`, `isAsin`, `tryRegions` and `sendUpstreamError`,
  plus the way `fetchData` rethrows an HTTP failure.
  - The scraping vendor is a function from the requested page, `Target(tld, path)`,
    to an `Outcome`: the decoded body, or the error the request throws.
  - `TryRegions` is the nested loop of the source. It is proved equal to the recursive
    specification `Fallback`, and the `Fallback*` lemmas state what a run does.
- `SharedCache`: the process-wide node-cache as a class whose field maps each key to
  the stored value and its TTL.
- `ScraperHandlers`: each handler (search, full details, reviews, offers, quick info,
  clear cache) appears twice.
  - A function returns an `Effect`: the response, the cache afterwards, and the
    upstream pages requested, in order.
  - A method performs the same steps on the `Store`. Its postcondition says it
    produces exactly that `Effect`.
- `FileCache`: `setCache`, `getCache` and `clearExpiredCache` on a class whose field is
  the file's table, or none when the file does not exist. `Date.now()` becomes the
  parameter `now`, in milliseconds.
- `ScraperProperties`, `SearchProperties` and `ClearCacheProperties`: lemmas about the
  handler functions.

In three places the code does something other than what it or its neighbours suggest.
The model follows the code in two of them and records the third as a finding:

- The search handler writes a `product:<ASIN>:basic` card for each result whose `asin`
  is truthy (src/controllers/scraperController.js:121-134), but no handler reads that key. The
  quick-info handler reads only its own `:quick` key (`ScraperProperties.QuickReadsOnlyItsKey`).
- The file cache lifetime is `1000 * 60 * 2` ms, two minutes (src/utils/cache.js:18),
  although the comment beside it says five minutes.
- Full details marks its details fetch as failing "with regional fallback 404 handling"
  (src/controllers/scraperController.js:163). It singles out 404 and 410 (line 168), as
  the quick handler does before answering 404 (lines 293-294). But it hands both statuses
  to sendUpstreamError, which answers 404 for a 404 and 500 for a 410; see "## Findings".
  `ScraperHandlers.ProductDetails` uses the corrected failure response.

## Model

| member | source | states |
|---|---|---|
| ValidateInput.ValidProductId | src/utils/validateInput.js:3-6 | a product id is present and exactly 10 upper-case letters or digits (a predicate; see `ScraperProperties.ValidIdIsNormalizedAsin`) |
| ValidateInput.ValidateSearchQuery | src/utils/validateInput.js:8-11 | a query is accepted exactly when it is present and 1 to 200 characters long; a missing query is "required"; a longer one is "too long" |
| ScraperHelpers.NormalizeAsin | src/controllers/scraperController.js:13 | the result has the input's length and no lower-case letter; every lower-case letter becomes its upper-case partner and every other character is unchanged |
| ScraperHelpers.IsAsin | src/controllers/scraperController.js:14 | an ASIN is exactly 10 ASCII letters or digits, of either case (a predicate; its relation to validateProductId is `ScraperProperties.ValidIdIsNormalizedAsin`) |
| ScraperHelpers.Fallback | src/controllers/scraperController.js:44-59 | the recursive specification of tryRegions: the first page that succeeds or fails other than 404/410 ends the run, and after the last page its answer is the result (its properties are the `Fallback*` lemmas) |
| ScraperHelpers.FallbackShape | src/controllers/scraperController.js:44-59 | a run requests a prefix of the pages; every page before the last answered 404/410; the result is the last page's answer; a run ending in 404/410 has requested every page |
| ScraperHelpers.FallbackSkipsMisses | src/controllers/scraperController.js:46-55 | after k not-found answers the run continues as one started at page k |
| ScraperHelpers.FallbackEndsAt | src/controllers/scraperController.js:49-53 | the run stops at the first page that succeeds, fails with a status other than 404/410, or is the last page |
| ScraperHelpers.Targets | src/controllers/scraperController.js:46-47 | the pages tryRegions visits: every region of the first path in `REGIONS` order, then every region of the next path (its order and length are `TargetAt` and `TargetsLength`) |
| ScraperHelpers.TargetAt | src/controllers/scraperController.js:46-48 | paths are tried in order and, for each path, the three regions in order: page 3p+g is region g of path p |
| ScraperHelpers.TargetsLength | src/controllers/scraperController.js:46-47 | three pages per path |
| ScraperHelpers.TryRegions | src/controllers/scraperController.js:44-59 | the nested loop with its `lastErr` returns or throws what `Fallback` describes, after requesting exactly the pages `Fallback` requests |
| ScraperHelpers.SendUpstreamError | src/controllers/scraperController.js:61-80 | AbortError gives 504, 403 gives 502, 429 gives 429; 404 is answered exactly for status 404, with the given message; 500 is answered exactly for every other error and carries its message |
| ScraperHelpers.ViaFetchData | src/utils/fetchData.js:11-20 | a success passes unchanged; every error leaving fetchData has no status; an error without a status passes unchanged |
| SharedCache.Store.Get | src/controllers/scraperController.js:100 | answers the stored value exactly when the key is present |
| SharedCache.Store.Set | src/controllers/scraperController.js:118 | overwrites only the given key, with the given TTL |
| SharedCache.Store.Keys | src/controllers/scraperController.js:328 | lists every stored key exactly once |
| SharedCache.Store.Del | src/controllers/scraperController.js:344 | removes exactly the listed keys and answers how many of them were present |
| ScraperHandlers.TrimStart | src/controllers/scraperController.js:98 | the result is a suffix of the input that does not start with white space, and everything removed is white space |
| ScraperHandlers.TrimEnd | src/controllers/scraperController.js:98 | the result is a prefix of the input that does not end with white space, and everything removed is white space |
| ScraperHandlers.Trim | src/controllers/scraperController.js:98 | the result is a contiguous middle part of the query with only white space before and after it; it neither starts nor ends with white space, and it is empty exactly when the query is all white space |
| ScraperHandlers.TrimMiddle | src/controllers/scraperController.js:98 | the trimmed query is the slice starting where the leading white space ends, with only white space on either side |
| ScraperHandlers.HasResults | src/controllers/scraperController.js:112 | `results?.results?.length` is truthy: a non-empty array, a non-empty string, or an object whose `length` member is truthy (a predicate; see `SearchProperties.SearchNoResults`) |
| ScraperHandlers.BasicCard | src/controllers/scraperController.js:121-131 | a result gets a card exactly when its `asin` is a non-empty string; the card is stored under `product:<asin>:basic`, has no members besides `asin`, `title`, `price`, `rating` and `thumbnail`, and carries `asin`, `name`, `price`, `stars` and `image` under those names, each left out when undefined |
| ScraperHandlers.WriteBasics | src/controllers/scraperController.js:121-134 | the loop over the results deletes no key, and every key it adds or changes is the card key of some result |
| ScraperHandlers.Search | src/controllers/scraperController.js:89-140 | search answers only 200, 400, 404, 500 or 504; it never deletes a key; an answer given without an upstream request (rejected or cached) changes nothing; the only page it requests is the search page of the trimmed query |
| ScraperHandlers.StoreBasics | src/controllers/scraperController.js:121-134 | the loop over the results leaves the cache `WriteBasics` describes |
| ScraperHandlers.GetSearchResults | src/controllers/scraperController.js:89-140 | the handler produces the response, cache and requests of `Search` |
| ScraperHandlers.DetailsFailure | src/controllers/scraperController.js:167-170 | the corrected failure response of full details: 404 naming the normalized ASIN exactly for a 404 or 410; any other error answers 429, 500, 502 or 504 |
| ScraperHandlers.DetailsFailureAsWritten | src/controllers/scraperController.js:167-170 | the failure response as the source computes it: 404 exactly for a 404 not named AbortError, and 500 for a 410 |
| ScraperHandlers.ProductDetails | src/controllers/scraperController.js:143-204 | full details answers only 200, 400, 404, 429, 500, 502 or 504; every answer other than 200, and every answer given without an upstream request, leaves the cache unchanged |
| ScraperHandlers.GetProductDetails | src/controllers/scraperController.js:143-204 | the handler produces the response, cache and requests of `ProductDetails`, whose not-found answer is the corrected one (see "## Left out") |
| ScraperHandlers.Facet | src/controllers/scraperController.js:207-269 | the shared shape of reviews-only and offers-only answers only 200, 400, 429, 500, 502 or 504 (never 404); an answer other than 200, or one given without an upstream request, leaves the cache unchanged; the only key it can add is `product:<ASIN>:<variant>` |
| ScraperHandlers.ProductReviews | src/controllers/scraperController.js:207-237 | reviews-only answers only 200, 400, 429, 500, 502 or 504; an answer other than 200 leaves the cache unchanged; the only key it can add is `product:<ASIN>:reviews` |
| ScraperHandlers.ProductOffers | src/controllers/scraperController.js:240-269 | offers-only answers only 200, 400, 429, 500, 502 or 504; an answer other than 200 leaves the cache unchanged; the only key it can add is `product:<ASIN>:offers` |
| ScraperHandlers.ServeFacet | src/controllers/scraperController.js:207-269 | the shared shape of the reviews-only and offers-only handlers produces the effect of `Facet` |
| ScraperHandlers.GetProductReviews | src/controllers/scraperController.js:207-237 | the reviews-only handler produces the effect of `ProductReviews` |
| ScraperHandlers.GetProductOffers | src/controllers/scraperController.js:240-269 | the offers-only handler produces the effect of `ProductOffers` |
| ScraperHandlers.QuickTitle | src/controllers/scraperController.js:308 | the title is null, the details' `name` or the details' `title`, and it is null whenever the details are not truthy |
| ScraperHandlers.QuickInfo | src/controllers/scraperController.js:306-314 | `quickInfo` has exactly its seven members; `productId` is the ASIN and `title` is QuickTitle; `rating` and `price` are the details' members when defined and null when absent; `reviewsCount`, `topPositiveReview` and `topCriticalReview` are the reviews' `reviews_count`, `top_positive_review` and `top_critical_review` when defined, and 0, null and null when absent |
| ScraperHandlers.QuickProductInfo | src/controllers/scraperController.js:272-321 | quick info answers only 200, 400, 404, 429, 500, 502 or 504; an answer other than 200 leaves the cache unchanged; the only key it can add is `product:<ASIN>:quick` |
| ScraperHandlers.GetQuickProductInfo | src/controllers/scraperController.js:272-321 | the quick-info handler produces the effect of `QuickProductInfo` |
| ScraperHandlers.ByType | src/controllers/scraperController.js:330-333 | `byType`: `type=all` selects every key; any other non-empty type selects the keys ending `:<type>`, and `type=search` also those starting `search:` (a predicate; see `ClearCacheProperties.TypeSelectsVariant`) |
| ScraperHandlers.Selected | src/controllers/scraperController.js:330-337 | a key is deleted when it contains `product:<ASIN>` for a given `asin` and, when a type is given, passes byType (a predicate; see `ClearCacheProperties.ClearCacheRemovesSelected`) |
| ScraperHandlers.ClearCache | src/controllers/scraperController.js:324-347 | clearCache always answers 200 and only deletes: every surviving key keeps its value |
| ScraperHandlers.ClearCacheKeys | src/controllers/scraperController.js:324-347 | the loop over `cache.keys()` followed by `cache.del` leaves the cache and response of `ClearCache` |
| FileCache.Read | src/utils/cache.js:27-45 | getCache's answer: the stored data while `now < expiry`, and null with no file, no record, or an expired record |
| FileCache.Sweep | src/utils/cache.js:53-58 | a key survives exactly when it has not expired, and it keeps its record |
| FileCache.CacheFile.SetCache | src/utils/cache.js:9-25 | the file is created if missing, and the key gets the data with expiry `now + 120000` while every other record is kept |
| FileCache.CacheFile.GetCache | src/utils/cache.js:27-45 | answers the data only while `now < expiry`, otherwise null; with no file, null |
| FileCache.CacheFile.ClearExpiredCache | src/utils/cache.js:47-67 | the table becomes its sweep; the file is rewritten exactly when some record had expired; otherwise nothing changes |
| FileCache.ReadAfterSet | src/utils/cache.js:16-37 | after setCache at `now`, getCache answers the data before `now + 120000` and null from then on |
| FileCache.SetLeavesOtherKeys | src/utils/cache.js:16-19 | setCache changes what getCache answers for no other key |
| FileCache.NoFileReadsNull | src/utils/cache.js:29-31 | with no file, getCache answers null |
| FileCache.SweepMatchesRead | src/utils/cache.js:35-54 | a record is swept at `now` exactly when getCache would no longer serve it at `now` |
| FileCache.SweepKeepsReads | src/utils/cache.js:47-58 | a sweep changes no answer of getCache at that time or later |
| FileCache.SweepTwice | src/utils/cache.js:53-58 | sweeping at `t1` and then at a later `t2` is the same as sweeping once at `t2` |
| FileCache.SweepIdempotent | src/utils/cache.js:47-62 | a second clearExpiredCache at the same time deletes nothing |
| ScraperProperties.ValidIdIsNormalizedAsin | src/utils/validateInput.js:3-6 | validateProductId accepts exactly the ids that pass isAsin and are unchanged by normalizeAsin |
| ScraperProperties.NormalizedAsinIsValid | src/controllers/scraperController.js:13-14 | upper-casing an ASIN gives an id validateProductId accepts |
| ScraperProperties.NormalizeAsinIdempotent | src/controllers/scraperController.js:13 | normalizing twice is normalizing once |
| ScraperProperties.LowerCaseAsinWitness | src/controllers/scraperController.js:14 | "b000000000" passes isAsin but fails validateProductId |
| ScraperProperties.UpstreamErrorStatuses | src/controllers/scraperController.js:61-80 | sendUpstreamError answers only 404, 429, 500, 502 or 504 |
| ScraperProperties.MalformedIdRejected | src/controllers/scraperController.js:147-150 | an id failing isAsin gets 400 from every product endpoint, with no cache change and no upstream request |
| ScraperProperties.FacetAcceptsAsin | src/controllers/scraperController.js:210-212 | the reviews-only and offers-only handlers never answer 400 to an ASIN |
| ScraperProperties.QuickAcceptsAsin | src/controllers/scraperController.js:275-277 | the quick handler never answers 400 to an ASIN |
| ScraperProperties.LowerCaseAsinAsymmetry | src/controllers/scraperController.js:146-150 | a lower-case ASIN is refused by full details and accepted by the reviews, offers and quick endpoints |
| ScraperProperties.SecondRegionAnswers | src/controllers/scraperController.js:47-53 | a 404 from `.com` and a success from `.ca` return the `.ca` body, and `.co.uk` is never requested |
| ScraperProperties.AllPagesMissing | src/controllers/scraperController.js:53-58 | when every page answers 404/410, every page is requested and the last error is thrown |
| ScraperProperties.FallbackMissIff | src/controllers/scraperController.js:44-59 | a run ends in 404/410 exactly when every page answered 404/410 |
| ScraperProperties.AllRegionsMissing | src/controllers/scraperController.js:46-58 | with every page missing, all three regions of every path are requested, in order |
| ScraperProperties.OtherErrorStops | src/controllers/scraperController.js:53 | an error other than 404/410 is thrown at once and no later page is requested |
| ScraperProperties.ProductKeysDistinct | src/controllers/scraperController.js:195-198 | keys of one product with different variants differ |
| ScraperProperties.FourKeys | src/controllers/scraperController.js:195-198 | the four keys written by full details are pairwise different |
| ScraperProperties.DetailsSuccessWrites | src/controllers/scraperController.js:160-201 | on success full details writes exactly the four keys, each for 43200 s, with placeholders for failed reviews or offers, and leaves every other key unchanged |
| ScraperProperties.DetailsFailureCachesNothing | src/controllers/scraperController.js:165-203 | a failed details fetch caches nothing; a not-found answers 404 naming the ASIN; any other error answers 429, 500, 502 or 504 |
| ScraperProperties.DetailsGoneAnswers500 | src/controllers/scraperController.js:167-170 | as written, a 410 on the details page is answered 500; the corrected response is 404 |
| ScraperProperties.DetailsFailureCorrected | src/controllers/scraperController.js:167-170 | the correction changes the response exactly for a not-found that sendUpstreamError does not map to 404 |
| ScraperProperties.MissingProductAgreement | src/controllers/scraperController.js:292-296 | with the correction, full details and quick info both answer 404 naming the ASIN for a product no region has, and cache nothing |
| ScraperProperties.FullDetailsFeedFacets | src/controllers/scraperController.js:195-198 | after full details succeeds, a reviews-only or offers-only request is served from the cache without an upstream request, whenever the stored reviews or offers body is truthy (`if (cached)`, lines 217 and 250), as the reviews placeholder always is |
| ScraperProperties.DetailsRepeats | src/controllers/scraperController.js:154-158 | a 200 from full details is served again from the cache, with no upstream request |
| ScraperProperties.FacetOutcomes | src/controllers/scraperController.js:222-236 | on a miss: a success is cached for 43200 s; the placeholder is cached with its shorter TTL exactly when every region answered 404/410; any other error caches nothing and goes to sendUpstreamError |
| ScraperProperties.ReviewsPlaceholder | src/controllers/scraperController.js:224-233 | `{reviews_count: 0}` is cached for 3600 s exactly when every region answered 404/410 |
| ScraperProperties.OffersPlaceholder | src/controllers/scraperController.js:257-265 | `{offers: []}` is cached for 1800 s exactly when every region answered 404/410 |
| ScraperProperties.FacetRepeats | src/controllers/scraperController.js:214-220 | a truthy 200 from reviews-only or offers-only is served again from the cache |
| ScraperProperties.QuickTitleCases | src/controllers/scraperController.js:308 | a truthy `name` is the title; with `name` null or absent a truthy `title` is; with neither truthy the title is null |
| ScraperProperties.QuickTitleKeepsEmptyName | src/controllers/scraperController.js:308 | an empty `name` beside a real `title` gives the empty string |
| ScraperProperties.QuickSuccessWrites | src/controllers/scraperController.js:287-317 | on a miss with a successful details run, quick info requests the details pages and then the reviews pages, and answers and stores under `product:<ASIN>:quick` for 43200 s the quick info built from the details and the reviews body, or `{reviews_count: 0}` when the reviews run failed |
| ScraperProperties.QuickReadsOnlyItsKey | src/controllers/scraperController.js:279-284 | no cache key other than `product:<ASIN>:quick` affects the quick handler's response or requests |
| ScraperProperties.QuickRepeats | src/controllers/scraperController.js:279-317 | a 200 from quick info is served again from the cache, with no upstream request |
| SearchProperties.TrimIdempotent | src/controllers/scraperController.js:98 | trimming a trimmed query changes nothing |
| SearchProperties.SearchRejectsInvalid | src/controllers/scraperController.js:92-96 | a rejected query answers 400 with Joi's message, with no cache access and no upstream request |
| SearchProperties.SearchFailureStatus | src/controllers/scraperController.js:106-139 | every upstream failure of a search answers 500, or 504 exactly for a timeout without status, and caches nothing |
| SearchProperties.SearchNoResults | src/controllers/scraperController.js:112-115 | a body without results answers 404 "No products found" and writes no key of the model (fetchData's own `fetch:<url>` entry is left out) |
| SearchProperties.SearchKeyIsNotProductKey | src/controllers/scraperController.js:99 | a search key is never a product key |
| SearchProperties.WriteBasicsElsewhere | src/controllers/scraperController.js:121-134 | a key that no result's card uses keeps its entry, or its absence |
| SearchProperties.WriteBasicsLast | src/controllers/scraperController.js:121-134 | the card under a key is the one built from the last result with that key, stored for 43200 s |
| SearchProperties.BasicCardExample | src/controllers/scraperController.js:122-131 | for two sample results: `{asin, name, stars}` gets the card `{asin, title, rating}` under `product:<asin>:basic`; a result without an `asin`, or with an empty one, gets none |
| SearchProperties.SearchListEffect | src/controllers/scraperController.js:112-136 | a search with a non-empty result list answers the list and leaves the cache of the loop over the results, run after the whole body was stored |
| SearchProperties.SearchStoresResults | src/controllers/scraperController.js:112-136 | a search with a result list answers the list, stores the whole body under `search:<q>` for 43200 s, and stores each ASIN's last card |
| SearchProperties.NamedCard | src/controllers/scraperController.js:122-131 | a result with an `asin` and a `name` gets the card `{asin, title}` under `product:<asin>:basic` |
| SearchProperties.SearchCachesCard | src/controllers/scraperController.js:117-134 | a search that misses the cache and gets a result list leaves, for every result whose `asin` is a non-empty string, the card of the last result with that ASIN under `product:<ASIN>:basic` for 43200 s |
| SearchProperties.SearchFreshStores | src/controllers/scraperController.js:117-136 | a 200 after a cache miss leaves the fetched body under `search:<q>`, and the response is built from its `results` |
| SearchProperties.SearchRepeats | src/controllers/scraperController.js:99-104 | a 200 from search is answered again, identically and without an upstream request, by the next search for the same query |
| ClearCacheProperties.ClearCacheRemovesSelected | src/controllers/scraperController.js:324-347 | exactly the selected keys disappear and the others keep their values; "nothing matched" is answered exactly when no key is selected; otherwise the count is the number of keys removed |
| ClearCacheProperties.ClearEverything | src/controllers/scraperController.js:330-339 | with no filter, or with `type=all` and no `asin`, the cache is emptied |
| ClearCacheProperties.EndsWithLastTwo | src/controllers/scraperController.js:332 | a matching suffix fixes the key's last two characters |
| ClearCacheProperties.ProductKeyEndsWith | src/controllers/scraperController.js:332 | a product key ends in `:<variant>` |
| ClearCacheProperties.TypeSelectsVariant | src/controllers/scraperController.js:330-333 | `type=<v>` selects variant w of a product exactly when v is w (so `type=reviews` spares `:offers`, `:details` and `:full`) |
| ClearCacheProperties.AsinSelectsItsProduct | src/controllers/scraperController.js:336 | an `asin` filter selects every entry of that product, whatever its case |
| ClearCacheProperties.AsinSparesOtherProducts | src/controllers/scraperController.js:336 | an `asin` filter selects no entry of another product |
| ClearCacheProperties.ClearCacheIdempotent | src/controllers/scraperController.js:324-347 | a second identical clearCache deletes nothing and says so |

## Left out

- The network call `fetchJson` is left out: the URL, the vendor key, the headers, the 20 s abort timer and the error text built from the body. A timeout appears only as an upstream error named `AbortError`.
- `buildScrapeUrl`, `BASE_URL` and percent-encoding: a page is the pair (domain suffix, path).
- Promise.all concurrency: the three full-details fetches run one after another in the model. They are recorded in that order, and all three run even when details fails. The `res.headersSent` check becomes the control flow of the corrected failure path.
- Expiry of the shared node-cache by its own clock: the model records each key's TTL but never expires anything.
- fetchData's own cache entry `fetch:<url>` (1 hour) is not modelled, because its key holds the encoded URL. fetchData writes it after every successful fetch (src/utils/fetchData.js:15-16), including one whose body then gets "No products found" (404) or the not-iterable 500. So within the hour the source answers a repeated search of that kind, and a search after `type=search` clearing, without an upstream request. The model asks upstream again, and `SearchProperties.SearchNoResults` says such a search caches nothing because the `fetch:` entry is outside the model.
- Repeated query parameters: Express gives an array for `?asin=a&asin=b`, on which `normalizeAsin` throws, and clearCache answers 500. A repeated `type` is an array too, compared against `'all'` and `'search'` and joined with commas in the suffix test. `ScraperHandlers.ClearCache` takes each parameter as an optional string and models neither path.
- Logging, `getWelcomeMessage`, `getCacheStats`, the health checks, the route table, and the React hooks that trail the controller file are not part of this model.
- File-cache I/O and JSON parse failures are not modelled; the source logs these and returns null or does nothing. clearExpiredCache reads the clock once per key; the model uses a single `now`.
- ScraperHelpers.NormalizeAsin: upper-cases ASCII letters only. JavaScript's `toUpperCase` also maps other letters; this matters only for the `asin` filter of clearCache, since every other caller has already checked isAsin.
- ValidateInput.ValidateSearchQuery: counts characters, where Joi counts UTF-16 code units.
- ScraperHandlers.ProductDetails: the failure answer differs from the source whenever the details run's last answer is a 410. Examples: all three regions answer 410, or `.com` 404, `.ca` 404 and `.co.uk` 410. The source then answers 500 and the model answers the corrected 404. The answers would also differ for an error named `AbortError` carrying a 404 or 410 status, which the source answers 504. The vendor function of the model allows such an error, though the source's abort timer never produces one. When the run ends on a 404 (say `.com` 410, `.ca` 410, `.co.uk` 404), both answer 404. The response as written is `ScraperHandlers.DetailsFailureAsWritten`; `ScraperProperties.DetailsGoneAnswers500` and `ScraperProperties.DetailsFailureCorrected` relate the two; see "## Findings".
- ScraperHandlers.GetProductDetails: the same 410 divergence, since it is proved to produce the effect of `ScraperHandlers.ProductDetails`.
- SearchProperties.SearchFailureStatus: its 504 case cannot arise in the source. fetchData calls node-fetch without an abort signal or timeout (src/utils/fetchData.js:11), so no search error is named `AbortError` and every search failure answers 500. The vendor function of the model may still produce an `AbortError`, and the lemma then gives 504.
- ScraperHandlers.BasicCard: a result whose `asin` is truthy but not a string (a number, say) gets no card here. The source stores one under the value's string form.
- ScraperHelpers.TryRegions: requires at least one path. With none, the source throws `undefined`; every call site passes exactly one path.
- SharedCache.Store.Keys: returns the keys in an unspecified order. node-cache uses insertion order; clearCache's result does not depend on the order.

## Findings

| source | as written | input that shows it | evidently intended | confidence | as-written member | corrected member |
|---|---|---|---|---|---|---|
| src/controllers/scraperController.js:167-170 | a details fetch that ends in 404 or 410 goes to sendUpstreamError, which recognises only 404, so a 410 gets 500 "Internal Server Error" | a valid ASIN for which all three regions answer 410 to `/dp/<ASIN>` | 404 "Product not found for ASIN <ASIN>", as the comment, the guard on `[404, 410]` and the quick endpoint's handling of the same state show | not executed | ScraperHandlers.DetailsFailureAsWritten (ScraperProperties.DetailsGoneAnswers500) | ScraperHandlers.DetailsFailure (ScraperProperties.MissingProductAgreement) |
