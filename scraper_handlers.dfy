/** The request handlers of the scraper controller. Each handler is given twice:
    a function saying what it does — the response, the cache afterwards and the
    upstream pages it asked for — and a method that does it step by step on the
    shared store, proved to agree with the function. Sub-fetches that the
    source runs concurrently are run one after another here. */
module ScraperHandlers {
  import opened JsonValues
  import opened ScraperHelpers
  import opened SharedCache
  import opened ValidateInput

  /** Time-to-live values (seconds) passed to `cache.set`. */
  const DayTtl: nat := 43200         // 60 * 60 * 12
  const ReviewsMissTtl: nat := 3600  // 60 * 60 * 1
  const OffersMissTtl: nat := 1800   // 60 * 30

  /** What one request does: the response, the cache after it, the upstream pages requested. */
  datatype Effect = Effect(resp: Response, entries: map<string, Stored>, calls: seq<Target>)

  function ProductKey(asin: string, variant: string): string {
    "product:" + asin + ":" + variant
  }

  function SearchKey(q: string): string {
    "search:" + q
  }

  const InvalidId := Response(400, Message("Invalid productId (must be 10 alphanumeric chars)."))

  /** The placeholders that stand in for missing reviews and offers. */
  const NoReviews := JObj(map["reviews_count" := JNum(0.0)])
  const NoOffers := JObj(map["offers" := JArr([])])

  function NotFoundFor(id: string): string {
    "Product not found for ASIN " + id
  }

  /** A sub-fetch's body, or the placeholder when it failed in any way. */
  function OrElse(o: Outcome, placeholder: Json): Json {
    if o.Ok? then o.json else placeholder
  }

  /* ------------------------------ search ------------------------------ */

  /** The characters `String.prototype.trim` removes: white space and line terminators. */
  predicate IsJsSpace(c: char) {
    c == '\t' || c == '\n' || c == '\U{B}' || c == '\U{C}' || c == '\r' || c == ' ' ||
    c == '\U{A0}' || c == '\U{1680}' || ('\U{2000}' <= c <= '\U{200A}') ||
    c == '\U{2028}' || c == '\U{2029}' || c == '\U{202F}' || c == '\U{205F}' ||
    c == '\U{3000}' || c == '\U{FEFF}'
  }

  function TrimStart(s: string): (r: string)
    ensures |r| <= |s| && r == s[|s| - |r|..]
    ensures r != [] ==> !IsJsSpace(r[0])
    ensures forall i :: 0 <= i < |s| - |r| ==> IsJsSpace(s[i])
  {
    if s != [] && IsJsSpace(s[0]) then TrimStart(s[1..]) else s
  }

  function TrimEnd(s: string): (r: string)
    ensures |r| <= |s| && r == s[..|r|]
    ensures r != [] ==> !IsJsSpace(r[|r| - 1])
    ensures forall i :: |r| <= i < |s| ==> IsJsSpace(s[i])
  {
    if s != [] && IsJsSpace(s[|s| - 1]) then TrimEnd(s[..|s| - 1]) else s
  }

  /** `searchQuery.trim()`: the query without white space at either end. */
  function Trim(s: string): (r: string)
    ensures |r| <= |s|
    ensures r != [] ==> !IsJsSpace(r[0]) && !IsJsSpace(r[|r| - 1])
    ensures r == [] <==> forall i :: 0 <= i < |s| ==> IsJsSpace(s[i])
    ensures exists i :: (0 <= i <= |s| - |r| && r == s[i..][..|r|] &&
      (forall j :: 0 <= j < i ==> IsJsSpace(s[j])) &&
      (forall j :: i + |r| <= j < |s| ==> IsJsSpace(s[j])))
  {
    TrimMiddle(s);
    TrimEnd(TrimStart(s))
  }

  /** Trimming keeps the slice that starts where TrimStart stopped removing. */
  lemma TrimMiddle(s: string)
    ensures var r := TrimEnd(TrimStart(s));
      var i := |s| - |TrimStart(s)|;
      && 0 <= i <= |s| - |r| && r == s[i..][..|r|]
      && (forall j :: 0 <= j < i ==> IsJsSpace(s[j]))
      && (forall j :: i + |r| <= j < |s| ==> IsJsSpace(s[j]))
  {
    var front := TrimStart(s);
    var r := TrimEnd(front);
    var i := |s| - |front|;
    assert front == s[i..];
    forall j | i + |r| <= j < |s|
      ensures IsJsSpace(s[j])
    {
      assert s[j] == front[j - i];
    }
  }

  /** The page the search handler asks for (through fetchData, without regional fallback). */
  function SearchTarget(q: string): Target {
    Target(".com", "/s?k=" + q)
  }

  /** `results?.results?.length` is truthy. */
  predicate HasResults(body: Json) {
    var listed := Field(body, "results");
    listed.Some? &&
    match listed.value
    case JArr(items) => items != []
    case JStr(s) => s != ""
    case JObj(f) => "length" in f && Truthy(f["length"])
    case _ => false
  }

  /** The `product:<asin>:basic` key and card of one search result, or None
      when its `asin` is not a non-empty string. */
  function BasicCard(product: Json): (r: Option<(string, Json)>)
    ensures r.Some? <==> Field(product, "asin").Some? && Field(product, "asin").value.JStr? && Field(product, "asin").value.s != ""
    ensures r.Some? ==> r.value.0 == ProductKey(Field(product, "asin").value.s, "basic")
    ensures r.Some? ==> r.value.1.JObj? && r.value.1.fields.Keys <= {"asin", "title", "price", "rating", "thumbnail"}
    ensures r.Some? ==> Field(r.value.1, "asin") == Field(product, "asin")
    ensures r.Some? ==> Field(r.value.1, "title") == Field(product, "name")
    ensures r.Some? ==> Field(r.value.1, "price") == Field(product, "price")
    ensures r.Some? ==> Field(r.value.1, "rating") == Field(product, "stars")
    ensures r.Some? ==> Field(r.value.1, "thumbnail") == Field(product, "image")
  {
    var asin := Field(product, "asin");
    if asin.Some? && asin.value.JStr? && asin.value.s != "" then
      var card := Put(Put(Put(Put(map["asin" := asin.value],
        "title", Field(product, "name")),
        "price", Field(product, "price")),
        "rating", Field(product, "stars")),
        "thumbnail", Field(product, "image"));
      Some((ProductKey(asin.value.s, "basic"), JObj(card)))
    else None
  }

  /** The cache after the loop over the search results has stored each card in turn. */
  function WriteBasics(entries: map<string, Stored>, products: seq<Json>): (r: map<string, Stored>)
    ensures entries.Keys <= r.Keys
    ensures forall k :: k in r && (k !in entries || r[k] != entries[k]) ==>
      exists i :: 0 <= i < |products| && BasicCard(products[i]).Some? && BasicCard(products[i]).value.0 == k
    decreases |products|
  {
    if products == [] then entries
    else
      var before := WriteBasics(entries, products[..|products| - 1]);
      var card := BasicCard(products[|products| - 1]);
      if card.Some? then before[card.value.0 := Stored(card.value.1, DayTtl)] else before
  }

  function SearchBody(q: string, listed: Option<Json>): Json {
    JObj(Put(map["searchQuery" := JStr(q)], "results", listed))
  }

  /** The error `for (... of results.results)` throws when `results` is an object. */
  const NotIterable := UpstreamError("TypeError", None, "results.results is not iterable")

  /** getSearchResults */
  function Search(entries: map<string, Stored>, upstream: Target -> Outcome, searchQuery: Option<string>): (r: Effect)
    ensures r.resp.status in {200, 400, 404, 500, 504}
    ensures entries.Keys <= r.entries.Keys
    ensures r.calls == [] ==> r.entries == entries
    ensures r.calls == [] || (searchQuery.Some? && r.calls == [SearchTarget(Trim(searchQuery.value))])
  {
    var invalid := ValidateSearchQuery(searchQuery);
    if invalid.Some? then Effect(Response(400, Message(QueryErrorMessage(invalid.value))), entries, [])
    else
      var q := Trim(searchQuery.value);
      var key := SearchKey(q);
      if Hit(entries, key) then Effect(Response(200, SearchBody(q, Field(entries[key].value, "results"))), entries, [])
      else
        var t := SearchTarget(q);
        var o := ViaFetchData(upstream(t));
        if o.Err? then Effect(SendUpstreamError(o.error, "Search failed"), entries, [t])
        else if !HasResults(o.json) then Effect(Response(404, Message("No products found")), entries, [t])
        else
          var listed := Field(o.json, "results").value;
          var stored := entries[key := Stored(o.json, DayTtl)];
          match listed
          case JArr(items) => Effect(Response(200, SearchBody(q, Some(listed))), WriteBasics(stored, items), [t])
          case JStr(_) => Effect(Response(200, SearchBody(q, Some(listed))), stored, [t])
          case _ => Effect(SendUpstreamError(NotIterable, "Search failed"), stored, [t])
  }

  /** The loop of getSearchResults that stores each result's card in turn. */
  method StoreBasics(store: Store, items: seq<Json>)
    modifies store
    ensures store.entries == WriteBasics(old(store.entries), items)
  {
    ghost var stored := store.entries;
    for i := 0 to |items|
      invariant store.entries == WriteBasics(stored, items[..i])
    {
      assert items[..i + 1][..i] == items[..i];
      var card := BasicCard(items[i]);
      if card.Some? {
        store.Set(card.value.0, card.value.1, DayTtl);
      }
    }
    assert items[..|items|] == items;
  }

  method GetSearchResults(store: Store, upstream: Target -> Outcome, searchQuery: Option<string>)
    returns (resp: Response, calls: seq<Target>)
    modifies store
    ensures Effect(resp, store.entries, calls) == Search(old(store.entries), upstream, searchQuery)
  {
    var invalid := ValidateSearchQuery(searchQuery);
    if invalid.Some? {
      return Response(400, Message(QueryErrorMessage(invalid.value))), [];
    }
    var q := Trim(searchQuery.value);
    var cacheKey := SearchKey(q);
    var cached := store.Get(cacheKey);
    if cached.Some? && Truthy(cached.value) {
      return Response(200, SearchBody(q, Field(cached.value, "results"))), [];
    }
    var t := SearchTarget(q);
    calls := [t];
    var results := ViaFetchData(upstream(t));
    if results.Err? {
      return SendUpstreamError(results.error, "Search failed"), calls;
    }
    if !HasResults(results.json) {
      return Response(404, Message("No products found")), calls;
    }
    store.Set(cacheKey, results.json, DayTtl);
    var listed := Field(results.json, "results").value;
    match listed {
      case JArr(items) =>
        StoreBasics(store, items);
        resp := Response(200, SearchBody(q, Some(listed)));
      case JStr(_) =>
        resp := Response(200, SearchBody(q, Some(listed)));
      case _ =>
        resp := SendUpstreamError(NotIterable, "Search failed");
    }
  }

  /* ------------------------- full product details ------------------------- */

  /** The response when the details fetch failed: a not-found answers 404 with the
      normalized ASIN; anything else goes through sendUpstreamError. (The source
      sends a 410 through sendUpstreamError as well, which answers 500; see
      DetailsFailureAsWritten.) */
  function DetailsFailure(e: UpstreamError, asin: string, productId: string): (r: Response)
    ensures r.status == 404 <==> IsNotFound(e)
    ensures IsNotFound(e) ==> r.body == Message(NotFoundFor(asin))
    ensures !IsNotFound(e) ==> r.status in {429, 500, 502, 504}
  {
    if IsNotFound(e) then Response(404, Message(NotFoundFor(asin)))
    else SendUpstreamError(e, NotFoundFor(productId))
  }

  /** The same response as the source computes it. */
  function DetailsFailureAsWritten(e: UpstreamError, asin: string, productId: string): (r: Response)
    ensures r.status == 404 <==> e.name != "AbortError" && e.status == Some(404)
    ensures e.name != "AbortError" && e.status == Some(410) ==> r.status == 500
  {
    if IsNotFound(e) then SendUpstreamError(e, NotFoundFor(asin))
    else SendUpstreamError(e, NotFoundFor(productId))
  }

  function FullBody(details: Json, reviews: Json, offers: Json): Json {
    JObj(map["details" := details, "reviews" := reviews, "offers" := offers])
  }

  /** getProductDetails */
  function ProductDetails(entries: map<string, Stored>, upstream: Target -> Outcome, productId: string): (r: Effect)
    ensures r.resp.status in {200, 400, 404, 429, 500, 502, 504}
    ensures r.resp.status != 200 ==> r.entries == entries
    ensures r.calls == [] ==> r.entries == entries
  {
    if !ValidProductId(Some(productId)) || !IsAsin(productId) then Effect(InvalidId, entries, [])
    else
      var asin := NormalizeAsin(productId);
      var key := ProductKey(asin, "full");
      if Hit(entries, key) then Effect(Response(200, entries[key].value), entries, [])
      else
        var d := Fallback(upstream, Targets(["/dp/" + asin]));
        var rv := Fallback(upstream, Targets(["/product-reviews/" + asin]));
        var of := Fallback(upstream, Targets(["/gp/offer-listing/" + asin]));
        var calls := d.tried + rv.tried + of.tried;
        if d.outcome.Err? then Effect(DetailsFailure(d.outcome.error, asin, productId), entries, calls)
        else
          var reviews := OrElse(rv.outcome, NoReviews);
          var offers := OrElse(of.outcome, NoOffers);
          var full := FullBody(d.outcome.json, reviews, offers);
          var after := entries[key := Stored(full, DayTtl)]
                              [ProductKey(asin, "details") := Stored(d.outcome.json, DayTtl)]
                              [ProductKey(asin, "reviews") := Stored(reviews, DayTtl)]
                              [ProductKey(asin, "offers") := Stored(offers, DayTtl)];
          Effect(Response(200, full), after, calls)
  }

  method GetProductDetails(store: Store, upstream: Target -> Outcome, productId: string)
    returns (resp: Response, calls: seq<Target>)
    modifies store
    ensures Effect(resp, store.entries, calls) == ProductDetails(old(store.entries), upstream, productId)
  {
    if !ValidProductId(Some(productId)) || !IsAsin(productId) {
      return InvalidId, [];
    }
    var asin := NormalizeAsin(productId);
    var cacheKey := ProductKey(asin, "full");
    var cached := store.Get(cacheKey);
    if cached.Some? && Truthy(cached.value) {
      return Response(200, cached.value), [];
    }
    var details := TryRegions(upstream, ["/dp/" + asin]);
    var reviews := TryRegions(upstream, ["/product-reviews/" + asin]);
    var offers := TryRegions(upstream, ["/gp/offer-listing/" + asin]);
    calls := details.tried + reviews.tried + offers.tried;
    if details.outcome.Err? {
      return DetailsFailure(details.outcome.error, asin, productId), calls;
    }
    var reviewsBody := OrElse(reviews.outcome, NoReviews);
    var offersBody := OrElse(offers.outcome, NoOffers);
    var full := FullBody(details.outcome.json, reviewsBody, offersBody);
    store.Set(cacheKey, full, DayTtl);
    store.Set(ProductKey(asin, "details"), details.outcome.json, DayTtl);
    store.Set(ProductKey(asin, "reviews"), reviewsBody, DayTtl);
    store.Set(ProductKey(asin, "offers"), offersBody, DayTtl);
    resp := Response(200, full);
  }

  /* --------------------------- reviews and offers --------------------------- */

  /** The shape shared by the reviews-only and offers-only handlers: one fetch with
      regional fallback; a not-found becomes a cached placeholder with status 200. */
  function Facet(entries: map<string, Stored>, upstream: Target -> Outcome, productId: string,
                 variant: string, path: string, placeholder: Json, missTtl: nat, failMessage: string): (r: Effect)
    ensures r.resp.status in {200, 400, 429, 500, 502, 504}
    ensures r.resp.status != 200 ==> r.entries == entries
    ensures r.calls == [] ==> r.entries == entries
    ensures r.entries.Keys <= entries.Keys + {ProductKey(NormalizeAsin(productId), variant)}
  {
    if !IsAsin(productId) then Effect(InvalidId, entries, [])
    else
      var asin := NormalizeAsin(productId);
      var key := ProductKey(asin, variant);
      if Hit(entries, key) then Effect(Response(200, entries[key].value), entries, [])
      else
        var a := Fallback(upstream, Targets([path + asin]));
        match a.outcome
        case Ok(j) => Effect(Response(200, j), entries[key := Stored(j, DayTtl)], a.tried)
        case Err(e) =>
          if IsNotFound(e) then Effect(Response(200, placeholder), entries[key := Stored(placeholder, missTtl)], a.tried)
          else Effect(SendUpstreamError(e, failMessage), entries, a.tried)
  }

  /** getProductReviews */
  function ProductReviews(entries: map<string, Stored>, upstream: Target -> Outcome, productId: string): (r: Effect)
    ensures r.resp.status in {200, 400, 429, 500, 502, 504}
    ensures r.resp.status != 200 ==> r.entries == entries
    ensures r.entries.Keys <= entries.Keys + {ProductKey(NormalizeAsin(productId), "reviews")}
  {
    Facet(entries, upstream, productId, "reviews", "/product-reviews/", NoReviews, ReviewsMissTtl, "Failed to fetch reviews")
  }

  /** getProductOffers */
  function ProductOffers(entries: map<string, Stored>, upstream: Target -> Outcome, productId: string): (r: Effect)
    ensures r.resp.status in {200, 400, 429, 500, 502, 504}
    ensures r.resp.status != 200 ==> r.entries == entries
    ensures r.entries.Keys <= entries.Keys + {ProductKey(NormalizeAsin(productId), "offers")}
  {
    Facet(entries, upstream, productId, "offers", "/gp/offer-listing/", NoOffers, OffersMissTtl, "Failed to fetch offers")
  }

  method ServeFacet(store: Store, upstream: Target -> Outcome, productId: string,
                    variant: string, path: string, placeholder: Json, missTtl: nat, failMessage: string)
    returns (resp: Response, calls: seq<Target>)
    modifies store
    ensures Effect(resp, store.entries, calls) ==
      Facet(old(store.entries), upstream, productId, variant, path, placeholder, missTtl, failMessage)
  {
    if !IsAsin(productId) {
      return InvalidId, [];
    }
    var asin := NormalizeAsin(productId);
    var cacheKey := ProductKey(asin, variant);
    var cached := store.Get(cacheKey);
    if cached.Some? && Truthy(cached.value) {
      return Response(200, cached.value), [];
    }
    var a := TryRegions(upstream, [path + asin]);
    calls := a.tried;
    match a.outcome {
      case Ok(j) =>
        store.Set(cacheKey, j, DayTtl);
        resp := Response(200, j);
      case Err(e) =>
        if IsNotFound(e) {
          store.Set(cacheKey, placeholder, missTtl);
          resp := Response(200, placeholder);
        } else {
          resp := SendUpstreamError(e, failMessage);
        }
    }
  }

  method GetProductReviews(store: Store, upstream: Target -> Outcome, productId: string)
    returns (resp: Response, calls: seq<Target>)
    modifies store
    ensures Effect(resp, store.entries, calls) == ProductReviews(old(store.entries), upstream, productId)
  {
    resp, calls := ServeFacet(store, upstream, productId, "reviews", "/product-reviews/", NoReviews, ReviewsMissTtl, "Failed to fetch reviews");
  }

  method GetProductOffers(store: Store, upstream: Target -> Outcome, productId: string)
    returns (resp: Response, calls: seq<Target>)
    modifies store
    ensures Effect(resp, store.entries, calls) == ProductOffers(old(store.entries), upstream, productId)
  {
    resp, calls := ServeFacet(store, upstream, productId, "offers", "/gp/offer-listing/", NoOffers, OffersMissTtl, "Failed to fetch offers");
  }

  /* ------------------------------- quick info ------------------------------- */

  /** `details && (details.name || details.title) ? (details.name ?? details.title) : null` */
  function QuickTitle(details: Json): (r: Json)
    ensures r == JNull || Field(details, "name") == Some(r) || Field(details, "title") == Some(r)
    ensures r != JNull ==> Truthy(details)
  {
    var name := Field(details, "name");
    var title := Field(details, "title");
    if Truthy(details) && ((name.Some? && Truthy(name.value)) || (title.Some? && Truthy(title.value))) then
      if !Nullish(name) then name.value else title.value
    else JNull
  }

  /** `obj && typeof obj.member !== 'undefined' ? obj.member : fallback` */
  function MemberOr(obj: Json, member: string, fallback: Json): Json {
    var m := Field(obj, member);
    if Truthy(obj) && m.Some? then m.value else fallback
  }

  /** The `quickInfo` object built from the details and reviews bodies. */
  function QuickInfo(asin: string, details: Json, reviews: Json): (r: Json)
    ensures r.JObj? && r.fields.Keys ==
      {"productId", "title", "rating", "price", "reviewsCount", "topPositiveReview", "topCriticalReview"}
    ensures r.fields["productId"] == JStr(asin) && r.fields["title"] == QuickTitle(details)
    ensures Truthy(details) && Field(details, "rating").Some? ==> r.fields["rating"] == Field(details, "rating").value
    ensures Field(details, "rating").None? ==> r.fields["rating"] == JNull
    ensures Truthy(details) && Field(details, "price").Some? ==> r.fields["price"] == Field(details, "price").value
    ensures Field(details, "price").None? ==> r.fields["price"] == JNull
    ensures Truthy(reviews) && Field(reviews, "reviews_count").Some? ==>
      r.fields["reviewsCount"] == Field(reviews, "reviews_count").value
    ensures Field(reviews, "reviews_count").None? ==> r.fields["reviewsCount"] == JNum(0.0)
    ensures Truthy(reviews) && Field(reviews, "top_positive_review").Some? ==>
      r.fields["topPositiveReview"] == Field(reviews, "top_positive_review").value
    ensures Field(reviews, "top_positive_review").None? ==> r.fields["topPositiveReview"] == JNull
    ensures Truthy(reviews) && Field(reviews, "top_critical_review").Some? ==>
      r.fields["topCriticalReview"] == Field(reviews, "top_critical_review").value
    ensures Field(reviews, "top_critical_review").None? ==> r.fields["topCriticalReview"] == JNull
  {
    JObj(map[
      "productId" := JStr(asin),
      "title" := QuickTitle(details),
      "rating" := MemberOr(details, "rating", JNull),
      "price" := MemberOr(details, "price", JNull),
      "reviewsCount" := MemberOr(reviews, "reviews_count", JNum(0.0)),
      "topPositiveReview" := MemberOr(reviews, "top_positive_review", JNull),
      "topCriticalReview" := MemberOr(reviews, "top_critical_review", JNull)])
  }

  /** getQuickProductInfo */
  function QuickProductInfo(entries: map<string, Stored>, upstream: Target -> Outcome, productId: string): (r: Effect)
    ensures r.resp.status in {200, 400, 404, 429, 500, 502, 504}
    ensures r.resp.status != 200 ==> r.entries == entries
    ensures r.entries.Keys <= entries.Keys + {ProductKey(NormalizeAsin(productId), "quick")}
  {
    if !IsAsin(productId) then Effect(InvalidId, entries, [])
    else
      var asin := NormalizeAsin(productId);
      var key := ProductKey(asin, "quick");
      if Hit(entries, key) then Effect(Response(200, entries[key].value), entries, [])
      else
        var d := Fallback(upstream, Targets(["/dp/" + asin]));
        if d.outcome.Err? then
          if IsNotFound(d.outcome.error) then Effect(Response(404, Message(NotFoundFor(asin))), entries, d.tried)
          else Effect(SendUpstreamError(d.outcome.error, NotFoundFor(asin)), entries, d.tried)
        else
          var rv := Fallback(upstream, Targets(["/product-reviews/" + asin]));
          var info := QuickInfo(asin, d.outcome.json, OrElse(rv.outcome, NoReviews));
          Effect(Response(200, info), entries[key := Stored(info, DayTtl)], d.tried + rv.tried)
  }

  method GetQuickProductInfo(store: Store, upstream: Target -> Outcome, productId: string)
    returns (resp: Response, calls: seq<Target>)
    modifies store
    ensures Effect(resp, store.entries, calls) == QuickProductInfo(old(store.entries), upstream, productId)
  {
    if !IsAsin(productId) {
      return InvalidId, [];
    }
    var asin := NormalizeAsin(productId);
    var cacheKey := ProductKey(asin, "quick");
    var cached := store.Get(cacheKey);
    if cached.Some? && Truthy(cached.value) {
      return Response(200, cached.value), [];
    }
    var details := TryRegions(upstream, ["/dp/" + asin]);
    calls := details.tried;
    if details.outcome.Err? {
      if IsNotFound(details.outcome.error) {
        return Response(404, Message(NotFoundFor(asin))), calls;
      }
      return SendUpstreamError(details.outcome.error, NotFoundFor(asin)), calls;
    }
    var reviews := NoReviews;
    var rv := TryRegions(upstream, ["/product-reviews/" + asin]);
    calls := calls + rv.tried;
    if rv.outcome.Ok? {
      reviews := rv.outcome.json;
    }
    var info := QuickInfo(asin, details.outcome.json, reviews);
    store.Set(cacheKey, info, DayTtl);
    resp := Response(200, info);
  }

  /* ------------------------------ clear cache ------------------------------ */

  predicate EndsWith(k: string, suffix: string) {
    |suffix| <= |k| && k[|k| - |suffix|..] == suffix
  }

  predicate OccursAt(k: string, sub: string, i: int) {
    0 <= i && i + |sub| <= |k| && k[i..i + |sub|] == sub
  }

  /** `k.includes(sub)` */
  predicate Contains(k: string, sub: string) {
    exists i | 0 <= i <= |k| - |sub| :: OccursAt(k, sub, i)
  }

  /** A query parameter that `if (p)` accepts: present and not empty. */
  predicate Given(p: Option<string>) {
    p.Some? && p.value != ""
  }

  /** byType */
  predicate ByType(k: string, typ: Option<string>) {
    typ == Some("all") ||
    (Given(typ) && EndsWith(k, ":" + typ.value)) ||
    (typ == Some("search") && "search:" <= k)
  }

  /** The keys clearCache deletes: those passing the asin filter and, when a type is given, byType. */
  predicate Selected(k: string, typ: Option<string>, asin: Option<string>) {
    (!Given(asin) || Contains(k, "product:" + NormalizeAsin(asin.value))) &&
    (!Given(typ) || ByType(k, typ))
  }

  function Doomed(entries: map<string, Stored>, typ: Option<string>, asin: Option<string>): set<string> {
    set k | k in entries && Selected(k, typ, asin)
  }

  function ClearedBody(message: string, cleared: nat): Json {
    JObj(map["message" := JStr(message), "cleared" := JNum(cleared as real)])
  }

  /** clearCache: the response and the cache after it. */
  function ClearCache(entries: map<string, Stored>, typ: Option<string>, asin: Option<string>): (r: (Response, map<string, Stored>))
    ensures r.0.status == 200
    ensures r.1.Keys <= entries.Keys && forall k :: k in r.1 ==> r.1[k] == entries[k]
  {
    var doomed := Doomed(entries, typ, asin);
    if doomed == {} then (Response(200, ClearedBody("No matching cache keys to clear", 0)), entries)
    else (Response(200, ClearedBody("Cache cleared", |doomed|)), entries - doomed)
  }

  method ClearCacheKeys(store: Store, typ: Option<string>, asin: Option<string>) returns (resp: Response)
    modifies store
    ensures (resp, store.entries) == ClearCache(old(store.entries), typ, asin)
  {
    var delKeys: seq<string> := [];
    var allKeys := store.Keys();
    for i := 0 to |allKeys|
      invariant forall k :: k in delKeys <==> k in allKeys[..i] && Selected(k, typ, asin)
    {
      var k := allKeys[i];
      if Given(asin) && !Contains(k, "product:" + NormalizeAsin(asin.value)) {
        continue;
      }
      if !Given(typ) || ByType(k, typ) {
        delKeys := delKeys + [k];
      }
    }
    assert allKeys[..|allKeys|] == allKeys;
    ghost var doomed := Doomed(store.entries, typ, asin);
    assert (set k | k in delKeys) == doomed;
    if |delKeys| == 0 {
      assert doomed == {};
      return Response(200, ClearedBody("No matching cache keys to clear", 0));
    }
    assert delKeys[0] in doomed;
    var cleared := store.Del(delKeys);
    assert (set k | k in delKeys && k in old(store.entries)) == doomed;
    resp := Response(200, ClearedBody("Cache cleared", cleared));
  }
}
