/** Properties of the controller model: how the two ASIN checks relate, what
    the regional fallback promises, which cache keys each handler reads and
    writes and with what time-to-live, and which keys clearCache deletes. */
module ScraperProperties {
  import opened JsonValues
  import opened ValidateInput
  import opened ScraperHelpers
  import opened SharedCache
  import opened ScraperHandlers

  /* ------------------------ product id checks ------------------------ */

  /** validateProductId accepts exactly the ASINs that are already upper-case. */
  lemma ValidIdIsNormalizedAsin(id: string)
    ensures ValidProductId(Some(id)) <==> IsAsin(id) && NormalizeAsin(id) == id
  {
    if IsAsin(id) && NormalizeAsin(id) == id {
      forall i | 0 <= i < |id| ensures IsUpperOrDigit(id[i]) {
        assert id[i] == NormalizeAsin(id)[i];
      }
    }
  }

  /** Upper-casing an ASIN yields an id validateProductId accepts. */
  lemma NormalizedAsinIsValid(id: string)
    requires IsAsin(id)
    ensures ValidProductId(Some(NormalizeAsin(id)))
  {
    var n := NormalizeAsin(id);
    forall i | 0 <= i < |n| ensures IsUpperOrDigit(n[i]) {
      assert IsAsciiLower(id[i]) || IsAsciiUpper(id[i]) || IsDigit(id[i]);
    }
  }

  /** Normalizing twice is normalizing once. */
  lemma NormalizeAsinIdempotent(id: string)
    ensures NormalizeAsin(NormalizeAsin(id)) == NormalizeAsin(id)
  {
  }

  /** The two checks differ: a lower-case ASIN passes isAsin but not validateProductId. */
  lemma LowerCaseAsinWitness()
    ensures IsAsin("b000000000") && !ValidProductId(Some("b000000000"))
  {
    assert !IsUpperOrDigit("b000000000"[0]);
  }

  /** The statuses sendUpstreamError can answer with. */
  lemma UpstreamErrorStatuses(e: UpstreamError, message: string)
    ensures SendUpstreamError(e, message).status in {404, 429, 500, 502, 504}
  {
  }

  /** An id that fails isAsin gets 400 from every product endpoint, with no cache
      change and no upstream request. */
  lemma MalformedIdRejected(entries: map<string, Stored>, upstream: Target -> Outcome, id: string)
    requires !IsAsin(id)
    ensures ProductDetails(entries, upstream, id) == Effect(InvalidId, entries, [])
    ensures ProductReviews(entries, upstream, id) == Effect(InvalidId, entries, [])
    ensures ProductOffers(entries, upstream, id) == Effect(InvalidId, entries, [])
    ensures QuickProductInfo(entries, upstream, id) == Effect(InvalidId, entries, [])
  {
  }

  /** The reviews-only and offers-only handlers never answer 400 to an ASIN. */
  lemma FacetAcceptsAsin(entries: map<string, Stored>, upstream: Target -> Outcome, id: string,
                         variant: string, path: string, placeholder: Json, missTtl: nat, failMessage: string)
    requires IsAsin(id)
    ensures Facet(entries, upstream, id, variant, path, placeholder, missTtl, failMessage).resp.status in {200, 429, 500, 502, 504}
  {
    var a := Fallback(upstream, Targets([path + NormalizeAsin(id)]));
    if a.outcome.Err? {
      UpstreamErrorStatuses(a.outcome.error, failMessage);
    }
  }

  /** The quick handler never answers 400 to an ASIN. */
  lemma QuickAcceptsAsin(entries: map<string, Stored>, upstream: Target -> Outcome, id: string)
    requires IsAsin(id)
    ensures QuickProductInfo(entries, upstream, id).resp.status in {200, 404, 429, 500, 502, 504}
  {
    var asin := NormalizeAsin(id);
    var d := Fallback(upstream, Targets(["/dp/" + asin]));
    if d.outcome.Err? {
      UpstreamErrorStatuses(d.outcome.error, NotFoundFor(asin));
    }
  }

  /** A lower-case ASIN is refused by the full-details endpoint and accepted by the
      reviews, offers and quick endpoints, which key it by its upper-case form. */
  lemma LowerCaseAsinAsymmetry(entries: map<string, Stored>, upstream: Target -> Outcome, id: string)
    requires IsAsin(id) && NormalizeAsin(id) != id
    ensures ProductDetails(entries, upstream, id) == Effect(InvalidId, entries, [])
    ensures ProductReviews(entries, upstream, id).resp.status != 400
    ensures ProductOffers(entries, upstream, id).resp.status != 400
    ensures QuickProductInfo(entries, upstream, id).resp.status != 400
  {
    ValidIdIsNormalizedAsin(id);
    FacetAcceptsAsin(entries, upstream, id, "reviews", "/product-reviews/", NoReviews, ReviewsMissTtl, "Failed to fetch reviews");
    FacetAcceptsAsin(entries, upstream, id, "offers", "/gp/offer-listing/", NoOffers, OffersMissTtl, "Failed to fetch offers");
    QuickAcceptsAsin(entries, upstream, id);
  }

  /* ------------------------- regional fallback ------------------------- */

  /** If the first region answers 404 and the second succeeds, the second's body is
      returned and the third region is never asked. */
  lemma SecondRegionAnswers(upstream: Target -> Outcome, path: string, body: Json, e: UpstreamError)
    requires upstream(Target(".com", path)) == Err(e) && e.status == Some(404)
    requires upstream(Target(".ca", path)) == Ok(body)
    ensures Fallback(upstream, Targets([path])) == Attempt(Ok(body), [Target(".com", path), Target(".ca", path)])
  {
    var ts := Targets([path]);
    TargetAt([path], 0, 0);
    TargetAt([path], 0, 1);
    FallbackEndsAt(upstream, ts, 1);
    assert ts[..2] == [Target(".com", path), Target(".ca", path)];
  }

  /** Every page answered 404 or 410: the run has missed on all of `ts`. */
  predicate AllMiss(upstream: Target -> Outcome, ts: seq<Target>) {
    Missed(upstream, ts, ts)
  }

  /** When every page answers 404 or 410, the run visits every page and throws the last answer. */
  lemma AllPagesMissing(upstream: Target -> Outcome, ts: seq<Target>)
    requires |ts| > 0 && AllMiss(upstream, ts)
    ensures Fallback(upstream, ts) == Attempt(upstream(ts[|ts| - 1]), ts)
  {
    FallbackEndsAt(upstream, ts, |ts| - 1);
    assert ts[..|ts|] == ts;
  }

  /** A run ends in a 404 or 410 exactly when every page answered 404 or 410. */
  lemma FallbackMissIff(upstream: Target -> Outcome, ts: seq<Target>)
    requires |ts| > 0
    ensures Fallback(upstream, ts).outcome.Err? && IsNotFound(Fallback(upstream, ts).outcome.error) <==> AllMiss(upstream, ts)
  {
    FallbackShape(upstream, ts);
    if AllMiss(upstream, ts) {
      AllPagesMissing(upstream, ts);
    }
  }

  /** When every page answers 404 or 410, all three regions of every path are asked,
      in order, and the last answer is what is thrown. */
  lemma AllRegionsMissing(upstream: Target -> Outcome, paths: seq<string>, ts: seq<Target>)
    requires |paths| > 0 && ts == Targets(paths) && AllMiss(upstream, ts)
    ensures |ts| == |Regions| * |paths|
    ensures Fallback(upstream, ts) == Attempt(upstream(ts[|ts| - 1]), ts)
  {
    TargetsLength(paths);
    AllPagesMissing(upstream, ts);
  }

  /** An error other than 404/410 stops the run at once: it is thrown, and no later page is asked. */
  lemma OtherErrorStops(upstream: Target -> Outcome, ts: seq<Target>, k: nat)
    requires k < |ts|
    requires forall i :: 0 <= i < k ==> upstream(ts[i]).Err? && IsNotFound(upstream(ts[i]).error)
    requires upstream(ts[k]).Err? && !IsNotFound(upstream(ts[k]).error)
    ensures Fallback(upstream, ts).outcome == upstream(ts[k])
    ensures Fallback(upstream, ts).tried == ts[..k + 1]
  {
    FallbackEndsAt(upstream, ts, k);
  }

  /* ---------------------------- full details ---------------------------- */

  /** Keys of one product with different variants are different keys. */
  lemma ProductKeysDistinct(asin: string, v: string, w: string)
    requires v != w
    ensures ProductKey(asin, v) != ProductKey(asin, w)
  {
    var n := |"product:" + asin + ":"|;
    assert ProductKey(asin, v)[n..] == v;
    assert ProductKey(asin, w)[n..] == w;
  }

  predicate FourKeysDistinct(asin: string) {
    && ProductKey(asin, "full") != ProductKey(asin, "details")
    && ProductKey(asin, "full") != ProductKey(asin, "reviews")
    && ProductKey(asin, "full") != ProductKey(asin, "offers")
    && ProductKey(asin, "details") != ProductKey(asin, "reviews")
    && ProductKey(asin, "details") != ProductKey(asin, "offers")
    && ProductKey(asin, "reviews") != ProductKey(asin, "offers")
  }

  lemma FourKeys(asin: string)
    ensures FourKeysDistinct(asin)
  {
    ProductKeysDistinct(asin, "full", "details");
    ProductKeysDistinct(asin, "full", "reviews");
    ProductKeysDistinct(asin, "full", "offers");
    ProductKeysDistinct(asin, "details", "reviews");
    ProductKeysDistinct(asin, "details", "offers");
    ProductKeysDistinct(asin, "reviews", "offers");
  }

  /** A successful full-details request writes exactly the four keys `:full`,
      `:details`, `:reviews`, `:offers` of the normalized ASIN, each for 43200
      seconds; `full` holds the other three; a failed reviews or offers fetch is
      replaced by its placeholder. Every other key is left as it was. */
  lemma DetailsSuccessWrites(entries: map<string, Stored>, upstream: Target -> Outcome, id: string)
    requires ValidProductId(Some(id))
    requires !Hit(entries, ProductKey(id, "full"))
    requires Fallback(upstream, Targets(["/dp/" + id])).outcome.Ok?
    ensures var r := ProductDetails(entries, upstream, id);
      var details := Fallback(upstream, Targets(["/dp/" + id])).outcome.json;
      var reviews := Fallback(upstream, Targets(["/product-reviews/" + id])).outcome;
      var offers := Fallback(upstream, Targets(["/gp/offer-listing/" + id])).outcome;
      && r.entries.Keys == entries.Keys + {ProductKey(id, "full"), ProductKey(id, "details"), ProductKey(id, "reviews"), ProductKey(id, "offers")}
      && r.resp == Response(200, r.entries[ProductKey(id, "full")].value)
      && r.entries[ProductKey(id, "full")] == Stored(FullBody(details, r.entries[ProductKey(id, "reviews")].value, r.entries[ProductKey(id, "offers")].value), DayTtl)
      && r.entries[ProductKey(id, "details")] == Stored(details, DayTtl)
      && r.entries[ProductKey(id, "reviews")] == Stored(if reviews.Ok? then reviews.json else NoReviews, DayTtl)
      && r.entries[ProductKey(id, "offers")] == Stored(if offers.Ok? then offers.json else NoOffers, DayTtl)
      && (forall k :: k in entries && k !in {ProductKey(id, "full"), ProductKey(id, "details"), ProductKey(id, "reviews"), ProductKey(id, "offers")} ==> r.entries[k] == entries[k])
  {
    ValidIdIsNormalizedAsin(id);
    FourKeys(id);
  }

  /** A failed details fetch caches nothing. A not-found answers 404 naming the
      normalized ASIN; any other error answers 429, 500, 502 or 504. */
  lemma DetailsFailureCachesNothing(entries: map<string, Stored>, upstream: Target -> Outcome, id: string)
    requires ValidProductId(Some(id))
    requires !Hit(entries, ProductKey(id, "full"))
    requires Fallback(upstream, Targets(["/dp/" + id])).outcome.Err?
    ensures var e := Fallback(upstream, Targets(["/dp/" + id])).outcome.error;
      var r := ProductDetails(entries, upstream, id);
      && r.entries == entries
      && (IsNotFound(e) ==> r.resp == Response(404, Message(NotFoundFor(id))))
      && (!IsNotFound(e) ==> r.resp.status in {429, 500, 502, 504})
  {
    ValidIdIsNormalizedAsin(id);
    var e := Fallback(upstream, Targets(["/dp/" + id])).outcome.error;
    UpstreamErrorStatuses(e, NotFoundFor(id));
  }

  /** As written, a details fetch that ends in 410 in every region is answered 500,
      while the quick endpoint answers the same upstream state with 404. */
  lemma DetailsGoneAnswers500(asin: string, productId: string, message: string)
    ensures DetailsFailureAsWritten(UpstreamError("Error", Some(410), message), asin, productId).status == 500
    ensures DetailsFailure(UpstreamError("Error", Some(410), message), asin, productId) == Response(404, Message(NotFoundFor(asin)))
  {
  }

  /** The corrected details failure differs from the source exactly on a not-found
      that sendUpstreamError does not map to 404 (a 410, or a not-found named
      AbortError), and then answers 404 naming the ASIN, as the quick endpoint does. */
  lemma DetailsFailureCorrected(e: UpstreamError, asin: string, productId: string)
    ensures DetailsFailure(e, asin, productId) != DetailsFailureAsWritten(e, asin, productId) <==>
      IsNotFound(e) && (e.status == Some(410) || e.name == "AbortError")
    ensures IsNotFound(e) ==> DetailsFailure(e, asin, productId) == Response(404, Message(NotFoundFor(asin)))
  {
  }

  /** With the correction, the full and the quick endpoint agree on a product that
      no region has: both answer 404 naming the ASIN and cache nothing. */
  lemma MissingProductAgreement(entries: map<string, Stored>, upstream: Target -> Outcome, id: string)
    requires ValidProductId(Some(id))
    requires !Hit(entries, ProductKey(id, "full")) && !Hit(entries, ProductKey(id, "quick"))
    requires forall g :: 0 <= g < |Regions| ==>
      var o := upstream(Target(Regions[g], "/dp/" + id)); o.Err? && IsNotFound(o.error)
    ensures ProductDetails(entries, upstream, id).resp == Response(404, Message(NotFoundFor(id)))
    ensures QuickProductInfo(entries, upstream, id).resp == Response(404, Message(NotFoundFor(id)))
    ensures ProductDetails(entries, upstream, id).entries == entries
    ensures QuickProductInfo(entries, upstream, id).entries == entries
  {
    ValidIdIsNormalizedAsin(id);
    var ts := Targets(["/dp/" + id]);
    TargetsLength(["/dp/" + id]);
    forall i | 0 <= i < |ts|
      ensures upstream(ts[i]).Err? && IsNotFound(upstream(ts[i]).error)
    {
      TargetAt(["/dp/" + id], 0, i);
    }
    AllRegionsMissing(upstream, ["/dp/" + id], ts);
    TargetAt(["/dp/" + id], 0, 2);
  }

  /** After a successful full-details request, a reviews-only or offers-only request
      for the same product is served from the cache without asking upstream,
      whenever the stored value is truthy (always so for the placeholders). */
  lemma FullDetailsFeedFacets(entries: map<string, Stored>, upstream: Target -> Outcome, later: Target -> Outcome, id: string)
    requires ValidProductId(Some(id))
    requires !Hit(entries, ProductKey(id, "full"))
    requires Fallback(upstream, Targets(["/dp/" + id])).outcome.Ok?
    ensures ProductKey(id, "reviews") in ProductDetails(entries, upstream, id).entries
    ensures ProductKey(id, "offers") in ProductDetails(entries, upstream, id).entries
    ensures var after := ProductDetails(entries, upstream, id).entries;
      && (Truthy(after[ProductKey(id, "reviews")].value) ==>
            ProductReviews(after, later, id) == Effect(Response(200, after[ProductKey(id, "reviews")].value), after, []))
      && (Truthy(after[ProductKey(id, "offers")].value) ==>
            ProductOffers(after, later, id) == Effect(Response(200, after[ProductKey(id, "offers")].value), after, []))
    ensures Fallback(upstream, Targets(["/product-reviews/" + id])).outcome.Err? ==>
      ProductReviews(ProductDetails(entries, upstream, id).entries, later, id) ==
        Effect(Response(200, NoReviews), ProductDetails(entries, upstream, id).entries, [])
  {
    ValidIdIsNormalizedAsin(id);
    DetailsSuccessWrites(entries, upstream, id);
  }

  /** A successful full-details response is served again from the cache, without
      asking upstream, by the next full-details request for the same id. */
  lemma DetailsRepeats(entries: map<string, Stored>, upstream: Target -> Outcome, later: Target -> Outcome, id: string)
    requires ProductDetails(entries, upstream, id).resp.status == 200
    ensures var first := ProductDetails(entries, upstream, id);
      ProductDetails(first.entries, later, id) == Effect(first.resp, first.entries, [])
  {
    var asin := NormalizeAsin(id);
    FourKeys(asin);
  }

  /* ------------------------- reviews and offers ------------------------- */

  /** The reviews-only and offers-only handlers, on a cache miss: a success is cached
      for 43200 seconds; the placeholder is cached, with its shorter time-to-live,
      exactly when every region answered 404 or 410; any other error is passed to
      sendUpstreamError and caches nothing. */
  lemma FacetOutcomes(entries: map<string, Stored>, upstream: Target -> Outcome, id: string,
                      variant: string, path: string, placeholder: Json, missTtl: nat, failMessage: string)
    requires IsAsin(id) && !Hit(entries, ProductKey(NormalizeAsin(id), variant))
    requires Truthy(placeholder) && missTtl != DayTtl
    ensures var key := ProductKey(NormalizeAsin(id), variant);
      var ts := Targets([path + NormalizeAsin(id)]);
      var a := Fallback(upstream, ts);
      var r := Facet(entries, upstream, id, variant, path, placeholder, missTtl, failMessage);
      && r.calls == a.tried
      && (r.entries == entries[key := Stored(placeholder, missTtl)] <==> AllMiss(upstream, ts))
      && (AllMiss(upstream, ts) ==> r.resp == Response(200, placeholder))
      && (a.outcome.Ok? ==> r.resp == Response(200, a.outcome.json) && r.entries == entries[key := Stored(a.outcome.json, DayTtl)])
      && (a.outcome.Err? && !AllMiss(upstream, ts) ==> r.resp == SendUpstreamError(a.outcome.error, failMessage) && r.entries == entries)
  {
    var key := ProductKey(NormalizeAsin(id), variant);
    var ts := Targets([path + NormalizeAsin(id)]);
    var a := Fallback(upstream, ts);
    TargetsLength([path + NormalizeAsin(id)]);
    FallbackMissIff(upstream, ts);
    if a.outcome.Ok? {
      assert entries[key := Stored(a.outcome.json, DayTtl)][key] != Stored(placeholder, missTtl);
    } else if !IsNotFound(a.outcome.error) {
      if key in entries {
        assert entries[key] != Stored(placeholder, missTtl);
      }
    }
  }

  /** getProductReviews caches `{reviews_count: 0}` for 3600 seconds exactly when
      every region answered 404 or 410, and a fetched body for 43200 seconds. */
  lemma ReviewsPlaceholder(entries: map<string, Stored>, upstream: Target -> Outcome, id: string)
    requires IsAsin(id) && !Hit(entries, ProductKey(NormalizeAsin(id), "reviews"))
    ensures var key := ProductKey(NormalizeAsin(id), "reviews");
      var ts := Targets(["/product-reviews/" + NormalizeAsin(id)]);
      var r := ProductReviews(entries, upstream, id);
      && (r.entries == entries[key := Stored(NoReviews, 3600)] <==> AllMiss(upstream, ts))
      && (Fallback(upstream, ts).outcome.Ok? ==> r.entries == entries[key := Stored(Fallback(upstream, ts).outcome.json, 43200)])
  {
    FacetOutcomes(entries, upstream, id, "reviews", "/product-reviews/", NoReviews, ReviewsMissTtl, "Failed to fetch reviews");
  }

  /** getProductOffers caches `{offers: []}` for 1800 seconds exactly when every
      region answered 404 or 410, and a fetched body for 43200 seconds. */
  lemma OffersPlaceholder(entries: map<string, Stored>, upstream: Target -> Outcome, id: string)
    requires IsAsin(id) && !Hit(entries, ProductKey(NormalizeAsin(id), "offers"))
    ensures var key := ProductKey(NormalizeAsin(id), "offers");
      var ts := Targets(["/gp/offer-listing/" + NormalizeAsin(id)]);
      var r := ProductOffers(entries, upstream, id);
      && (r.entries == entries[key := Stored(NoOffers, 1800)] <==> AllMiss(upstream, ts))
      && (Fallback(upstream, ts).outcome.Ok? ==> r.entries == entries[key := Stored(Fallback(upstream, ts).outcome.json, 43200)])
  {
    FacetOutcomes(entries, upstream, id, "offers", "/gp/offer-listing/", NoOffers, OffersMissTtl, "Failed to fetch offers");
  }

  /** A truthy 200 from the reviews-only or offers-only handler is served again from
      the cache, without asking upstream, by the next request for the same product. */
  lemma FacetRepeats(entries: map<string, Stored>, upstream: Target -> Outcome, later: Target -> Outcome, id: string,
                     variant: string, path: string, placeholder: Json, missTtl: nat, failMessage: string)
    requires var r := Facet(entries, upstream, id, variant, path, placeholder, missTtl, failMessage);
      r.resp.status == 200 && Truthy(r.resp.body)
    ensures var r := Facet(entries, upstream, id, variant, path, placeholder, missTtl, failMessage);
      Facet(r.entries, later, id, variant, path, placeholder, missTtl, failMessage) == Effect(r.resp, r.entries, [])
  {
    var a := Fallback(upstream, Targets([path + NormalizeAsin(id)]));
    if a.outcome.Err? && !IsNotFound(a.outcome.error) {
      UpstreamErrorStatuses(a.outcome.error, failMessage);
    }
  }

  /* ------------------------------ quick info ------------------------------ */

  /** The quick title: a truthy `name` wins; with `name` null or absent a truthy
      `title` is used; with neither truthy the title is null. */
  lemma QuickTitleCases(details: Json)
    ensures var name := Field(details, "name");
      var title := Field(details, "title");
      && (name.Some? && Truthy(name.value) ==> QuickTitle(details) == name.value)
      && (Nullish(name) && title.Some? && Truthy(title.value) ==> QuickTitle(details) == title.value)
      && (!(name.Some? && Truthy(name.value)) && !(title.Some? && Truthy(title.value)) ==> QuickTitle(details) == JNull)
  {
  }

  /** The guard tests `name || title` but the pick is `name ?? title`: an empty
      `name` beside a real `title` yields the empty string, not the title. */
  lemma QuickTitleKeepsEmptyName()
    ensures QuickTitle(JObj(map["name" := JStr(""), "title" := JStr("Desk lamp")])) == JStr("")
  {
    var d := JObj(map["name" := JStr(""), "title" := JStr("Desk lamp")]);
    assert Field(d, "title") == Some(JStr("Desk lamp"));
  }

  /** The quick handler reads no cache key but its own `:quick` key: in particular
      not the `:basic` cards of a search nor the keys written by full details. */
  /** On a miss, a quick request whose details run succeeds asks for the details
      pages and then the reviews pages, and answers and stores for 43200 seconds the
      quick info built from the details and the reviews body, or from
      `{reviews_count: 0}` when the reviews run failed. */
  lemma QuickSuccessWrites(entries: map<string, Stored>, upstream: Target -> Outcome, id: string)
    requires IsAsin(id) && !Hit(entries, ProductKey(NormalizeAsin(id), "quick"))
    requires Fallback(upstream, Targets(["/dp/" + NormalizeAsin(id)])).outcome.Ok?
    ensures var asin := NormalizeAsin(id);
      var d := Fallback(upstream, Targets(["/dp/" + asin]));
      var rv := Fallback(upstream, Targets(["/product-reviews/" + asin]));
      var info := QuickInfo(asin, d.outcome.json, if rv.outcome.Ok? then rv.outcome.json else NoReviews);
      QuickProductInfo(entries, upstream, id) ==
        Effect(Response(200, info), entries[ProductKey(asin, "quick") := Stored(info, DayTtl)], d.tried + rv.tried)
  {
  }

  lemma QuickReadsOnlyItsKey(entries: map<string, Stored>, upstream: Target -> Outcome, id: string, k: string, s: Stored)
    requires IsAsin(id) && k != ProductKey(NormalizeAsin(id), "quick")
    ensures QuickProductInfo(entries[k := s], upstream, id).resp == QuickProductInfo(entries, upstream, id).resp
    ensures QuickProductInfo(entries[k := s], upstream, id).calls == QuickProductInfo(entries, upstream, id).calls
  {
    var key := ProductKey(NormalizeAsin(id), "quick");
    assert Hit(entries[k := s], key) <==> Hit(entries, key);
  }

  /** A 200 from the quick handler is served again from the cache, without asking
      upstream, by the next quick request for the same product. */
  lemma QuickRepeats(entries: map<string, Stored>, upstream: Target -> Outcome, later: Target -> Outcome, id: string)
    requires QuickProductInfo(entries, upstream, id).resp.status == 200
    ensures var first := QuickProductInfo(entries, upstream, id);
      QuickProductInfo(first.entries, later, id) == Effect(first.resp, first.entries, [])
  {
    var asin := NormalizeAsin(id);
    var d := Fallback(upstream, Targets(["/dp/" + asin]));
    if d.outcome.Err? && !IsNotFound(d.outcome.error) {
      UpstreamErrorStatuses(d.outcome.error, NotFoundFor(asin));
    }
  }
}
