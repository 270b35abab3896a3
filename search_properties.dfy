/** Properties of the search handler: what it answers to a rejected query and to
    an upstream failure, which cards the loop over the results leaves in the
    cache, and that a successful search is served from the cache the next time. */
module SearchProperties {
  import opened JsonValues
  import opened ValidateInput
  import opened ScraperHelpers
  import opened SharedCache
  import opened ScraperHandlers

  /** Trimming a trimmed query changes nothing, so `search:<q>` keys are stable. */
  lemma TrimIdempotent(s: string)
    ensures Trim(Trim(s)) == Trim(s)
  {
    var r := Trim(s);
    if r != [] {
      assert TrimStart(r) == r;
      assert TrimEnd(r) == r;
    }
  }

  /** A query Joi rejects answers 400 with Joi's message and touches neither the
      cache nor upstream. */
  lemma SearchRejectsInvalid(entries: map<string, Stored>, upstream: Target -> Outcome, q: Option<string>)
    requires q.None? || |q.value| == 0 || |q.value| > 200
    ensures var r := Search(entries, upstream, q);
      && r.resp.status == 400 && r.entries == entries && r.calls == []
      && (q.None? ==> r.resp.body == Message("\"value\" is required"))
      && (q == Some("") ==> r.resp.body == Message("\"value\" is not allowed to be empty"))
      && (q.Some? && |q.value| > 200 ==> r.resp.body == Message("\"value\" length must be less than or equal to 200 characters long"))
  {
  }

  /** Search goes through fetchData, which drops the status of an HTTP failure:
      every upstream failure of a search answers 500, or 504 for a timeout, and
      caches nothing. In particular a 404, 403 or 429 from the vendor is a 500. */
  lemma SearchFailureStatus(entries: map<string, Stored>, upstream: Target -> Outcome, q: string)
    requires 1 <= |q| <= 200 && !Hit(entries, SearchKey(Trim(q)))
    requires upstream(SearchTarget(Trim(q))).Err?
    ensures var e := upstream(SearchTarget(Trim(q))).error;
      var r := Search(entries, upstream, Some(q));
      && r.entries == entries && r.calls == [SearchTarget(Trim(q))]
      && r.resp.status in {500, 504}
      && (r.resp.status == 504 <==> e.name == "AbortError" && e.status.None?)
  {
  }

  /** A body whose `results` is missing or empty answers 404 and caches nothing. */
  lemma SearchNoResults(entries: map<string, Stored>, upstream: Target -> Outcome, q: string)
    requires 1 <= |q| <= 200 && !Hit(entries, SearchKey(Trim(q)))
    requires upstream(SearchTarget(Trim(q))).Ok? && !HasResults(upstream(SearchTarget(Trim(q))).json)
    ensures Search(entries, upstream, Some(q)) ==
      Effect(Response(404, Message("No products found")), entries, [SearchTarget(Trim(q))])
  {
  }

  /** A search key is never the key of a product entry. */
  lemma SearchKeyIsNotProductKey(q: string, asin: string, variant: string)
    ensures SearchKey(q) != ProductKey(asin, variant)
  {
    assert SearchKey(q)[0] == 's';
    assert ProductKey(asin, variant)[0] == 'p';
  }

  /** A key that no result's card uses keeps its entry, or its absence. */
  lemma {:induction false} WriteBasicsElsewhere(entries: map<string, Stored>, products: seq<Json>, k: string)
    requires forall i :: 0 <= i < |products| ==> BasicCard(products[i]).None? || BasicCard(products[i]).value.0 != k
    ensures k in WriteBasics(entries, products) <==> k in entries
    ensures k in entries ==> WriteBasics(entries, products)[k] == entries[k]
    decreases |products|
  {
    if products != [] {
      var init := products[..|products| - 1];
      forall i | 0 <= i < |init|
        ensures BasicCard(init[i]).None? || BasicCard(init[i]).value.0 != k
      {
        assert init[i] == products[i];
      }
      WriteBasicsElsewhere(entries, init, k);
    }
  }

  /** The card stored under a key is the one built from the last result with that key. */
  lemma {:induction false} WriteBasicsLast(entries: map<string, Stored>, products: seq<Json>, i: nat)
    requires i < |products| && BasicCard(products[i]).Some?
    requires forall j :: i < j < |products| ==>
      BasicCard(products[j]).None? || BasicCard(products[j]).value.0 != BasicCard(products[i]).value.0
    ensures BasicCard(products[i]).value.0 in WriteBasics(entries, products)
    ensures WriteBasics(entries, products)[BasicCard(products[i]).value.0] == Stored(BasicCard(products[i]).value.1, DayTtl)
    decreases |products|
  {
    if i < |products| - 1 {
      var init := products[..|products| - 1];
      assert init[i] == products[i];
      forall j | i < j < |init|
        ensures BasicCard(init[j]).None? || BasicCard(init[j]).value.0 != BasicCard(init[i]).value.0
      {
        assert init[j] == products[j];
      }
      WriteBasicsLast(entries, init, i);
    }
  }

  /** Two sample results, next to the general contract of BasicCard: the card of
      `{asin, name, stars}` is `{asin, title, rating}` under `product:<asin>:basic`
      (the undefined `price` and `image` are left out), and a result without an
      `asin`, or with an empty one, gets no card. */
  lemma BasicCardExample()
    ensures BasicCard(JObj(map["asin" := JStr("B000000000"), "name" := JStr("Pen"), "stars" := JNum(4.5)])) ==
      Some(("product:B000000000:basic", JObj(map["asin" := JStr("B000000000"), "title" := JStr("Pen"), "rating" := JNum(4.5)])))
    ensures BasicCard(JObj(map["name" := JStr("Pen")])) == None
    ensures BasicCard(JObj(map["asin" := JStr("")])) == None
  {
    var p := JObj(map["asin" := JStr("B000000000"), "name" := JStr("Pen"), "stars" := JNum(4.5)]);
    assert Field(p, "asin") == Some(JStr("B000000000"));
    assert Field(p, "name") == Some(JStr("Pen"));
    assert Field(p, "stars") == Some(JNum(4.5));
    assert Field(p, "price") == None;
    assert Field(p, "image") == None;
    assert ProductKey("B000000000", "basic") == "product:B000000000:basic";
    assert map["asin" := JStr("B000000000")]["title" := JStr("Pen")]["rating" := JNum(4.5)] ==
      map["asin" := JStr("B000000000"), "title" := JStr("Pen"), "rating" := JNum(4.5)];
  }

  /** A successful search with a list of results answers the list and leaves the
      cache as the loop over the results leaves it, after the whole body was stored. */
  lemma SearchListEffect(entries: map<string, Stored>, upstream: Target -> Outcome, q: string,
                         body: Json, items: seq<Json>)
    requires 1 <= |q| <= 200 && !Hit(entries, SearchKey(Trim(q)))
    requires upstream(SearchTarget(Trim(q))) == Ok(body)
    requires Field(body, "results") == Some(JArr(items)) && items != []
    ensures Search(entries, upstream, Some(q)) ==
      Effect(Response(200, JObj(map["searchQuery" := JStr(Trim(q)), "results" := JArr(items)])),
             WriteBasics(entries[SearchKey(Trim(q)) := Stored(body, DayTtl)], items),
             [SearchTarget(Trim(q))])
  {
  }

  /** A successful search with a list of results answers the list, stores the whole
      body under `search:<q>` for 43200 seconds, and stores each result's card as
      built from the last result carrying that ASIN. */
  lemma SearchStoresResults(entries: map<string, Stored>, upstream: Target -> Outcome, q: string,
                            body: Json, items: seq<Json>, i: nat)
    requires 1 <= |q| <= 200 && !Hit(entries, SearchKey(Trim(q)))
    requires upstream(SearchTarget(Trim(q))) == Ok(body)
    requires Field(body, "results") == Some(JArr(items)) && items != []
    ensures var r := Search(entries, upstream, Some(q));
      && r.resp == Response(200, JObj(map["searchQuery" := JStr(Trim(q)), "results" := JArr(items)]))
      && r.calls == [SearchTarget(Trim(q))]
      && SearchKey(Trim(q)) in r.entries && r.entries[SearchKey(Trim(q))] == Stored(body, DayTtl)
    ensures var r := Search(entries, upstream, Some(q));
      i < |items| && BasicCard(items[i]).Some? &&
      (forall j :: i < j < |items| ==> BasicCard(items[j]).None? || BasicCard(items[j]).value.0 != BasicCard(items[i]).value.0)
      ==> BasicCard(items[i]).value.0 in r.entries && r.entries[BasicCard(items[i]).value.0] == Stored(BasicCard(items[i]).value.1, DayTtl)
  {
    SearchListEffect(entries, upstream, q, body, items);
    var key := SearchKey(Trim(q));
    var stored := entries[key := Stored(body, DayTtl)];
    forall j | 0 <= j < |items|
      ensures BasicCard(items[j]).None? || BasicCard(items[j]).value.0 != key
    {
      if BasicCard(items[j]).Some? {
        SearchKeyIsNotProductKey(Trim(q), Field(items[j], "asin").value.s, "basic");
      }
    }
    WriteBasicsElsewhere(stored, items, key);
    if i < |items| && BasicCard(items[i]).Some? &&
      (forall j :: i < j < |items| ==> BasicCard(items[j]).None? || BasicCard(items[j]).value.0 != BasicCard(items[i]).value.0) {
      WriteBasicsLast(stored, items, i);
    }
  }

  /** The card of a result that has an ASIN and a name. */
  lemma NamedCard(asin: string, name: string)
    requires asin != ""
    ensures BasicCard(JObj(map["asin" := JStr(asin), "name" := JStr(name)])) ==
      Some((ProductKey(asin, "basic"), JObj(map["asin" := JStr(asin), "title" := JStr(name)])))
  {
    var p := JObj(map["asin" := JStr(asin), "name" := JStr(name)]);
    assert Field(p, "asin") == Some(JStr(asin));
    assert Field(p, "name") == Some(JStr(name));
    assert Field(p, "price") == None && Field(p, "stars") == None && Field(p, "image") == None;
  }

  /** A search that misses the cache and gets a list of results leaves a
      `product:<ASIN>:basic` card for every result whose `asin` is a non-empty
      string: the card built from the last result with that ASIN, for 43200 seconds. */
  lemma SearchCachesCard(entries: map<string, Stored>, upstream: Target -> Outcome, q: string,
                         body: Json, items: seq<Json>, i: nat)
    requires 1 <= |q| <= 200 && !Hit(entries, SearchKey(Trim(q)))
    requires upstream(SearchTarget(Trim(q))) == Ok(body)
    requires Field(body, "results") == Some(JArr(items))
    requires i < |items| && BasicCard(items[i]).Some?
    ensures var r := Search(entries, upstream, Some(q));
      var key := BasicCard(items[i]).value.0;
      && key in r.entries
      && exists j :: i <= j < |items| && BasicCard(items[j]).Some? && BasicCard(items[j]).value.0 == key &&
           r.entries[key] == Stored(BasicCard(items[j]).value.1, DayTtl)
  {
    var key := BasicCard(items[i]).value.0;
    var j := |items| - 1;
    while !(BasicCard(items[j]).Some? && BasicCard(items[j]).value.0 == key)
      invariant i <= j < |items|
      invariant forall m :: j < m < |items| ==> BasicCard(items[m]).None? || BasicCard(items[m]).value.0 != key
      decreases j
    {
      j := j - 1;
    }
    SearchStoresResults(entries, upstream, q, body, items, j);
  }

  /** A search that misses the cache and answers 200 leaves the fetched body under
      `search:<q>`, and its response is built from that body's `results`. */
  lemma SearchFreshStores(entries: map<string, Stored>, upstream: Target -> Outcome, q: Option<string>)
    requires ValidateSearchQuery(q).None? && !Hit(entries, SearchKey(Trim(q.value)))
    requires Search(entries, upstream, q).resp.status == 200
    ensures var t := Trim(q.value);
      var o := ViaFetchData(upstream(SearchTarget(t)));
      var r := Search(entries, upstream, q);
      && o.Ok? && o.json.JObj?
      && SearchKey(t) in r.entries && r.entries[SearchKey(t)] == Stored(o.json, DayTtl)
      && r.resp == Response(200, SearchBody(t, Field(o.json, "results")))
  {
    var t := Trim(q.value);
    var key := SearchKey(t);
    var o := ViaFetchData(upstream(SearchTarget(t)));
    var stored := entries[key := Stored(o.json, DayTtl)];
    match Field(o.json, "results").value
    case JArr(items) =>
      forall j | 0 <= j < |items|
        ensures BasicCard(items[j]).None? || BasicCard(items[j]).value.0 != key
      {
        if BasicCard(items[j]).Some? {
          SearchKeyIsNotProductKey(t, Field(items[j], "asin").value.s, "basic");
        }
      }
      WriteBasicsElsewhere(stored, items, key);
    case JStr(_) =>
    case _ =>
  }

  /** A search answered 200 is answered again, identically and without asking
      upstream, by the next search for the same query. */
  lemma SearchRepeats(entries: map<string, Stored>, upstream: Target -> Outcome, later: Target -> Outcome, q: Option<string>)
    requires Search(entries, upstream, q).resp.status == 200
    ensures var first := Search(entries, upstream, q);
      Search(first.entries, later, q) == Effect(first.resp, first.entries, [])
  {
    if !Hit(entries, SearchKey(Trim(q.value))) {
      SearchFreshStores(entries, upstream, q);
    }
  }
}
