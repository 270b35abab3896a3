/** Properties of clearCache: it deletes exactly the selected keys and reports
    how many; with no filter, or with `type=all`, it empties the cache; a type
    picks out one kind of product entry; an `asin` picks out that product's
    entries; and a second identical call deletes nothing. */
module ClearCacheProperties {
  import opened JsonValues
  import opened ValidateInput
  import opened ScraperHelpers
  import opened SharedCache
  import opened ScraperHandlers

  const NothingCleared := ClearedBody("No matching cache keys to clear", 0)

  /** The keys that survive are exactly the unselected ones, with their values; the
      response counts the keys that disappeared, and says nothing matched exactly
      when no stored key is selected. */
  lemma ClearCacheRemovesSelected(entries: map<string, Stored>, typ: Option<string>, asin: Option<string>)
    ensures var (resp, after) := ClearCache(entries, typ, asin);
      && (forall k :: k in after <==> k in entries && !Selected(k, typ, asin))
      && (forall k :: k in after ==> after[k] == entries[k])
      && resp.status == 200
      && (resp.body == NothingCleared <==> forall k :: k in entries ==> !Selected(k, typ, asin))
      && (resp.body != NothingCleared ==> resp.body == ClearedBody("Cache cleared", |entries.Keys - after.Keys|))
  {
    var doomed := Doomed(entries, typ, asin);
    var after := ClearCache(entries, typ, asin).1;
    assert forall k :: k in doomed <==> k in entries && Selected(k, typ, asin);
    if doomed != {} {
      var d :| d in doomed;
      assert d in entries && Selected(d, typ, asin);
      assert entries.Keys - after.Keys == doomed;
      assert ClearedBody("Cache cleared", |doomed|).fields["message"] != NothingCleared.fields["message"];
    }
  }

  /** With neither `type` nor `asin`, or with `type=all` and no `asin`, every key is deleted. */
  lemma ClearEverything(entries: map<string, Stored>, typ: Option<string>, asin: Option<string>)
    requires !Given(asin) && (!Given(typ) || typ == Some("all"))
    ensures ClearCache(entries, typ, asin).1 == map[]
  {
    var after := ClearCache(entries, typ, asin).1;
    assert forall k :: k in entries ==> Selected(k, typ, asin);
    assert after.Keys == {};
  }

  /** The `:<variant>` suffixes of the product entries the controller writes. */
  predicate IsVariant(v: string) {
    v in {"full", "details", "reviews", "offers", "quick", "basic"}
  }

  /** A suffix fixes the last two characters. */
  lemma EndsWithLastTwo(k: string, suffix: string)
    requires EndsWith(k, suffix) && |suffix| >= 2
    ensures k[|k| - 1] == suffix[|suffix| - 1] && k[|k| - 2] == suffix[|suffix| - 2]
  {
    assert k[|k| - |suffix|..][|suffix| - 1] == k[|k| - 1];
    assert k[|k| - |suffix|..][|suffix| - 2] == k[|k| - 2];
  }

  /** A product key ends in `:<variant>`. */
  lemma ProductKeyEndsWith(asin: string, v: string)
    ensures EndsWith(ProductKey(asin, v), ":" + v)
  {
    var k := ProductKey(asin, v);
    assert k == ("product:" + asin) + (":" + v);
  }

  /** `type=<v>` selects the entry of variant w of any product exactly when v is w:
      in particular `type=reviews` spares `:offers`, `:details` and `:full`. */
  lemma TypeSelectsVariant(asin: string, v: string, w: string)
    requires IsVariant(v) && IsVariant(w)
    ensures ByType(ProductKey(asin, w), Some(v)) <==> v == w
  {
    var k := ProductKey(asin, w);
    ProductKeyEndsWith(asin, w);
    if ByType(k, Some(v)) {
      EndsWithLastTwo(k, ":" + v);
      EndsWithLastTwo(k, ":" + w);
    }
  }

  /** With `asin` given and no type, every entry of that product is selected,
      whatever the case of the given ASIN. */
  lemma AsinSelectsItsProduct(asin: string, v: string)
    requires asin != ""
    ensures Selected(ProductKey(NormalizeAsin(asin), v), None, Some(asin))
  {
    var k := ProductKey(NormalizeAsin(asin), v);
    var sub := "product:" + NormalizeAsin(asin);
    assert k[0..|sub|] == sub;
    assert OccursAt(k, sub, 0);
  }

  /** An `asin` filter spares the entries of every other product. */
  lemma AsinSparesOtherProducts(asin: string, b: string, w: string)
    requires IsAsin(asin) && ValidProductId(Some(b)) && b != NormalizeAsin(asin) && IsVariant(w)
    ensures !Selected(ProductKey(b, w), None, Some(asin))
  {
    var a := NormalizeAsin(asin);
    var k := ProductKey(b, w);
    var sub := "product:" + a;
    assert |w| <= 7;
    forall i | 0 <= i <= |k| - |sub|
      ensures !OccursAt(k, sub, i)
    {
      if i == 0 {
        assert k[0..|sub|][8..18] == b;
        assert sub[8..18] == a;
      } else if i + |sub| <= |k| {
        assert k[i..i + |sub|][7] == b[i - 1];
        assert IsUpperOrDigit(b[i - 1]);
        assert sub[7] == ':';
      }
    }
  }

  /** A second clearCache with the same filter deletes nothing and says so. */
  lemma ClearCacheIdempotent(entries: map<string, Stored>, typ: Option<string>, asin: Option<string>)
    ensures var after := ClearCache(entries, typ, asin).1;
      ClearCache(after, typ, asin) == (Response(200, NothingCleared), after)
  {
    var after := ClearCache(entries, typ, asin).1;
    assert Doomed(after, typ, asin) == {};
  }
}
