/** The file-backed cache: a JSON file holding a table from key to
    `{data, expiry}`. The file becomes a field that is either absent or holds
    the table, and `Date.now()` becomes the parameter `now` (milliseconds). */
module FileCache {
  import opened JsonValues

  /** `1000 * 60 * 2`: two minutes in milliseconds (the comment beside it says five). */
  const Lifetime: int := 120000

  datatype Item = Item(data: Json, expiry: int)

  /** The table as read from the file; no file reads as an empty table. */
  function TableOf(file: Option<map<string, Item>>): map<string, Item> {
    if file.Some? then file.value else map[]
  }

  /** What getCache answers at time `now`: the data while `now < expiry`, else null. */
  function Read(file: Option<map<string, Item>>, key: string, now: int): (r: Json)
    ensures file.None? || key !in file.value || now >= file.value[key].expiry ==> r == JNull
    ensures file.Some? && key in file.value && now < file.value[key].expiry ==> r == file.value[key].data
  {
    if file.Some? && key in file.value && now < file.value[key].expiry then file.value[key].data else JNull
  }

  /** The table after the expired entries (`now >= expiry`) are removed. */
  function Sweep(table: map<string, Item>, now: int): (r: map<string, Item>)
    ensures forall k :: k in r <==> k in table && now < table[k].expiry
    ensures forall k :: k in r ==> r[k] == table[k]
  {
    map k | k in table && now < table[k].expiry :: table[k]
  }

  class CacheFile {
    /** The file's table, or None when the file does not exist. */
    var file: Option<map<string, Item>>

    constructor ()
      ensures file == None
    {
      file := None;
    }

    /** setCache: the file is (created and) rewritten with `key` given a fresh two-minute entry. */
    method SetCache(key: string, data: Json, now: int)
      modifies this
      ensures file == Some(TableOf(old(file))[key := Item(data, now + Lifetime)])
    {
      var cache: map<string, Item> := map[];
      if file.Some? {
        cache := file.value;
      }
      cache := cache[key := Item(data, now + Lifetime)];
      file := Some(cache);
    }

    /** getCache: reads the file, changes nothing. */
    method GetCache(key: string, now: int) returns (r: Json)
      ensures r == Read(file, key, now)
      ensures r != JNull ==> file.Some? && key in file.value && now < file.value[key].expiry
    {
      if file.None? {
        return JNull;
      }
      var cache := file.value;
      if key in cache && now < cache[key].expiry {
        return cache[key].data;
      }
      return JNull;
    }

    /** clearExpiredCache: deletes each expired entry and rewrites the file only
        if something was deleted; `rewritten` tells whether it did. */
    method ClearExpiredCache(now: int) returns (rewritten: bool)
      modifies this
      ensures file == if old(file).None? then None else Some(Sweep(old(file).value, now))
      ensures rewritten <==> old(file).Some? && exists k :: k in old(file).value && now >= old(file).value[k].expiry
      ensures !rewritten ==> file == old(file)
    {
      rewritten := false;
      if file.None? {
        return;
      }
      var cache := file.value;
      ghost var original := cache;
      var keys := cache.Keys;
      var isCacheUpdated := false;
      while keys != {}
        invariant keys <= original.Keys
        invariant forall k :: k in cache <==> k in original && (k in keys || now < original[k].expiry)
        invariant forall k :: k in cache ==> cache[k] == original[k]
        invariant isCacheUpdated <==> exists k :: k in original && k !in keys && now >= original[k].expiry
        decreases keys
      {
        var key :| key in keys;
        if now >= cache[key].expiry {
          cache := cache - {key};
          isCacheUpdated := true;
        }
        keys := keys - {key};
      }
      assert cache == Sweep(original, now);
      if isCacheUpdated {
        file := Some(cache);
        rewritten := true;
      } else {
        assert cache == original;
      }
    }
  }

  /** After setCache(key, d) at time `now`, getCache(key) answers d at every
      time before `now + 120000` and null from then on. */
  lemma ReadAfterSet(file: Option<map<string, Item>>, key: string, data: Json, now: int, t: int)
    ensures Read(Some(TableOf(file)[key := Item(data, now + Lifetime)]), key, t) ==
      if t < now + Lifetime then data else JNull
  {
  }

  /** setCache(key, …) changes what getCache answers for no other key, at any time. */
  lemma SetLeavesOtherKeys(file: Option<map<string, Item>>, key: string, data: Json, now: int, other: string, t: int)
    requires other != key
    ensures Read(Some(TableOf(file)[key := Item(data, now + Lifetime)]), other, t) == Read(file, other, t)
  {
  }

  /** With no file, getCache answers null for every key. */
  lemma NoFileReadsNull(key: string, now: int)
    ensures Read(None, key, now) == JNull
  {
  }

  /** An entry is swept at `now` exactly when getCache would no longer serve it at
      `now`: `<` in the read and `>=` in the sweep meet at the same instant. */
  lemma SweepMatchesRead(table: map<string, Item>, key: string, now: int)
    requires key in table
    ensures key in Sweep(table, now) <==> now < table[key].expiry
    ensures Read(Some(table), key, now) == if key in Sweep(table, now) then table[key].data else JNull
  {
  }

  /** Sweeping at `now` changes no answer of getCache at `now` or at any later time. */
  lemma SweepKeepsReads(table: map<string, Item>, now: int, key: string, t: int)
    requires now <= t
    ensures Read(Some(Sweep(table, now)), key, t) == Read(Some(table), key, t)
  {
  }

  /** A second sweep at the same time, or at a later time, is the same as sweeping once at the later time. */
  lemma SweepTwice(table: map<string, Item>, first: int, second: int)
    requires first <= second
    ensures Sweep(Sweep(table, first), second) == Sweep(table, second)
  {
    var once := Sweep(table, first);
    assert forall k :: k in Sweep(once, second) <==> k in Sweep(table, second);
  }

  /** clearExpiredCache is idempotent at a fixed time: the second call rewrites nothing. */
  lemma SweepIdempotent(table: map<string, Item>, now: int)
    ensures Sweep(Sweep(table, now), now) == Sweep(table, now)
    ensures forall k :: k in Sweep(table, now) ==> now < Sweep(table, now)[k].expiry
  {
    SweepTwice(table, now, now);
  }
}
