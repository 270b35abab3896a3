/** The process-wide cache the controller reads and writes: a mutable table
    from key to the stored value and the time-to-live (seconds) it was set with.
    Expiry by the cache library's own clock is not part of this model. */
module SharedCache {
  import opened JsonValues

  datatype Stored = Stored(value: Json, ttl: nat)

  /** What `if (cached)` accepts: the key is present and its value is truthy. */
  predicate Hit(entries: map<string, Stored>, key: string) {
    key in entries && Truthy(entries[key].value)
  }

  class Store {
    var entries: map<string, Stored>

    constructor ()
      ensures entries == map[]
    {
      entries := map[];
    }

    /** cache.get: the stored value, or None for `undefined`. */
    method Get(key: string) returns (r: Option<Json>)
      ensures r.Some? <==> key in entries
      ensures r.Some? ==> r.value == entries[key].value
    {
      if key in entries {
        r := Some(entries[key].value);
      } else {
        r := None;
      }
    }

    /** cache.set: overwrites the one key. */
    method Set(key: string, value: Json, ttl: nat)
      modifies this
      ensures entries == old(entries)[key := Stored(value, ttl)]
    {
      entries := entries[key := Stored(value, ttl)];
    }

    /** cache.keys: every stored key once, in some order. */
    method Keys() returns (ks: seq<string>)
      ensures forall k :: k in ks <==> k in entries
      ensures forall i, j :: 0 <= i < j < |ks| ==> ks[i] != ks[j]
    {
      ks := [];
      var rest := entries.Keys;
      while rest != {}
        invariant rest <= entries.Keys
        invariant forall k :: k in ks <==> k in entries && k !in rest
        invariant forall i, j :: 0 <= i < j < |ks| ==> ks[i] != ks[j]
        decreases rest
      {
        var k :| k in rest;
        ks := ks + [k];
        rest := rest - {k};
      }
    }

    /** cache.del: removes the listed keys and answers how many were present. */
    method Del(keys: seq<string>) returns (n: nat)
      modifies this
      ensures entries == old(entries) - set k | k in keys
      ensures n == |set k | k in keys && k in old(entries)|
    {
      var present := set k | k in keys && k in entries;
      n := |present|;
      entries := entries - present;
      assert entries == old(entries) - set k | k in keys;
    }
  }
}
