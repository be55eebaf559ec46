/** The surface of the bounded, time-limited key/value store the handler uses
    (api/ai.js, lines 9-12): `has`, `get` and `set` over string keys, holding
    at most `max` entries, each live for `ttl` milliseconds after it was set.
    Which entry the store evicts when full is its own policy (least recently
    used); here it is any one entry. */
module LruCache {
  import opened Js

  datatype Entry<V> = Entry(value: V, storedAt: int)

  /** An entry is served while its age does not exceed `ttl`. */
  predicate Live<V>(e: Entry<V>, now: int, ttl: nat) {
    now - e.storedAt <= ttl
  }

  /** What the store reports for `key` at time `now`: its value while the entry
      is live, nothing when the key is missing or the entry has expired. */
  function Lookup<V>(entries: map<string, Entry<V>>, key: string, now: int, ttl: nat): (r: Option<V>)
    ensures r.Some? <==> key in entries && Live(entries[key], now, ttl)
    ensures r.Some? ==> r.value == entries[key].value
  {
    if key in entries && Live(entries[key], now, ttl) then Some(entries[key].value) else None
  }

  /** `after` is `before` once `value` has been set under `key` at time `now` in
      a store of capacity `max`: the key maps to the new value, every other
      surviving entry is untouched, and at most one other entry was evicted,
      which happens only when a new key arrives at a full store. */
  ghost predicate Stored<V>(before: map<string, Entry<V>>, after: map<string, Entry<V>>,
                            key: string, value: V, now: int, max: nat)
  {
    && key in after && after[key] == Entry(value, now)
    && (forall k :: k in after && k != key ==> k in before && after[k] == before[k])
    && (key in before || |before| < max ==> after.Keys == before.Keys + {key})
    && |before.Keys - after.Keys| <= 1
    && |after| <= max
  }

  class Cache<V> {
    var entries: map<string, Entry<V>>
    const max: nat
    const ttl: nat

    ghost predicate Valid()
      reads this
    {
      0 < max && |entries| <= max
    }

    constructor (max: nat, ttl: nat)
      requires 0 < max
      ensures Valid() && entries == map[]
      ensures this.max == max && this.ttl == ttl
    {
      this.max := max;
      this.ttl := ttl;
      entries := map[];
    }

    /** `cache.has(key)` */
    method Has(key: string, now: int) returns (b: bool)
      ensures b <==> key in entries && Live(entries[key], now, ttl)
    {
      b := key in entries && Live(entries[key], now, ttl);
    }

    /** `cache.get(key)` */
    method Get(key: string, now: int) returns (r: Option<V>)
      ensures r == Lookup(entries, key, now, ttl)
    {
      if key in entries && Live(entries[key], now, ttl) {
        r := Some(entries[key].value);
      } else {
        r := None;
      }
    }

    /** `cache.set(key, value)` */
    method Set(key: string, value: V, now: int)
      requires Valid()
      modifies this
      ensures Valid()
      ensures Stored(old(entries), entries, key, value, now, max)
    {
      if key !in entries && |entries| == max {
        var victim :| victim in entries;
        var kept := entries - {victim};
        entries := kept[key := Entry(value, now)];
        assert old(entries).Keys - entries.Keys == {victim};
      } else {
        entries := entries[key := Entry(value, now)];
      }
    }
  }

  /** A value set at `now` is what the store reports for that key until its
      time-to-live has elapsed, and nothing afterwards. */
  lemma SetThenLookup<V>(before: map<string, Entry<V>>, after: map<string, Entry<V>>,
                         key: string, value: V, now: int, max: nat, ttl: nat, later: int)
    requires Stored(before, after, key, value, now, max)
    ensures later - now <= ttl ==> Lookup(after, key, later, ttl) == Some(value)
    ensures later - now > ttl ==> Lookup(after, key, later, ttl) == None
  {
  }

  /** Setting one key leaves every other key's answer unchanged, unless that
      entry was the one evicted. */
  lemma SetKeepsOtherLookups<V>(before: map<string, Entry<V>>, after: map<string, Entry<V>>,
                                key: string, value: V, now: int, max: nat, ttl: nat, other: string, later: int)
    requires Stored(before, after, key, value, now, max)
    requires other != key && other in after
    ensures Lookup(after, other, later, ttl) == Lookup(before, other, later, ttl)
  {
  }
}
