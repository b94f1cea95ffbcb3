/**
 * The in-memory tier, an `lru::LruCache<String, Vec<u8>>`, seen only through
 * `get`, `put` and `len`: a bounded map. Recency order is not kept, so when a
 * put must evict, the entry it evicts is an input (`victim`) standing for the
 * crate's choice.
 */
module Lru {
  import opened Wrappers
  import opened Primitives

  datatype LruCache = LruCache(cap: nat, entries: map<string, Bytes>) {

    /** The capacity is a `NonZeroUsize` and is never exceeded. */
    ghost predicate Valid()
    {
      0 < cap && |entries| <= cap
    }

    function Get(k: string): (r: Option<Bytes>)
      ensures r.Some? <==> k in entries
      ensures r.Some? ==> r.value == entries[k]
    {
      if k in entries then Some(entries[k]) else None
    }

    function Len(): nat
    {
      |entries|
    }

    /** A put must evict exactly when the key is new and the cache is full. */
    predicate MustEvict(k: string)
    {
      k !in entries && |entries| >= cap
    }

    /**
     * `LruCache::put`: the key maps to `v` afterwards; a present key is replaced in
     * place; a new key is added, evicting `victim` first when the cache is full.
     */
    function Put(k: string, v: Bytes, victim: string): (r: LruCache)
      requires Valid()
      requires MustEvict(k) ==> victim in entries
      ensures r.Valid() && r.cap == cap
      ensures IsPutOf(this, r, k, v)
    {
      if MustEvict(k) then LruCache(cap, (entries - {victim})[k := v])
      else LruCache(cap, entries[k := v])
    }
  }

  /** An empty cache of capacity `cap`. */
  function New(cap: nat): (m: LruCache)
    requires 0 < cap
    ensures m.Valid() && m.cap == cap && m.Len() == 0
  {
    LruCache(cap, map[])
  }

  /**
   * `after` is what a put of `k |-> v` may leave behind `before`: same capacity,
   * `k` now holds `v`, every other entry kept unchanged or (only when the put had
   * to evict) dropped, and nothing else changed when no eviction was needed.
   */
  ghost predicate IsPutOf(before: LruCache, after: LruCache, k: string, v: Bytes)
  {
    && after.cap == before.cap
    && after.Get(k) == Some(v)
    && (forall x :: x in after.entries && x != k ==> x in before.entries && after.entries[x] == before.entries[x])
    && (!before.MustEvict(k) ==> after.entries == before.entries[k := v])
    && (before.MustEvict(k) ==> |after.entries| == |before.entries|)
  }

  /** Putting a key that is already present keeps the number of entries. */
  lemma PutPresentKeepsLen(m: LruCache, k: string, v: Bytes, victim: string)
    requires m.Valid() && k in m.entries
    ensures m.Put(k, v, victim).Len() == m.Len()
    ensures m.Put(k, v, victim).Get(k) == Some(v)
  {
    assert m.Put(k, v, victim).entries.Keys == m.entries.Keys;
  }
}
