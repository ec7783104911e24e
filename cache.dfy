/**
 * The search/fetch/render cache: one key -> (value, expiry) store shared by
 * three namespaces.  The clock is a parameter: an entry written at time `t`
 * with lifetime `ttl` is live while `now < t + ttl`, as in the disk cache
 * the agent uses.
 */
module Caching {
  import opened Strings
  import opened Values
  import opened Config

  const SEARCH: string := "search"
  const FETCH: string := "fetch"
  const RENDER: string := "render"

  predicate IsNamespace(prefix: string)
  {
    prefix == SEARCH || prefix == FETCH || prefix == RENDER
  }

  /** The identifier as keyed: surrounding whitespace removed, lower-cased. */
  function Normalize(identifier: string): string
  {
    Lower(Strip(identifier))
  }

  /** The part of the key after the prefix: long identifiers are replaced by their digest. */
  function KeySuffix(digest: string -> string, identifier: string): (r: string)
    ensures (forall s :: |digest(s)| == 32) ==> |r| <= 100
    ensures |Normalize(identifier)| <= 100 ==> r == Normalize(identifier)
  {
    var n := Normalize(identifier);
    if |n| > 100 then digest(n) else n
  }

  function MakeKey(digest: string -> string, prefix: string, identifier: string): string
  {
    prefix + ":" + KeySuffix(digest, identifier)
  }

  datatype Entry<V> = Entry(value: V, expiresAt: int)

  /** What a get on `key` returns at time `now`. */
  function LookupIn<V>(store: map<string, Entry<V>>, key: string, now: int): (r: Option<V>)
    ensures r.Some? <==> key in store && now < store[key].expiresAt
    ensures r.Some? ==> r.value == store[key].value
  {
    if key in store && now < store[key].expiresAt then Some(store[key].value) else None
  }

  class Cache<V> {
    const digest: string -> string
    var store: map<string, Entry<V>>

    constructor(digest: string -> string)
      ensures this.digest == digest && store == map[]
    {
      this.digest := digest;
      store := map[];
    }

    function Get(prefix: string, identifier: string, now: int): Option<V>
      reads this
    {
      LookupIn(store, MakeKey(digest, prefix, identifier), now)
    }

    method GetSearch(query: string, now: int) returns (r: Option<V>)
      ensures r == Get(SEARCH, query, now)
    {
      var key := MakeKey(digest, SEARCH, query);
      r := LookupIn(store, key, now);
    }

    method SetSearch(query: string, results: V, now: int)
      modifies this
      ensures store == old(store)[MakeKey(digest, SEARCH, query) := Entry(results, now + SEARCH_CACHE_TTL)]
    {
      store := store[MakeKey(digest, SEARCH, query) := Entry(results, now + SEARCH_CACHE_TTL)];
    }

    method GetFetch(url: string, now: int) returns (r: Option<V>)
      ensures r == Get(FETCH, url, now)
    {
      var key := MakeKey(digest, FETCH, url);
      r := LookupIn(store, key, now);
    }

    method SetFetch(url: string, data: V, now: int)
      modifies this
      ensures store == old(store)[MakeKey(digest, FETCH, url) := Entry(data, now + FETCH_CACHE_TTL)]
    {
      store := store[MakeKey(digest, FETCH, url) := Entry(data, now + FETCH_CACHE_TTL)];
    }

    method GetRender(url: string, now: int) returns (r: Option<V>)
      ensures r == Get(RENDER, url, now)
    {
      var key := MakeKey(digest, RENDER, url);
      r := LookupIn(store, key, now);
    }

    method SetRender(url: string, data: V, now: int)
      modifies this
      ensures store == old(store)[MakeKey(digest, RENDER, url) := Entry(data, now + FETCH_CACHE_TTL)]
    {
      store := store[MakeKey(digest, RENDER, url) := Entry(data, now + FETCH_CACHE_TTL)];
    }

    method Clear()
      modifies this
      ensures store == map[]
      ensures forall prefix, identifier, now :: Get(prefix, identifier, now) == None
    {
      store := map[];
    }
  }

  // ---------------------------------------------------------------------------
  // Lemmas

  /** Case and surrounding-whitespace variants of an identifier share one entry. */
  lemma KeyIgnoresCaseAndSpace(digest: string -> string, prefix: string, identifier: string)
    ensures MakeKey(digest, prefix, Lower(identifier)) == MakeKey(digest, prefix, identifier)
    ensures MakeKey(digest, prefix, Strip(identifier)) == MakeKey(digest, prefix, identifier)
  {
    StripLower(identifier);
    LowerIdempotent(Strip(identifier));
    StripIdempotent(identifier);
  }

  lemma ColonPosition(p: string, x: string)
    requires ':' !in p
    ensures IndexFrom(p + ":" + x, ':', 0) == |p|
  {
    var s := p + ":" + x;
    assert s[|p|] == ':';
    assert forall j :: 0 <= j < |p| ==> s[j] == p[j];
  }

  lemma PrefixBeforeColon(p1: string, p2: string, x: string, y: string)
    requires ':' !in p1 && ':' !in p2
    requires p1 + ":" + x == p2 + ":" + y
    ensures p1 == p2
  {
    ColonPosition(p1, x);
    ColonPosition(p2, y);
    var s := p1 + ":" + x;
    assert p1 == s[..|p1|] == p2;
  }

  /** Keys of different namespaces never collide. */
  lemma NamespacesDisjoint(digest: string -> string, p1: string, p2: string, a: string, b: string)
    requires IsNamespace(p1) && IsNamespace(p2) && p1 != p2
    ensures MakeKey(digest, p1, a) != MakeKey(digest, p2, b)
  {
    if MakeKey(digest, p1, a) == MakeKey(digest, p2, b) {
      PrefixBeforeColon(p1, p2, KeySuffix(digest, a), KeySuffix(digest, b));
    }
  }

  /** A set in one namespace leaves every get in another namespace as it was. */
  lemma SetLeavesOtherNamespaces<V>(store: map<string, Entry<V>>, digest: string -> string,
                                   p1: string, a: string, e: Entry<V>, p2: string, b: string, now: int)
    requires IsNamespace(p1) && IsNamespace(p2) && p1 != p2
    ensures LookupIn(store[MakeKey(digest, p1, a) := e], MakeKey(digest, p2, b), now)
         == LookupIn(store, MakeKey(digest, p2, b), now)
  {
    NamespacesDisjoint(digest, p1, p2, a, b);
  }

  /**
   * A get after a set with the same prefix and an identifier that differs at
   * most in case and surrounding whitespace returns the stored value until
   * the lifetime has passed, and misses afterwards.
   */
  lemma GetAfterSet<V>(store: map<string, Entry<V>>, digest: string -> string, prefix: string,
                       identifier: string, variant: string, value: V, setAt: int, ttl: int, now: int)
    requires Normalize(variant) == Normalize(identifier)
    ensures var s := store[MakeKey(digest, prefix, identifier) := Entry(value, setAt + ttl)];
      LookupIn(s, MakeKey(digest, prefix, variant), now) == if now < setAt + ttl then Some(value) else None
  {
  }
}
