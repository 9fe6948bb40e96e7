/** The Redis-backed cache as the services see it: entries addressed by a namespace (the cache
    name) and a key, each stored with the expiry its namespace's TTL gave it when it was put. An
    entry past its expiry is never served. */
module Cache {
  import opened Errors

  /** A cached value and the instant (in seconds) from which it is no longer served. */
  datatype Entry<V> = Entry(value: V, expiresAt: nat)

  type Store<V> = map<(string, string), Entry<V>>

  /** `Cache.get`: the value under (ns, key) if it is present and not yet expired at `now`. */
  function Lookup<V>(c: Store<V>, ns: string, key: string, now: nat): (r: Option<V>)
    ensures r.Some? <==> (ns, key) in c && now < c[(ns, key)].expiresAt
    ensures r.Some? ==> r.value == c[(ns, key)].value
  {
    if (ns, key) in c && now < c[(ns, key)].expiresAt then Some(c[(ns, key)].value) else None
  }

  /** `Cache.put` at `now` with the namespace's TTL: overwrites unconditionally. */
  function Put<V>(c: Store<V>, ns: string, key: string, v: V, now: nat, ttl: nat): (r: Store<V>)
    ensures r.Keys == c.Keys + {(ns, key)}
    ensures forall p :: p in c && p != (ns, key) ==> r[p] == c[p]
  {
    c[(ns, key) := Entry(v, now + ttl)]
  }

  /** `@CacheEvict(value = ns, key = ...)`: removes one entry, if there is one. */
  function Evict<V>(c: Store<V>, ns: string, key: string): (r: Store<V>)
    ensures r.Keys == c.Keys - {(ns, key)}
    ensures forall p :: p in r ==> r[p] == c[p]
  {
    c - {(ns, key)}
  }

  /** `@CacheEvict(value = ns, allEntries = true)`: removes every entry of one namespace. */
  function EvictAll<V>(c: Store<V>, ns: string): (r: Store<V>)
    ensures forall p :: p in r <==> p in c && p.0 != ns
    ensures forall p :: p in r ==> r[p] == c[p]
  {
    map p | p in c && p.0 != ns :: c[p]
  }

  /** A value put at `t` under a TTL is served at `u` exactly while `u` is before `t + ttl`. */
  lemma ServedUntilExpiry<V>(c: Store<V>, ns: string, key: string, v: V, t: nat, ttl: nat, u: nat)
    ensures Lookup(Put(c, ns, key, v, t, ttl), ns, key, u) == if u < t + ttl then Some(v) else None
  {
  }

  /** Evicting is idempotent, and evicting an absent key changes nothing. */
  lemma EvictIdempotent<V>(c: Store<V>, ns: string, key: string)
    ensures Evict(Evict(c, ns, key), ns, key) == Evict(c, ns, key)
    ensures (ns, key) !in c ==> Evict(c, ns, key) == c
  {
  }

  /** Clearing a namespace is idempotent, and clearing one with no entries changes nothing. */
  lemma EvictAllIdempotent<V>(c: Store<V>, ns: string)
    ensures EvictAll(EvictAll(c, ns), ns) == EvictAll(c, ns)
    ensures (forall p :: p in c ==> p.0 != ns) ==> EvictAll(c, ns) == c
  {
  }
}
