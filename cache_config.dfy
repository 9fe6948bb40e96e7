/** The two RedisCacheConfig TTL tables: a few named caches with their own entry TTL, and a
    default TTL for every other cache name. Each table is filled once and never changed, so it is a
    constant function from cache name to minutes. */
module CacheConfig {
  import Cache

  const TicketCache: string := "ticket"
  const TicketStatusCache: string := "ticket_status"
  const TicketUsuarioIdCache: string := "ticket_usuarioid"
  const UserCache: string := "usuario"
  const UserEmailCache: string := "usuario_email"

  /** Entry TTL, in minutes, of the tickets cache manager. */
  function TicketTtlMinutes(cacheName: string): nat {
    if cacheName == TicketCache then 30
    else if cacheName == TicketStatusCache || cacheName == TicketUsuarioIdCache then 5
    else 10
  }

  /** Entry TTL, in minutes, of the users cache manager. */
  function UserTtlMinutes(cacheName: string): nat {
    if cacheName == UserCache then 30
    else if cacheName == UserEmailCache then 5
    else 10
  }

  /** Minutes as the seconds the cache clock counts in. */
  function Seconds(minutes: nat): nat {
    60 * minutes
  }

  /** The tickets table: primary-id entries 30 minutes, both filter caches 5, anything else 10. */
  lemma TicketTtlTable(other: string)
    requires other !in {TicketCache, TicketStatusCache, TicketUsuarioIdCache}
    ensures TicketTtlMinutes(TicketCache) == 30
    ensures TicketTtlMinutes(TicketStatusCache) == 5 && TicketTtlMinutes(TicketUsuarioIdCache) == 5
    ensures TicketTtlMinutes(other) == 10
  {
  }

  /** The users table: primary-id entries 30 minutes, e-mail lookups 5, anything else 10. */
  lemma UserTtlTable(other: string)
    requires other !in {UserCache, UserEmailCache}
    ensures UserTtlMinutes(UserCache) == 30 && UserTtlMinutes(UserEmailCache) == 5
    ensures UserTtlMinutes(other) == 10
  {
  }

  /** An entry put at `t` into a tickets cache is served at `u` exactly while `u` is within the
      TTL of its cache name; no entry carries a TTL of its own. */
  lemma TicketEntryLifetime<V>(c: Cache.Store<V>, ns: string, key: string, v: V, t: nat, u: nat)
    ensures var c' := Cache.Put(c, ns, key, v, t, Seconds(TicketTtlMinutes(ns)));
            Cache.Lookup(c', ns, key, u).Some? <==> u < t + Seconds(TicketTtlMinutes(ns))
  {
    Cache.ServedUntilExpiry(c, ns, key, v, t, Seconds(TicketTtlMinutes(ns)), u);
  }

  /** The same for the users caches. */
  lemma UserEntryLifetime<V>(c: Cache.Store<V>, ns: string, key: string, v: V, t: nat, u: nat)
    ensures var c' := Cache.Put(c, ns, key, v, t, Seconds(UserTtlMinutes(ns)));
            Cache.Lookup(c', ns, key, u).Some? <==> u < t + Seconds(UserTtlMinutes(ns))
  {
    Cache.ServedUntilExpiry(c, ns, key, v, t, Seconds(UserTtlMinutes(ns)), u);
  }
}
