/**
 * The response cache the gateway builds with `new NodeCache({ stdTTL: 3600, checkperiod: 300 })`.
 * The library is not part of this model; its behaviour is the stated assumption below:
 * a stored value is returned only while the clock is before its expiry time, and a
 * `set` overwrites whatever the key held. Times are milliseconds, TTLs seconds.
 */
module ResponseCache {
  import opened Wrappers

  datatype Entry<V> = Entry(value: V, expiresAt: int)

  /** The expiry time of an entry written at `now` with a TTL of `ttl` seconds. */
  function ExpiresAt(now: int, ttl: nat): int
  {
    now + ttl * 1000
  }

  /** `get(key)` at time `now`: the stored value while it is alive, absent otherwise. */
  function Lookup<V>(entries: map<string, Entry<V>>, now: int, key: string): Option<V>
  {
    if key in entries && now < entries[key].expiresAt then Some(entries[key].value) else None
  }

  /** `set(key, value, ttl)` at time `now`: overwrite the key, leave every other key alone. */
  function Store<V>(entries: map<string, Entry<V>>, now: int, key: string, value: V, ttl: nat): (r: map<string, Entry<V>>)
    ensures r.Keys == entries.Keys + {key}
    ensures forall k :: k in entries && k != key ==> r[k] == entries[k]
  {
    entries[key := Entry(value, ExpiresAt(now, ttl))]
  }

  /** The periodic sweep: drop every entry that has expired by `now`. */
  function Swept<V>(entries: map<string, Entry<V>>, now: int): (r: map<string, Entry<V>>)
    ensures r.Keys <= entries.Keys
    ensures forall k :: k in r ==> r[k] == entries[k] && now < r[k].expiresAt
    ensures forall k :: k in entries && now < entries[k].expiresAt ==> k in r
  {
    map k | k in entries && now < entries[k].expiresAt :: entries[k]
  }

  /** After `set` with TTL `ttl`, `get` returns the value for any time before the TTL has elapsed, and nothing from then on. */
  lemma LookupAfterStore<V>(entries: map<string, Entry<V>>, now: int, key: string, value: V, ttl: nat, later: int)
    ensures Lookup(Store(entries, now, key, value, ttl), later, key)
            == if later < now + ttl * 1000 then Some(value) else None
  {
  }

  /** `set` on one key is invisible through every other key. */
  lemma LookupOtherKey<V>(entries: map<string, Entry<V>>, now: int, key: string, value: V, ttl: nat, other: string, later: int)
    requires other != key
    ensures Lookup(Store(entries, now, key, value, ttl), later, other) == Lookup(entries, later, other)
  {
  }

  /** A live value stays live at every earlier time, and an absent one stays absent at every later time. */
  lemma LookupMonotoneInTime<V>(entries: map<string, Entry<V>>, key: string, t: int, t': int)
    requires t <= t'
    ensures Lookup(entries, t', key).Some? ==> Lookup(entries, t, key) == Lookup(entries, t', key)
  {
  }

  /** Sweeping at `now` and reading at any time from `now` on gives what reading without the sweep gives. */
  lemma SweepUnobservable<V>(entries: map<string, Entry<V>>, now: int, later: int, key: string)
    requires now <= later
    ensures Lookup(Swept(entries, now), later, key) == Lookup(entries, later, key)
  {
  }

  /** The cache object: its entries, its clock and its default TTL. */
  class TtlCache<V> {
    var entries: map<string, Entry<V>>
    var now: int
    const stdTTL: nat

    constructor (stdTTL: nat, now: int)
      ensures entries == map[] && this.now == now && this.stdTTL == stdTTL
    {
      this.entries := map[];
      this.now := now;
      this.stdTTL := stdTTL;
    }

    /** `get(key)`. */
    method Get(key: string) returns (r: Option<V>)
      ensures r == Lookup(entries, now, key)
      ensures r.Some? ==> key in entries && now < entries[key].expiresAt && r.value == entries[key].value
    {
      if key in entries && now < entries[key].expiresAt {
        r := Some(entries[key].value);
      } else {
        r := None;
      }
    }

    /** `set(key, value, ttl)`; without a TTL the default one applies. */
    method Set(key: string, value: V, ttl: nat := stdTTL)
      requires ttl > 0
      modifies this`entries
      ensures entries == Store(old(entries), now, key, value, ttl)
    {
      entries := Store(entries, now, key, value, ttl);
    }

    /** The periodic `checkperiod` sweep. */
    method Sweep()
      modifies this`entries
      ensures entries == Swept(old(entries), now)
    {
      entries := Swept(entries, now);
    }

    /** The wall clock moves forward by `ms` milliseconds. */
    method Advance(ms: nat)
      modifies this`now
      ensures now == old(now) + ms
    {
      now := now + ms;
    }
  }
}
