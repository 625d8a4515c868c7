/** An abstract key-value store with a per-entry time-to-live, standing in for
    the Redis client the service talks to. Time is an integer number of
    seconds. A write records the absolute deadline `now + ttl`; an entry is
    live while the clock is strictly before its deadline. Expired entries are
    not removed from the map: they are simply invisible to every read, which is
    all a client of the store can observe.
 */
module TtlStore {

  datatype Option<T> = None | Some(value: T)

  /** A stored value together with the instant at which the store drops it. */
  datatype Entry<V> = Entry(value: V, deadline: int)

  type Store<V> = map<string, Entry<V>>

  /** `hasKey`: is there a live entry under `key` at time `now`? */
  predicate HasKey<V>(s: Store<V>, now: int, key: string)
  {
    key in s && now < s[key].deadline
  }

  /** `get`: the live value under `key`, or None when it is missing or expired. */
  function Get<V>(s: Store<V>, now: int, key: string): Option<V>
  {
    if HasKey(s, now, key) then Some(s[key].value) else None
  }

  /** `set` with a duration: overwrite whatever is under `key` with `v`,
      to expire `ttl` seconds from `now`. */
  function Set<V>(s: Store<V>, now: int, key: string, v: V, ttl: int): (r: Store<V>)
    requires ttl > 0
    ensures Get(r, now, key) == Some(v)
    ensures key in r && r[key].deadline == now + ttl
    ensures r - {key} == s - {key}
  {
    s[key := Entry(v, now + ttl)]
  }

  /** Two stores that agree off `written` agree on every other key. */
  lemma Untouched<V>(s: Store<V>, r: Store<V>, written: string, key: string)
    requires r - {written} == s - {written}
    requires key != written
    ensures key in r <==> key in s
    ensures key in r ==> r[key] == s[key]
  {
    assert key in r <==> key in r - {written};
    assert key in s <==> key in s - {written};
  }

  /** Read-after-write: at any later (or earlier) instant, a read of the key
      just written sees the written value exactly while its time-to-live has
      not run out, and a read of any other key sees what it saw before. */
  lemma ReadAfterWrite<V>(s: Store<V>, written: string, v: V, ttl: int, writtenAt: int, now: int, key: string)
    requires ttl > 0
    ensures HasKey(Set(s, writtenAt, written, v, ttl), now, key) ==
              if key == written then now < writtenAt + ttl else HasKey(s, now, key)
    ensures Get(Set(s, writtenAt, written, v, ttl), now, key) ==
              if key == written then (if now < writtenAt + ttl then Some(v) else None) else Get(s, now, key)
  {
    if key != written {
      Untouched(s, Set(s, writtenAt, written, v, ttl), written, key);
    }
  }
}
