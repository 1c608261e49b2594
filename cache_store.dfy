/**
 * What the two in-memory caches (valar/src/services/cache/memory.rs and
 * valar/src/drivers/cache/memory.rs) hold: a map from key to stored string
 * and a separate map from key to the instant the entry expires. Instants
 * are integers on one clock; the clock itself is read by the caller and
 * passed in as `now`.
 */
module CacheStore {

  /** An instant of the monotonic clock. */
  type Instant = int

  datatype Memory = Memory(state: map<string, string>, expirations: map<string, Instant>)

  /** A cache with nothing in it, as both constructors build it. */
  const Empty: Memory := Memory(map[], map[])

  /** The entry's expiration lies strictly before `now` (the source's `now > expiration`). */
  predicate ExpiredAt(m: Memory, key: string, now: Instant) {
    key in m.expirations && m.expirations[key] < now
  }

  /** The keys the purge step collects: those whose expiration has passed. */
  function ExpiredKeys(expirations: map<string, Instant>, now: Instant): set<string> {
    set k | k in expirations && expirations[k] < now
  }

  /** `remove(key)` on both maps, as `get` does for an expired entry. */
  function Forget(m: Memory, key: string): (r: Memory)
    ensures key !in r.state && key !in r.expirations
    ensures forall k :: k != key ==> (k in r.state <==> k in m.state) && (k in r.expirations <==> k in m.expirations)
    ensures forall k :: k in r.state ==> r.state[k] == m.state[k]
    ensures forall k :: k in r.expirations ==> r.expirations[k] == m.expirations[k]
  {
    Memory(m.state - {key}, m.expirations - {key})
  }

  /** `state.insert(key, value)`: the value map only. */
  function Store(m: Memory, key: string, value: string): (r: Memory)
    ensures r.state.Keys == m.state.Keys + {key} && r.state[key] == value
    ensures forall k :: k in m.state && k != key ==> r.state[k] == m.state[k]
    ensures r.expirations == m.expirations
  {
    m.(state := m.state[key := value])
  }

  /** `delete`: `state.remove(key)`; the expiration map is not touched. */
  function Delete(m: Memory, key: string): (r: Memory)
    ensures key !in r.state && r.state.Keys == m.state.Keys - {key}
    ensures forall k :: k in r.state ==> r.state[k] == m.state[k]
    ensures r.expirations == m.expirations
  {
    m.(state := m.state - {key})
  }

  /** `clear`: `state.clear()`; the expiration map is not touched. */
  function Clear(m: Memory): (r: Memory)
    ensures |r.state| == 0 && r.expirations == m.expirations
  {
    m.(state := map[])
  }

  /**
   * One pass of the purge task: every key whose expiration has passed is
   * removed from both maps, and nothing else is.
   */
  function Purged(m: Memory, now: Instant): (r: Memory)
    ensures forall k :: k in r.state <==> k in m.state && !ExpiredAt(m, k, now)
    ensures forall k :: k in r.expirations <==> k in m.expirations && m.expirations[k] >= now
    ensures forall k :: k in r.state ==> r.state[k] == m.state[k]
    ensures forall k :: k in r.expirations ==> r.expirations[k] == m.expirations[k]
  {
    var dead := ExpiredKeys(m.expirations, now);
    Memory(m.state - dead, m.expirations - dead)
  }

  /** After a purge at `now`, no entry is expired at `now`, so a second pass at the same instant removes nothing. */
  lemma PurgeIdempotent(m: Memory, now: Instant)
    ensures forall k :: !ExpiredAt(Purged(m, now), k, now)
    ensures Purged(Purged(m, now), now) == Purged(m, now)
  {
    var p := Purged(m, now);
    var q := Purged(p, now);
    assert q.state == p.state;
    assert q.expirations == p.expirations;
  }
}
