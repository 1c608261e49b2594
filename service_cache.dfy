/**
 * The first cache service (valar/src/services/cache.rs and
 * valar/src/services/cache/memory.rs): values are plain strings, a lookup
 * of an entry whose expiration has passed removes it and reports it as
 * expired, and a background task purges expired entries periodically.
 */
module ServiceCache {
  import opened Wrappers
  import opened CacheStore

  /** A cached string and, for a value about to be inserted, when it should expire. */
  datatype Value = Value(content: string, expiresAt: Option<Instant>)
  {
    /** `value`: the stored string, borrowed. */
    function Text(): string {
      content
    }

    /** `into_value`, and the conversion into `String`: the stored string. */
    function IntoValue(): string {
      content
    }

    /** `expires_at`: the same string, due to expire at exactly `instant`. */
    function ExpiresAt(instant: Instant): (r: Value)
      ensures r.content == content && r.expiresAt == Some(instant)
    {
      this.(expiresAt := Some(instant))
    }

    /** `expires_in`: due to expire `duration` after the clock reading `now`. */
    function ExpiresIn(now: Instant, duration: nat): (r: Value)
      ensures r == ExpiresAt(now + duration)
      ensures r.expiresAt.value > now || duration == 0
    {
      this.(expiresAt := Some(now + duration))
    }
  }

  /** `Value::new`: the string, with no expiry. */
  function NewValue(content: string): (r: Value)
    ensures r.content == content && r.expiresAt == None
  {
    Value(content, None)
  }

  /** Every view of a value gives back the string it was built from; the expiry setters never touch it. */
  lemma ValueRoundTrip(s: string, instant: Instant, now: Instant, duration: nat)
    ensures NewValue(s).Text() == s && NewValue(s).IntoValue() == s
    ensures NewValue(s).ExpiresAt(instant).IntoValue() == s
    ensures NewValue(s).ExpiresIn(now, duration).IntoValue() == s
  {
  }

  /** The errors of a lookup, each naming the key. */
  datatype Error = NotFound(key: string) | Expired(key: string)

  /**
   * `get` on the memory cache: the result of the lookup and the memory after it.
   * An absent key is not found and nothing changes; a key whose expiration has
   * passed is removed from both maps and reported expired; any other key gives
   * its stored string, with no expiry, and nothing changes.
   */
  function Fetch(m: Memory, key: string, now: Instant): (r: (Result<Value, Error>, Memory))
    ensures r.0.Ok? <==> key in m.state && !ExpiredAt(m, key, now)
    ensures r.0.Ok? ==> r.0.value == NewValue(m.state[key]) && r.1 == m
    ensures key !in m.state ==> r == (Err(NotFound(key)), m)
    ensures key in m.state && ExpiredAt(m, key, now) ==> r == (Err(Expired(key)), Forget(m, key))
  {
    if key !in m.state then (Err(NotFound(key)), m)
    else if ExpiredAt(m, key, now) then (Err(Expired(key)), Forget(m, key))
    else (Ok(NewValue(m.state[key])), m)
  }

  /** `insert` on the memory cache: only the string is stored; the value's expiry is dropped. */
  function Put(m: Memory, key: string, value: Value): Memory {
    Store(m, key, value.IntoValue())
  }

  /** Whatever expiry a value was given, inserting it has the same effect as inserting its bare string. */
  lemma PutIgnoresExpiry(m: Memory, key: string, value: Value, instant: Instant)
    ensures Put(m, key, value.ExpiresAt(instant)) == Put(m, key, NewValue(value.content))
    ensures Put(m, key, value).expirations == m.expirations
  {
  }

  /** An expired entry is reported once: the lookup removes it, so every later lookup finds nothing. */
  lemma ExpiredThenNotFound(m: Memory, key: string, now: Instant, later: Instant)
    requires key in m.state && ExpiredAt(m, key, now)
    ensures Fetch(m, key, now).0 == Err(Expired(key))
    ensures Fetch(Fetch(m, key, now).1, key, later) == (Err(NotFound(key)), Fetch(m, key, now).1)
  {
  }

  /** Inserting then looking up gives back the inserted string, unless the key carries an earlier, passed expiration. */
  lemma PutThenFetch(m: Memory, key: string, value: Value, now: Instant)
    ensures !ExpiredAt(m, key, now) ==> Fetch(Put(m, key, value), key, now).0 == Ok(NewValue(value.content))
    ensures ExpiredAt(m, key, now) ==> Fetch(Put(m, key, value), key, now).0 == Err(Expired(key))
  {
  }

  /** The operations a caller can perform on the memory cache, with the clock readings they see. */
  datatype Call =
    | GetCall(key: string, now: Instant)
    | InsertCall(key: string, value: Value)
    | DeleteCall(key: string)
    | ClearCall
    | PurgeCall(now: Instant)

  /** The memory after one call. */
  function Apply(m: Memory, call: Call): Memory {
    match call
    case GetCall(key, now) => Fetch(m, key, now).1
    case InsertCall(key, value) => Put(m, key, value)
    case DeleteCall(key) => Delete(m, key)
    case ClearCall => Clear(m)
    case PurgeCall(now) => Purged(m, now)
  }

  /** The memory after the calls, in order. */
  function Run(m: Memory, calls: seq<Call>): Memory
    decreases |calls|
  {
    if calls == [] then m else Run(Apply(m, calls[0]), calls[1..])
  }

  /**
   * No operation of this cache ever writes the expiration map: starting
   * from an empty cache, it stays empty whatever is called, so no lookup can
   * ever report a key as expired.
   */
  lemma {:induction false} NeverExpires(m: Memory, calls: seq<Call>, key: string, now: Instant)
    requires m.expirations == map[]
    ensures Run(m, calls).expirations == map[]
    ensures Fetch(Run(m, calls), key, now).0 != Err(Expired(key))
    decreases |calls|
  {
    if calls != [] {
      var next := Apply(m, calls[0]);
      assert next.expirations == map[] by {
        match calls[0]
        case PurgeCall(t) =>
          assert next.expirations.Keys == {};
        case _ =>
      }
      NeverExpires(next, calls[1..], key, now);
    }
  }

  /** The memory cache: the shared value and expiration maps, changed in place by each call. */
  class MemoryCache {
    var state: map<string, string>
    var expirations: map<string, Instant>

    /** The two maps as one value. */
    function Contents(): Memory
      reads this
    {
      Memory(state, expirations)
    }

    /** `MemoryCache::new`: both maps empty. The purge task it starts is `PurgeStep`, run by the caller. */
    constructor ()
      ensures Contents() == Empty
    {
      state := map[];
      expirations := map[];
    }

    /** `get`: passive expiry. */
    method Get(key: string, now: Instant) returns (r: Result<Value, Error>)
      modifies this
      ensures (r, Contents()) == Fetch(old(Contents()), key, now)
    {
      if key !in state {
        return Err(NotFound(key));
      }
      var value := state[key];
      if key in expirations && now > expirations[key] {
        state := state - {key};
        expirations := expirations - {key};
        return Err(Expired(key));
      }
      return Ok(NewValue(value));
    }

    /** `insert`: stores or overwrites the string; always succeeds. */
    method Insert(key: string, value: Value) returns (r: Result<(), Error>)
      modifies this
      ensures r.Ok? && Contents() == Put(old(Contents()), key, value)
    {
      state := state[key := value.IntoValue()];
      return Ok(());
    }

    /** `delete`: removes the string; deleting an absent key changes nothing. */
    method Delete(key: string) returns (r: Result<(), Error>)
      modifies this
      ensures r.Ok? && Contents() == CacheStore.Delete(old(Contents()), key)
      ensures key !in old(state) ==> state == old(state)
    {
      state := state - {key};
      return Ok(());
    }

    /** `clear`: empties the value map. */
    method Clear() returns (r: Result<(), Error>)
      modifies this
      ensures r.Ok? && Contents() == CacheStore.Clear(old(Contents()))
    {
      state := map[];
      return Ok(());
    }

    /**
     * One tick of the purge task: collect the keys whose expiration has
     * passed, then remove each from both maps.
     */
    method PurgeStep(now: Instant)
      modifies this
      ensures Contents() == Purged(old(Contents()), now)
    {
      var expiredKeys := ExpiredKeys(expirations, now);
      var pending := expiredKeys;
      while pending != {}
        invariant pending <= expiredKeys
        invariant state == old(state) - (expiredKeys - pending)
        invariant expirations == old(expirations) - (expiredKeys - pending)
        decreases |pending|
      {
        var key :| key in pending;
        state := state - {key};
        expirations := expirations - {key};
        pending := pending - {key};
      }
    }
  }
}
