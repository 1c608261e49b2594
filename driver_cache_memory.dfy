/**
 * The second-generation in-memory cache (valar/src/drivers/cache/memory.rs,
 * with the error type of valar/src/drivers/cache.rs). Values go in and out
 * through JSON: an insert serialises, a lookup deserialises into the type the
 * caller asks for. An entry whose expiration has passed is removed on lookup
 * and reported simply as not found.
 */
module DriverMemory {
  import opened Wrappers
  import opened CacheStore

  /** JSON decoding into the caller's type: the value, or the decoder's message. */
  type Decoder<V> = string -> Result<V, string>

  /** JSON encoding of a value: its text, or the encoder's message. */
  type Encoder<-W> = W -> Result<string, string>

  datatype Error = NotFound(key: string) | Deserialize(message: string) | Serialize(message: string)

  /** The outcome of deserialising a stored string. */
  function Decoded<V>(decode: Decoder<V>, text: string): (r: Result<V, Error>)
    ensures r.Ok? <==> decode(text).Ok?
    ensures r.Ok? ==> r.value == decode(text).value
    ensures r.Err? ==> r.error == Deserialize(decode(text).error)
  {
    match decode(text)
    case Ok(v) => Ok(v)
    case Err(e) => Err(Deserialize(e))
  }

  /** The key is missing as far as a lookup at `now` is concerned. */
  predicate Missing(m: Memory, key: string, now: Instant) {
    key !in m.state || ExpiredAt(m, key, now)
  }

  /**
   * `get`: the lookup's outcome and the memory after it. A missing key is not
   * found; if it was there but expired it is also removed from both maps. A
   * live key is deserialised, and nothing changes.
   */
  function Fetch<V>(m: Memory, key: string, now: Instant, decode: Decoder<V>): (r: (Result<V, Error>, Memory))
    ensures r.0 == Err(NotFound(key)) <==> Missing(m, key, now)
    ensures key !in m.state ==> r.1 == m
    ensures key in m.state && ExpiredAt(m, key, now) ==> r.1 == Forget(m, key)
    ensures !Missing(m, key, now) ==> r == (Decoded(decode, m.state[key]), m)
  {
    if key !in m.state then (Err(NotFound(key)), m)
    else if ExpiredAt(m, key, now) then (Err(NotFound(key)), Forget(m, key))
    else (Decoded(decode, m.state[key]), m)
  }

  /** `insert`: serialise, then store the text in the value map only; a serialisation error stores nothing. */
  function Put<W>(m: Memory, key: string, value: W, encode: Encoder<W>): (r: (Result<(), Error>, Memory))
    ensures encode(value).Err? ==> r == (Err(Serialize(encode(value).error)), m)
    ensures encode(value).Ok? ==> r.0.Ok? && r.1 == Store(m, key, encode(value).value)
  {
    match encode(value)
    case Err(e) => (Err(Serialize(e)), m)
    case Ok(text) => (Ok(()), Store(m, key, text))
  }

  /** `insert_expirable`: `insert`, then on success the key expires `duration` after `now`. */
  function PutExpirable<W>(m: Memory, key: string, value: W, encode: Encoder<W>, now: Instant, duration: nat): (r: (Result<(), Error>, Memory))
    ensures r.0 == Put(m, key, value, encode).0
    ensures r.0.Err? ==> r.1 == m
    ensures r.0.Ok? ==>
      && r.1.state == Put(m, key, value, encode).1.state
      && r.1.expirations == m.expirations[key := now + duration]
  {
    var (result, stored) := Put(m, key, value, encode);
    if result.Err? then (result, stored)
    else (result, stored.(expirations := stored.expirations[key := now + duration]))
  }

  /**
   * Reading back what was just inserted gives the decoded text, unless an
   * expiration already passed for the key: `insert` leaves it in force, so
   * the fresh value is removed and reported missing.
   */
  lemma InsertThenGet<W, V>(m: Memory, key: string, value: W, encode: Encoder<W>, now: Instant, decode: Decoder<V>)
    requires encode(value).Ok?
    ensures !ExpiredAt(m, key, now) ==>
      Fetch(Put(m, key, value, encode).1, key, now, decode).0 == Decoded(decode, encode(value).value)
    ensures ExpiredAt(m, key, now) ==>
      Fetch(Put(m, key, value, encode).1, key, now, decode) == (Err(NotFound(key)), Forget(m, key))
  {
    var stored := Put(m, key, value, encode).1;
    if ExpiredAt(m, key, now) {
      assert Forget(stored, key).state == Forget(m, key).state;
    }
  }

  /**
   * An entry inserted with a lifetime reads back, with nothing removed, up to
   * and including its deadline, and is missing and removed after it.
   */
  lemma InsertExpirableThenGet<W, V>(m: Memory, key: string, value: W, encode: Encoder<W>, now: Instant, duration: nat, later: Instant, decode: Decoder<V>)
    requires encode(value).Ok?
    ensures var stored := PutExpirable(m, key, value, encode, now, duration).1;
      && (later <= now + duration ==> Fetch(stored, key, later, decode) == (Decoded(decode, encode(value).value), stored))
      && (later > now + duration ==> Fetch(stored, key, later, decode) == (Err(NotFound(key)), Forget(stored, key)))
  {
  }

  /**
   * `delete` leaves the deadline behind: a key inserted with a lifetime,
   * deleted, then inserted again without one, is still cut off at the old
   * deadline.
   */
  lemma DeadlineOutlivesDelete<W, V>(m: Memory, key: string, first: W, second: W, encode: Encoder<W>, now: Instant, duration: nat, later: Instant, decode: Decoder<V>)
    requires encode(first).Ok? && encode(second).Ok? && later > now + duration
    ensures var timed := PutExpirable(m, key, first, encode, now, duration).1;
      var again := Put(Delete(timed, key), key, second, encode).1;
      Fetch(again, key, later, decode).0 == Err(NotFound(key))
  {
    var timed := PutExpirable(m, key, first, encode, now, duration).1;
    assert Delete(timed, key).expirations[key] == now + duration;
  }

  /** After a purge at `now`, every key that was expired then reads as missing, and nothing further is removed. */
  lemma PurgeThenGet<V>(m: Memory, key: string, now: Instant, decode: Decoder<V>)
    requires ExpiredAt(m, key, now)
    ensures Fetch(Purged(m, now), key, now, decode) == (Err(NotFound(key)), Purged(m, now))
  {
  }

  /** The memory cache: the value and expiration maps, changed in place. */
  class MemoryCache {
    var state: map<string, string>
    var expirations: map<string, Instant>

    /** The two maps as one value. */
    function Contents(): Memory
      reads this
    {
      Memory(state, expirations)
    }

    /**
     * `MemoryCache::with_purge_interval`: both maps empty. The purge task it
     * starts runs `PurgeStep` once per interval; the caller drives it.
     */
    constructor WithPurgeInterval(purgeInterval: nat)
      ensures Contents() == Empty
    {
      state := map[];
      expirations := map[];
    }

    /** `get`: passive expiry, then deserialisation. */
    method Get<V>(key: string, now: Instant, decode: Decoder<V>) returns (r: Result<V, Error>)
      modifies this
      ensures (r, Contents()) == Fetch(old(Contents()), key, now, decode)
    {
      if key !in state {
        return Err(NotFound(key));
      }
      var value := state[key];
      if key in expirations && now > expirations[key] {
        state := state - {key};
        expirations := expirations - {key};
        return Err(NotFound(key));
      }
      r := Decoded(decode, value);
    }

    /** `insert`: serialise, then store or overwrite the text. */
    method Insert<W>(key: string, value: W, encode: Encoder<W>) returns (r: Result<(), Error>)
      modifies this
      ensures (r, Contents()) == Put(old(Contents()), key, value, encode)
    {
      var text := encode(value);
      if text.Err? {
        return Err(Serialize(text.error));
      }
      state := state[key := text.value];
      return Ok(());
    }

    /** `insert_expirable`: `insert`, then record the deadline. */
    method InsertExpirable<W>(key: string, value: W, encode: Encoder<W>, now: Instant, duration: nat) returns (r: Result<(), Error>)
      modifies this
      ensures (r, Contents()) == PutExpirable(old(Contents()), key, value, encode, now, duration)
    {
      r := Insert(key, value, encode);
      if r.Err? {
        return;
      }
      expirations := expirations[key := now + duration];
    }

    /** `delete`: removes the text; the expiration map keeps its entry. */
    method Delete(key: string)
      modifies this
      ensures Contents() == CacheStore.Delete(old(Contents()), key)
    {
      state := state - {key};
    }

    /** `clear`: empties the value map; the expiration map is kept. */
    method Clear()
      modifies this
      ensures Contents() == CacheStore.Clear(old(Contents()))
    {
      state := map[];
    }

    /** One tick of the purge task: remove every key whose expiration has passed from both maps. */
    method PurgeStep(now: Instant)
      modifies this
      ensures Contents() == Purged(old(Contents()), now)
    {
      var expiredKeys := ExpiredKeys(expirations, now);
      var pending := expiredKeys;
      while pending != {}
        invariant pending <= expiredKeys
        invariant state == old(state) - (expiredKeys - pending)
        invariant expirations == old(expirations) - (expiredKeys - pending)
        decreases |pending|
      {
        var key :| key in pending;
        state := state - {key};
        expirations := expirations - {key};
        pending := pending - {key};
      }
    }
  }
}
