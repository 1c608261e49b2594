/**
 * The default methods of the second-generation cache interface
 * (valar/src/drivers/cache.rs): lookups with a fallback for a missing key,
 * an existence test, and read-modify-write updates. Each is a composition of
 * the cache's own `get` and `insert`, here those of the memory cache.
 */
module DriverCache {
  import opened Wrappers
  import opened CacheStore
  import opened DriverMemory

  /** A lookup outcome with a missing key replaced by `fallback`; every other error passes through. */
  function Recover<V>(outcome: Result<V, Error>, fallback: V): (r: Result<V, Error>)
    ensures outcome.Ok? ==> r == outcome
    ensures outcome.Err? && outcome.error.NotFound? ==> r == Ok(fallback)
    ensures outcome.Err? && !outcome.error.NotFound? ==> r == outcome
  {
    match outcome
    case Ok(v) => Ok(v)
    case Err(NotFound(_)) => Ok(fallback)
    case Err(e) => Err(e)
  }

  /**
   * `get_or`: the stored value, or `default` when the key is missing; a
   * value that does not deserialise is still an error. The memory changes as
   * `get` changes it.
   */
  function GetOr<V>(m: Memory, key: string, now: Instant, decode: Decoder<V>, default: V): (r: (Result<V, Error>, Memory))
    ensures r.1 == Fetch(m, key, now, decode).1
    ensures Missing(m, key, now) ==> r.0 == Ok(default)
    ensures !Missing(m, key, now) ==> r.0 == Decoded(decode, m.state[key])
  {
    var (outcome, after) := Fetch(m, key, now, decode);
    (Recover(outcome, default), after)
  }

  /** `get_or_else`: as `get_or`, with the fallback produced by `callback`. */
  function GetOrElse<V>(m: Memory, key: string, now: Instant, decode: Decoder<V>, callback: () -> V): (r: (Result<V, Error>, Memory))
    ensures r.1 == Fetch(m, key, now, decode).1
    ensures Missing(m, key, now) ==> r.0 == Ok(callback())
    ensures !Missing(m, key, now) ==> r.0 == Decoded(decode, m.state[key])
  {
    var (outcome, after) := Fetch(m, key, now, decode);
    match outcome
    case Err(NotFound(_)) => (Ok(callback()), after)
    case _ => (outcome, after)
  }

  /**
   * The callback matters only for a missing key: for a key that is there,
   * any two callbacks give the same answer.
   */
  lemma GetOrElseCallbackOnlyWhenMissing<V>(m: Memory, key: string, now: Instant, decode: Decoder<V>, first: () -> V, second: () -> V)
    ensures !Missing(m, key, now) ==> GetOrElse(m, key, now, decode, first) == GetOrElse(m, key, now, decode, second)
    ensures GetOrElse(m, key, now, decode, first) == GetOr(m, key, now, decode, first())
  {
  }

  /** `get_or_default`: as `get_or`, with the type's default value (passed in) as the fallback. */
  function GetOrDefault<V>(m: Memory, key: string, now: Instant, decode: Decoder<V>, typeDefault: V): (r: (Result<V, Error>, Memory))
    ensures r == GetOr(m, key, now, decode, typeDefault)
  {
    var (outcome, after) := Fetch(m, key, now, decode);
    (Recover(outcome, typeDefault), after)
  }

  /** Deserialising into `()`: JSON `null` is the only text that reads as the unit value. */
  function UnitDecode(text: string): Result<(), string> {
    if text == "null" then Ok(()) else Err("invalid type: expected unit")
  }

  /**
   * `has` as written: a `get` at the unit type succeeds. Only entries that
   * hold JSON `null` pass; any other stored value reads as absent.
   */
  function HasAsWritten(m: Memory, key: string, now: Instant): (r: (bool, Memory))
    ensures r.0 <==> !Missing(m, key, now) && m.state[key] == "null"
    ensures r.1 == Fetch(m, key, now, UnitDecode).1
  {
    var (outcome, after) := Fetch(m, key, now, UnitDecode);
    (outcome.Ok?, after)
  }

  /** A stored number is present, yet `has` as written denies it. */
  lemma HasAsWrittenMissesNumbers(now: Instant)
    ensures var m := Store(Empty, "answer", "42");
      && !Missing(m, "answer", now)
      && !HasAsWritten(m, "answer", now).0
  {
    var m := Store(Empty, "answer", "42");
    assert m.state["answer"] == "42";
  }

  /**
   * `has` as intended: the lookup does not report the key missing, whatever
   * the stored value deserialises to.
   */
  function Has(m: Memory, key: string, now: Instant): (r: (bool, Memory))
    ensures r.0 <==> !Missing(m, key, now)
    ensures r.1 == Fetch(m, key, now, UnitDecode).1
  {
    var (outcome, after) := Fetch(m, key, now, UnitDecode);
    (outcome != Err(NotFound(key)), after)
  }

  /** The existence test agrees with every typed lookup on whether the key is missing. */
  lemma HasAgreesWithFetch<V>(m: Memory, key: string, now: Instant, decode: Decoder<V>)
    ensures Has(m, key, now).0 <==> Fetch(m, key, now, decode).0 != Err(NotFound(key))
    ensures Has(m, key, now).1 == Fetch(m, key, now, decode).1
  {
  }

  /** The write half of every `map*`: on a read error, stop with it; otherwise insert the callback's result under the key. */
  function WriteBack<SV, V>(read: (Result<SV, Error>, Memory), key: string, callback: SV -> V, encode: Encoder<V>): (r: (Result<(), Error>, Memory))
    ensures read.0.Err? ==> r == (Err(read.0.error), read.1)
    ensures read.0.Ok? ==> r == Put(read.1, key, callback(read.0.value), encode)
  {
    if read.0.Err? then (Err(read.0.error), read.1)
    else Put(read.1, key, callback(read.0.value), encode)
  }

  /** `map`: read the value, apply `callback`, store the result under the same key. Nothing is inserted when the read fails. */
  function Map<SV, V>(m: Memory, key: string, now: Instant, decode: Decoder<SV>, callback: SV -> V, encode: Encoder<V>): (r: (Result<(), Error>, Memory))
    ensures Missing(m, key, now) ==> r == (Err(NotFound(key)), Fetch(m, key, now, decode).1)
    ensures !Missing(m, key, now) && decode(m.state[key]).Err? ==> r == (Err(Deserialize(decode(m.state[key]).error)), m)
    ensures !Missing(m, key, now) && decode(m.state[key]).Ok? ==> r == Put(m, key, callback(decode(m.state[key]).value), encode)
  {
    WriteBack(Fetch(m, key, now, decode), key, callback, encode)
  }

  /** `map_or`: as `map`, but a missing key is updated from `default`. */
  function MapOr<SV, V>(m: Memory, default: SV, key: string, now: Instant, decode: Decoder<SV>, callback: SV -> V, encode: Encoder<V>): (r: (Result<(), Error>, Memory))
    ensures Missing(m, key, now) ==> r == Put(Fetch(m, key, now, decode).1, key, callback(default), encode)
    ensures !Missing(m, key, now) ==> r == Map(m, key, now, decode, callback, encode)
  {
    WriteBack(GetOr(m, key, now, decode, default), key, callback, encode)
  }

  /** `map_or_else`: as `map_or`, with the starting value produced by `default`. */
  function MapOrElse<SV, V>(m: Memory, default: () -> SV, key: string, now: Instant, decode: Decoder<SV>, callback: SV -> V, encode: Encoder<V>): (r: (Result<(), Error>, Memory))
    ensures r == MapOr(m, default(), key, now, decode, callback, encode)
  {
    WriteBack(GetOrElse(m, key, now, decode, default), key, callback, encode)
  }

  /** `map_or_default`: as `map_or`, starting from the type's default value (passed in). */
  function MapOrDefault<SV, V>(m: Memory, typeDefault: SV, key: string, now: Instant, decode: Decoder<SV>, callback: SV -> V, encode: Encoder<V>): (r: (Result<(), Error>, Memory))
    ensures r == MapOr(m, typeDefault, key, now, decode, callback, encode)
  {
    WriteBack(GetOrDefault(m, key, now, decode, typeDefault), key, callback, encode)
  }

  /**
   * After a successful `map_or`, the key holds the callback's result. It
   * reads back at the same instant unless a deadline outlived the entry: a
   * key that was deleted, or cleared, keeps its passed expiration, and the
   * freshly written value is then already expired. An expired entry that
   * was still there is dropped by the read, deadline included, so it does
   * not shadow the new value.
   */
  lemma MapOrThenGet<SV, V, T>(m: Memory, default: SV, key: string, now: Instant, decode: Decoder<SV>, callback: SV -> V, encode: Encoder<V>, readBack: Decoder<T>)
    requires MapOr(m, default, key, now, decode, callback, encode).0.Ok?
    ensures var after := MapOr(m, default, key, now, decode, callback, encode).1;
      && key in after.state
      && (ExpiredAt(after, key, now) <==> key !in m.state && ExpiredAt(m, key, now))
      && (!ExpiredAt(after, key, now) ==> Fetch(after, key, now, readBack).0 == Decoded(readBack, after.state[key]))
  {
    var read := GetOr(m, key, now, decode, default);
    if key in m.state {
      assert !ExpiredAt(read.1, key, now);
    } else {
      assert read.1 == m;
    }
  }
}
