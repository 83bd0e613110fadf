/** The prediction cache (app/services/cache.py): a best-effort key/value
    store keyed by `"prediction:" + image hash`. The Redis keyspace is a
    map; JSON encoding is the identity on `Payload`, except that the store
    may also hold an empty string (read back as a miss) or text that is
    not JSON (whose decoding raises, an error the cache does not catch). */
module Cache {
  import opened Wrappers

  /** Seven days, in seconds. */
  const DefaultTtl: nat := 604800

  const KeyPrefix: string := "prediction:"

  /** The fields of a cached prediction that its readers use. */
  datatype Payload = Payload(predictedClass: string, confidence: real, top3Classes: seq<string>)

  /** The text stored under a key. */
  datatype StoredValue =
    | Encoded(payload: Payload)  // what set_prediction writes
    | EmptyText                  // a falsy string
    | Garbled                    // text json.loads rejects

  datatype Entry = Entry(value: StoredValue, ttl: nat)

  /** `enabled` is the CACHE_ENABLED setting; `reachable` says whether
      the client's calls succeed (when they do not, Redis raises an error
      that the cache swallows). */
  datatype CacheState = CacheState(enabled: bool, reachable: bool, defaultTtl: nat, store: map<string, Entry>)

  /** What get_prediction does: return a payload, return None, or raise
      the decoding error. */
  datatype Lookup = Hit(payload: Payload) | Miss | DecodeError

  /** The Redis key of an image hash: the prefix, then the hash. */
  function Key(hash: string): string {
    KeyPrefix + hash
  }

  /** The hash can be read back from its key, so distinct hashes have
      distinct keys. */
  lemma KeyInjective(a: string, b: string)
    ensures Key(a)[..|KeyPrefix|] == KeyPrefix && Key(a)[|KeyPrefix|..] == a
    ensures Key(a) == Key(b) <==> a == b
  {
    assert Key(a)[|KeyPrefix|..] == a;
    assert Key(b)[|KeyPrefix|..] == b;
  }

  /** `ttl or self.default_ttl`: an absent or zero TTL means the default. */
  function EffectiveTtl(ttl: Option<nat>, default: nat): (t: nat)
    ensures ttl.Some? && ttl.value > 0 ==> t == ttl.value
    ensures (ttl == None || ttl == Some(0)) ==> t == default
  {
    match ttl
    case None => default
    case Some(n) => if n == 0 then default else n
  }

  /** get_prediction on state `c`. */
  function Get(c: CacheState, hash: string): Lookup {
    if !c.enabled || !c.reachable then Miss
    else if Key(hash) !in c.store then Miss
    else match c.store[Key(hash)].value
      case Encoded(p) => Hit(p)
      case EmptyText => Miss
      case Garbled => DecodeError
  }

  /** set_prediction on state `c`. */
  function Put(c: CacheState, hash: string, p: Payload, ttl: Option<nat>): CacheState {
    if !c.enabled || !c.reachable then c
    else c.(store := c.store[Key(hash) := Entry(Encoded(p), EffectiveTtl(ttl, c.defaultTtl))])
  }

  /** A lookup hits exactly when the cache is on, the store answers, and
      the hash's key holds an encoded payload; it raises exactly when the
      key holds text that is not JSON. */
  lemma GetCharacterised(c: CacheState, hash: string, p: Payload)
    ensures Get(c, hash) == Hit(p) <==>
      c.enabled && c.reachable && Key(hash) in c.store && c.store[Key(hash)].value == Encoded(p)
    ensures Get(c, hash) == DecodeError <==>
      c.enabled && c.reachable && Key(hash) in c.store && c.store[Key(hash)].value == Garbled
  {
  }

  /** With the cache disabled, every lookup misses and every store leaves
      the cache as it was. */
  lemma DisabledCache(c: CacheState, hash: string, p: Payload, ttl: Option<nat>)
    requires !c.enabled
    ensures Get(c, hash) == Miss
    ensures Put(c, hash, p, ttl) == c
  {
  }

  /** A store error is swallowed: the lookup misses, the store is a no-op. */
  lemma UnreachableStore(c: CacheState, hash: string, p: Payload, ttl: Option<nat>)
    requires !c.reachable
    ensures Get(c, hash) == Miss
    ensures Put(c, hash, p, ttl) == c
  {
  }

  /** A hash that was never set, or whose value is an empty string, misses. */
  lemma AbsentOrEmptyMisses(c: CacheState, hash: string)
    requires Key(hash) !in c.store || c.store[Key(hash)].value == EmptyText
    ensures Get(c, hash) == Miss
  {
  }

  /** Setting a hash and reading it back gives the stored payload while
      the cache is on and reachable; the entry carries the effective TTL. */
  lemma PutThenGet(c: CacheState, hash: string, p: Payload, ttl: Option<nat>)
    requires c.enabled && c.reachable
    ensures Get(Put(c, hash, p, ttl), hash) == Hit(p)
    ensures Put(c, hash, p, ttl).store[Key(hash)].ttl == EffectiveTtl(ttl, c.defaultTtl)
  {
  }

  /** Setting one hash does not change what any other hash reads. */
  lemma PutOtherHash(c: CacheState, hash: string, other: string, p: Payload, ttl: Option<nat>)
    requires other != hash
    ensures Get(Put(c, hash, p, ttl), other) == Get(c, other)
  {
    KeyInjective(hash, other);
  }

  /** Setting a hash keeps every hit a hit (with the same or the new
      payload). */
  lemma PutKeepsHit(c: CacheState, hash: string, other: string, p: Payload, ttl: Option<nat>)
    requires Get(c, other).Hit?
    ensures Get(Put(c, hash, p, ttl), other).Hit?
  {
    if other != hash {
      PutOtherHash(c, hash, other, p, ttl);
    } else {
      PutThenGet(c, hash, p, ttl);
    }
  }

  /** The cache client. The flag, the default TTL and the reachability are
      fixed for its lifetime; the keyspace changes on every successful set. */
  class RedisCache {
    const enabled: bool
    const defaultTtl: nat
    const reachable: bool
    var store: map<string, Entry>

    constructor (enabled: bool, reachable: bool, store: map<string, Entry>)
      ensures State() == CacheState(enabled, reachable, DefaultTtl, store)
    {
      this.enabled := enabled;
      this.reachable := reachable;
      this.defaultTtl := DefaultTtl;
      this.store := store;
    }

    function State(): CacheState
      reads this
    {
      CacheState(enabled, reachable, defaultTtl, store)
    }

    method GetPrediction(imageHash: string) returns (r: Lookup)
      ensures r == Get(State(), imageHash)
    {
      if !enabled {
        return Miss;
      }
      var key := KeyPrefix + imageHash;
      if !reachable {
        return Miss;
      }
      if key in store {
        match store[key].value
        case Encoded(p) =>
          return Hit(p);
        case Garbled =>
          return DecodeError;
        case EmptyText =>
      }
      return Miss;
    }

    method SetPrediction(imageHash: string, prediction: Payload, ttl: Option<nat>)
      modifies this
      ensures State() == Put(old(State()), imageHash, prediction, ttl)
    {
      if !enabled {
        return;
      }
      var key := KeyPrefix + imageHash;
      if reachable {
        var ex := if ttl.Some? && ttl.value != 0 then ttl.value else defaultTtl;
        store := store[key := Entry(Encoded(prediction), ex)];
      }
    }
  }
}
