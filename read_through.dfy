/**
 * The Redis store and the read-through policy shared by `_retrieve_database`
 * and `_get_and_cache_users`: read the fixed key; a truthy value that
 * deserialises is returned as is; otherwise the live fetch runs and, when it
 * succeeds, its serialised result is written back with `setex`.
 */
module ReadThrough {
  import opened Wrappers
  import opened NotionTypes
  import opened Backend

  /** Redis as the client sees it: a value and the TTL of the last `setex`, per key. */
  datatype CacheStore = CacheStore(entries: map<string, seq<byte>>, ttls: map<string, int>) {

    /** `redis.get(key)`: the stored bytes, or `None` for a missing key. */
    function Get(key: string): Option<seq<byte>> {
      if key in entries then Some(entries[key]) else None
    }

    /**
     * `redis.setex(key, ttl, value)`. The server refuses an expire time that is
     * not positive, and redis-py raises that refusal as a `ResponseError`.
     */
    function Setex(key: string, ttl: int, value: seq<byte>): (r: Result<CacheStore, Error>)
      ensures r.Failure? <==> ttl <= 0
      ensures r.Failure? ==> r.error == RedisError(InvalidExpireTime)
      ensures r.Success? ==> r.value.Get(key) == Some(value) && key in r.value.ttls && r.value.ttls[key] == ttl
      ensures r.Success? ==> forall k :: k != key ==> r.value.Get(k) == Get(k)
      ensures r.Success? ==> forall k :: k != key ==>
                (k in r.value.ttls <==> k in ttls) && (k in ttls ==> r.value.ttls[k] == ttls[k])
    {
      if ttl <= 0 then Failure(RedisError(InvalidExpireTime))
      else Success(CacheStore(entries[key := value], ttls[key := ttl]))
    }
  }

  /** The server's reply to `SETEX` with a non-positive expire time. */
  const InvalidExpireTime := "invalid expire time in 'setex' command"

  /** The value a cached payload yields: the bytes are truthy and deserialise. */
  function CachedValue<T>(stored: Option<seq<byte>>, decode: seq<byte> -> Option<T>): Option<T> {
    if stored.Some? && |stored.value| > 0 then decode(stored.value) else None
  }

  /** What one read-through call returns, the store it leaves, and the calls it makes. */
  datatype Outcome<T> = Outcome(result: Result<T, Error>, store: CacheStore, events: seq<Event>)

  /**
   * One read-through call on `key`. `live` is what the backend fetch returns
   * (or raises) and `liveEvents` the backend calls it makes.
   */
  function Lookup<T>(store: CacheStore, key: string, ttl: int,
                     decode: seq<byte> -> Option<T>, encode: T -> seq<byte>,
                     live: Result<T, Error>, liveEvents: seq<Event>): Outcome<T>
  {
    match CachedValue(store.Get(key), decode)
    case Some(v) => Outcome(Success(v), store, [RedisGet(key)])
    case None =>
      match live
      case Failure(e) => Outcome(Failure(e), store, [RedisGet(key)] + liveEvents)
      case Success(v) =>
        var events := [RedisGet(key)] + liveEvents + [RedisSetex(key, ttl, encode(v))];
        match store.Setex(key, ttl, encode(v))
        case Success(written) => Outcome(Success(v), written, events)
        case Failure(e) => Outcome(Failure(e), store, events)
  }

  /** The number of Redis writes in a trace. */
  function SetexCount(events: seq<Event>): nat {
    if events == [] then 0
    else (if events[0].RedisSetex? then 1 else 0) + SetexCount(events[1..])
  }

  lemma {:induction false} SetexCountAppend(a: seq<Event>, b: seq<Event>)
    ensures SetexCount(a + b) == SetexCount(a) + SetexCount(b)
    decreases |a|
  {
    if a == [] {
      assert a + b == b;
    } else {
      assert (a + b)[1..] == a[1..] + b;
      SetexCountAppend(a[1..], b);
    }
  }

  /** A live fetch that makes no Redis call. */
  predicate BackendOnly(events: seq<Event>) {
    forall i :: 0 <= i < |events| ==> !events[i].RedisGet? && !events[i].RedisSetex?
  }

  lemma {:induction false} BackendOnlyHasNoSetex(events: seq<Event>)
    requires BackendOnly(events)
    ensures SetexCount(events) == 0
    decreases |events|
  {
    if events != [] {
      BackendOnlyHasNoSetex(events[1..]);
    }
  }

  /**
   * A cache hit returns the cached value after one `get`: no backend call and
   * no `setex`; the store is untouched.
   */
  lemma LookupHit<T>(store: CacheStore, key: string, ttl: int,
                     decode: seq<byte> -> Option<T>, encode: T -> seq<byte>,
                     live: Result<T, Error>, liveEvents: seq<Event>, v: T)
    requires CachedValue(store.Get(key), decode) == Some(v)
    ensures var o := Lookup(store, key, ttl, decode, encode, live, liveEvents);
      o.result == Success(v) && o.store == store && o.events == [RedisGet(key)] && SetexCount(o.events) == 0
  {
  }

  /**
   * A missing key, falsy bytes or a payload that does not deserialise all
   * behave the same: the live fetch runs once, after the `get`; its error, if
   * any, propagates and nothing is written; otherwise exactly one `setex` of
   * the fetched value follows, on the same key with the given TTL. When Redis
   * refuses that TTL, its error replaces the fetched value and nothing is
   * stored.
   */
  lemma LookupMiss<T>(store: CacheStore, key: string, ttl: int,
                      decode: seq<byte> -> Option<T>, encode: T -> seq<byte>,
                      live: Result<T, Error>, liveEvents: seq<Event>)
    requires CachedValue(store.Get(key), decode).None?
    requires BackendOnly(liveEvents)
    ensures var o := Lookup(store, key, ttl, decode, encode, live, liveEvents);
      && o.result == (if live.Success? && ttl <= 0 then Failure(RedisError(InvalidExpireTime)) else live)
      && o.events[..1 + |liveEvents|] == [RedisGet(key)] + liveEvents
      && |o.events| == 1 + |liveEvents| + (if live.Success? then 1 else 0)
      && SetexCount(o.events) == (if live.Success? then 1 else 0)
      && (live.Failure? || ttl <= 0 ==> o.store == store)
      && (live.Success? ==> o.events[|o.events| - 1] == RedisSetex(key, ttl, encode(live.value)))
      && (live.Success? && ttl > 0 ==> o.store == store.Setex(key, ttl, encode(live.value)).value)
  {
    var o := Lookup(store, key, ttl, decode, encode, live, liveEvents);
    BackendOnlyHasNoSetex(liveEvents);
    SetexCountAppend([RedisGet(key)], liveEvents);
    if live.Success? {
      SetexCountAppend([RedisGet(key)] + liveEvents, [RedisSetex(key, ttl, encode(live.value))]);
    }
  }

  /** Only the looked-up key can change; every other key keeps its value and TTL. */
  lemma LookupFrame<T>(store: CacheStore, key: string, ttl: int,
                       decode: seq<byte> -> Option<T>, encode: T -> seq<byte>,
                       live: Result<T, Error>, liveEvents: seq<Event>, other: string)
    requires other != key
    ensures var o := Lookup(store, key, ttl, decode, encode, live, liveEvents);
      o.store.Get(other) == store.Get(other)
      && (other in o.store.ttls <==> other in store.ttls)
      && (other in store.ttls ==> o.store.ttls[other] == store.ttls[other])
  {
  }

  /**
   * With a codec that reads back what it writes, a successful lookup leaves a
   * warm cache: the next lookup on the same key returns the same value from
   * the cache, with a single `get` and no write.
   */
  lemma LookupWarms<T>(store: CacheStore, key: string, ttl: int,
                       decode: seq<byte> -> Option<T>, encode: T -> seq<byte>,
                       live: Result<T, Error>, liveEvents: seq<Event>,
                       live2: Result<T, Error>, liveEvents2: seq<Event>)
    requires live.Success? ==> |encode(live.value)| > 0 && decode(encode(live.value)) == Some(live.value)
    ensures var o := Lookup(store, key, ttl, decode, encode, live, liveEvents);
      o.result.Success? ==>
        && CachedValue(o.store.Get(key), decode) == Some(o.result.value)
        && Lookup(o.store, key, ttl, decode, encode, live2, liveEvents2)
           == Outcome(o.result, o.store, [RedisGet(key)])
  {
  }
}
