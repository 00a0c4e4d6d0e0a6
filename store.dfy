/** The external key-value store behind the cache (Redis, reached through the
    Upstash REST client), reduced to what the cache code asks of it: string
    keys, a value and an expiry instant per key, a clock, and the commands
    SETEX, GET, EXISTS, KEYS, DEL, TTL and EXPIRE. A key whose expiry instant
    has passed is gone as far as every command can tell.

    Any command can throw (the store is unreachable, the credentials are
    wrong, the command is rejected). Each method takes `fails`: when it is
    set, the command throws and changes nothing. */
module KeyValueStore {
  import opened Wrappers

  /** A stored value with the instant, in milliseconds since the epoch, at
      which the store expires it. */
  datatype Entry<V> = Entry(value: V, expiresAt: int)

  /** A command's outcome: the store's answer, or the error it threw. */
  datatype Reply<T> = Answer(value: T) | Threw

  type Entries<V> = map<string, Entry<V>>

  predicate HasPrefix(key: string, prefix: string) {
    |prefix| <= |key| && key[..|prefix|] == prefix
  }

  /** The key exists at instant `now`: it is stored and not yet expired. */
  predicate IsLive<V>(m: Entries<V>, now: int, key: string) {
    key in m && now < m[key].expiresAt
  }

  /** GET: the value under a live key. */
  function Lookup<V>(m: Entries<V>, now: int, key: string): (r: Option<V>)
    ensures r.Some? <==> IsLive(m, now, key)
    ensures r.Some? ==> r.value == m[key].value
  {
    if IsLive(m, now, key) then Some(m[key].value) else None
  }

  /** TTL: the whole seconds left on a live key, rounded to the nearest second
      as Redis rounds them, and otherwise the store's reply for a key it does
      not hold. */
  function RemainingTtl<V>(m: Entries<V>, now: int, key: string, missingReply: int): (r: int)
    ensures IsLive(m, now, key) ==> r >= 0 && r * 1000 - 500 <= m[key].expiresAt - now < r * 1000 + 500
    ensures !IsLive(m, now, key) ==> r == missingReply
  {
    if IsLive(m, now, key) then (m[key].expiresAt - now + 500) / 1000 else missingReply
  }

  /** KEYS `prefix*`: every live key that starts with `prefix`. */
  function LiveKeysWithPrefix<V>(m: Entries<V>, now: int, prefix: string): (ks: set<string>)
    ensures forall k :: k in ks <==> IsLive(m, now, k) && HasPrefix(k, prefix)
  {
    set k | k in m && IsLive(m, now, k) && HasPrefix(k, prefix)
  }

  /** The keys of `keys` that are live. */
  function LiveAmong<V>(m: Entries<V>, now: int, keys: set<string>): (ks: set<string>)
    ensures forall k :: k in ks <==> k in keys && IsLive(m, now, k)
  {
    set k | k in keys && IsLive(m, now, k)
  }

  /** SETEX on a positive number of seconds: the key holds `v` until
      `seconds` seconds after `now`, whatever it held before. */
  function AfterSetEx<V>(m: Entries<V>, now: int, key: string, seconds: int, v: V): Entries<V> {
    m[key := Entry(v, now + seconds * 1000)]
  }

  /** EXPIRE: a live key's countdown restarts at `seconds` (a non-positive
      count deletes it); a key that is not live is left as it is. */
  function AfterExpire<V>(m: Entries<V>, now: int, key: string, seconds: int): Entries<V> {
    if !IsLive(m, now, key) then m
    else if seconds <= 0 then m - {key}
    else m[key := Entry(m[key].value, now + seconds * 1000)]
  }

  /** A SETEX is read back unchanged by GET until it expires, and only then. */
  lemma LookupAfterSetEx<V>(m: Entries<V>, now: int, key: string, seconds: int, v: V, later: int)
    requires seconds > 0 && now <= later
    ensures Lookup(AfterSetEx(m, now, key, seconds, v), later, key)
            == if later < now + seconds * 1000 then Some(v) else None
  {
  }

  /** A SETEX leaves every other key as it was. */
  lemma SetExIsolated<V>(m: Entries<V>, now: int, key: string, seconds: int, v: V, other: string, later: int)
    requires other != key
    ensures Lookup(AfterSetEx(m, now, key, seconds, v), later, other) == Lookup(m, later, other)
  {
  }

  /** Right after SETEX of `seconds`, TTL answers exactly `seconds`. */
  lemma TtlAfterSetEx<V>(m: Entries<V>, now: int, key: string, seconds: int, v: V, missingReply: int)
    requires seconds > 0
    ensures RemainingTtl(AfterSetEx(m, now, key, seconds, v), now, key, missingReply) == seconds
  {
    assert (seconds * 1000 + 500) / 1000 == seconds;
  }

  /** EXPIRE replaces the remaining time by `seconds` instead of adding to it,
      and keeps the value. */
  lemma ExpireResets<V>(m: Entries<V>, now: int, key: string, seconds: int, missingReply: int)
    requires IsLive(m, now, key) && seconds > 0
    ensures RemainingTtl(AfterExpire(m, now, key, seconds), now, key, missingReply) == seconds
    ensures Lookup(AfterExpire(m, now, key, seconds), now, key) == Lookup(m, now, key)
  {
    assert (seconds * 1000 + 500) / 1000 == seconds;
  }

  /** The shared store. `now` is the clock both the store and the serverless
      functions read; `missingTtlReply` is what TTL answers for a key the
      store does not hold (Redis answers -2). */
  class Store<V> {
    var entries: Entries<V>
    var now: int
    const missingTtlReply: int

    constructor (initial: Entries<V>, clock: int, missingReply: int)
      ensures entries == initial && now == clock && missingTtlReply == missingReply
    {
      entries := initial;
      now := clock;
      missingTtlReply := missingReply;
    }

    /** Time passes. */
    method Advance(ms: nat)
      modifies this
      ensures now == old(now) + ms && entries == old(entries)
    {
      now := now + ms;
    }

    /** SETEX key seconds value. The store rejects a non-positive expiry. */
    method SetEx(key: string, seconds: int, value: V, fails: bool) returns (r: Reply<bool>)
      modifies this
      ensures now == old(now)
      ensures r.Threw? <==> fails || seconds <= 0
      ensures entries == if r.Threw? then old(entries) else AfterSetEx(old(entries), now, key, seconds, value)
    {
      if fails || seconds <= 0 {
        return Threw;
      }
      entries := AfterSetEx(entries, now, key, seconds, value);
      r := Answer(true);
    }

    /** GET key. */
    method Get(key: string, fails: bool) returns (r: Reply<Option<V>>)
      ensures r == if fails then Threw else Answer(Lookup(entries, now, key))
    {
      if fails {
        return Threw;
      }
      r := Answer(Lookup(entries, now, key));
    }

    /** EXISTS key: the number of the given keys that exist, here 0 or 1. */
    method Exists(key: string, fails: bool) returns (r: Reply<int>)
      ensures r == if fails then Threw else Answer(if IsLive(entries, now, key) then 1 else 0)
    {
      if fails {
        return Threw;
      }
      r := Answer(if IsLive(entries, now, key) then 1 else 0);
    }

    /** KEYS prefix*: the live keys that start with `prefix`, in no order. */
    method Keys(prefix: string, fails: bool) returns (r: Reply<set<string>>)
      ensures r == if fails then Threw else Answer(LiveKeysWithPrefix(entries, now, prefix))
    {
      if fails {
        return Threw;
      }
      r := Answer(LiveKeysWithPrefix(entries, now, prefix));
    }

    /** DEL key...: removes the keys and answers how many of them existed. */
    method Del(keys: set<string>, fails: bool) returns (r: Reply<nat>)
      modifies this
      ensures now == old(now)
      ensures r.Threw? <==> fails
      ensures r.Answer? ==> r.value == |LiveAmong(old(entries), now, keys)|
      ensures entries == if fails then old(entries) else old(entries) - keys
    {
      if fails {
        return Threw;
      }
      var existed := LiveAmong(entries, now, keys);
      entries := entries - keys;
      r := Answer(|existed|);
    }

    /** TTL key. */
    method Ttl(key: string, fails: bool) returns (r: Reply<int>)
      ensures r == if fails then Threw else Answer(RemainingTtl(entries, now, key, missingTtlReply))
    {
      if fails {
        return Threw;
      }
      r := Answer(RemainingTtl(entries, now, key, missingTtlReply));
    }

    /** EXPIRE key seconds: answers 1 when the key existed, else 0. */
    method Expire(key: string, seconds: int, fails: bool) returns (r: Reply<int>)
      modifies this
      ensures now == old(now)
      ensures r == if fails then Threw else Answer(if IsLive(old(entries), now, key) then 1 else 0)
      ensures entries == if fails then old(entries) else AfterExpire(old(entries), now, key, seconds)
    {
      if fails {
        return Threw;
      }
      if IsLive(entries, now, key) {
        if seconds <= 0 {
          entries := entries - {key};
        } else {
          entries := entries[key := Entry(entries[key].value, now + seconds * 1000)];
        }
        r := Answer(1);
      } else {
        r := Answer(0);
      }
    }
  }
}
