/** The leaderboard snapshot cache (api/lib/cache.ts): a thin layer over the
    shared key-value store that namespaces every tournament under
    `leaderboard:`, stores whole snapshot records with an expiry, and turns
    every store failure into `null`, `false`, `-1` or a silent no-op. */
module Cache {
  import opened Wrappers
  import Json
  import KV = KeyValueStore

  const CachePrefix: string := "leaderboard:"
  const DefaultTtl: int := 300

  /** The store key of a tournament: the prefix followed by the id exactly as
      given, with no other normalisation. */
  function Key(tournamentId: string): (k: string)
    ensures KV.HasPrefix(k, CachePrefix) && k[|CachePrefix|..] == tournamentId
  {
    CachePrefix + tournamentId
  }

  /** Distinct tournament ids never share a key. */
  lemma KeyInjective(a: string, b: string)
    requires Key(a) == Key(b)
    ensures a == b
  {
    assert a == Key(a)[|CachePrefix|..];
  }

  /** The snapshot record `{data, timestamp, tournamentId}`; `timestamp` is in
      milliseconds since the epoch. */
  datatype CachedLeaderboard = CachedLeaderboard(data: Json.Json, timestamp: int, tournamentId: string)

  /** What a cache key holds in the store: the JSON text of a record that `set`
      wrote, which `JSON.parse` turns back into the same record and which is
      therefore represented by the record itself, or text that some other
      writer put there. */
  datatype Stored = Serialized(record: CachedLeaderboard) | Foreign(text: string)

  type Entries = KV.Entries<Stored>

  /** What `get` makes of the store's answer: nothing for a missing key or a
      falsy (empty) value, the record for text that `set` wrote, and nothing
      for other text, which is taken to fail to parse. */
  function Decode(v: Option<Stored>): (r: Option<CachedLeaderboard>)
    ensures r.Some? <==> v.Some? && v.value.Serialized?
    ensures r.Some? ==> r.value == v.value.record
  {
    match v
    case None => None
    case Some(Serialized(rec)) => Some(rec)
    case Some(Foreign(text)) => None
  }

  /** The record `get` returns for a tournament when the store answers. */
  function Read(m: Entries, now: int, tournamentId: string): Option<CachedLeaderboard> {
    Decode(KV.Lookup(m, now, Key(tournamentId)))
  }

  /** `clear`'s effect on the store when it answers: a truthy id deletes its
      own key; no id, or the empty id (falsy in JavaScript), deletes every live
      key under the prefix. */
  function Cleared(m: Entries, now: int, tournamentId: Option<string>): Entries {
    if tournamentId.Some? && tournamentId.value != "" then m - {Key(tournamentId.value)}
    else m - KV.LiveKeysWithPrefix(m, now, CachePrefix)
  }

  /** `set` then `get`, before the expiry and with the store answering, gives
      back the record with the same data and tournament id and the write time,
      and `getTTL` right after the write gives the TTL that was written. */
  lemma SetThenRead(m: Entries, now: int, id: string, data: Json.Json, ttl: int, later: int, missingReply: int)
    requires ttl > 0 && now <= later < now + ttl * 1000
    ensures Read(KV.AfterSetEx(m, now, Key(id), ttl, Serialized(CachedLeaderboard(data, now, id))), later, id)
            == Some(CachedLeaderboard(data, now, id))
    ensures KV.RemainingTtl(KV.AfterSetEx(m, now, Key(id), ttl, Serialized(CachedLeaderboard(data, now, id))), now, Key(id), missingReply)
            == ttl
  {
    KV.TtlAfterSetEx(m, now, Key(id), ttl, Serialized(CachedLeaderboard(data, now, id)), missingReply);
  }

  /** Two writes in a row: only the second one is read back, nothing of the
      first is merged into it. */
  lemma SecondSetWins(m: Entries, now: int, id: string, first: Json.Json, second: Json.Json, ttl: int)
    requires ttl > 0
    ensures
      var once := KV.AfterSetEx(m, now, Key(id), ttl, Serialized(CachedLeaderboard(first, now, id)));
      Read(KV.AfterSetEx(once, now, Key(id), ttl, Serialized(CachedLeaderboard(second, now, id))), now, id)
      == Some(CachedLeaderboard(second, now, id))
  {
  }

  /** A write for one tournament leaves every other tournament's record as it was. */
  lemma SetIsolated(m: Entries, now: int, id: string, rec: CachedLeaderboard, ttl: int, other: string, later: int)
    requires other != id
    ensures Read(KV.AfterSetEx(m, now, Key(id), ttl, Serialized(rec)), later, other) == Read(m, later, other)
  {
    if Key(other) == Key(id) {
      KeyInjective(other, id);
    }
  }

  /** Once the TTL has run out the record is gone. */
  lemma ExpiredIsAbsent(m: Entries, now: int, id: string, rec: CachedLeaderboard, ttl: int, later: int)
    requires later >= now + ttl * 1000
    ensures Read(KV.AfterSetEx(m, now, Key(id), ttl, Serialized(rec)), later, id) == None
  {
  }

  /** Clearing one tournament removes exactly that tournament's key. */
  lemma ClearOneEffect(m: Entries, now: int, id: string, key: string)
    requires id != ""
    ensures KV.Lookup(Cleared(m, now, Some(id)), now, key) == if key == Key(id) then None else KV.Lookup(m, now, key)
  {
  }

  /** Clearing everything removes every key under the prefix and no other. */
  lemma ClearAllEffect(m: Entries, now: int, key: string)
    ensures KV.Lookup(Cleared(m, now, None), now, key)
            == if KV.HasPrefix(key, CachePrefix) then None else KV.Lookup(m, now, key)
  {
    var gone := KV.LiveKeysWithPrefix(m, now, CachePrefix);
    if KV.HasPrefix(key, CachePrefix) && KV.IsLive(m, now, key) {
      assert key in gone;
    }
  }

  /** The empty id is falsy and therefore clears every tournament. */
  lemma ClearEmptyIdClearsAll(m: Entries, now: int)
    ensures Cleared(m, now, Some("")) == Cleared(m, now, None)
  {
  }

  /** The cache object. It holds no state of its own: everything it keeps is
      in the shared store. The `storeFails` argument of each method says
      whether the store throws on this call. */
  class LeaderboardCache {
    const store: KV.Store<Stored>

    constructor (store: KV.Store<Stored>)
      ensures this.store == store
    {
      this.store := store;
    }

    /** `set`: writes the whole record `{data, timestamp: now, tournamentId}`
        under the tournament's key with expiry `ttl` (default 300 s),
        replacing whatever was there. A failing store, including one that
        rejects a non-positive expiry, leaves everything as it was. */
    method Set(tournamentId: string, data: Json.Json, storeFails: bool, ttl: int := DefaultTtl)
      modifies store
      ensures store.now == old(store.now)
      ensures store.entries
              == if storeFails || ttl <= 0 then old(store.entries)
                 else KV.AfterSetEx(old(store.entries), store.now, Key(tournamentId), ttl,
                                    Serialized(CachedLeaderboard(data, store.now, tournamentId)))
    {
      var key := Key(tournamentId);
      var cached := CachedLeaderboard(data, store.now, tournamentId);
      var _ := store.SetEx(key, ttl, Serialized(cached), storeFails);
    }

    /** `get`: the record under the tournament's key, or `None` for a missing
        key, a falsy value, text that does not parse, or a failing store. */
    method Get(tournamentId: string, storeFails: bool) returns (r: Option<CachedLeaderboard>)
      ensures r.Some? ==> !storeFails && KV.IsLive(store.entries, store.now, Key(tournamentId))
      ensures r == if storeFails then None else Read(store.entries, store.now, tournamentId)
    {
      var key := Key(tournamentId);
      var cached := store.Get(key, storeFails);
      match cached
      case Threw => r := None;
      case Answer(v) => r := Decode(v);
    }

    /** `has`: true exactly when the store answers that the key exists. */
    method Has(tournamentId: string, storeFails: bool) returns (b: bool)
      ensures b <==> !storeFails && KV.IsLive(store.entries, store.now, Key(tournamentId))
    {
      var key := Key(tournamentId);
      var reply := store.Exists(key, storeFails);
      b := reply == KV.Answer(1);
    }

    /** `clear(id?)`: see Cleared. A failing store leaves everything as it was. */
    method Clear(tournamentId: Option<string>, storeFails: bool)
      modifies store
      ensures store.now == old(store.now)
      ensures store.entries == if storeFails then old(store.entries) else Cleared(old(store.entries), store.now, tournamentId)
    {
      if tournamentId.Some? && tournamentId.value != "" {
        var key := Key(tournamentId.value);
        var _ := store.Del({key}, storeFails);
      } else {
        var keys := store.Keys(CachePrefix, storeFails);
        // A store that answered KEYS is taken to answer the DEL that follows;
        // a DEL that threw would leave the store as a KEYS that threw does.
        if keys.Answer? && |keys.value| > 0 {
          var _ := store.Del(keys.value, false);
        }
      }
    }

    /** The life of one snapshot against the store's clock: written with a
        positive expiry, read back whole at once, and gone once `ttl`
        seconds have passed on the store's clock. */
    method SetThenExpire(tournamentId: string, data: Json.Json, ttl: int) returns (before: Option<CachedLeaderboard>, after: Option<CachedLeaderboard>)
      requires ttl > 0
      modifies store
      ensures before == Some(CachedLeaderboard(data, old(store.now), tournamentId))
      ensures after == None
      ensures store.now == old(store.now) + ttl * 1000
      ensures store.entries
              == KV.AfterSetEx(old(store.entries), old(store.now), Key(tournamentId), ttl,
                               Serialized(CachedLeaderboard(data, old(store.now), tournamentId)))
    {
      Set(tournamentId, data, false, ttl);
      before := Get(tournamentId, false);
      SetThenRead(old(store.entries), old(store.now), tournamentId, data, ttl, store.now, store.missingTtlReply);
      store.Advance(ttl * 1000);
      after := Get(tournamentId, false);
      ExpiredIsAbsent(old(store.entries), old(store.now), tournamentId,
                      CachedLeaderboard(data, old(store.now), tournamentId), ttl, store.now);
    }

    /** `getTTL`: the store's TTL answer verbatim, or -1 when it fails. */
    method GetTtl(tournamentId: string, storeFails: bool) returns (ttl: int)
      ensures ttl == if storeFails then -1 else KV.RemainingTtl(store.entries, store.now, Key(tournamentId), store.missingTtlReply)
    {
      var key := Key(tournamentId);
      var reply := store.Ttl(key, storeFails);
      ttl := if reply.Answer? then reply.value else -1;
    }

    /** `extend(id, n)`: restarts the key's countdown at `n` seconds (it does
        not add `n`); a failing store leaves everything as it was. */
    method Extend(tournamentId: string, additionalSeconds: int, storeFails: bool)
      modifies store
      ensures store.now == old(store.now)
      ensures store.entries
              == if storeFails then old(store.entries)
                 else KV.AfterExpire(old(store.entries), store.now, Key(tournamentId), additionalSeconds)
    {
      var key := Key(tournamentId);
      var _ := store.Expire(key, additionalSeconds, storeFails);
    }
  }
}
