/** The public read handler (api/leaderboard.ts): answers preflight and
    rejects other methods, resolves the tournament id, looks the snapshot up
    in the cache and serves it with freshness metadata. It only reads the
    cache, which its Handler states by having no `modifies` clause at all. */
module ReadEndpoint {
  import opened Wrappers
  import JsText
  import Json
  import IsoDate
  import Http
  import Cache
  import KV = KeyValueStore

  /** A query parameter as the platform hands it over: one value, or all the
      values of a repeated parameter. */
  datatype QueryValue = Single(value: string) | Repeated(values: seq<string>)

  datatype Request = Request(httpMethod: string, tournamentId: Option<QueryValue>)

  /** A remaining TTL below this many seconds marks the snapshot stale. */
  const StaleThreshold: int := 60

  const NotCachedError: string := "No cached data available"
  const NotCachedMessage: string := "Leaderboard data not yet cached. Cron job may not have run yet."

  /** `req.query.tournamentId as string || process.env.VITE_TOURNAMENT_ID`,
      then the `!tournamentId` test: a non-empty query value wins, a repeated
      parameter (an array, always truthy) stands for its comma-joined values,
      and otherwise the non-empty configured default. */
  function ResolveId(query: Option<QueryValue>, envDefault: Option<string>): (id: Option<string>)
    ensures query.Some? && query.value.Single? && query.value.value != "" ==> id == Some(query.value.value)
    ensures query.Some? && query.value.Repeated? ==> id == Some(JsText.Join(query.value.values, ","))
    ensures (query.None? || query.value == Single("")) ==>
              id == if envDefault.Some? && envDefault.value != "" then envDefault else None
  {
    match query
    case Some(Single(s)) =>
      if s != "" then Some(s) else if envDefault.Some? && envDefault.value != "" then envDefault else None
    case Some(Repeated(values)) => Some(JsText.Join(values, ","))
    case None => if envDefault.Some? && envDefault.value != "" then envDefault else None
  }

  /** `ttl < 60`. */
  predicate IsStale(ttl: int) {
    ttl < StaleThreshold
  }

  /** The staleness boundary: 59 s left is stale, 60 s is not, and the
      "unknown" answers -1 and -2 count as stale. */
  lemma StaleBoundary()
    ensures IsStale(59) && !IsStale(60) && !IsStale(61)
    ensures IsStale(-1) && IsStale(-2)
  {
  }

  /** `Math.floor((now - timestamp) / 1000)`: whole seconds since the write,
      rounded down (also for a timestamp in the future). */
  function CacheAge(now: int, timestamp: int): (age: int)
    ensures age * 1000 <= now - timestamp < age * 1000 + 1000
  {
    (now - timestamp) / 1000
  }

  /** The metadata keys put over the payload. */
  function Metadata(stale: bool, cacheAge: int, ttl: int, timestamp: string): (m: map<string, Json.Json>)
    ensures m.Keys == {"cached", "stale", "cacheAge", "ttl", "timestamp"}
    ensures m["cached"] == Json.JBool(true) && m["stale"] == Json.JBool(stale)
    ensures m["cacheAge"] == Json.JNum(cacheAge) && m["ttl"] == Json.JNum(ttl)
    ensures m["timestamp"] == Json.JStr(timestamp)
  {
    map["cached" := Json.JBool(true), "stale" := Json.JBool(stale), "cacheAge" := Json.JNum(cacheAge),
        "ttl" := Json.JNum(ttl), "timestamp" := Json.JStr(timestamp)]
  }

  /** `{...data, ...metadata}`: every field of the payload, with the metadata
      keys written over any payload field of the same name. */
  function Merge(data: Json.Json, metadata: map<string, Json.Json>): (m: map<string, Json.Json>)
    ensures m.Keys == Json.SpreadFields(data).Keys + metadata.Keys
    ensures forall k :: k in metadata ==> m[k] == metadata[k]
    ensures forall k :: k in Json.SpreadFields(data) && k !in metadata ==> m[k] == Json.SpreadFields(data)[k]
  {
    Json.SpreadFields(data) + metadata
  }

  /** What the handler answers for a snapshot it found, given the TTL, the
      current time and what `new Date(timestamp).toISOString()` gives: 200
      with the merged body, or the 500 of a timestamp it rejects. */
  function Found(rec: Cache.CachedLeaderboard, ttl: int, now: int, iso: Result<string>): Http.Response {
    match iso
    case Err(message) => Http.Response(500, Http.ErrorBody("Internal server error", Some(message)))
    case Ok(timestamp) =>
      Http.Response(200, Http.Object(Merge(rec.data, Metadata(IsStale(ttl), CacheAge(now, rec.timestamp), ttl, timestamp))))
  }

  /** A timestamp that is not a valid date turns a hit into a 500 that
      carries the date's error message; a valid one always gives 200. */
  lemma FoundStatus(rec: Cache.CachedLeaderboard, ttl: int, now: int, iso: Result<string>)
    ensures Found(rec, ttl, now, iso).status == 200 <==> iso.Ok?
    ensures iso.Err? ==> Found(rec, ttl, now, iso).body == Http.ErrorBody("Internal server error", Some(iso.message))
  {
  }

  /** The payload reaches the client untouched except for the metadata keys. */
  lemma FoundKeepsPayload(rec: Cache.CachedLeaderboard, ttl: int, now: int, iso: Result<string>, k: string)
    requires iso.Ok?
    requires k in Json.SpreadFields(rec.data) && k !in {"cached", "stale", "cacheAge", "ttl", "timestamp"}
    ensures Found(rec, ttl, now, iso).body.Object?
    ensures Found(rec, ttl, now, iso).body.fields[k] == Json.SpreadFields(rec.data)[k]
  {
    var meta := Metadata(IsStale(ttl), CacheAge(now, rec.timestamp), ttl, iso.value);
    assert k !in meta.Keys;
  }

  /** The metadata is always present and wins over payload fields of the same
      name. */
  lemma FoundCarriesMetadata(rec: Cache.CachedLeaderboard, ttl: int, now: int, iso: Result<string>)
    requires iso.Ok?
    ensures var fields := Found(rec, ttl, now, iso).body.fields;
            && fields["cached"] == Json.JBool(true)
            && fields["stale"] == Json.JBool(ttl < 60)
            && fields["cacheAge"] == Json.JNum((now - rec.timestamp) / 1000)
            && fields["ttl"] == Json.JNum(ttl)
            && fields["timestamp"] == Json.JStr(iso.value)
  {
  }

  /** One request. `getFails` and `ttlFails` say whether the store throws on
      the cache's `get` and `getTTL`; `trace` lists the cache accesses. */
  method Handler(cache: Cache.LeaderboardCache, req: Request, envDefault: Option<string>, getFails: bool, ttlFails: bool)
    returns (resp: Http.Response, trace: seq<Http.Effect>)
    ensures req.httpMethod == "OPTIONS" ==> resp == Http.Response(200, Http.NoBody) && trace == []
    ensures req.httpMethod != "OPTIONS" && req.httpMethod != "GET" ==>
              resp == Http.Response(405, Http.ErrorBody("Method not allowed", None)) && trace == []
    ensures req.httpMethod == "GET" && ResolveId(req.tournamentId, envDefault).None? ==>
              resp == Http.Response(400, Http.ErrorBody("Tournament ID required", None)) && trace == []
    ensures req.httpMethod == "GET" && ResolveId(req.tournamentId, envDefault).Some? ==>
              var id := ResolveId(req.tournamentId, envDefault).value;
              var cached := if getFails then None else Cache.Read(cache.store.entries, cache.store.now, id);
              if cached.None? then
                resp == Http.Response(404, Http.ErrorBody(NotCachedError, Some(NotCachedMessage)))
                && trace == [Http.CacheRead(Cache.Key(id))]
              else
                var ttl := if ttlFails then -1
                           else KV.RemainingTtl(cache.store.entries, cache.store.now, Cache.Key(id), cache.store.missingTtlReply);
                resp == Found(cached.value, ttl, cache.store.now, IsoDate.ToIsoString(cached.value.timestamp))
                && trace == [Http.CacheRead(Cache.Key(id)), Http.CacheTtl(Cache.Key(id))]
  {
    trace := [];
    if req.httpMethod == "OPTIONS" {
      return Http.Response(200, Http.NoBody), trace;
    }
    if req.httpMethod != "GET" {
      return Http.Response(405, Http.ErrorBody("Method not allowed", None)), trace;
    }
    var tournamentId := ResolveId(req.tournamentId, envDefault);
    if tournamentId.None? {
      return Http.Response(400, Http.ErrorBody("Tournament ID required", None)), trace;
    }
    var cached := cache.Get(tournamentId.value, getFails);
    trace := trace + [Http.CacheRead(Cache.Key(tournamentId.value))];
    if cached.None? {
      return Http.Response(404, Http.ErrorBody(NotCachedError, Some(NotCachedMessage))), trace;
    }
    var ttl := cache.GetTtl(tournamentId.value, ttlFails);
    trace := trace + [Http.CacheTtl(Cache.Key(tournamentId.value))];
    var now := cache.store.now;
    resp := Found(cached.value, ttl, now, IsoDate.ToIsoString(cached.value.timestamp));
  }
}
