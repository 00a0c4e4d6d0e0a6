/** The scheduled refresh handler (api/cron/fetch-leaderboard.ts): checks the
    bearer secret, checks that a tournament is configured, fetches the
    leaderboard once from the upstream API and, on an ok reply, writes it to
    the cache with a 300-second TTL. Its private `setCache` is the same write
    as the cache's `set` and is modelled by it. */
module RefreshJob {
  import opened Wrappers
  import JsText
  import Json
  import IsoDate
  import Http
  import Cache
  import KV = KeyValueStore
  import LeaderboardHook

  /** The environment the handler reads; `None` is an unset variable. */
  datatype Env = Env(cronSecret: Option<string>, apiHost: Option<string>, tournamentId: Option<string>)

  const DefaultApiHost: string := "https://api.wager.com"
  const RefreshTtl: int := 300
  const FetchError: string := "Failed to fetch leaderboard"

  /** The header value the handler accepts: `Bearer ${CRON_SECRET}`, whose
      template turns an unset secret into the word `undefined`. */
  function ExpectedAuthorization(cronSecret: Option<string>): string {
    "Bearer " + cronSecret.GetOr("undefined")
  }

  /** `process.env.VITE_API_HOST || 'https://api.wager.com'`. */
  function ApiHost(env: Env): (host: string)
    ensures env.apiHost.Some? && env.apiHost.value != "" ==> host == env.apiHost.value
    ensures env.apiHost.None? || env.apiHost.value == "" ==> host == DefaultApiHost
  {
    if env.apiHost.Some? && env.apiHost.value != "" then env.apiHost.value else DefaultApiHost
  }

  /** The one upstream request: the first 100 entries and the caller's own. */
  function UpstreamUrl(apiHost: string, tournamentId: string): string {
    apiHost + "/player/api/v1/tournaments/" + tournamentId + "/leaderboard?per_page=100&include_me=true"
  }

  /** The job asks upstream for the same page the leaderboard hook fetches
      with `includeMe` set. */
  lemma UpstreamUrlIsHookUrl(apiHost: string, tournamentId: string)
    ensures UpstreamUrl(apiHost, tournamentId) == LeaderboardHook.Url(apiHost, tournamentId, true)
  {
  }

  /** The success message `Cached ${data.data?.length || 0} entries`. */
  function CachedMessage(data: Json.Json): string {
    "Cached " + JsText.NatToString(Json.DataLength(data)) + " entries"
  }

  /** With 42 entries in `data`, the message is "Cached 42 entries". */
  lemma CachedMessageExample(entries: seq<Json.Json>)
    requires |entries| == 42
    ensures CachedMessage(Json.JObj(map["data" := Json.JArr(entries)])) == "Cached 42 entries"
  {
    assert JsText.NatToString(42) == "42" by {
      assert JsText.NatToString(4) == "4";
    }
  }

  /** The message names the number of entries, and no other number. */
  lemma CachedMessageNamesCount(a: Json.Json, b: Json.Json)
    requires CachedMessage(a) == CachedMessage(b)
    ensures Json.DataLength(a) == Json.DataLength(b)
  {
    var na, nb := JsText.NatToString(Json.DataLength(a)), JsText.NatToString(Json.DataLength(b));
    assert na == CachedMessage(a)[7..|CachedMessage(a)| - 8];
    assert nb == CachedMessage(b)[7..|CachedMessage(b)| - 8];
    JsText.NatToStringInjective(Json.DataLength(a), Json.DataLength(b));
  }

  /** An unset secret lets the literal header `Bearer undefined` through. */
  lemma UnsetSecretAcceptsUndefined()
    ensures ExpectedAuthorization(None) == "Bearer undefined"
  {
  }

  /** One invocation. `authorization` is the request's Authorization header,
      `upstream` is what the fetch would give, `writeFails` whether the store
      throws on the cache write. `trace` lists the effects in order. */
  method Handler(cache: Cache.LeaderboardCache, authorization: Option<string>, env: Env,
                 upstream: Http.Reply<Json.Json>, writeFails: bool)
    returns (resp: Http.Response, trace: seq<Http.Effect>)
    modifies cache.store
    ensures cache.store.now == old(cache.store.now)
    // 401 unless the header is exactly the expected one: nothing fetched, nothing written.
    ensures authorization != Some(ExpectedAuthorization(env.cronSecret)) ==>
              resp == Http.Response(401, Http.ErrorBody("Unauthorized", None))
              && trace == [] && cache.store.entries == old(cache.store.entries)
    // 400 before any fetch when no tournament id is configured.
    ensures authorization == Some(ExpectedAuthorization(env.cronSecret))
            && (env.tournamentId.None? || env.tournamentId.value == "") ==>
              resp == Http.Response(400, Http.ErrorBody("No tournament ID configured", None))
              && trace == [] && cache.store.entries == old(cache.store.entries)
    ensures authorization == Some(ExpectedAuthorization(env.cronSecret))
            && env.tournamentId.Some? && env.tournamentId.value != "" ==>
              var id := env.tournamentId.value;
              && |trace| >= 1 && trace[..1] == [Http.Fetch(UpstreamUrl(ApiHost(env), id))]
              && match upstream
                 // A failed, non-ok or unparseable reply: 500 and the cache untouched.
                 case FetchFailed(message) =>
                   resp == Http.Response(500, Http.ErrorBody(FetchError, Some(message)))
                   && trace == trace[..1] && cache.store.entries == old(cache.store.entries)
                 case Answered(status, statusText, body) =>
                   if !Http.IsOk(status) then
                     resp == Http.Response(500, Http.ErrorBody(FetchError, Some(
                               FetchError + ": " + JsText.IntToString(status) + " " + statusText)))
                     && trace == trace[..1] && cache.store.entries == old(cache.store.entries)
                   else if body.Unparseable? then
                     resp == Http.Response(500, Http.ErrorBody(FetchError, Some(body.parseError)))
                     && trace == trace[..1] && cache.store.entries == old(cache.store.entries)
                   else
                     // Exactly one write, under the tournament's key, with TTL 300;
                     // a failing write is swallowed.
                     && trace == trace[..1] + [Http.CacheWrite(Cache.Key(id), RefreshTtl)]
                     && cache.store.entries
                        == (if writeFails then old(cache.store.entries)
                            else KV.AfterSetEx(old(cache.store.entries), cache.store.now, Cache.Key(id), RefreshTtl,
                                   Cache.Serialized(Cache.CachedLeaderboard(body.value, cache.store.now, id))))
                     && resp == SuccessResponse(body.value, cache.store.now)
  {
    trace := [];
    if authorization != Some(ExpectedAuthorization(env.cronSecret)) {
      return Http.Response(401, Http.ErrorBody("Unauthorized", None)), trace;
    }
    var apiHost := ApiHost(env);
    if env.tournamentId.None? || env.tournamentId.value == "" {
      return Http.Response(400, Http.ErrorBody("No tournament ID configured", None)), trace;
    }
    var tournamentId := env.tournamentId.value;
    var url := UpstreamUrl(apiHost, tournamentId);
    trace := trace + [Http.Fetch(url)];
    match upstream {
      case FetchFailed(message) =>
        return Http.Response(500, Http.ErrorBody(FetchError, Some(message))), trace;
      case Answered(status, statusText, body) =>
        if !Http.IsOk(status) {
          var message := FetchError + ": " + JsText.IntToString(status) + " " + statusText;
          return Http.Response(500, Http.ErrorBody(FetchError, Some(message))), trace;
        }
        match body {
          case Unparseable(parseError) =>
            return Http.Response(500, Http.ErrorBody(FetchError, Some(parseError))), trace;
          case Parsed(data) =>
            cache.Set(tournamentId, data, writeFails, RefreshTtl);
            trace := trace + [Http.CacheWrite(Cache.Key(tournamentId), RefreshTtl)];
            resp := SuccessResponse(data, cache.store.now);
        }
    }
  }

  /** The 200 body `{success: true, message, timestamp}`. */
  function SuccessBody(message: string, timestamp: string): (b: Http.Body)
    ensures b.Object? && b.fields.Keys == {"success", "message", "timestamp"}
    ensures b.fields["success"] == Json.JBool(true)
    ensures b.fields["message"] == Json.JStr(message)
    ensures b.fields["timestamp"] == Json.JStr(timestamp)
  {
    Http.Object(map["success" := Json.JBool(true), "message" := Json.JStr(message), "timestamp" := Json.JStr(timestamp)])
  }

  /** The reply after the write: `data.data` throws on a `null` body, and
      `new Date().toISOString()` throws outside the date range; both end in
      the 500 branch. Otherwise 200 with the count of entries and the time. */
  function SuccessResponse(data: Json.Json, now: int): (resp: Http.Response)
    ensures resp.status == 200 <==> !data.JNull? && IsoDate.ToIsoString(now).Ok?
    ensures resp.status == 200 ==> resp.body == SuccessBody(CachedMessage(data), IsoDate.ToIsoString(now).value)
    ensures resp.status != 200 ==> resp.status == 500 && resp.body == Http.ErrorBody(FetchError, Some(
              if data.JNull? then Http.NullPropertyError("data") else IsoDate.InvalidTimeValue))
  {
    if data.JNull? then
      Http.Response(500, Http.ErrorBody(FetchError, Some(Http.NullPropertyError("data"))))
    else
      match IsoDate.ToIsoString(now)
      case Err(message) => Http.Response(500, Http.ErrorBody(FetchError, Some(message)))
      case Ok(timestamp) => Http.Response(200, SuccessBody(CachedMessage(data), timestamp))
  }
}
