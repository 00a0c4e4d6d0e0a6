# Streamer leaderboard: a verified model

The system is a tournament leaderboard site for streamers. It has three
server parts and a set of client hooks:

- A scheduled refresh job fetches one page of a tournament's leaderboard
  from the upstream wager API. It stores that page in a shared Redis cache
  under `leaderboard:<id>` for 300 seconds.
- A public read endpoint serves the cached snapshot. It adds freshness
  metadata: `cached`, `stale`, `cacheAge`, `ttl` and `timestamp`.
- The cache class itself wraps the store. It turns every store failure into
  `null`, `false`, `-1` or a silent no-op.

The client side has three hooks:

- The leaderboard hook fetches entries, or falls back to mock entries. It
  splits them into the podium and the rest, and picks out the caller's own
  entry.
- The tournaments hook picks the active tournament.
- The player-rank hook turns the caller's rank into a leaderboard entry.

A few pure helpers complete the core:

- the countdown tick;
- username masking;
- the hex-to-`rgba` colour helper;
- the streamer branding selector.

The model covers all of this in Dafny:

- **Shared Redis store.** It is the class `KeyValueStore.Store` (store.dfy):
  a map from keys to a value plus an expiry instant, and a millisecond
  clock. Each command takes a `fails` flag, standing for the store throwing
  on that call.
- **The cache.** `Cache.LeaderboardCache` (cache.dfy) is a class over that
  store. Its methods state their new store state and their results in terms
  of specification functions: `Read`, `Cleared`, `KV.AfterSetEx` and
  `KV.AfterExpire`.
- **The two handlers.** They are methods (refresh_job.dfy,
  read_endpoint.dfy) taking the request, the environment and the upstream
  reply as datatypes. They return the response and a trace of their
  effects: fetches, cache reads, TTL reads and cache writes. That trace is
  what lets "no fetch" and "no write" be stated. The read handler has no
  `modifies` clause, so it cannot change the cache.
- **The hooks.** They are classes whose fields are the hook's React state
  (leaderboard_hook.dfy, tournaments_hook.dfy, player_rank_hook.dfy). Each
  fetch is a method taking the HTTP outcome as an input. The pure decisions
  (filters, find, decoding, conversion) are functions with lemmas.
- **The countdown tick** is a method that updates its locals step by step,
  as the updater does. Both timer components,
  src/components/leaderboard/NewCountdownTimer.tsx and
  src/components/leaderboard/CountdownTimer.tsx, have the identical tick at
  lines 20-39 and the identical `formatNumber` at line 45, so one
  `Countdown.Tick` models both. The two components differ only in their
  default start values and in their markup, which is not modelled.
- **The helpers** are functions: masking, colour and branding.

JavaScript's string functions are modelled once, in text.dfy:

- trimming, with the ECMAScript white-space set;
- `String(n)` for integers;
- `padStart`;
- `Array.prototype.join`;
- ASCII letter-case folding, which decides the `toLowerCase` comparisons
  against `butcher` and `butcherx`.

`getTTL` returns the store's TTL reply verbatim. Redis answers -2 for a key
it does not hold, so here `-1` means only that the store failed. The
missing-key reply is the store parameter `missingTtlReply`.

## Model

| member | source | states |
|---|---|---|
| Cache.Key | api/lib/cache.ts:22-29 | every key is `leaderboard:` followed by the id exactly as given |
| Cache.KeyInjective | api/lib/cache.ts:29 | distinct tournament ids never share a key |
| Cache.Decode | api/lib/cache.ts:51-60 | a record comes back exactly when the store holds one written by `set`; a missing, falsy or unparseable value gives null |
| Cache.SetThenRead | api/lib/cache.ts:28-57 | `get` after `set`, before expiry, returns the record with the same data and id and the write time; `getTTL` right after gives the written TTL |
| Cache.Read | api/lib/cache.ts:47-61 | what `get` returns when the store answers: the decoded value under the tournament's live key |
| Cache.Cleared | api/lib/cache.ts:80-91 | the store after `clear`: a truthy id loses its key, otherwise every live key under the prefix goes |
| Cache.LeaderboardCache.SetThenExpire | api/lib/cache.ts:28-57 | against the store's clock: `set` with a positive TTL, then `get`, returns the whole record stamped with the write time; once `ttl` seconds pass, `get` returns null |
| Cache.SecondSetWins | api/lib/cache.ts:28-38 | a second `set` replaces the first record; nothing is merged |
| Cache.SetIsolated | api/lib/cache.ts:28-38 | a `set` leaves every other tournament's record unchanged |
| Cache.ExpiredIsAbsent | api/lib/cache.ts:38 | once the TTL has run out, `get` finds nothing |
| Cache.ClearOneEffect | api/lib/cache.ts:82-84 | `clear(id)` with a non-empty id removes exactly that tournament's key |
| Cache.ClearAllEffect | api/lib/cache.ts:85-90 | `clear()` removes every key under the prefix and no other key |
| Cache.ClearEmptyIdClearsAll | api/lib/cache.ts:82 | the empty id is falsy and clears every tournament |
| Cache.LeaderboardCache.Set | api/lib/cache.ts:28-42 | stores the whole record stamped with the store clock under the key, TTL default 300; a failing or rejecting store changes nothing |
| Cache.LeaderboardCache.Get | api/lib/cache.ts:47-61 | returns the decoded record for a live key, and null on failure |
| Cache.LeaderboardCache.Has | api/lib/cache.ts:66-75 | true exactly when the store answers and the key is live |
| Cache.LeaderboardCache.Clear | api/lib/cache.ts:80-95 | the store afterwards is `Cleared` of the store before, or unchanged on failure |
| Cache.LeaderboardCache.GetTtl | api/lib/cache.ts:100-109 | the store's TTL reply verbatim, or -1 on failure |
| Cache.LeaderboardCache.Extend | api/lib/cache.ts:114-122 | restarts the key's countdown at `n` seconds (it does not add); on failure nothing changes |
| KeyValueStore.Lookup | api/lib/cache.ts:51 | GET answers a value exactly for a live key |
| KeyValueStore.RemainingTtl | api/lib/cache.ts:104 | TTL of a live key is the rounded number of seconds left; otherwise the store's missing-key reply |
| KeyValueStore.LiveKeysWithPrefix | api/lib/cache.ts:87 | KEYS `prefix*` lists exactly the live keys with that prefix |
| KeyValueStore.LookupAfterSetEx | api/lib/cache.ts:38 | a SETEX is read back until it expires, and only then |
| KeyValueStore.SetExIsolated | api/lib/cache.ts:38 | a SETEX leaves every other key as it was |
| KeyValueStore.TtlAfterSetEx | api/lib/cache.ts:38 | right after SETEX of n seconds, TTL answers n |
| KeyValueStore.ExpireResets | api/lib/cache.ts:118 | EXPIRE sets the remaining time to n and keeps the value |
| KeyValueStore.Store.SetEx | api/lib/cache.ts:38 | throws on failure or a non-positive expiry, otherwise sets value and expiry |
| KeyValueStore.Store.Get | api/lib/cache.ts:51 | answers `Lookup` of the current state, or throws |
| KeyValueStore.Store.Exists | api/lib/cache.ts:70 | answers 1 for a live key, 0 otherwise |
| KeyValueStore.Store.Keys | api/lib/cache.ts:87 | answers the live keys with the prefix |
| KeyValueStore.Store.Del | api/lib/cache.ts:84-89 | removes the keys and answers how many of them were live |
| KeyValueStore.Store.Ttl | api/lib/cache.ts:104 | answers `RemainingTtl` of the current state |
| KeyValueStore.Store.Expire | api/lib/cache.ts:118 | restarts a live key's countdown, deleting it for n <= 0 |
| RefreshJob.Handler | api/cron/fetch-leaderboard.ts:35-82 | 401 without fetch or write when the header is not exactly `Bearer <secret>`. 400 before any fetch without a tournament id. One fetch of the upstream URL. A failed, non-ok or unparseable reply gives 500 with `Failed to fetch leaderboard` and leaves the cache unchanged. Otherwise exactly one write under the key with TTL 300, swallowed if it fails, then the success response |
| RefreshJob.ExpectedAuthorization | api/cron/fetch-leaderboard.ts:38 | the one header value accepted: `Bearer ` followed by the secret, or by `undefined` when it is unset |
| RefreshJob.UpstreamUrl | api/cron/fetch-leaderboard.ts:51 | the upstream leaderboard page for the tournament: 100 entries, with the caller's own entry |
| RefreshJob.UpstreamUrlIsHookUrl | api/cron/fetch-leaderboard.ts:51 | the job asks for the same URL as the leaderboard hook with `includeMe` set (src/hooks/useLeaderboard.ts:199-200) |
| RefreshJob.CachedMessage | api/cron/fetch-leaderboard.ts:73 | `Cached <n> entries` with `n` the decimal `DataLength` of the payload |
| RefreshJob.ApiHost | api/cron/fetch-leaderboard.ts:43 | the configured host when non-empty, else `https://api.wager.com` |
| RefreshJob.SuccessBody | api/cron/fetch-leaderboard.ts:71-75 | the body has exactly the keys `success` (true), `message` and `timestamp` |
| RefreshJob.SuccessResponse | api/cron/fetch-leaderboard.ts:66-81 | 200 exactly when the payload is not null and the clock is a valid date; otherwise 500 with the TypeError or RangeError message |
| RefreshJob.CachedMessageExample | api/cron/fetch-leaderboard.ts:73 | 42 entries give "Cached 42 entries" |
| RefreshJob.CachedMessageNamesCount | api/cron/fetch-leaderboard.ts:73 | equal messages mean equal entry counts: the message names the count |
| RefreshJob.UnsetSecretAcceptsUndefined | api/cron/fetch-leaderboard.ts:38 | with no secret configured, the accepted header is `Bearer undefined` |
| Json.DataLength | api/cron/fetch-leaderboard.ts:73 | `data.data?.length \|\| 0`: the array's length when `data` is an array, the string's length when it is a string, 0 when it is absent or has no `length` |
| Json.SpreadFields | api/leaderboard.ts:41 | what object spread copies: an object's fields, an array's or string's elements under index keys, nothing for other values |
| IsoDate.EpochIsNewYear1970 | api/leaderboard.ts:46 | day 0 of the epoch is 1 January 1970 |
| IsoDate.LeapDay2000 | api/leaderboard.ts:46 | day 11016 is 29 February 2000, a leap day of a year divisible by 400 |
| IsoDate.ToIsoString | api/leaderboard.ts:46 | `toISOString` throws `Invalid time value` exactly outside ±8.64e15 ms, else gives a string ending in `Z` |
| Http.ErrorBody | api/leaderboard.ts:49-52 | an error body carries `error` and carries `message` exactly when one is given |
| ReadEndpoint.ResolveId | api/leaderboard.ts:19-23 | a non-empty query id wins, a repeated parameter stands for its comma-joined values, else the non-empty configured default, else none |
| ReadEndpoint.IsStale | api/leaderboard.ts:38 | stale when fewer than 60 seconds of TTL remain, the negative "unknown" answers included |
| ReadEndpoint.StaleBoundary | api/leaderboard.ts:38 | 59 s left is stale, 60 s is not, and -1 and -2 are stale |
| ReadEndpoint.CacheAge | api/leaderboard.ts:37-44 | the age is the elapsed milliseconds divided by 1000, rounded down |
| ReadEndpoint.Metadata | api/leaderboard.ts:42-46 | exactly the five metadata keys with their values |
| ReadEndpoint.Merge | api/leaderboard.ts:40-47 | the body has the payload's fields and the metadata keys, with the metadata winning |
| ReadEndpoint.Found | api/leaderboard.ts:36-53 | the response to a cache hit: 200 with the payload merged with its metadata, or 500 with the date's error message |
| ReadEndpoint.FoundStatus | api/leaderboard.ts:36-53 | a hit gives 200 exactly when the timestamp is a valid date, and otherwise 500 `Internal server error` with the date's message |
| ReadEndpoint.FoundKeepsPayload | api/leaderboard.ts:41 | a payload field that is not a metadata key reaches the client unchanged |
| ReadEndpoint.FoundCarriesMetadata | api/leaderboard.ts:42-46 | the body has `cached: true`, `stale` iff ttl < 60, the floored age, the ttl and the ISO timestamp |
| ReadEndpoint.Handler | api/leaderboard.ts:4-54 | OPTIONS gives 200 with no body; other non-GET methods give 405; no id gives 400 with no cache access; a miss gives 404 with the fixed message after one read; a hit gives `Found` after one read and one TTL read; it never writes |
| JsText.TrimEmpty | src/hooks/useLeaderboard.ts:182 | `trim()` is empty exactly for all-white-space strings |
| JsText.NatToStringRoundTrip | src/components/leaderboard/NewCountdownTimer.tsx:45 | the decimal rendering of a number reads back as that number |
| JsText.PadStart | src/components/leaderboard/NewCountdownTimer.tsx:45 | `padStart` keeps the string as its suffix, fills only in front, and reaches the width |
| JsText.Join | api/leaderboard.ts:19 | joining one value gives that value; joining none gives the empty string |
| JsText.JoinSnoc | api/leaderboard.ts:19 | appending a value to a non-empty list appends the separator and that value to the joined text |
| LeaderboardHook.TopThree | src/hooks/useLeaderboard.ts:288 | holds exactly the entries ranked 3 or better |
| LeaderboardHook.RestOf | src/hooks/useLeaderboard.ts:289 | holds exactly the entries ranked below 3 |
| LeaderboardHook.SplitIsInterleaving | src/hooks/useLeaderboard.ts:288-289 | the entries are the podium and the rest shuffled together, each keeping input order |
| LeaderboardHook.SplitCovers | src/hooks/useLeaderboard.ts:288-289 | together the podium and the rest hold every entry exactly as often as the input |
| LeaderboardHook.FindMe | src/hooks/useLeaderboard.ts:249-250 | the first entry marked `me`, and none exactly when no entry is marked |
| LeaderboardHook.Url | src/hooks/useLeaderboard.ts:199-200 | the page of 100 entries for the tournament, with `&include_me=true` when asked |
| LeaderboardHook.UrlIncludeMe | src/hooks/useLeaderboard.ts:199-200 | `&include_me=true` is appended exactly when `includeMe` is set |
| LeaderboardHook.Decode | src/hooks/useLeaderboard.ts:216-250 | a page exactly for an ok, parseable reply whose `data` is an array; each failure's message |
| LeaderboardHook.MockSplit | src/hooks/useLeaderboard.ts:175-197 | the mock podium is ranks 1, 2, 3 in order, seven entries follow, none is the caller's |
| LeaderboardHook.LeaderboardHook.constructor | src/hooks/useLeaderboard.ts:162-172 | option defaults and the initial state: empty, loading, no error |
| LeaderboardHook.LeaderboardHook.FetchLeaderboard | src/hooks/useLeaderboard.ts:180-271 | a blank id fetches nothing and only ends loading. Mock mode installs the mock entries with no caller. A success installs the page. An error records the message and shows the mock entries, keeping `hasMore` and the caller. Loading ends on every path |
| LeaderboardHook.LeaderboardHook.RunEffect | src/hooks/useLeaderboard.ts:273-286 | a blank id resets entries, caller and `hasMore` and ends loading; otherwise it fetches |
| TournamentsHook.Url | src/hooks/useTournaments.ts:74 | the ongoing streamer tournaments of the host |
| TournamentsHook.ActiveId | src/hooks/useTournaments.ts:106-108 | `current_tournament.id` when non-zero, else the tournament's own id |
| TournamentsHook.Activated | src/hooks/useTournaments.ts:111 | only the id changes; every other field is kept |
| TournamentsHook.ActivatedIdempotent | src/hooks/useTournaments.ts:102-113 | activating twice is activating once |
| TournamentsHook.ActivatedWithoutCurrent | src/hooks/useTournaments.ts:106-111 | without a usable current tournament the tournament is kept unchanged |
| TournamentsHook.Decode | src/hooks/useTournaments.ts:85-99 | a list (`data` or `[]`) exactly for an ok, parseable, non-null reply; each failure's message |
| TournamentsHook.TournamentsHook.FetchTournaments | src/hooks/useTournaments.ts:56-132 | mock mode and every error give the single mock tournament `121134`. A success sets the list, and sets the active tournament from the first element, or leaves it as it was for an empty list. Loading ends on every path |
| TournamentsHook.FirstFetchOfEmptyList | src/hooks/useTournaments.ts:51-102 | a fresh hook fetching an empty list has no active tournament |
| PlayerRankHook.Url | src/hooks/usePlayerRank.ts:51 | the caller's rank in the tournament |
| PlayerRankHook.ToEntry | src/hooks/usePlayerRank.ts:82-100 | the entry is the caller's own, with a null avatar and no VIP level |
| PlayerRankHook.ToEntryRoundTrip | src/hooks/usePlayerRank.ts:82-100 | the conversion loses no field of the answer, and its images are exactly such own entries |
| PlayerRankHook.Decode | src/hooks/usePlayerRank.ts:62-102 | 404 gives "not ranked" without error; an entry exactly for an ok, parseable answer; each failure's message |
| PlayerRankHook.PlayerRankHook.FetchPlayerRank | src/hooks/usePlayerRank.ts:41-111 | mock mode gives no rank. A success gives the entry, 404 gives no rank and no error, and an error gives no rank plus the message. Loading ends on every path |
| PlayerRankHook.PlayerRankHook.RunEffect | src/hooks/usePlayerRank.ts:113-115 | an empty id fetches nothing and changes nothing, so the hook stays loading |
| Countdown.Tick | src/components/leaderboard/NewCountdownTimer.tsx:20-39 | in-range stays in range; an in-range non-zero time loses exactly one second; zero wraps to 30 d 23:59:59 |
| Countdown.TotalDetermines | src/components/leaderboard/CountdownTimer.tsx:20-38 | in range, the seconds left determine the display |
| Countdown.NewStartInRange | src/components/leaderboard/NewCountdownTimer.tsx:11-16 | the default start 25 d 6:45:01 is in range |
| Countdown.ClassicStartInRange | src/components/leaderboard/CountdownTimer.tsx:11-16 | the default start 25 d 16:29:22 is in range |
| Countdown.FormatNumber | src/components/leaderboard/NewCountdownTimer.tsx:45 | at least two characters ending in the number's own text, and that text alone once it has two or more characters; the same line is CountdownTimer.tsx:45 |
| Countdown.FormatNumberTwoDigits | src/components/leaderboard/CountdownTimer.tsx:45 | 0 to 99 show as two digits that read back as the value |
| PlayerListItem.MaskUsername | src/components/leaderboard/PlayerListItem.tsx:12-20 | names of up to 4 characters are unchanged; longer ones become 7 (short) or 10 (long) characters |
| PlayerListItem.MaskKeepsEnds | src/components/leaderboard/PlayerListItem.tsx:14-19 | the first 2 and last 2 (short) or 3 (long) characters are kept, asterisks in between |
| PlayerListItem.MaskIgnoresMiddle | src/components/leaderboard/PlayerListItem.tsx:15-19 | names agreeing on the kept ends are masked alike |
| PlayerListItem.RowClass | src/components/leaderboard/PlayerListItem.tsx:26 | the row is highlighted exactly for the current user |
| PlayerListItem.DefaultRowIsPlain | src/components/leaderboard/PlayerListItem.tsx:10 | `isCurrentUser` defaults to false |
| ColorUtils.RemoveFirst | src/lib/colorUtils.ts:8 | only the first `#` is removed |
| ColorUtils.Substring | src/lib/colorUtils.ts:11-13 | `substring` clamps its indices to the length, so past the end it gives the rest of the string from the clamped start |
| ColorUtils.ParseIntHex | src/lib/colorUtils.ts:11-13 | `parseInt(_, 16)` of a run of hex digits is its value; of the empty string it is NaN; any number it gives is below 16^length in magnitude |
| ColorUtils.Power16Monotone | src/lib/colorUtils.ts:11-13 | 16^m <= 16^n for m <= n, the step from a digit count to a bound on the parsed value |
| ColorUtils.Components | src/lib/colorUtils.ts:8-13 | the three parsed components of whatever `hex` is; each is NaN or below 256 in magnitude |
| ColorUtils.Render | src/lib/colorUtils.ts:15 | the template text opens with `rgba(` and closes with the opacity and `)`, whatever the components |
| ColorUtils.HexToRgba | src/lib/colorUtils.ts:6-16 | `Render` of `Components`: for six hex digits, with or without `#`, the three bytes in decimal (see `SixDigits`) |
| ColorUtils.TwoDigitValue | src/lib/colorUtils.ts:11-13 | two hex digits denote 16·hi + lo, at most 255 |
| ColorUtils.Channel | src/lib/colorUtils.ts:11-13 | channel `i` is the byte that digits `2i` and `2i + 1` denote |
| ColorUtils.ChannelParsed | src/lib/colorUtils.ts:11-15 | `parseInt` of the channel's two-character substring shows as that byte in decimal |
| ColorUtils.SixDigits | src/lib/colorUtils.ts:6-16 | six hex digits give `rgba(r, g, b, opacity)` with the three bytes, with or without `#` |
| ColorUtils.OnlyFirstHashRemoved | src/lib/colorUtils.ts:8 | a leading `#` is removed and the rest kept as it is |
| ColorUtils.DoubleHashIsNaN | src/lib/colorUtils.ts:8-11 | a second `#` survives and makes red NaN |
| ColorUtils.RedNaNShows | src/lib/colorUtils.ts:15 | a NaN component appears as `NaN` in the output |
| Branding.OrDefault | src/config/branding.ts:28-30 | an unset or empty variable gives the fallback |
| Branding.GetBrandingConfig | src/config/branding.ts:27-82 | a ButcherX code gives the fixed ButcherX configuration. Otherwise the code, name and domain pass through with their defaults, the hero title is name + " Leaderboard", the referral code is the name, and there are no games |
| Branding.IsButcher | src/config/branding.ts:33 | the code lower-cases to `butcher` or `butcherx`; such a code has 7 or 8 characters |
| Branding.DefaultConfig | src/config/branding.ts:62-81 | the default WAGER theme with the given code, name and domain, no games, and title, description and referral code built from the name |
| Branding.AsciiLowerMatches | src/config/branding.ts:33 | lower-casing gives a lower-case word exactly for its case variants |
| Branding.ButcherSelection | src/config/branding.ts:33 | ButcherX is chosen exactly for the case variants of `butcher` and `butcherx` |
| Branding.UnsetDefaults | src/config/branding.ts:28-30 | with nothing set: `default`, `WAGER`, `wager.com`, hero title `WAGER Leaderboard` |
| Branding.DefaultHeroTitle | src/config/branding.ts:77 | without a streamer name (the `WAGER` fallback of line 29), any default-branded site is titled `WAGER Leaderboard` |
| Branding.EmptyCodeIsUnset | src/config/branding.ts:28 | an empty streamer code is the same as an unset one |
| Branding.ButcherXFixed | src/config/branding.ts:34-58 | ButcherX has code `butcher`, name `ButcherX`, domain `BTXRewards.com`, referral `BTX` and a three-colour background, whatever the other variables say |

## Left out

- `KeyValueStore.IsLive`: a key counts as expired from the instant
  `now == expiresAt` on. Redis keeps it until the clock is past that
  instant, so the model drops a key one millisecond early. The expiry
  boundary is taken as exclusive.
- Construction of the Redis/Upstash client and of the Vercel request and
  response objects. The store is an abstract map with a clock. Requests and
  responses are datatypes.
- The client's automatic deserialization of GET results, and values other
  writers put under a cache key. The JSON stringify/parse round trip of the
  cache's own records is taken as the identity on the record. Any other
  non-empty text under a key is taken to fail to parse, so `get` gives null.
  The client built at api/lib/cache.ts:10-13 keeps the library's automatic
  deserialization on, so `redis.get` at line 51 would hand back an already
  parsed object and `JSON.parse` at line 57 would throw on it, making `get`
  answer null. `Cache.SetThenRead`, `Cache.LeaderboardCache.SetThenExpire`
  and the read endpoint's hit path describe the intended identity round
  trip, not what this client configuration returns; not executed.
- `fetch`, `response.text()`, `JSON.parse` and `response.json()`. Upstream
  replies are inputs: a network failure with its message, or a status line
  with a parsed body or a parse error. Parsed bodies are typed records.
  Shapes other than those modelled, such as a `player` field that is
  missing, are not modelled.
- The `'An error occurred'` fallback for thrown values that are not `Error`
  objects. Every failure in the modelled paths throws an `Error`.
- Numbers are integers. Floating-point values, NaN counts in the countdown,
  and `Math.floor` of non-integral inputs beyond integer division are left
  out. The `opacity` argument of `hexToRgba` is taken as the text the
  template renders for it.
- The order of keys in JSON objects. Bodies are maps.
- `Json.DataLength`: `data.data?.length` of an object that has its own
  `length` field counts as 0 here.
- JavaScript strings are sequences of UTF-16 code units. Here they are
  sequences of characters, which is the same for text without astral
  characters.
- Concurrency between serverless invocations, and any race between a
  refresh and a read.
- The React lifecycle (`useState`, `useEffect`, `useCallback`,
  `setInterval`), the 800 ms and 500 ms mock delays, and the intermediate
  `isLoading := true` that a render could observe. Each hook method is one
  completed run.
- `console.*` logging and the CORS headers.
- `formatValue` in the podium and table components, which relies on
  floating point, and every purely presentational or decorative component.
- src/config/api.ts is not part of this model. Its URL shapes are the ones
  the refresh job and the hooks build.
- `Cache.LeaderboardCache.Clear`: a store that answers KEYS is taken to
  answer the DEL that follows. A DEL failing after a successful KEYS is not
  modelled separately, because it would leave the store as a failing KEYS
  does.
