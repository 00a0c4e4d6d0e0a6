/** The player-rank hook (src/hooks/usePlayerRank.ts): fetches the caller's
    own rank in a tournament and turns it into a leaderboard entry; "not
    ranked" (HTTP 404) is not an error. The hook's React state is the field
    set of `PlayerRankHook`. */
module PlayerRankHook {
  import opened Wrappers
  import JsText
  import Http
  import opened LeaderboardTypes

  const DefaultApiHost: string := "https://api.wager.com"
  const InvalidJsonError: string := "Invalid JSON response from rank API"

  datatype RankPlayer = RankPlayer(id: int, uuid: string, username: string)

  /** The rank endpoint's answer. */
  datatype RankResponse = RankResponse(rank: int, player: RankPlayer, prize: Prize, value: string,
                                       currency: Currency, mechanicType: int, mechanicTypeName: string)

  /** The conversion to a leaderboard entry: every field of the answer is
      copied, the avatar is `null`, there is no VIP level, and the entry is
      marked as the caller's own. */
  function ToEntry(r: RankResponse): (e: Entry)
    ensures e.me && e.player.avatarUrl.None? && e.player.vip.None?
  {
    Entry(r.rank, Player(r.player.id, r.player.uuid, r.player.username, None, None), r.prize, r.value,
          r.currency, r.mechanicType, r.mechanicTypeName, true)
  }

  /** The rank-endpoint fields of an entry. */
  function ToRankResponse(e: Entry): RankResponse {
    RankResponse(e.rank, RankPlayer(e.player.id, e.player.uuid, e.player.username), e.prize, e.value,
                 e.currency, e.mechanicType, e.mechanicTypeName)
  }

  /** An entry as the conversion builds it. */
  predicate IsOwnRankEntry(e: Entry) {
    e.me && e.player.avatarUrl.None? && e.player.vip.None?
  }

  /** The conversion loses nothing of the answer, and its images are exactly
      the caller's own entries without avatar or VIP level. */
  lemma ToEntryRoundTrip(r: RankResponse, e: Entry)
    ensures ToRankResponse(ToEntry(r)) == r
    ensures IsOwnRankEntry(e) <==> ToEntry(ToRankResponse(e)) == e
  {
  }

  function Url(apiHost: string, tournamentId: string): string {
    apiHost + "/player/api/v1/tournaments/" + tournamentId + "/rank"
  }

  /** What `JSON.parse` made of the response text: `null` (on which reading
      `rank` throws), or a rank answer. */
  datatype Payload = Null | Rank(response: RankResponse)

  /** The outcome of the fetch: the entry, `None` for "not ranked", or the
      message of the error the `try` block throws. */
  function Decode(reply: Http.Reply<Payload>): (r: Result<Option<Entry>>)
    ensures r == Ok(None) <==> reply.Answered? && reply.status == 404
    ensures r.Ok? && r.value.Some? <==>
              reply.Answered? && Http.IsOk(reply.status) && reply.body.Parsed? && reply.body.value.Rank?
    ensures r.Ok? && r.value.Some? ==> r.value.value == ToEntry(reply.body.value.response)
    ensures reply.FetchFailed? ==> r == Err(reply.message)
    ensures reply.Answered? && !Http.IsOk(reply.status) && reply.status != 404 ==>
              r == Err("Failed to fetch player rank: " + JsText.IntToString(reply.status))
    ensures reply.Answered? && Http.IsOk(reply.status) && reply.body.Unparseable? ==> r == Err(InvalidJsonError)
    ensures reply.Answered? && Http.IsOk(reply.status) && reply.body == Http.Parsed(Null) ==>
              r == Err(Http.NullPropertyError("rank"))
  {
    match reply
    case FetchFailed(message) => Err(message)
    case Answered(status, _, body) =>
      if !Http.IsOk(status) then
        if status == 404 then Ok(None) else Err("Failed to fetch player rank: " + JsText.IntToString(status))
      else
        match body
        case Unparseable(_) => Err(InvalidJsonError)
        case Parsed(Null) => Err(Http.NullPropertyError("rank"))
        case Parsed(Rank(response)) => Ok(Some(ToEntry(response)))
  }

  class PlayerRankHook {
    const tournamentId: string
    const apiHost: string
    const useMockData: bool

    var playerRank: Option<Entry>
    var isLoading: bool
    var error: Option<string>

    /** The options with their defaults, and the initial state. */
    constructor (tournamentId: string, apiHost: string := DefaultApiHost, useMockData: bool := false)
      ensures this.tournamentId == tournamentId && this.apiHost == apiHost && this.useMockData == useMockData
      ensures playerRank.None? && isLoading && error.None?
    {
      this.tournamentId := tournamentId;
      this.apiHost := apiHost;
      this.useMockData := useMockData;
      playerRank := None;
      isLoading := true;
      error := None;
    }

    /** The state `fetchPlayerRank` leaves behind: loading is over on every
        path, the 404 one included; every error clears the rank. */
    predicate Fetched(reply: Http.Reply<Payload>, url: Option<string>)
      reads this
    {
      && !isLoading
      && (if useMockData then
            url.None? && playerRank.None? && error.None?
          else
            && url == Some(Url(apiHost, tournamentId))
            && match Decode(reply)
               case Ok(rank) => playerRank == rank && error.None?
               case Err(message) => playerRank.None? && error == Some(message))
    }

    /** `fetchPlayerRank`. `reply` is what the fetch would give; `url` is the
        request made, `None` in mock mode. */
    method FetchPlayerRank(reply: Http.Reply<Payload>) returns (url: Option<string>)
      modifies this
      ensures Fetched(reply, url)
    {
      isLoading := true;
      error := None;
      url := None;
      if useMockData {
        playerRank := None;
      } else {
        url := Some(Url(apiHost, tournamentId));
        var outcome := Decode(reply);
        match outcome {
          case Ok(rank) =>
            playerRank := rank;
          case Err(message) =>
            error := Some(message);
            playerRank := None;
        }
      }
      isLoading := false;
    }

    /** The effect: an empty tournament id fetches nothing and changes
        nothing, so the hook stays loading. */
    method RunEffect(reply: Http.Reply<Payload>) returns (url: Option<string>)
      modifies this
      ensures tournamentId == "" ==>
                url.None? && playerRank == old(playerRank) && isLoading == old(isLoading) && error == old(error)
      ensures tournamentId != "" ==> Fetched(reply, url)
    {
      url := None;
      if tournamentId != "" {
        url := FetchPlayerRank(reply);
      }
    }
  }
}
