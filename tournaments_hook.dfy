/** The tournaments hook (src/hooks/useTournaments.ts): fetches the ongoing
    streamer tournaments, or uses a built-in mock, and picks the active one.
    The hook's React state is the field set of `TournamentsHook`. */
module TournamentsHook {
  import opened Wrappers
  import JsText
  import Json
  import Http

  const DefaultApiHost: string := "https://api.wager.com"
  const InvalidJsonError: string := "Invalid JSON response from tournaments API"

  /** A tournament id: a number from the API, or the mock's string. */
  datatype TournamentId = NumId(n: int) | StrId(s: string)

  /** `current_tournament`, reduced to what the hook reads: its id. */
  datatype CurrentTournament = CurrentTournament(id: int, name: string)

  /** A tournament: id, name and `current_tournament`, with every other field
      kept as JSON (the spread copies them unchanged). */
  datatype Tournament = Tournament(id: TournamentId, name: string, current: Option<CurrentTournament>,
                                   details: map<string, Json.Json>)

  /** The mock tournament, used in mock mode and after any error. */
  const MockTournament: Tournament :=
    Tournament(StrId("121134"), "Monthly Streamer Tournament", None,
               map["prize_pool" := Json.JStr("40000"), "end_date" := Json.JStr("2026-02-28T23:59:59Z"),
                   "status" := Json.JStr("ongoing"), "type" := Json.JStr("monthly")])

  function Url(apiHost: string): string {
    apiHost + "/player/api/v1/tournaments?categories[]=streamer&status[]=ongoing"
  }

  /** The id the active tournament is shown under: `current_tournament.id`
      when it is truthy (non-zero), else the tournament's own id. */
  function ActiveId(t: Tournament): (id: TournamentId)
    ensures t.current.Some? && t.current.value.id != 0 ==> id == NumId(t.current.value.id)
    ensures t.current.None? || t.current.value.id == 0 ==> id == t.id
  {
    if t.current.Some? && t.current.value.id != 0 then NumId(t.current.value.id) else t.id
  }

  /** `{...tournament, id: tournamentId}`: the tournament under its active id,
      every other field as it was. */
  function Activated(t: Tournament): (a: Tournament)
    ensures a.id == ActiveId(t)
    ensures a.name == t.name && a.current == t.current && a.details == t.details
  {
    t.(id := ActiveId(t))
  }

  /** Picking the active id twice changes nothing more: the result already
      carries the id it would be given. */
  lemma ActivatedIdempotent(t: Tournament)
    ensures Activated(Activated(t)) == Activated(t)
  {
  }

  /** A tournament without a usable current tournament keeps its own id. */
  lemma ActivatedWithoutCurrent(t: Tournament)
    requires t.current.None? || t.current.value.id == 0
    ensures Activated(t) == t
  {
  }

  /** What `JSON.parse` made of the response text: `null` (on which reading
      `data` throws), or an object whose `data` is an array or absent. */
  datatype Payload = Null | Payload(data: Option<seq<Tournament>>)

  /** The outcome of the fetch: the tournament list (`result.data || []`), or
      the message of the error the `try` block throws. */
  function Decode(reply: Http.Reply<Payload>): (r: Result<seq<Tournament>>)
    ensures r.Ok? <==> reply.Answered? && Http.IsOk(reply.status) && reply.body.Parsed? && reply.body.value.Payload?
    ensures r.Ok? ==> r.value == reply.body.value.data.GetOr([])
    ensures reply.FetchFailed? ==> r == Err(reply.message)
    ensures reply.Answered? && !Http.IsOk(reply.status) ==>
              r == Err("Failed to fetch tournaments: " + JsText.IntToString(reply.status))
    ensures reply.Answered? && Http.IsOk(reply.status) && reply.body.Unparseable? ==> r == Err(InvalidJsonError)
    ensures reply.Answered? && Http.IsOk(reply.status) && reply.body == Http.Parsed(Null) ==>
              r == Err(Http.NullPropertyError("data"))
  {
    match reply
    case FetchFailed(message) => Err(message)
    case Answered(status, _, body) =>
      if !Http.IsOk(status) then Err("Failed to fetch tournaments: " + JsText.IntToString(status))
      else
        match body
        case Unparseable(_) => Err(InvalidJsonError)
        case Parsed(Null) => Err(Http.NullPropertyError("data"))
        case Parsed(Payload(data)) => Ok(data.GetOr([]))
  }

  class TournamentsHook {
    const apiHost: string
    const useMockData: bool

    var tournaments: seq<Tournament>
    var activeTournament: Option<Tournament>
    var isLoading: bool
    var error: Option<string>

    /** The options with their defaults, and the initial state. */
    constructor (apiHost: string := DefaultApiHost, useMockData: bool := false)
      ensures this.apiHost == apiHost && this.useMockData == useMockData
      ensures tournaments == [] && activeTournament.None? && isLoading && error.None?
    {
      this.apiHost := apiHost;
      this.useMockData := useMockData;
      tournaments := [];
      activeTournament := None;
      isLoading := true;
      error := None;
    }

    /** `fetchTournaments`. `reply` is what the fetch would give; `url` is
        the request made, `None` in mock mode. */
    method FetchTournaments(reply: Http.Reply<Payload>) returns (url: Option<string>)
      modifies this
      ensures !isLoading
      ensures useMockData ==>
                url.None? && error.None? && tournaments == [MockTournament] && activeTournament == Some(MockTournament)
      ensures !useMockData ==>
                url == Some(Url(apiHost))
                && match Decode(reply)
                   case Ok(list) =>
                     // An empty list leaves the active tournament as it was.
                     && error.None? && tournaments == list
                     && activeTournament == if list == [] then old(activeTournament) else Some(Activated(list[0]))
                   case Err(message) =>
                     error == Some(message) && tournaments == [MockTournament] && activeTournament == Some(MockTournament)
    {
      isLoading := true;
      error := None;
      url := None;
      if useMockData {
        tournaments := [MockTournament];
        activeTournament := Some(MockTournament);
      } else {
        url := Some(Url(apiHost));
        var outcome := Decode(reply);
        match outcome {
          case Ok(list) =>
            tournaments := list;
            if |list| > 0 {
              activeTournament := Some(Activated(list[0]));
            }
          case Err(message) =>
            error := Some(message);
            tournaments := [MockTournament];
            activeTournament := Some(MockTournament);
        }
      }
      isLoading := false;
    }
  }

  /** The first fetch of a fresh hook against an empty list sets no active
      tournament: it stays at its initial `None`. */
  method FirstFetchOfEmptyList(apiHost: string) returns (hook: TournamentsHook)
    ensures hook.activeTournament.None? && hook.tournaments == [] && hook.error.None? && !hook.isLoading
  {
    hook := new TournamentsHook(apiHost, false);
    var _ := hook.FetchTournaments(Http.Answered(200, "OK", Http.Parsed(Payload(Some([])))));
  }
}
