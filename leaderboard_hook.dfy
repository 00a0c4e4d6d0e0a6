/** The leaderboard hook (src/hooks/useLeaderboard.ts): fetches one page of a
    tournament's leaderboard, or serves the built-in mock entries, keeps the
    entries, the "has more" flag, the caller's own entry and an error, and
    splits the entries into the podium and the rest. The hook's React state
    is the field set of `LeaderboardHook`. */
module LeaderboardHook {
  import opened Wrappers
  import JsText
  import Http
  import opened LeaderboardTypes

  const DefaultApiHost: string := "https://api.wager.com"

  const InvalidJsonError: string := "Invalid JSON response from API"
  const NotAnArrayError: string := "API response data is not an array"

  /** One of the mock entries: cash prizes in USD, wager mechanic, an empty
      avatar, and player id equal to the rank. */
  function MockEntry(rank: int, uuid: string, username: string, vip: Option<Vip>, amount: string, value: string): Entry {
    Entry(rank, Player(rank, uuid, username, Some(""), vip), Prize("cash", amount, "USD"), value,
          Currency("USD", "$"), 1, "Wager", false)
  }

  /** The ten mock entries, each with `me` set to false: the podium, then
      ranks 4 to 10. */
  const MockDataWithMe: seq<Entry> := MockPodium + MockOthers

  const MockPodium: seq<Entry> := [
    MockEntry(1, "1", "mo*********er20", Some(Vip(1, "Diamond", 10)), "15,000.00", "1,584,371.59"),
    MockEntry(2, "2", "em*****king", Some(Vip(2, "Platinum 6", 8)), "8,000.00", "272,910.93"),
    MockEntry(3, "3", "ch*****shit", Some(Vip(3, "Platinum 3", 6)), "6,000.00", "178,098.88")
  ]

  const MockOthers: seq<Entry> := [
    MockEntry(4, "4", "br********reen", Some(Vip(4, "Platinum 6", 8)), "3,100.00", "122,642.73"),
    MockEntry(5, "5", "m***user", Some(Vip(5, "Gold", 5)), "1,820.00", "73,608.62"),
    MockEntry(6, "6", "Ga*********lacy", Some(Vip(6, "Gold", 4)), "1,200.00", "51,502.52"),
    MockEntry(7, "7", "z*xvly", Some(Vip(7, "Silver", 3)), "1,000.00", "51,135.92"),
    MockEntry(8, "8", "wi***nings", None, "850.00", "48,227.15"),
    MockEntry(9, "9", "Lu***ight", None, "700.00", "43,912.66"),
    MockEntry(10, "10", "Ju*****jump", None, "600.00", "39,804.88")
  ]

  /** `data.filter(entry => entry.rank <= 3)`. */
  function TopThree(data: seq<Entry>): (r: seq<Entry>)
    ensures forall e :: e in r ==> e in data && e.rank <= 3
    ensures forall e :: e in data && e.rank <= 3 ==> e in r
  {
    if data == [] then [] else (if data[0].rank <= 3 then [data[0]] else []) + TopThree(data[1..])
  }

  /** `data.filter(entry => entry.rank > 3)`. */
  function RestOf(data: seq<Entry>): (r: seq<Entry>)
    ensures forall e :: e in r ==> e in data && e.rank > 3
    ensures forall e :: e in data && e.rank > 3 ==> e in r
  {
    if data == [] then [] else (if data[0].rank > 3 then [data[0]] else []) + RestOf(data[1..])
  }

  /** `d` is `a` and `b` shuffled together, each keeping its own order. */
  predicate Interleaving(d: seq<Entry>, a: seq<Entry>, b: seq<Entry>)
    decreases |d|
  {
    if d == [] then
      a == [] && b == []
    else
      || (a != [] && a[0] == d[0] && Interleaving(d[1..], a[1..], b))
      || (b != [] && b[0] == d[0] && Interleaving(d[1..], a, b[1..]))
  }

  /** The podium and the rest split the entries, each keeping the order of
      the input. */
  lemma {:induction false} SplitIsInterleaving(data: seq<Entry>)
    ensures Interleaving(data, TopThree(data), RestOf(data))
  {
    if data != [] {
      var top, rest := TopThree(data), RestOf(data);
      SplitIsInterleaving(data[1..]);
      if data[0].rank <= 3 {
        assert top == [data[0]] + TopThree(data[1..]);
        assert rest == RestOf(data[1..]);
        assert top[0] == data[0] && top[1..] == TopThree(data[1..]);
      } else {
        assert rest == [data[0]] + RestOf(data[1..]);
        assert top == TopThree(data[1..]);
        assert rest[0] == data[0] && rest[1..] == RestOf(data[1..]);
      }
    }
  }

  /** Together the podium and the rest hold every entry exactly as often as
      the input does. */
  lemma {:induction false} SplitCovers(data: seq<Entry>)
    ensures multiset(TopThree(data)) + multiset(RestOf(data)) == multiset(data)
  {
    if data != [] {
      SplitCovers(data[1..]);
      assert data == [data[0]] + data[1..];
    }
  }

  /** The podium of two runs of entries is the podium of the first followed
      by that of the second. */
  lemma {:induction false} TopThreeAppend(a: seq<Entry>, b: seq<Entry>)
    ensures TopThree(a + b) == TopThree(a) + TopThree(b)
  {
    if a == [] {
      assert a + b == b;
    } else {
      var hd := if a[0].rank <= 3 then [a[0]] else [];
      assert (a + b)[0] == a[0] && (a + b)[1..] == a[1..] + b;
      calc {
        TopThree(a + b);
        hd + TopThree(a[1..] + b);
        { TopThreeAppend(a[1..], b); }
        hd + (TopThree(a[1..]) + TopThree(b));
        (hd + TopThree(a[1..])) + TopThree(b);
      }
    }
  }

  /** The same for the rest. */
  lemma {:induction false} RestOfAppend(a: seq<Entry>, b: seq<Entry>)
    ensures RestOf(a + b) == RestOf(a) + RestOf(b)
  {
    if a == [] {
      assert a + b == b;
    } else {
      var hd := if a[0].rank > 3 then [a[0]] else [];
      assert (a + b)[0] == a[0] && (a + b)[1..] == a[1..] + b;
      calc {
        RestOf(a + b);
        hd + RestOf(a[1..] + b);
        { RestOfAppend(a[1..], b); }
        hd + (RestOf(a[1..]) + RestOf(b));
        (hd + RestOf(a[1..])) + RestOf(b);
      }
    }
  }

  /** Entries that all rank in the top three go to the podium unchanged. */
  lemma {:induction false} AllPodium(data: seq<Entry>)
    requires forall i :: 0 <= i < |data| ==> data[i].rank <= 3
    ensures TopThree(data) == data && RestOf(data) == []
  {
    if data != [] {
      AllPodium(data[1..]);
    }
  }

  /** Entries that all rank below the top three all go to the rest. */
  lemma {:induction false} NonePodium(data: seq<Entry>)
    requires forall i :: 0 <= i < |data| ==> data[i].rank > 3
    ensures TopThree(data) == [] && RestOf(data) == data
  {
    if data != [] {
      NonePodium(data[1..]);
    }
  }

  /** `data.find(entry => entry.me === true)`: the first entry marked as the
      caller's own, if there is one. */
  function FindMe(data: seq<Entry>): (r: Option<Entry>)
    ensures r.None? <==> forall i :: 0 <= i < |data| ==> !data[i].me
    ensures r.Some? ==> exists i :: 0 <= i < |data| && data[i] == r.value && r.value.me
                                    && forall j :: 0 <= j < i ==> !data[j].me
  {
    if data == [] then None
    else if data[0].me then Some(data[0])
    else
      var r := FindMe(data[1..]);
      assert r.Some? ==> exists i :: 0 < i < |data| && data[i] == r.value && r.value.me
                                     && forall j :: 0 <= j < i ==> !data[j].me by {
        if r.Some? {
          var i :| 0 <= i < |data[1..]| && data[1..][i] == r.value && r.value.me
                   && forall j :: 0 <= j < i ==> !data[1..][j].me;
          assert data[i + 1] == r.value;
          assert forall j :: 0 <= j < i + 1 ==> !data[j].me by {
            forall j | 0 <= j < i + 1 ensures !data[j].me {
              if j > 0 { assert data[j] == data[1..][j - 1]; }
            }
          }
        }
      }
      r
  }

  /** The upstream request for one page of up to 100 entries. */
  function Url(apiHost: string, tournamentId: string, includeMe: bool): string {
    apiHost + "/player/api/v1/tournaments/" + tournamentId + "/leaderboard?per_page=100"
    + (if includeMe then "&include_me=true" else "")
  }

  /** `include_me` is asked for exactly when `includeMe` is set, as the one
      extra parameter at the end. */
  lemma UrlIncludeMe(apiHost: string, tournamentId: string)
    ensures Url(apiHost, tournamentId, true) == Url(apiHost, tournamentId, false) + "&include_me=true"
    ensures Url(apiHost, tournamentId, false)[|Url(apiHost, tournamentId, false)| - 12..] == "per_page=100"
  {
  }

  /** What `JSON.parse` made of the response text, as far as the hook reads
      it: `null` (on which reading `data` throws), or an object whose `data`
      is an array of entries or something else, and whose `has_more` is
      truthy or not. */
  datatype ResponseData = Entries(entries: seq<Entry>) | NotAnArray
  datatype Payload = Null | Payload(data: ResponseData, hasMore: bool)

  /** The state a successful fetch installs. */
  datatype Page = Page(entries: seq<Entry>, hasMore: bool, currentUser: Option<Entry>)

  /** The outcome of the fetch: the page, or the message of the error the
      `try` block throws. */
  function Decode(reply: Http.Reply<Payload>): (r: Result<Page>)
    ensures r.Ok? <==> reply.Answered? && Http.IsOk(reply.status) && reply.body.Parsed?
                       && reply.body.value.Payload? && reply.body.value.data.Entries?
    ensures r.Ok? ==> var p := reply.body.value;
                      r.value == Page(p.data.entries, p.hasMore, FindMe(p.data.entries))
    ensures reply.FetchFailed? ==> r == Err(reply.message)
    ensures reply.Answered? && !Http.IsOk(reply.status) ==>
              r == Err("Failed to fetch leaderboard data: " + JsText.IntToString(reply.status) + " " + reply.statusText)
    ensures reply.Answered? && Http.IsOk(reply.status) && reply.body.Unparseable? ==> r == Err(InvalidJsonError)
    ensures reply.Answered? && Http.IsOk(reply.status) && reply.body == Http.Parsed(Null) ==>
              r == Err(Http.NullPropertyError("data"))
    ensures reply.Answered? && Http.IsOk(reply.status) && reply.body.Parsed? && reply.body.value.Payload? ==>
              reply.body.value.data.NotAnArray? ==> r == Err(NotAnArrayError)
  {
    match reply
    case FetchFailed(message) => Err(message)
    case Answered(status, statusText, body) =>
      if !Http.IsOk(status) then
        Err("Failed to fetch leaderboard data: " + JsText.IntToString(status) + " " + statusText)
      else
        match body
        case Unparseable(_) => Err(InvalidJsonError)
        case Parsed(Null) => Err(Http.NullPropertyError("data"))
        case Parsed(Payload(NotAnArray, _)) => Err(NotAnArrayError)
        case Parsed(Payload(Entries(entries), hasMore)) => Ok(Page(entries, hasMore, FindMe(entries)))
  }

  /** A run of podium entries followed by a run of lower entries splits
      back into the two runs. */
  lemma {:induction false} PodiumThenOthers(podium: seq<Entry>, others: seq<Entry>)
    requires forall i :: 0 <= i < |podium| ==> podium[i].rank <= 3
    requires forall i :: 0 <= i < |others| ==> others[i].rank > 3
    ensures TopThree(podium + others) == podium && RestOf(podium + others) == others
  {
    AllPodium(podium);
    NonePodium(others);
    TopThreeAppend(podium, others);
    RestOfAppend(podium, others);
  }

  /** Mock mode: the podium is ranks 1, 2 and 3 in that order, seven entries
      follow, and none is the caller's own. */
  lemma MockSplit()
    ensures |TopThree(MockDataWithMe)| == 3
    ensures forall i :: 0 <= i < 3 ==> TopThree(MockDataWithMe)[i].rank == i + 1
    ensures |RestOf(MockDataWithMe)| == 7
    ensures FindMe(MockDataWithMe).None?
  {
    PodiumThenOthers(MockPodium, MockOthers);
    MockShape();
    MockNotMe();
  }

  lemma MockShape()
    ensures |MockPodium| == 3 && |MockOthers| == 7
    ensures forall i :: 0 <= i < 3 ==> MockPodium[i].rank == i + 1
  {
  }

  lemma MockNotMe()
    ensures FindMe(MockDataWithMe).None?
  {
    assert forall i :: 0 <= i < |MockDataWithMe| ==> !MockDataWithMe[i].me;
  }

  class LeaderboardHook {
    const tournamentId: Option<string>
    const useMockData: bool
    const apiHost: string
    const includeMe: bool

    var data: seq<Entry>
    var isLoading: bool
    var error: Option<string>
    var hasMore: bool
    var currentUser: Option<Entry>

    /** The options with their defaults, and the initial state. */
    constructor (tournamentId: Option<string>, useMockData: bool := true, apiHost: string := DefaultApiHost,
                 includeMe: bool := true)
      ensures this.tournamentId == tournamentId && this.useMockData == useMockData
      ensures this.apiHost == apiHost && this.includeMe == includeMe
      ensures data == [] && isLoading && error.None? && !hasMore && currentUser.None?
    {
      this.tournamentId := tournamentId;
      this.useMockData := useMockData;
      this.apiHost := apiHost;
      this.includeMe := includeMe;
      data := [];
      isLoading := true;
      error := None;
      hasMore := false;
      currentUser := None;
    }

    /** A tournament id that is set and not blank after trimming. */
    predicate HasId() {
      tournamentId.Some? && JsText.Trim(tournamentId.value) != []
    }

    /** The state `fetchLeaderboard` leaves behind, given a usable id, the
        state before, the reply the fetch got and the URL it asked for. */
    twostate predicate Fetched(reply: Http.Reply<Payload>, new url: Option<string>)
      requires HasId()
      reads this
    {
      && !isLoading
      && (if useMockData then
            && url.None? && error.None?
            && data == MockDataWithMe && !hasMore && currentUser.None?
          else
            && url == Some(Url(apiHost, tournamentId.value, includeMe))
            && match Decode(reply)
               case Ok(page) =>
                 error.None? && data == page.entries && hasMore == page.hasMore && currentUser == page.currentUser
               // The error is recorded and the mock entries shown; the flag
               // and the caller's entry keep their previous values.
               case Err(message) =>
                 error == Some(message) && data == MockDataWithMe
                 && hasMore == old(hasMore) && currentUser == old(currentUser))
    }

    /** `fetchLeaderboard`. `reply` is what the fetch would give; `url` is
        the request made, `None` when nothing is fetched. */
    method FetchLeaderboard(reply: Http.Reply<Payload>) returns (url: Option<string>)
      modifies this
      ensures !HasId() ==>
                url.None? && !isLoading
                && data == old(data) && error == old(error) && hasMore == old(hasMore) && currentUser == old(currentUser)
      ensures HasId() ==> Fetched(reply, url)
    {
      if !HasId() {
        isLoading := false;
        return None;
      }
      isLoading := true;
      error := None;
      url := None;
      if useMockData {
        data := MockDataWithMe;
        hasMore := false;
        currentUser := None;
      } else {
        url := Some(Url(apiHost, tournamentId.value, includeMe));
        var outcome := Decode(reply);
        match outcome {
          case Ok(page) =>
            data := page.entries;
            hasMore := page.hasMore;
            currentUser := page.currentUser;
          case Err(message) =>
            error := Some(message);
            data := MockDataWithMe;
        }
      }
      isLoading := false;
    }

    /** The effect that runs when the id changes: fetch for a usable id,
        otherwise reset to the empty, not-loading state. */
    method RunEffect(reply: Http.Reply<Payload>) returns (url: Option<string>)
      modifies this
      ensures !HasId() ==>
                url.None? && !isLoading && data == [] && currentUser.None? && !hasMore && error == old(error)
      ensures HasId() ==> Fetched(reply, url)
    {
      if HasId() {
        url := FetchLeaderboard(reply);
      } else {
        isLoading := false;
        data := [];
        currentUser := None;
        hasMore := false;
        url := None;
      }
    }
  }
}
