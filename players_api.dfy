/** The player endpoints of the backend (`/players/{id}/details`, `/matches`, `/transfers`,
  * `/players/search`, `/players/compare`) and their own request helper. As for the team endpoints,
  * an outcome is the reshaped record or the HTTP error, with the provider requests made. */
module PlayersApi {
  import opened Wrappers
  import opened PyJson
  import opened PyLoops
  import opened Upstream
  import Text
  import TeamsApi

  // ---------------------------------------------------------------- make_api_request

  /** The decoded body of a 200 answer, whatever JSON it holds; `{"response": []}` for another
    * status, a transport failure, or a body that is not JSON (the decode error is raised inside
    * the `try` and caught). */
  function PlayersApiRequest(reply: Reply): (r: Json)
    ensures reply.Reply? && reply.status == 200 && reply.body.Some? ==> r == reply.body.value
    ensures !(reply.Reply? && reply.status == 200 && reply.body.Some?) ==> r == EmptyResponse
  {
    if reply.Reply? && reply.status == 200 && reply.body.Some? then reply.body.value else EmptyResponse
  }

  /** `{"id": x["id"], "name": x["name"], "logo": x["logo"]}`. */
  datatype TeamRef = TeamRef(id: Json, name: Json, logo: Json)

  function TeamRefOf(team: Json): (r: PyResult<TeamRef>)
    ensures r.Ok? <==> team.JDict? && "id" in team.fields && "name" in team.fields && "logo" in team.fields
    ensures r.Ok? ==>
      r.value == TeamRef(team.fields["id"], team.fields["name"], team.fields["logo"])
  {
    var id :- Index(team, "id");
    var name :- Key(team.fields, "name");
    var logo :- Key(team.fields, "logo");
    Ok(TeamRef(id, name, logo))
  }

  /** `current_team`: None unless the statistics block has a truthy `team`. */
  function CurrentTeamOf(statistics: map<string, Json>): (r: PyResult<Option<TeamRef>>)
    ensures !Truthy(At(statistics, "team", JNull)) ==> r == Ok(None)
    ensures r.Ok? && r.value.Some? ==> TeamRefOf(statistics["team"]) == Ok(r.value.value)
  {
    var team := At(statistics, "team", JNull);
    if !Truthy(team) then Ok(None)
    else
      var t :- TeamRefOf(team);
      Ok(Some(t))
  }

  // ---------------------------------------------------------------- get_player_details

  /** `performance`: every counter read with `.get(key, 0)`, so a present None stays None. */
  datatype PlayerPerformance = PlayerPerformance(
    position: Json, appearances: Json, minutes: Json, rating: Json, captain: Json,
    goals: Json, assists: Json, yellowCards: Json, redCards: Json)

  function PerformanceOf(statistics: map<string, Json>): PyResult<PlayerPerformance> {
    var games :- Fields(At(statistics, "games", EmptyDict));
    var goals :- Fields(At(statistics, "goals", EmptyDict));
    var cards :- Fields(At(statistics, "cards", EmptyDict));
    Ok(PlayerPerformance(At(games, "position", JNull), At(games, "appearences", JInt(0)),
                         At(games, "minutes", JInt(0)), At(games, "rating", JNull),
                         At(games, "captain", JBool(false)), At(goals, "total", JInt(0)),
                         At(goals, "assists", JInt(0)), At(cards, "yellow", JInt(0)), At(cards, "red", JInt(0))))
  }

  /** A missing counter reads as 0 but a counter the provider sends as None stays None. */
  lemma PerformanceDefaults(games: map<string, Json>, rest: map<string, Json>)
    requires "appearences" !in games
    requires "minutes" in games && games["minutes"] == JNull
    ensures
      var p := PerformanceOf(rest["games" := JDict(games)]);
      p.Ok? <==> (Get(At(rest, "goals", EmptyDict), "total", JNull).Ok? &&
                  Get(At(rest, "cards", EmptyDict), "yellow", JNull).Ok?)
    ensures
      var p := PerformanceOf(rest["games" := JDict(games)]);
      p.Ok? ==> p.value.appearances == JInt(0) && p.value.minutes == JNull
  {
  }

  /** `calculated_stats`: the rates when `appearances > 0` (a None or non-numeric count raises),
    * `{}` otherwise; the minutes rate is 0 without recorded minutes. */
  function CalculatedOf(p: PlayerPerformance): (r: PyResult<Option<TeamsApi.RateStats>>)
    ensures !(p.appearances.JInt? || p.appearances.JBool?) ==> r.Raise?
    ensures AsNumber(p.appearances).Some? && AsNumber(p.appearances).value <= 0 ==> r == Ok(None)
  {
    var positive :- Greater(p.appearances, JInt(0));
    if !positive then Ok(None)
    else
      var goals :- Div(p.goals, p.appearances);
      var assists :- Div(p.assists, p.appearances);
      var minutes :- if Truthy(p.minutes) then Div(p.minutes, p.appearances) else Ok(0.0);
      var contribution :- Add(p.goals, p.assists);
      Ok(Some(TeamsApi.RateStats(goals, assists, minutes, contribution)))
  }

  /** With integer counters, the rates exist exactly for a positive appearance count; they are
    * the counts over the appearances, the minutes rate is 0 when no minutes are recorded, and the
    * contribution is goals plus assists. */
  lemma CalculatedMeaning(apps: int, goals: int, assists: int, minutes: int, rest: PlayerPerformance)
    ensures
      var p := rest.(appearances := JInt(apps), goals := JInt(goals), assists := JInt(assists), minutes := JInt(minutes));
      var r := CalculatedOf(p);
      r.Ok? && (r.value.Some? <==> apps > 0) &&
      (apps > 0 ==>
        r.value.value.goalContribution == goals + assists &&
        r.value.value.goalsPerMatch * (apps as real) == goals as real &&
        r.value.value.assistsPerMatch * (apps as real) == assists as real &&
        (minutes == 0 ==> r.value.value.minutesPerMatch == 0.0) &&
        r.value.value.minutesPerMatch * (apps as real) == minutes as real)
  {
  }

  /** The details record, without its `last_update` clock stamp. */
  datatype PlayerDetails = PlayerDetails(
    id: Json, name: Json, firstname: Json, lastname: Json, age: Json,
    birthDate: Json, birthPlace: Json, birthCountry: Json,
    nationality: Json, height: Json, weight: Json, injured: Json, photo: Json,
    currentTeam: Option<TeamRef>, performance: PlayerPerformance,
    calculated: Option<TeamsApi.RateStats>, season: int, league: int)

  const PlayerNotFound := "Joueur non trouvé"
  const FetchFailed := "Erreur lors de la récupération"

  function PlayerDetailsOf(playerStats: Json, league: int, season: int): (r: TryResult<PlayerDetails>)
    ensures Get(playerStats, "response", JNull).Ok? && !Truthy(Get(playerStats, "response", JNull).value) ==>
      r == Raise(Http(HttpError(404, PlayerNotFound)))
    ensures r.Ok? ==> r.value.league == league && r.value.season == season
    ensures r.Ok? ==> CalculatedOf(r.value.performance) == Ok(r.value.calculated)
    ensures r.Raise? && r.error.Http? ==> r.error.error == HttpError(404, PlayerNotFound)
  {
    var resp :- Lift(Get(playerStats, "response", JNull));
    if !Truthy(resp) then Raise(Http(HttpError(404, PlayerNotFound)))
    else
      var n :- Lift(Len(resp));
      if n == 0 then Raise(Http(HttpError(404, PlayerNotFound)))
      else
        var playerData :- Lift(Nth(resp, 0));
        var player :- Lift(Index(playerData, "player"));
        var statistics :- Lift(FirstOrEmpty(playerData.fields, "statistics"));
        var stats :- Lift(Fields(statistics));
        var currentTeam :- Lift(CurrentTeamOf(stats));
        var performance :- Lift(PerformanceOf(stats));
        var calculated :- Lift(CalculatedOf(performance));
        var id :- Lift(Index(player, "id"));
        var p := player.fields;
        var name :- Lift(Key(p, "name"));
        var birth :- Lift(Fields(At(p, "birth", EmptyDict)));
        Ok(PlayerDetails(id, name, At(p, "firstname", JNull), At(p, "lastname", JNull), At(p, "age", JNull),
                         At(birth, "date", JNull), At(birth, "place", JNull), At(birth, "country", JNull),
                         At(p, "nationality", JNull), At(p, "height", JNull), At(p, "weight", JNull),
                         At(p, "injured", JBool(false)), At(p, "photo", JNull),
                         currentTeam, performance, calculated, season, league))
  }

  function PlayerRequest(playerId: Json, league: int, season: int): Request {
    Request("players", map["id" := playerId, "league" := JInt(league), "season" := JInt(season)])
  }

  /** The details endpoint (one model for both of the source's identical definitions; the second
    * rebinds the name). The player id is any JSON value because the comparison endpoint passes
    * the ids of its request body unchecked. */
  function GetPlayerDetails(api: Request -> Reply, playerId: Json, league: int, season: int): (h: Handled<PlayerDetails>)
    ensures h.calls == [PlayerRequest(playerId, league, season)]
    ensures h.result.Raise? ==>
      h.result.error == HttpError(404, PlayerNotFound) || h.result.error == HttpError(500, FetchFailed)
  {
    var call := PlayerRequest(playerId, league, season);
    Handled(ReraiseHttp(PlayerDetailsOf(PlayersApiRequest(api(call)), league, season), FetchFailed), [call])
  }

  /** A player the provider does not answer for (any failure of the request) is a 404. */
  lemma PlayerNotFoundOnProviderFailure(api: Request -> Reply, playerId: Json, league: int, season: int)
    requires !(api(PlayerRequest(playerId, league, season)).Reply? &&
               api(PlayerRequest(playerId, league, season)).status == 200)
    ensures GetPlayerDetails(api, playerId, league, season).result == Raise(HttpError(404, PlayerNotFound))
  {
  }

  /** `current_team` is None unless the first statistics block names a team. */
  lemma CurrentTeamNeedsTeam(player: Json, block: map<string, Json>, rest: map<string, Json>, league: int, season: int)
    requires "team" !in block
    ensures
      var item := JDict(rest["player" := player]["statistics" := JList([JDict(block)])]);
      var r := PlayerDetailsOf(JDict(map["response" := JList([item])]), league, season);
      r.Ok? ==> r.value.currentTeam.None?
  {
    var item := JDict(rest["player" := player]["statistics" := JList([JDict(block)])]);
    assert FirstOrEmpty(item.fields, "statistics") == Ok(JDict(block));
  }

  // ---------------------------------------------------------------- get_player_matches

  datatype PlayerMatch = PlayerMatch(
    id: Json, date: Json, status: Json, homeTeam: TeamRef, awayTeam: TeamRef, scoreHome: Json, scoreAway: Json)

  function PlayerMatchOf(fixture: Json): PyResult<PlayerMatch> {
    var id :- IndexPath(fixture, ["fixture", "id"]);
    var date :- IndexPath(fixture, ["fixture", "date"]);
    var status :- IndexPath(fixture, ["fixture", "status", "short"]);
    var home :- IndexPath(fixture, ["teams", "home"]);
    var homeTeam :- TeamRefOf(home);
    var away :- IndexPath(fixture, ["teams", "away"]);
    var awayTeam :- TeamRefOf(away);
    var scoreHome :- IndexPath(fixture, ["goals", "home"]);
    var scoreAway :- IndexPath(fixture, ["goals", "away"]);
    Ok(PlayerMatch(id, date, status, homeTeam, awayTeam, scoreHome, scoreAway))
  }

  /** The `matches` loop. */
  method BuildPlayerMatches(fixtures: seq<Json>) returns (r: PyResult<seq<PlayerMatch>>)
    ensures r == MapR(PlayerMatchOf, fixtures)
  {
    var out: seq<PlayerMatch> := [];
    var i := 0;
    while i < |fixtures|
      invariant 0 <= i <= |fixtures|
      invariant MapR(PlayerMatchOf, fixtures[..i]) == Ok(out)
    {
      assert fixtures[..i + 1][..i] == fixtures[..i];
      var m := PlayerMatchOf(fixtures[i]);
      if m.Raise? {
        MapRPrefixRaise(PlayerMatchOf, fixtures, i + 1);
        return Raise(m.error);
      }
      out := out + [m.value];
      i := i + 1;
    }
    assert fixtures[..i] == fixtures;
    r := Ok(out);
  }

  datatype PlayerMatches = PlayerMatches(playerId: int, matches: seq<PlayerMatch>, total: nat, season: int, league: int)

  function PlayerMatchesBody(fixturesData: Json, playerId: int, league: int, season: int, limit: int): (r: PyResult<PlayerMatches>)
    ensures r.Ok? ==> r.value.total == |r.value.matches|
  {
    var resp :- Get(fixturesData, "response", JNull);
    var matches :-
      if !Truthy(resp) then Ok([])
      else
        var first :- Slice(resp, 0, limit);
        var fixtures :- Elements(first);
        MapR(PlayerMatchOf, fixtures);
    Ok(PlayerMatches(playerId, matches, |matches|, season, league))
  }

  /** `[:limit]`: the first `limit` fixtures, or all but the last `-limit` for a negative limit,
    * one match per kept fixture in order. */
  lemma PlayerMatchesKept(fixtures: seq<Json>, rest: map<string, Json>, playerId: int, league: int, season: int, limit: int)
    requires fixtures != []
    requires PlayerMatchesBody(JDict(rest["response" := JList(fixtures)]), playerId, league, season, limit).Ok?
    ensures
      var out := PlayerMatchesBody(JDict(rest["response" := JList(fixtures)]), playerId, league, season, limit).value;
      var kept := fixtures[..SliceBound(limit, |fixtures|)];
      |out.matches| == |kept| &&
      (limit >= 0 ==> |kept| == if limit < |fixtures| then limit else |fixtures|) &&
      (limit < 0 ==> |kept| == if -limit < |fixtures| then |fixtures| + limit else 0) &&
      forall i :: 0 <= i < |kept| ==> PlayerMatchOf(kept[i]) == Ok(out.matches[i])
  {
    var kept := fixtures[..SliceBound(limit, |fixtures|)];
    assert Slice(JList(fixtures), 0, limit) == Ok(JList(kept));
    MapROk(PlayerMatchOf, kept);
  }

  function MatchesRequest(playerId: int, league: int, season: int, limit: int): Request {
    Request("fixtures/players",
      map["player" := JInt(playerId), "league" := JInt(league), "season" := JInt(season), "last" := JInt(limit)])
  }

  function GetPlayerMatches(api: Request -> Reply, playerId: int, league: int, season: int, limit: int): (h: Handled<PlayerMatches>)
    ensures h.calls == [MatchesRequest(playerId, league, season, limit)]
    ensures h.result.Raise? ==> h.result.error == HttpError(500, FetchFailed)
  {
    var call := MatchesRequest(playerId, league, season, limit);
    Handled(Internal(PlayerMatchesBody(PlayersApiRequest(api(call)), playerId, league, season, limit), FetchFailed), [call])
  }

  // ---------------------------------------------------------------- get_player_transfers

  datatype Transfer = Transfer(date: Json, kind: Json, fromTeam: Option<TeamRef>, toTeam: Option<TeamRef>)

  /** `transfer["teams"][side]` as a team reference when `transfer.get("teams", {}).get(side)` is truthy. */
  function TransferSide(teams: map<string, Json>, side: string): (r: PyResult<Option<TeamRef>>)
    ensures !Truthy(At(teams, side, JNull)) ==> r == Ok(None)
    ensures r.Ok? && r.value.Some? ==> TeamRefOf(teams[side]) == Ok(r.value.value)
  {
    var team := At(teams, side, JNull);
    if !Truthy(team) then Ok(None)
    else
      var t :- TeamRefOf(team);
      Ok(Some(t))
  }

  function TransferOf(transfer: Json): PyResult<Transfer> {
    var t :- Fields(transfer);
    var teams :- Fields(At(t, "teams", EmptyDict));
    var fromTeam :- TransferSide(teams, "in");
    var toTeam :- TransferSide(teams, "out");
    Ok(Transfer(At(t, "date", JNull), At(t, "type", JNull), fromTeam, toTeam))
  }

  /** A transfer without `teams` has neither a from nor a to team. */
  lemma TransferWithoutTeams(t: map<string, Json>)
    requires "teams" !in t
    ensures TransferOf(JDict(t)) == Ok(Transfer(At(t, "date", JNull), At(t, "type", JNull), None, None))
  {
  }

  /** One response element's `transfers` list (default `[]`). */
  function TransferListOf(item: Json): PyResult<seq<Json>> {
    var transfers :- Get(item, "transfers", EmptyList);
    Elements(transfers)
  }

  function TransfersOfItem(item: Json): PyResult<seq<Transfer>> {
    var transfers :- TransferListOf(item);
    MapR(TransferOf, transfers)
  }

  /** The nested `transfers` loops: every transfer of every element, in order. */
  method CollectTransfers(items: seq<Json>) returns (r: PyResult<seq<Transfer>>)
    ensures r == FlatMapR(TransfersOfItem, items)
  {
    var transfers: seq<Transfer> := [];
    var i := 0;
    while i < |items|
      invariant 0 <= i <= |items|
      invariant FlatMapR(TransfersOfItem, items[..i]) == Ok(transfers)
    {
      assert items[..i + 1][..i] == items[..i];
      var listR := TransferListOf(items[i]);
      if listR.Raise? {
        FlatMapRPrefixRaise(TransfersOfItem, items, i + 1);
        return Raise(listR.error);
      }
      var list := listR.value;
      var more := AppendTransfers(transfers, list);
      if more.Raise? {
        FlatMapRPrefixRaise(TransfersOfItem, items, i + 1);
        return more;
      }
      transfers := more.value;
      i := i + 1;
    }
    assert items[..i] == items;
    r := Ok(transfers);
  }

  /** The inner loop over one element's `transfers`, appending to the list built so far. */
  method AppendTransfers(transfers: seq<Transfer>, list: seq<Json>) returns (r: PyResult<seq<Transfer>>)
    ensures MapR(TransferOf, list).Ok? ==> r == Ok(transfers + MapR(TransferOf, list).value)
    ensures MapR(TransferOf, list).Raise? ==> r == Raise(MapR(TransferOf, list).error)
  {
    var out := transfers;
    var j := 0;
    while j < |list|
      invariant 0 <= j <= |list|
      invariant MapR(TransferOf, list[..j]).Ok?
      invariant out == transfers + MapR(TransferOf, list[..j]).value
    {
      assert list[..j + 1][..j] == list[..j];
      var t := TransferOf(list[j]);
      if t.Raise? {
        MapRPrefixRaise(TransferOf, list, j + 1);
        return Raise(t.error);
      }
      out := out + [t.value];
      j := j + 1;
    }
    assert list[..j] == list;
    r := Ok(out);
  }

  datatype PlayerTransfers = PlayerTransfers(playerId: int, transfers: seq<Transfer>, total: nat)

  function PlayerTransfersBody(transfersData: Json, playerId: int): (r: PyResult<PlayerTransfers>)
    ensures r.Ok? ==> r.value.total == |r.value.transfers|
  {
    var resp :- Get(transfersData, "response", JNull);
    var transfers :-
      if !Truthy(resp) then Ok([])
      else
        var items :- Elements(resp);
        FlatMapR(TransfersOfItem, items);
    Ok(PlayerTransfers(playerId, transfers, |transfers|))
  }

  /** Two response elements contribute their transfers one after the other. */
  lemma TransfersFlattenInOrder(a: Json, b: Json)
    requires TransfersOfItem(a).Ok? && TransfersOfItem(b).Ok?
    ensures FlatMapR(TransfersOfItem, [a, b]) == Ok(TransfersOfItem(a).value + TransfersOfItem(b).value)
  {
    FlatMapRAppend(TransfersOfItem, [a], [b]);
    FlatMapRSingle(TransfersOfItem, a);
    FlatMapRSingle(TransfersOfItem, b);
    assert [a] + [b] == [a, b];
  }

  function TransfersRequest(playerId: int): Request {
    Request("transfers", map["player" := JInt(playerId)])
  }

  function GetPlayerTransfers(api: Request -> Reply, playerId: int): (h: Handled<PlayerTransfers>)
    ensures h.calls == [TransfersRequest(playerId)]
    ensures h.result.Raise? ==> h.result.error == HttpError(500, FetchFailed)
  {
    var call := TransfersRequest(playerId);
    Handled(Internal(PlayerTransfersBody(PlayersApiRequest(api(call)), playerId), FetchFailed), [call])
  }

  // ---------------------------------------------------------------- search_players

  /** `search_params`: the season is pinned to 2023 together with a (truthy) league filter. */
  function SearchParams(q: string, league: Option<int>): (m: map<string, Json>)
    ensures "search" in m && m["search"] == JStr(q)
    ensures ("league" in m) <==> league.Some? && league.value != 0
    ensures ("season" in m) <==> ("league" in m)
    ensures "league" in m ==> m["league"] == JInt(league.value) && m["season"] == JInt(2023)
    ensures m.Keys <= {"search", "league", "season"}
  {
    var m := map["search" := JStr(q)];
    if league.Some? && league.value != 0 then m["league" := JInt(league.value)]["season" := JInt(2023)] else m
  }

  datatype SearchPerformance = SearchPerformance(position: Json, goals: Json, assists: Json, appearances: Json)

  datatype SearchResult = SearchResult(
    id: Json, name: Json, age: Json, nationality: Json, photo: Json,
    currentTeam: Option<TeamRef>, performance: Option<SearchPerformance>)

  function SearchPerformanceOf(statistics: map<string, Json>): PyResult<SearchPerformance> {
    var games :- Fields(At(statistics, "games", EmptyDict));
    var goals :- Fields(At(statistics, "goals", EmptyDict));
    Ok(SearchPerformance(At(games, "position", JNull), At(goals, "total", JInt(0)),
                         At(goals, "assists", JInt(0)), At(games, "appearences", JInt(0))))
  }

  function SearchResultOf(item: Json): (r: PyResult<SearchResult>)
    ensures r.Ok? ==> item.JDict? && (r.value.performance.None? <==> FirstOrEmpty(item.fields, "statistics") == Ok(EmptyDict))
  {
    var player :- Index(item, "player");
    var statistics :- FirstOrEmpty(item.fields, "statistics");
    var stats :- Fields(statistics);
    var currentTeam :- CurrentTeamOf(stats);
    var id :- Index(player, "id");
    var p := player.fields;
    var name :- Key(p, "name");
    var performance :-
      if Truthy(statistics) then
        var perf :- SearchPerformanceOf(stats);
        Ok(Some(perf))
      else Ok(None);
    Ok(SearchResult(id, name, At(p, "age", JNull), At(p, "nationality", JNull), At(p, "photo", JNull),
                    currentTeam, performance))
  }

  /** The `players` loop of the search. */
  method BuildSearchResults(items: seq<Json>) returns (r: PyResult<seq<SearchResult>>)
    ensures r == MapR(SearchResultOf, items)
  {
    var out: seq<SearchResult> := [];
    var i := 0;
    while i < |items|
      invariant 0 <= i <= |items|
      invariant MapR(SearchResultOf, items[..i]) == Ok(out)
    {
      assert items[..i + 1][..i] == items[..i];
      var s := SearchResultOf(items[i]);
      if s.Raise? {
        MapRPrefixRaise(SearchResultOf, items, i + 1);
        return Raise(s.error);
      }
      out := out + [s.value];
      i := i + 1;
    }
    assert items[..i] == items;
    r := Ok(out);
  }

  datatype SearchResults = SearchResults(query: string, players: seq<SearchResult>, total: nat)

  function SearchBody(playersData: Json, q: string): (r: PyResult<SearchResults>)
    ensures r.Ok? ==> r.value.total == |r.value.players| <= 20 && r.value.query == q
  {
    var resp :- Get(playersData, "response", JNull);
    var players :-
      if !Truthy(resp) then Ok([])
      else
        var first :- Take(resp, 20);
        var items :- Elements(first);
        assert |items| <= 20 by {
          assert first.JList? ==> |first.items| <= 20;
          assert first.JStr? ==> |first.s| <= 20;
        }
        MapR(SearchResultOf, items);
    Ok(SearchResults(q, players, |players|))
  }

  /** A search hit without statistics has no performance. */
  lemma SearchResultWithoutStatistics(player: map<string, Json>, rest: map<string, Json>)
    requires "id" in player && "name" in player
    requires "statistics" !in rest
    ensures
      var r := SearchResultOf(JDict(rest["player" := JDict(player)]));
      r.Ok? && r.value.performance.None? && r.value.currentTeam.None? &&
      r.value.id == player["id"] && r.value.name == player["name"]
  {
  }

  const SearchFailed := "Erreur lors de la recherche"

  function SearchPlayers(api: Request -> Reply, q: string, league: Option<int>): (h: Handled<SearchResults>)
    ensures h.calls == [Request("players", SearchParams(q, league))]
    ensures h.result.Raise? ==> h.result.error == HttpError(500, SearchFailed)
  {
    var call := Request("players", SearchParams(q, league));
    Handled(Internal(SearchBody(PlayersApiRequest(api(call)), q), SearchFailed), [call])
  }

  // ---------------------------------------------------------------- compare_players

  const TooFewPlayers := "Au moins 2 joueurs sont requis pour la comparaison"
  const CompareFailed := "Erreur lors de la comparaison"

  /** `player_ids[:5]` once the body has at least two ids (400 otherwise). */
  function CompareIds(request: map<string, Json>): (r: TryResult<seq<Json>>)
    ensures !Truthy(At(request, "player_ids", EmptyList)) ==> r == Raise(Http(HttpError(400, TooFewPlayers)))
    ensures r.Ok? ==> 2 <= |r.value| <= 5
    ensures var ids := At(request, "player_ids", EmptyList);
      ids.JList? && |ids.items| >= 2 ==> r == Ok(Text.FirstN(ids.items, 5))
    ensures var ids := At(request, "player_ids", EmptyList);
      ids.JList? && |ids.items| < 2 ==> r == Raise(Http(HttpError(400, TooFewPlayers)))
    ensures r.Raise? && r.error.Http? ==> r.error.error == HttpError(400, TooFewPlayers)
  {
    var ids := At(request, "player_ids", EmptyList);
    if !Truthy(ids) then Raise(Http(HttpError(400, TooFewPlayers)))
    else
      var n :- Lift(Len(ids));
      if n < 2 then Raise(Http(HttpError(400, TooFewPlayers)))
      else
        var first :- Lift(Take(ids, 5));
        var items :- Lift(Elements(first));
        assert 2 <= |items| <= 5 by {
          assert ids.JList? ==> first == JList(Text.FirstN(ids.items, 5));
          assert ids.JStr? ==> first == JStr(Text.FirstN(ids.s, 5));
        }
        Ok(items)
  }

  /** The outcome of the details lookup of each id. */
  function Outcomes(api: Request -> Reply, ids: seq<Json>, league: int, season: int): (rs: seq<Result<PlayerDetails, HttpError>>)
    ensures |rs| == |ids|
    ensures forall i :: 0 <= i < |ids| ==> rs[i] == GetPlayerDetails(api, ids[i], league, season).result
  {
    seq(|ids|, i requires 0 <= i < |ids| => GetPlayerDetails(api, ids[i], league, season).result)
  }

  /** The values of the successful outcomes, in order. */
  function Successes<T, E>(rs: seq<Result<T, E>>): (r: seq<T>)
    ensures |r| <= |rs|
    decreases |rs|
  {
    if rs == [] then []
    else Successes(rs[..|rs| - 1]) + (if rs[|rs| - 1].Ok? then [rs[|rs| - 1].value] else [])
  }

  lemma {:induction false} SuccessesMember<T, E>(rs: seq<Result<T, E>>, d: T)
    ensures d in Successes(rs) <==> exists i :: 0 <= i < |rs| && rs[i] == Ok(d)
    decreases |rs|
  {
    if rs != [] {
      var p := rs[..|rs| - 1];
      SuccessesMember(p, d);
      assert forall i :: 0 <= i < |p| ==> p[i] == rs[i];
    }
  }

  lemma {:induction false} SuccessesAll<T, E>(rs: seq<Result<T, E>>)
    requires forall i :: 0 <= i < |rs| ==> rs[i].Ok?
    ensures |Successes(rs)| == |rs|
    ensures forall i :: 0 <= i < |rs| ==> Successes(rs)[i] == rs[i].value
    decreases |rs|
  {
    if rs != [] {
      var p := rs[..|rs| - 1];
      assert forall i :: 0 <= i < |p| ==> p[i] == rs[i];
      SuccessesAll(p);
    }
  }

  /** The players the comparison loop keeps: the details of each id in order, skipping every id
    * whose lookup raised (the bare `except: pass`). */
  function ComparedPlayers(api: Request -> Reply, ids: seq<Json>, league: int, season: int): (r: seq<PlayerDetails>)
    ensures |r| <= |ids|
  {
    Successes(Outcomes(api, ids, league, season))
  }

  /** The requests of the comparison loop: one details request per id tried. */
  function DetailsRequests(ids: seq<Json>, league: int, season: int): (c: seq<Request>)
    ensures |c| == |ids|
    ensures forall i :: 0 <= i < |ids| ==> c[i] == PlayerRequest(ids[i], league, season)
  {
    seq(|ids|, i requires 0 <= i < |ids| => PlayerRequest(ids[i], league, season))
  }

  /** One id more: its request is appended, and its player too when the lookup succeeded. */
  lemma CollectDetailsStep(api: Request -> Reply, ids: seq<Json>, league: int, season: int, i: int)
    requires 0 <= i < |ids|
    ensures var h := GetPlayerDetails(api, ids[i], league, season);
      && ComparedPlayers(api, ids[..i + 1], league, season) ==
         ComparedPlayers(api, ids[..i], league, season) + (if h.result.Ok? then [h.result.value] else [])
      && DetailsRequests(ids[..i + 1], league, season) == DetailsRequests(ids[..i], league, season) + h.calls
  {
    assert ids[..i + 1][..i] == ids[..i];
    var rs := Outcomes(api, ids[..i + 1], league, season);
    assert rs[..i] == Outcomes(api, ids[..i], league, season);
    RequestsStep(ids, league, season, i);
  }

  lemma RequestsStep(ids: seq<Json>, league: int, season: int, i: int)
    requires 0 <= i < |ids|
    ensures DetailsRequests(ids[..i + 1], league, season) ==
            DetailsRequests(ids[..i], league, season) + [PlayerRequest(ids[i], league, season)]
  {
  }

  /** The comparison loop with its try/skip. */
  method CollectDetails(api: Request -> Reply, ids: seq<Json>, league: int, season: int)
    returns (players: seq<PlayerDetails>, calls: seq<Request>)
    ensures players == ComparedPlayers(api, ids, league, season)
    ensures calls == DetailsRequests(ids, league, season)
  {
    players := [];
    calls := [];
    var i := 0;
    while i < |ids|
      invariant 0 <= i <= |ids|
      invariant players == ComparedPlayers(api, ids[..i], league, season)
      invariant calls == DetailsRequests(ids[..i], league, season)
    {
      var h := GetPlayerDetails(api, ids[i], league, season);
      CollectDetailsStep(api, ids, league, season, i);
      calls := calls + h.calls;
      if h.result.Ok? {
        players := players + [h.result.value];
      }
      i := i + 1;
    }
    assert ids[..i] == ids;
  }

  datatype Comparison = Comparison(players: seq<PlayerDetails>, total: nat)

  /** The comparison endpoint, without its `comparison_date` clock stamp. */
  function ComparePlayers(api: Request -> Reply, request: map<string, Json>, league: int, season: int): (h: Handled<Comparison>)
    ensures h.result.Ok? ==> h.result.value.total == |h.result.value.players| <= 5
    ensures h.result.Raise? ==>
      h.calls == [] && (h.result.error == HttpError(400, TooFewPlayers) || h.result.error == HttpError(500, CompareFailed))
    ensures h.result.Ok? ==>
              CompareIds(request).Ok? && h.calls == DetailsRequests(CompareIds(request).value, league, season)
  {
    var ids := CompareIds(request);
    if ids.Raise? then
      var failed: TryResult<Comparison> := Raise(ids.error);
      Handled(ReraiseHttp(failed, CompareFailed), [])
    else
      var players := ComparedPlayers(api, ids.value, league, season);
      Handled(Ok(Comparison(players, |players|)), DetailsRequests(ids.value, league, season))
  }

  /** A compared player is one the details endpoint returns for one of the ids tried; a failed
    * lookup is skipped rather than failing the comparison. */
  lemma ComparedPlayersMember(api: Request -> Reply, ids: seq<Json>, league: int, season: int, d: PlayerDetails)
    ensures d in ComparedPlayers(api, ids, league, season) <==>
      exists i :: 0 <= i < |ids| && GetPlayerDetails(api, ids[i], league, season).result == Ok(d)
  {
    SuccessesMember(Outcomes(api, ids, league, season), d);
  }

  /** Every successful lookup is kept: with all lookups succeeding, one player per id in order. */
  lemma ComparedPlayersAll(api: Request -> Reply, ids: seq<Json>, league: int, season: int)
    requires forall i :: 0 <= i < |ids| ==> GetPlayerDetails(api, ids[i], league, season).result.Ok?
    ensures |ComparedPlayers(api, ids, league, season)| == |ids|
    ensures forall i :: 0 <= i < |ids| ==>
      ComparedPlayers(api, ids, league, season)[i] == GetPlayerDetails(api, ids[i], league, season).result.value
  {
    SuccessesAll(Outcomes(api, ids, league, season));
  }

  /** Fewer than two ids is a 400 before any request. */
  lemma CompareNeedsTwo(api: Request -> Reply, id: Json, league: int, season: int)
    ensures ComparePlayers(api, map["player_ids" := JList([id])], league, season) ==
            Handled(Raise(HttpError(400, TooFewPlayers)), [])
  {
  }
}
