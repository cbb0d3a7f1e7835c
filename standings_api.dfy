/** The standings endpoints (app/api/standings.py): the table of a league's first standings group,
  * entry by entry, and a summary of it (totals, averages, leader, top three, relegation zone). */
module StandingsApi {
  import opened Wrappers
  import opened PyJson
  import opened PyLoops
  import opened Upstream
  import FootballApi
  import Text

  const NoStandings := "Classement non trouvé"
  const NoTable := "Aucun classement disponible"
  const NoSummaryData := "Aucune donnée de classement"
  /** The detail of every 500 (the exception text the source appends is not modelled). */
  const FetchFailed := "Erreur lors de la récupération"

  /** The default season of both endpoints. */
  const DefaultSeason := 2024

  /** An `all` / `home` / `away` block: the values are copied as the provider sends them. */
  datatype Record = Record(played: Json, win: Json, draw: Json, lose: Json, goalsFor: Json, goalsAgainst: Json)

  datatype StandingEntry = StandingEntry(
    rank: Json, teamId: Json, teamName: Json, teamLogo: Json, points: Json, goalsDiff: Json,
    group: Json, form: Json, status: Json, description: Json,
    all: Record, home: Record, away: Record, update: Json)

  datatype LeagueInfo = LeagueInfo(id: Json, name: Json, country: Json, logo: Json, flag: Json, season: Json)

  /** The table without its `last_update` clock stamp. */
  datatype Standings = Standings(league: LeagueInfo, entries: seq<StandingEntry>)

  /** `entry[side]["played"]`, ..., `entry[side]["goals"]["against"]`. */
  function RecordOf(e: map<string, Json>, side: string): (r: PyResult<Record>)
  {
    var block :- Key(e, side);
    var played :- Index(block, "played");
    var b := block.fields;
    var win :- Key(b, "win");
    var draw :- Key(b, "draw");
    var lose :- Key(b, "lose");
    var goals :- Key(b, "goals");
    var goalsFor :- Index(goals, "for");
    var goalsAgainst :- Key(goals.fields, "against");
    Ok(Record(played, win, draw, lose, goalsFor, goalsAgainst))
  }

  /** One output entry of the table loop; every key is required. */
  function EntryOf(entry: Json): (r: PyResult<StandingEntry>)
    ensures r.Ok? ==> entry.JDict? && "rank" in entry.fields && r.value.rank == entry.fields["rank"]
  {
    var rank :- Index(entry, "rank");
    var e := entry.fields;
    var team :- TeamPartOf(e);
    var points :- Key(e, "points");
    var goalsDiff :- Key(e, "goalsDiff");
    var group :- Key(e, "group");
    var form :- Key(e, "form");
    var status :- Key(e, "status");
    var description :- Key(e, "description");
    var records :- RecordsOf(e);
    var update :- Key(e, "update");
    Ok(StandingEntry(rank, team.0, team.1, team.2, points, goalsDiff, group, form, status,
                     description, records.0, records.1, records.2, update))
  }

  /** `entry["team"]["id"]`, `entry["team"]["name"]`, `entry["team"]["logo"]`. */
  function TeamPartOf(e: map<string, Json>): PyResult<(Json, Json, Json)> {
    var team :- Key(e, "team");
    var teamId :- Index(team, "id");
    var t := team.fields;
    var teamName :- Key(t, "name");
    var teamLogo :- Key(t, "logo");
    Ok((teamId, teamName, teamLogo))
  }

  /** The `all`, `home` and `away` records, in that order. */
  function RecordsOf(e: map<string, Json>): PyResult<(Record, Record, Record)> {
    var all :- RecordOf(e, "all");
    var home :- RecordOf(e, "home");
    var away :- RecordOf(e, "away");
    Ok((all, home, away))
  }

  function RecordJson(r: Record): (x: Json)
    ensures x.JDict?
  {
    JDict(map["played" := r.played, "win" := r.win, "draw" := r.draw, "lose" := r.lose,
              "goals" := JDict(map["for" := r.goalsFor, "against" := r.goalsAgainst])])
  }

  /** The provider's JSON for a table entry. */
  function EntryJson(s: StandingEntry): (x: Json)
    ensures x.JDict?
  {
    JDict(map["rank" := s.rank,
              "team" := JDict(map["id" := s.teamId, "name" := s.teamName, "logo" := s.teamLogo]),
              "points" := s.points, "goalsDiff" := s.goalsDiff, "group" := s.group, "form" := s.form,
              "status" := s.status, "description" := s.description,
              "all" := RecordJson(s.all), "home" := RecordJson(s.home), "away" := RecordJson(s.away),
              "update" := s.update])
  }

  lemma RecordRoundTrip(e: map<string, Json>, side: string, r: Record)
    requires side in e && e[side] == RecordJson(r)
    ensures RecordOf(e, side) == Ok(r)
  {
  }

  /** The entry loses nothing: every value the provider sends under the keys read is copied. */
  lemma EntryRoundTrip(s: StandingEntry)
    ensures EntryOf(EntryJson(s)) == Ok(s)
  {
    var e := EntryJson(s).fields;
    EntryKeys(s, e);
    PartsRoundTrip(s, e);
  }

  lemma PartsRoundTrip(s: StandingEntry, e: map<string, Json>)
    requires "team" in e && e["team"] == JDict(map["id" := s.teamId, "name" := s.teamName, "logo" := s.teamLogo])
    requires "all" in e && e["all"] == RecordJson(s.all)
    requires "home" in e && e["home"] == RecordJson(s.home)
    requires "away" in e && e["away"] == RecordJson(s.away)
    ensures TeamPartOf(e) == Ok((s.teamId, s.teamName, s.teamLogo))
    ensures RecordsOf(e) == Ok((s.all, s.home, s.away))
  {
    RecordRoundTrip(e, "all", s.all);
    RecordRoundTrip(e, "home", s.home);
    RecordRoundTrip(e, "away", s.away);
  }

  /** The entry's JSON holds every key the loop reads, with the entry's values. */
  predicate AgreesOffUpdate(s: StandingEntry, e: map<string, Json>) {
    forall k :: k in EntryJson(s).fields && k != "update" ==> k in e && e[k] == EntryJson(s).fields[k]
  }

  /** The lookups of the entry's JSON, one key at a time. */
  lemma EntryKeys(s: StandingEntry, e: map<string, Json>)
    requires AgreesOffUpdate(s, e)
    ensures "rank" in e && e["rank"] == s.rank
    ensures "team" in e && e["team"] == JDict(map["id" := s.teamId, "name" := s.teamName, "logo" := s.teamLogo])
    ensures "points" in e && e["points"] == s.points
    ensures "goalsDiff" in e && e["goalsDiff"] == s.goalsDiff
    ensures "group" in e && e["group"] == s.group
    ensures "form" in e && e["form"] == s.form
    ensures "status" in e && e["status"] == s.status
    ensures "description" in e && e["description"] == s.description
    ensures "all" in e && e["all"] == RecordJson(s.all)
    ensures "home" in e && e["home"] == RecordJson(s.home)
    ensures "away" in e && e["away"] == RecordJson(s.away)
  {
    HeadKeys(s);
    TailKeys(s);
  }

  lemma HeadKeys(s: StandingEntry)
    ensures var f := EntryJson(s).fields;
      "rank" in f && f["rank"] == s.rank &&
      "team" in f && f["team"] == JDict(map["id" := s.teamId, "name" := s.teamName, "logo" := s.teamLogo]) &&
      "points" in f && f["points"] == s.points && "goalsDiff" in f && f["goalsDiff"] == s.goalsDiff &&
      "group" in f && f["group"] == s.group && "form" in f && f["form"] == s.form
  {
  }

  lemma TailKeys(s: StandingEntry)
    ensures var f := EntryJson(s).fields;
      "status" in f && f["status"] == s.status && "description" in f && f["description"] == s.description &&
      "all" in f && f["all"] == RecordJson(s.all) && "home" in f && f["home"] == RecordJson(s.home) &&
      "away" in f && f["away"] == RecordJson(s.away)
  {
  }

  /** An entry without `update` (or any other key read) makes the loop raise. */
  lemma EntryNeedsUpdate(s: StandingEntry)
    ensures EntryOf(JDict(EntryJson(s).fields - {"update"})).Raise?
  {
    var e := EntryJson(s).fields;
    var d := e - {"update"};
    EntryKeys(s, d);
    assert "update" !in d;
    PartsRoundTrip(s, d);
  }

  /** The table loop over the first group. */
  method BuildEntries(group: seq<Json>) returns (r: PyResult<seq<StandingEntry>>)
    ensures r == MapR(EntryOf, group)
  {
    var out: seq<StandingEntry> := [];
    var i := 0;
    while i < |group|
      invariant 0 <= i <= |group|
      invariant MapR(EntryOf, group[..i]) == Ok(out)
    {
      assert group[..i + 1][..i] == group[..i];
      var s := EntryOf(group[i]);
      if s.Raise? {
        MapRPrefixRaise(EntryOf, group, i + 1);
        return Raise(s.error);
      }
      out := out + [s.value];
      i := i + 1;
    }
    assert group[..i] == group;
    r := Ok(out);
  }

  /** `league_info`: the league's metadata, every key required. */
  function LeagueInfoOf(leagueData: Json): (r: PyResult<LeagueInfo>)
  {
    var league :- Index(leagueData, "league");
    var id :- Index(league, "id");
    var l := league.fields;
    var name :- Key(l, "name");
    var country :- Key(l, "country");
    var logo :- Key(l, "logo");
    var flag :- Key(l, "flag");
    var season :- Key(l, "season");
    Ok(LeagueInfo(id, name, country, logo, flag, season))
  }

  /** The groups of the first response element: `data["response"][0]["league"]["standings"]`. */
  function GroupsOf(resp: Json): (r: PyResult<Json>)
  {
    var leagueData :- Nth(resp, 0);
    IndexPath(leagueData, ["league", "standings"])
  }

  /** The body of `get_league_standings` on the helper's answer. */
  function StandingsBody(data: Json): (r: TryResult<Standings>)
    ensures r.Raise? && r.error.Http? ==>
      r.error.error == HttpError(404, NoStandings) || r.error.error == HttpError(404, NoTable)
    ensures r.Ok? ==>
      data.JDict? && "response" in data.fields && GroupsOf(data.fields["response"]).Ok? &&
      Nth(GroupsOf(data.fields["response"]).value, 0).Ok? &&
      Elements(Nth(GroupsOf(data.fields["response"]).value, 0).value).Ok? &&
      MapR(EntryOf, Elements(Nth(GroupsOf(data.fields["response"]).value, 0).value).value) == Ok(r.value.entries)
  {
    var resp :- Lift(Get(data, "response", JNull));
    if !Truthy(resp) then Raise(Http(HttpError(404, NoStandings)))
    else
      var groups :- Lift(GroupsOf(resp));
      if !Truthy(groups) then Raise(Http(HttpError(404, NoTable)))
      else
        var first :- Lift(Nth(groups, 0));
        var group :- Lift(Elements(first));
        var entries :- Lift(MapR(EntryOf, group));
        var leagueData :- Lift(Nth(resp, 0));
        var league :- Lift(LeagueInfoOf(leagueData));
        Ok(Standings(league, entries))
  }

  function StandingsRequest(leagueId: int, season: int): Request {
    Request("standings", map["league" := JInt(leagueId), "season" := JInt(season)])
  }

  /** `get_league_standings`: the 404s pass through, every other failure is a 500. */
  function GetLeagueStandings(api: Request -> Reply, leagueId: int, season: int): (h: Handled<Standings>)
    ensures h.calls == [StandingsRequest(leagueId, season)]
    ensures h.result.Raise? ==> h.result.error in {HttpError(404, NoStandings), HttpError(404, NoTable), HttpError(500, FetchFailed)}
  {
    var q := StandingsRequest(leagueId, season);
    var body :=
      var data :- Lift(FootballApi.ServiceReply(api(q)));
      StandingsBody(data);
    Handled(ReraiseHttp(body, FetchFailed), [q])
  }

  /** A failed provider request is "not found": the helper answers with an empty response. */
  lemma StandingsNotFoundOnProviderFailure(api: Request -> Reply, leagueId: int, season: int)
    requires !api(StandingsRequest(leagueId, season)).Reply?
    ensures GetLeagueStandings(api, leagueId, season).result == Raise(HttpError(404, NoStandings))
  {
  }

  /** A league whose standings list is empty is the second 404. */
  lemma StandingsEmptyTable(api: Request -> Reply, leagueId: int, season: int, league: map<string, Json>)
    requires api(StandingsRequest(leagueId, season)) ==
      Reply(200, Some(JDict(map["response" := JList([JDict(map["league" := JDict(league["standings" := JList([])])])])])))
    ensures GetLeagueStandings(api, leagueId, season).result == Raise(HttpError(404, NoTable))
  {
    var leagueData := JDict(map["league" := JDict(league["standings" := JList([])])]);
    assert GroupsOf(JList([leagueData])) == Ok(JList([]));
  }

  /** Only the first group is used, one output entry per entry of it in order. */
  lemma StandingsFirstGroupOnly(api: Request -> Reply, leagueId: int, season: int)
    requires GetLeagueStandings(api, leagueId, season).result.Ok?
    ensures var data := FootballApi.ServiceReply(api(StandingsRequest(leagueId, season))).value;
      var group := Elements(Nth(GroupsOf(data.fields["response"]).value, 0).value).value;
      var entries := GetLeagueStandings(api, leagueId, season).result.value.entries;
      |entries| == |group| && forall i :: 0 <= i < |group| ==> EntryOf(group[i]) == Ok(entries[i])
  {
    var data := FootballApi.ServiceReply(api(StandingsRequest(leagueId, season))).value;
    var group := Elements(Nth(GroupsOf(data.fields["response"]).value, 0).value).value;
    MapROk(EntryOf, group);
  }

  // ---------------------------------------------------------------- get_standings_summary

  function Played(s: StandingEntry): Json {
    s.all.played
  }

  function GoalsFor(s: StandingEntry): Json {
    s.all.goalsFor
  }

  /** `sum(key(team) for team in entries)`: TypeError at the first value that is not a number. */
  function SumOf(entries: seq<StandingEntry>, key: StandingEntry -> Json): (r: PyResult<int>)
    ensures r.Ok? <==> forall i :: 0 <= i < |entries| ==> AsNumber(key(entries[i])).Some?
    ensures r.Raise? ==> r.error == TypeError
    decreases |entries|
  {
    if entries == [] then Ok(0)
    else
      var p := entries[..|entries| - 1];
      assert forall i :: 0 <= i < |p| ==> p[i] == entries[i];
      var init :- SumOf(p, key);
      var v := AsNumber(key(entries[|entries| - 1]));
      if v.Some? then Ok(init + v.value) else Raise(TypeError)
  }

  /** Sums of non-negative values are non-negative and at least each summand. */
  lemma {:induction false} SumOfBounds(entries: seq<StandingEntry>, key: StandingEntry -> Json)
    requires forall i :: 0 <= i < |entries| ==> AsNumber(key(entries[i])).Some? && AsNumber(key(entries[i])).value >= 0
    ensures SumOf(entries, key).Ok? && SumOf(entries, key).value >= 0
    ensures forall i :: 0 <= i < |entries| ==> AsNumber(key(entries[i])).value <= SumOf(entries, key).value
    decreases |entries|
  {
    if entries != [] {
      var p := entries[..|entries| - 1];
      assert forall i :: 0 <= i < |p| ==> p[i] == entries[i];
      SumOfBounds(p, key);
    }
  }

  datatype Summary = Summary(
    league: LeagueInfo, totalTeams: nat, matchesPlayedAverage: real, goalsPerMatch: real,
    leader: StandingEntry, top3: seq<StandingEntry>, relegationZone: seq<StandingEntry>)

  /** `total_matches_played / total_teams`, as an exact quotient: multiplied back by the number of
    * teams it gives the total. */
  function Average(total: int, n: nat): (a: real)
    requires n > 0
    ensures a * (n as real) == total as real
  {
    total as real / n as real
  }

  /** `total_goals / (total_matches_played / 2)` when matches were played, else 0: the goals of a
    * match, both teams counted, since every match is counted once per team. */
  function GoalsPerMatch(goals: int, played: int): (g: real)
    ensures played > 0 ==> g * (played as real) == 2.0 * (goals as real)
    ensures played <= 0 ==> g == 0.0
  {
    if played > 0 then goals as real / (played as real / 2.0) else 0.0
  }

  /** The summary of a table, rates as exact quotients. */
  function SummaryOf(s: Standings): (r: TryResult<Summary>)
    ensures s.entries == [] ==> r == Raise(Http(HttpError(404, NoSummaryData)))
    ensures r.Raise? && r.error.Http? ==> s.entries == []
    ensures r.Ok? ==> r.value.totalTeams == |s.entries| > 0 && r.value.leader == s.entries[0]
    ensures r.Ok? ==> r.value.top3 == Text.FirstN(s.entries, 3)
    ensures r.Ok? ==> r.value.relegationZone == (if |s.entries| >= 3 then s.entries[|s.entries| - 3..] else [])
    ensures r.Ok? ==> SumOf(s.entries, Played).Ok? && SumOf(s.entries, GoalsFor).Ok?
    ensures r.Ok? ==> r.value.matchesPlayedAverage == Average(SumOf(s.entries, Played).value, |s.entries|)
    ensures r.Ok? ==>
      r.value.goalsPerMatch == GoalsPerMatch(SumOf(s.entries, GoalsFor).value, SumOf(s.entries, Played).value)
  {
    if s.entries == [] then Raise(Http(HttpError(404, NoSummaryData)))
    else
      var played :- Lift(SumOf(s.entries, Played));
      var goals :- Lift(SumOf(s.entries, GoalsFor));
      Ok(SummaryFrom(s, played, goals))
  }

  /** The summary of a non-empty table whose played and goal totals are known. */
  function SummaryFrom(s: Standings, played: int, goals: int): (r: Summary)
    requires s.entries != []
    ensures r.totalTeams == |s.entries| && r.leader == s.entries[0]
    ensures r.top3 == Text.FirstN(s.entries, 3)
    ensures r.relegationZone == (if |s.entries| >= 3 then s.entries[|s.entries| - 3..] else [])
    ensures r.matchesPlayedAverage == Average(played, |s.entries|)
    ensures r.matchesPlayedAverage * (|s.entries| as real) == played as real
    ensures r.goalsPerMatch == GoalsPerMatch(goals, played)
  {
    var n := |s.entries|;
    Summary(s.league, n, Average(played, n), GoalsPerMatch(goals, played), s.entries[0],
            Text.FirstN(s.entries, 3), if n >= 3 then s.entries[n - 3..] else [])
  }

  /** With fewer than six teams the top three and the relegation zone share entries; from six
    * teams on they are disjoint positions. */
  lemma TopAndBottomOverlap(s: Standings)
    requires SummaryOf(s).Ok?
    ensures var r := SummaryOf(s).value; var n := |s.entries|;
      (3 <= n < 6 ==> s.entries[n - 3] in r.top3 && s.entries[n - 3] in r.relegationZone) &&
      (n >= 6 ==> r.top3 == s.entries[..3] && r.relegationZone == s.entries[n - 3..] && n - 3 >= 3)
  {
    var r := SummaryOf(s).value;
    var n := |s.entries|;
    if 3 <= n < 6 {
      assert r.top3[n - 3] == s.entries[n - 3];
      assert r.relegationZone[0] == s.entries[n - 3];
    }
  }

  /** Every played count between `lo` and `hi` puts the total between `lo` and `hi` times the
    * number of teams, which is the average multiplied back. */
  lemma {:induction false} SumOfRange(entries: seq<StandingEntry>, key: StandingEntry -> Json, lo: int, hi: int)
    requires SumOf(entries, key).Ok?
    requires forall i :: 0 <= i < |entries| ==> lo <= AsNumber(key(entries[i])).value <= hi
    ensures lo * |entries| <= SumOf(entries, key).value <= hi * |entries|
    decreases |entries|
  {
    if entries != [] {
      var p := entries[..|entries| - 1];
      assert forall i :: 0 <= i < |p| ==> p[i] == entries[i];
      SumOfRange(p, key, lo, hi);
      var v := AsNumber(key(entries[|entries| - 1])).value;
      assert SumOf(entries, key).value == SumOf(p, key).value + v;
      RangeStep(SumOf(p, key).value, v, |p|, lo, hi);
    }
  }

  /** One more term between `lo` and `hi` keeps a total of `n` such terms within its bounds. */
  lemma RangeStep(total: int, v: int, n: nat, lo: int, hi: int)
    requires lo * n <= total <= hi * n && lo <= v <= hi
    ensures lo * (n + 1) <= total + v <= hi * (n + 1)
  {
    assert lo * (n + 1) == lo * n + lo;
    assert hi * (n + 1) == hi * n + hi;
  }

  /** `get_standings_summary`: the table's errors pass through, an empty table is a 404, and
    * every other failure a 500. */
  function GetStandingsSummary(api: Request -> Reply, leagueId: int, season: int): (h: Handled<Summary>)
    ensures h.calls == [StandingsRequest(leagueId, season)]
    ensures GetLeagueStandings(api, leagueId, season).result.Raise? ==>
      h.result == Raise(GetLeagueStandings(api, leagueId, season).result.error)
    ensures h.result.Ok? ==>
      GetLeagueStandings(api, leagueId, season).result.Ok? &&
      SummaryOf(GetLeagueStandings(api, leagueId, season).result.value) == Ok(h.result.value)
  {
    var full := GetLeagueStandings(api, leagueId, season);
    if full.result.Raise? then Handled(Raise(full.result.error), full.calls)
    else Handled(ReraiseHttp(SummaryOf(full.result.value), FetchFailed), full.calls)
  }
}
