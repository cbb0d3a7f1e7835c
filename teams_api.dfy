/** The team endpoints of the backend (`/teams/{id}/statistics`, `/teams/{id}/players/detailed`,
  * `/teams/{id}/complete`) and their request helper. Each endpoint reshapes the provider's JSON into
  * a flat record with explicit defaults; its outcome is the record or the HTTP error it raises,
  * together with the provider requests it made. */
module TeamsApi {
  import opened Wrappers
  import opened PyJson
  import opened PyLoops
  import opened Upstream
  import Text
  import StableSort

  // ---------------------------------------------------------------- make_api_request

  /** The body's `response` entry (or the `[]` default) has a length, as the success log line
    * requires. */
  predicate HasResponseLength(body: Json) {
    var r := Get(body, "response", EmptyList);
    r.Ok? && Len(r.value).Ok?
  }

  /** The decoded body when the provider answered 200 with JSON whose `response` has a length;
    * `{"response": []}` in every other case: another status (429 included, whose HTTPException is
    * raised inside the `try` and caught by its generic handler), a timeout, a transport failure, a
    * body that is not JSON, or a body whose `response` has no length. */
  function MakeApiRequest(reply: Reply): (r: Json)
    ensures r.JDict?
    ensures HasResponseLength(r)
    ensures r != EmptyResponse ==>
      reply.Reply? && reply.status == 200 && reply.body == Some(r)
    ensures reply.Reply? && reply.status == 200 && reply.body.Some? && HasResponseLength(reply.body.value) ==>
      r == reply.body.value
  {
    match reply
    case Reply(status, body) =>
      if status == 200 && body.Some? && HasResponseLength(body.value) then body.value
      else EmptyResponse
    case TimedOut => EmptyResponse
    case ConnectionFailed => EmptyResponse
  }

  /** A rate-limited answer degrades to the empty response like any other failure. */
  lemma RateLimitDegrades(body: Option<Json>)
    ensures MakeApiRequest(Reply(429, body)) == EmptyResponse
  {
  }

  /** `team_standing["team"]["id"] == team_id`. */
  function EntryIsTeam(entry: Json, teamId: int): (r: PyResult<bool>)
    ensures r.Ok? <==> IndexPath(entry, ["team", "id"]).Ok?
    ensures r.Ok? ==> (r.value <==> EqInt(IndexPath(entry, ["team", "id"]).value, teamId))
  {
    var id :- IndexPath(entry, ["team", "id"]);
    Ok(EqInt(id, teamId))
  }

  /** The inner standings loop with its `break`: the first entry of the team, built by `build`.
    * Entries after it are never looked at; an entry before it that cannot be read raises. */
  function ScanFirst<X>(entries: seq<Json>, teamId: int, build: Json -> PyResult<X>): (r: PyResult<Option<X>>)
    decreases |entries|
  {
    if entries == [] then Ok(None)
    else
      var hit :- EntryIsTeam(entries[0], teamId);
      if hit then
        var x :- build(entries[0]);
        Ok(Some(x))
      else ScanFirst(entries[1..], teamId, build)
  }

  /** A find is the first entry of the team: every entry before it is readable and another team. */
  lemma {:induction false} ScanFirstFinds<X>(entries: seq<Json>, teamId: int, build: Json -> PyResult<X>, x: X)
    requires ScanFirst(entries, teamId, build) == Ok(Some(x))
    ensures exists i :: 0 <= i < |entries| && EntryIsTeam(entries[i], teamId) == Ok(true) &&
                        build(entries[i]) == Ok(x) &&
                        forall j :: 0 <= j < i ==> EntryIsTeam(entries[j], teamId) == Ok(false)
    decreases |entries|
  {
    if EntryIsTeam(entries[0], teamId) == Ok(false) {
      ScanFirstFinds(entries[1..], teamId, build, x);
      var i :| 0 <= i < |entries[1..]| && EntryIsTeam(entries[1..][i], teamId) == Ok(true) &&
        build(entries[1..][i]) == Ok(x) && forall j :: 0 <= j < i ==> EntryIsTeam(entries[1..][j], teamId) == Ok(false);
      assert entries[i + 1] == entries[1..][i];
      forall j | 0 <= j < i + 1 ensures EntryIsTeam(entries[j], teamId) == Ok(false) {
        if j > 0 {
          assert entries[j] == entries[1..][j - 1];
        }
      }
    }
  }

  /** Nothing is found exactly when every entry is readable and another team's. */
  lemma {:induction false} ScanFirstNone<X>(entries: seq<Json>, teamId: int, build: Json -> PyResult<X>)
    ensures ScanFirst(entries, teamId, build) == Ok(None) <==>
      forall j :: 0 <= j < |entries| ==> EntryIsTeam(entries[j], teamId) == Ok(false)
    decreases |entries|
  {
    if entries != [] {
      ScanFirstNone(entries[1..], teamId, build);
      assert forall j :: 1 <= j < |entries| ==> entries[j] == entries[1..][j - 1];
    }
  }

  // ---------------------------------------------------------------- get_team_statistics

  /** Played / won / drawn / lost / scored / conceded for one side ("total", "home" or "away"),
    * each 0 when missing. */
  datatype Tally = Tally(played: Json, wins: Json, draws: Json, losses: Json, goalsFor: Json, goalsAgainst: Json)

  datatype Split = Split(home: Json, away: Json, total: Json)

  datatype AdvancedStats = AdvancedStats(
    biggestWinHome: Json, biggestWinAway: Json, biggestLossHome: Json, biggestLossAway: Json,
    cleanSheets: Split, failedToScore: Split)

  /** `general_stats`, `home_away_stats` and `advanced_stats`, present together. */
  datatype SeasonStats = SeasonStats(general: Tally, home: Tally, away: Tally, advanced: AdvancedStats)

  /** The nested objects the three tallies read (`stats.get("fixtures", {}).get("played", {})` and
    * so on); each must be a dict for its `.get` call. */
  datatype TallySource = TallySource(
    played: map<string, Json>, wins: map<string, Json>, draws: map<string, Json>, loses: map<string, Json>,
    goalsFor: map<string, Json>, goalsAgainst: map<string, Json>)

  function TallySourceOf(stats: map<string, Json>): PyResult<TallySource> {
    var fixtures :- Fields(At(stats, "fixtures", EmptyDict));
    var played :- Fields(At(fixtures, "played", EmptyDict));
    var wins :- Fields(At(fixtures, "wins", EmptyDict));
    var draws :- Fields(At(fixtures, "draws", EmptyDict));
    var loses :- Fields(At(fixtures, "loses", EmptyDict));
    var goals :- Fields(At(stats, "goals", EmptyDict));
    var goalsFor :- Fields(At(goals, "for", EmptyDict));
    var forTotal :- Fields(At(goalsFor, "total", EmptyDict));
    var goalsAgainst :- Fields(At(goals, "against", EmptyDict));
    var againstTotal :- Fields(At(goalsAgainst, "total", EmptyDict));
    Ok(TallySource(played, wins, draws, loses, forTotal, againstTotal))
  }

  /** `v` is what `m.get(side, 0)` reads: the provider's value when present, 0 when absent. */
  predicate ReadsOrZero(m: map<string, Json>, side: string, v: Json) {
    (side in m ==> v == m[side]) && (side !in m ==> v == JInt(0))
  }

  function TallyOf(src: TallySource, side: string): (t: Tally)
    ensures ReadsOrZero(src.played, side, t.played) && ReadsOrZero(src.wins, side, t.wins)
    ensures ReadsOrZero(src.draws, side, t.draws) && ReadsOrZero(src.loses, side, t.losses)
    ensures ReadsOrZero(src.goalsFor, side, t.goalsFor) && ReadsOrZero(src.goalsAgainst, side, t.goalsAgainst)
  {
    Tally(At(src.played, side, JInt(0)), At(src.wins, side, JInt(0)), At(src.draws, side, JInt(0)),
          At(src.loses, side, JInt(0)), At(src.goalsFor, side, JInt(0)), At(src.goalsAgainst, side, JInt(0)))
  }

  function SplitOf(stats: map<string, Json>, key: string): PyResult<Split> {
    var m :- Fields(At(stats, key, EmptyDict));
    Ok(Split(At(m, "home", JInt(0)), At(m, "away", JInt(0)), At(m, "total", JInt(0))))
  }

  function AdvancedOf(stats: map<string, Json>): PyResult<AdvancedStats> {
    var biggest :- Fields(At(stats, "biggest", EmptyDict));
    var wins :- Fields(At(biggest, "wins", EmptyDict));
    var loses :- Fields(At(biggest, "loses", EmptyDict));
    var clean :- SplitOf(stats, "clean_sheet");
    var failed :- SplitOf(stats, "failed_to_score");
    Ok(AdvancedStats(At(wins, "home", JNull), At(wins, "away", JNull), At(loses, "home", JNull),
                     At(loses, "away", JNull), clean, failed))
  }

  function SeasonSection(teamStats: Json): (r: PyResult<Option<SeasonStats>>)
    ensures r.Ok? && r.value.Some? ==>
      Get(teamStats, "response", JNull).Ok? && Truthy(Get(teamStats, "response", JNull).value)
    ensures Get(teamStats, "response", JNull).Ok? && !Truthy(Get(teamStats, "response", JNull).value) ==> r == Ok(None)
    ensures r.Ok? && r.value.Some? ==>
      teamStats.JDict? && "response" in teamStats.fields && teamStats.fields["response"].JDict? &&
      TallySourceOf(teamStats.fields["response"].fields).Ok? &&
      var src := TallySourceOf(teamStats.fields["response"].fields).value;
      r.value.value.general == TallyOf(src, "total") && r.value.value.home == TallyOf(src, "home") &&
      r.value.value.away == TallyOf(src, "away")
  {
    var stats :- Get(teamStats, "response", JNull);
    if !Truthy(stats) then Ok(None)
    else
      var fields :- Fields(stats);
      var src :- TallySourceOf(fields);
      var advanced :- AdvancedOf(fields);
      Ok(Some(SeasonStats(TallyOf(src, "total"), TallyOf(src, "home"), TallyOf(src, "away"), advanced)))
  }

  datatype LeaguePosition = LeaguePosition(position: Json, points: Json, goalDiff: Json, form: Json, description: Json)

  function PositionOf(entry: Json): PyResult<LeaguePosition> {
    var rank :- Index(entry, "rank");
    var points :- Index(entry, "points");
    var diff :- Index(entry, "goalsDiff");
    var form :- Index(entry, "form");
    var description :- Index(entry, "description");
    Ok(LeaguePosition(rank, points, diff, form, description))
  }

  /** `standing_group["league"]["standings"][0]`: the first table of one response element. */
  function FirstTable(group: Json): PyResult<seq<Json>> {
    var tables :- IndexPath(group, ["league", "standings"]);
    var first :- Nth(tables, 0);
    Elements(first)
  }

  /** The team's entry in the first table of one response element. */
  function GroupPosition(teamId: int): Json -> PyResult<Option<LeaguePosition>> {
    (group: Json) =>
      var entries :- FirstTable(group);
      ScanFirst(entries, teamId, PositionOf)
  }

  /** The outer loop: every response element is scanned and a later find overwrites an earlier
    * one, since the `break` leaves only the inner loop. */
  function LeaguePositionIn(groups: seq<Json>, teamId: int): PyResult<Option<LeaguePosition>> {
    LastFound(GroupPosition(teamId), groups)
  }

  /** The nested `for ... for ... break` search of the statistics endpoint. */
  method FindLeaguePosition(groups: seq<Json>, teamId: int) returns (r: PyResult<Option<LeaguePosition>>)
    ensures r == LeaguePositionIn(groups, teamId)
  {
    var found: Option<LeaguePosition> := None;
    var i := 0;
    while i < |groups|
      invariant 0 <= i <= |groups|
      invariant LeaguePositionIn(groups[..i], teamId) == Ok(found)
    {
      assert groups[..i + 1][..i] == groups[..i];
      var table := FirstTable(groups[i]);
      if table.Raise? {
        LastFoundPrefixRaise(GroupPosition(teamId), groups, i + 1);
        return Raise(table.error);
      }
      var entries := table.value;
      var j := 0;
      var hit: Option<LeaguePosition> := None;
      while j < |entries|
        invariant 0 <= j <= |entries|
        invariant ScanFirst(entries, teamId, PositionOf) == ScanFirst(entries[j..], teamId, PositionOf)
      {
        var isTeam := EntryIsTeam(entries[j], teamId);
        if isTeam.Raise? {
          LastFoundPrefixRaise(GroupPosition(teamId), groups, i + 1);
          return Raise(isTeam.error);
        }
        if isTeam.value {
          var p := PositionOf(entries[j]);
          if p.Raise? {
            LastFoundPrefixRaise(GroupPosition(teamId), groups, i + 1);
            return Raise(p.error);
          }
          hit := Some(p.value);
          break;
        }
        assert entries[j..][1..] == entries[j + 1..];
        j := j + 1;
      }
      assert ScanFirst(entries, teamId, PositionOf) == Ok(hit);
      if hit.Some? {
        found := hit;
      }
      i := i + 1;
    }
    assert groups[..i] == groups;
    r := Ok(found);
  }

  function PositionSection(standings: Json, teamId: int): PyResult<Option<LeaguePosition>> {
    var resp :- Get(standings, "response", JNull);
    if !Truthy(resp) then Ok(None)
    else
      var groups :- Elements(resp);
      LeaguePositionIn(groups, teamId)
  }

  datatype Outcome = Win | Draw | Loss

  /** One `recent_form` entry: the result letter, the "team-opponent" score, the opponent's name
    * and the fixture date. */
  datatype FormEntry = FormEntry(result: Outcome, score: string, opponent: Json, date: Json)

  function FormEntryOf(m: Json, teamId: int): (r: PyResult<FormEntry>)
  {
    var homeId :- IndexPath(m, ["teams", "home", "id"]);
    var isHome := EqInt(homeId, teamId);
    var homeGoals :- IndexPath(m, ["goals", "home"]);
    var awayGoals :- IndexPath(m, ["goals", "away"]);
    var own := Or(if isHome then homeGoals else awayGoals, JInt(0));
    var other := Or(if isHome then awayGoals else homeGoals, JInt(0));
    var c :- Compare(own, other);
    var opponent :- IndexPath(m, ["teams", if isHome then "away" else "home", "name"]);
    var date :- IndexPath(m, ["fixture", "date"]);
    Ok(FormEntry(if c > 0 then Win else if c < 0 then Loss else Draw,
                 ScalarText(own) + "-" + ScalarText(other), opponent, date))
  }

  function FormEntryFor(teamId: int): Json -> PyResult<FormEntry> {
    (m: Json) => FormEntryOf(m, teamId)
  }

  /** A fixture as the provider sends it, with integer team ids and optional goal counts. */
  function FixtureJson(homeId: int, awayId: int, homeName: string, awayName: string,
                       homeGoals: Option<nat>, awayGoals: Option<nat>, date: string): Json
  {
    JDict(map[
      "teams" := JDict(map[
        "home" := JDict(map["id" := JInt(homeId), "name" := JStr(homeName)]),
        "away" := JDict(map["id" := JInt(awayId), "name" := JStr(awayName)])]),
      "goals" := JDict(map[
        "home" := if homeGoals.Some? then JInt(homeGoals.value) else JNull,
        "away" := if awayGoals.Some? then JInt(awayGoals.value) else JNull]),
      "fixture" := JDict(map["date" := JStr(date)])])
  }

  /** The result letter compares the team's own goals with the opponent's from whichever side the
    * team played (matched on the home id), a missing count reads as 0, the score is written
    * "own-opponent" and the opponent is the other side's name. */
  lemma FormEntryOfFixture(teamId: int, homeId: int, awayId: int, homeName: string, awayName: string,
                           homeGoals: Option<nat>, awayGoals: Option<nat>, date: string)
    ensures
      var isHome := homeId == teamId;
      var own := if isHome then homeGoals.GetOr(0) else awayGoals.GetOr(0);
      var other := if isHome then awayGoals.GetOr(0) else homeGoals.GetOr(0);
      FormEntryOf(FixtureJson(homeId, awayId, homeName, awayName, homeGoals, awayGoals, date), teamId) ==
        Ok(FormEntry(if own > other then Win else if own < other then Loss else Draw,
                     Text.IntToString(own) + "-" + Text.IntToString(other),
                     JStr(if isHome then awayName else homeName), JStr(date)))
  {
    FixturePaths(homeId, awayId, homeName, awayName, homeGoals, awayGoals, date);
    assert OrZero(if homeGoals.Some? then JInt(homeGoals.value) else JNull) == JInt(homeGoals.GetOr(0));
    assert OrZero(if awayGoals.Some? then JInt(awayGoals.value) else JNull) == JInt(awayGoals.GetOr(0));
  }

  /** The paths `FormEntryOf` reads in a `FixtureJson`. */
  lemma FixturePaths(homeId: int, awayId: int, homeName: string, awayName: string,
                     homeGoals: Option<nat>, awayGoals: Option<nat>, date: string)
    ensures var m := FixtureJson(homeId, awayId, homeName, awayName, homeGoals, awayGoals, date);
      IndexPath(m, ["teams", "home", "id"]) == Ok(JInt(homeId)) &&
      IndexPath(m, ["goals", "home"]) == Ok(if homeGoals.Some? then JInt(homeGoals.value) else JNull) &&
      IndexPath(m, ["goals", "away"]) == Ok(if awayGoals.Some? then JInt(awayGoals.value) else JNull) &&
      IndexPath(m, ["teams", "away", "name"]) == Ok(JStr(awayName)) &&
      IndexPath(m, ["teams", "home", "name"]) == Ok(JStr(homeName)) &&
      IndexPath(m, ["fixture", "date"]) == Ok(JStr(date))
  {
    var m := FixtureJson(homeId, awayId, homeName, awayName, homeGoals, awayGoals, date);
    IndexPathThree(m, "teams", "home", "id");
    IndexPathThree(m, "teams", "away", "name");
    IndexPathThree(m, "teams", "home", "name");
    IndexPathTwo(m, "goals", "home");
    IndexPathTwo(m, "goals", "away");
    IndexPathTwo(m, "fixture", "date");
  }

  /** Swapping sides does not change the entry: it depends only on which side is the team's. */
  lemma FormEntrySideIndependent(teamId: int, otherId: int, name: string, otherName: string,
                                 own: Option<nat>, other: Option<nat>, date: string)
    requires otherId != teamId
    ensures FormEntryOf(FixtureJson(teamId, otherId, name, otherName, own, other, date), teamId) ==
            FormEntryOf(FixtureJson(otherId, teamId, otherName, name, other, own, date), teamId)
  {
    FormEntryOfFixture(teamId, teamId, otherId, name, otherName, own, other, date);
    FormEntryOfFixture(teamId, otherId, teamId, otherName, name, other, own, date);
  }

  /** The `recent_form` loop. */
  method BuildRecentForm(matches: seq<Json>, teamId: int) returns (r: PyResult<seq<FormEntry>>)
    ensures r == MapR(FormEntryFor(teamId), matches)
  {
    var out: seq<FormEntry> := [];
    var i := 0;
    while i < |matches|
      invariant 0 <= i <= |matches|
      invariant MapR(FormEntryFor(teamId), matches[..i]) == Ok(out)
    {
      assert matches[..i + 1][..i] == matches[..i];
      var e := FormEntryOf(matches[i], teamId);
      if e.Raise? {
        MapRPrefixRaise(FormEntryFor(teamId), matches, i + 1);
        return Raise(e.error);
      }
      out := out + [e.value];
      i := i + 1;
    }
    assert matches[..i] == matches;
    r := Ok(out);
  }

  function FormSection(fixtures: Json, teamId: int): PyResult<Option<seq<FormEntry>>> {
    var resp :- Get(fixtures, "response", JNull);
    if !Truthy(resp) then Ok(None)
    else
      var last :- TakeLast(resp, 5);
      var matches :- Elements(last);
      var entries :- MapR(FormEntryFor(teamId), matches);
      Ok(Some(entries))
  }

  /** Recent form covers exactly the last five fixtures of the list, in payload order. */
  lemma FormSectionLastFive(fixtures: seq<Json>, rest: map<string, Json>, teamId: int)
    requires fixtures != []
    requires FormSection(JDict(rest["response" := JList(fixtures)]), teamId).Ok?
    ensures
      var form := FormSection(JDict(rest["response" := JList(fixtures)]), teamId).value;
      var last := Text.LastN(fixtures, 5);
      form.Some? && |form.value| == |last| &&
      forall i :: 0 <= i < |last| ==> FormEntryOf(last[i], teamId) == Ok(form.value[i])
  {
    var last := Text.LastN(fixtures, 5);
    assert TakeLast(JList(fixtures), 5) == Ok(JList(last));
    MapROk(FormEntryFor(teamId), last);
  }

  datatype TopScorer = TopScorer(
    id: Json, name: Json, photo: Json, age: Json, nationality: Json,
    goals: Json, assists: Json, matches: Json, position: Json)

  function TopScorerOf(scorer: Json): PyResult<TopScorer> {
    var item :- Fields(scorer);
    var player :- Key(item, "player");
    var statistics := At(item, "statistics", JNull);
    var data :- if Truthy(statistics) then Nth(statistics, 0) else Ok(EmptyDict);
    var p :- Fields(player);
    var id :- Key(p, "id");
    var name :- Key(p, "name");
    var d :- Fields(data);
    var goals :- Fields(At(d, "goals", EmptyDict));
    var games :- Fields(At(d, "games", EmptyDict));
    Ok(TopScorer(id, name, At(p, "photo", JNull), At(p, "age", JNull), At(p, "nationality", JNull),
                 At(goals, "total", JInt(0)), At(goals, "assists", JInt(0)),
                 At(games, "appearences", JInt(0)), At(games, "position", JNull)))
  }

  /** The `top_scorers` loop. */
  method BuildTopScorers(scorers: seq<Json>) returns (r: PyResult<seq<TopScorer>>)
    ensures r == MapR(TopScorerOf, scorers)
  {
    var out: seq<TopScorer> := [];
    var i := 0;
    while i < |scorers|
      invariant 0 <= i <= |scorers|
      invariant MapR(TopScorerOf, scorers[..i]) == Ok(out)
    {
      assert scorers[..i + 1][..i] == scorers[..i];
      var t := TopScorerOf(scorers[i]);
      if t.Raise? {
        MapRPrefixRaise(TopScorerOf, scorers, i + 1);
        return Raise(t.error);
      }
      out := out + [t.value];
      i := i + 1;
    }
    assert scorers[..i] == scorers;
    r := Ok(out);
  }

  function ScorersSection(topScorers: Json): PyResult<Option<seq<TopScorer>>> {
    var resp :- Get(topScorers, "response", JNull);
    if !Truthy(resp) then Ok(None)
    else
      var first :- Take(resp, 5);
      var scorers :- Elements(first);
      var out :- MapR(TopScorerOf, scorers);
      Ok(Some(out))
  }

  /** At most five top scorers, the first five of the list in order. */
  lemma ScorersSectionFirstFive(scorers: seq<Json>, rest: map<string, Json>)
    requires scorers != []
    requires ScorersSection(JDict(rest["response" := JList(scorers)])).Ok?
    ensures
      var out := ScorersSection(JDict(rest["response" := JList(scorers)])).value;
      var first := Text.FirstN(scorers, 5);
      out.Some? && |out.value| == |first| <= 5 &&
      forall i :: 0 <= i < |first| ==> TopScorerOf(first[i]) == Ok(out.value[i])
  {
    var first := Text.FirstN(scorers, 5);
    MapROk(TopScorerOf, first);
  }

  /** `calculated_metrics`, as exact quotients (the source rounds them for display). */
  datatype Metrics = Metrics(
    winPercentage: real, goalsPerMatch: real, goalsConcededPerMatch: real,
    goalDifference: int, pointsProjection: real)

  function MetricsOf(general: Option<Tally>): (r: PyResult<Option<Metrics>>)
    ensures general.None? ==> r == Ok(None)
    ensures general.Some? && AsNumber(general.value.played).Some? && AsNumber(general.value.played).value <= 0 ==>
      r == Ok(None)
  {
    if general.None? then Ok(None)
    else
      var g := general.value;
      var positive :- Greater(g.played, JInt(0));
      if !positive then Ok(None)
      else
        var winRate :- Div(g.wins, g.played);
        var scored :- Div(g.goalsFor, g.played);
        var conceded :- Div(g.goalsAgainst, g.played);
        var difference :- Sub(g.goalsFor, g.goalsAgainst);
        var wins :- if g.wins.JInt? || g.wins.JBool? then Ok(AsNumber(g.wins).value) else Raise(TypeError);
        var draws :- if g.draws.JInt? || g.draws.JBool? then Ok(AsNumber(g.draws).value) else Raise(TypeError);
        var points :- Div(JInt(wins * 3 + draws), g.played);
        Ok(Some(Metrics(winRate * 100.0, scored, conceded, difference, points * 38.0)))
  }

  /** Metrics exist only for a positive number of played matches, and then the goal difference is
    * scored minus conceded and every rate is the count over the matches played. */
  lemma MetricsMeaning(played: int, w: int, d: int, gf: int, ga: int, losses: Json)
    ensures
      var g := Tally(JInt(played), JInt(w), JInt(d), losses, JInt(gf), JInt(ga));
      var m := MetricsOf(Some(g));
      m.Ok? && (m.value.Some? <==> played > 0) &&
      (played > 0 ==>
        m.value.value.goalDifference == gf - ga &&
        m.value.value.winPercentage * (played as real) == (w as real) * 100.0 &&
        m.value.value.goalsPerMatch * (played as real) == gf as real &&
        m.value.value.goalsConcededPerMatch * (played as real) == ga as real &&
        m.value.value.pointsProjection * (played as real) == ((3 * w + d) as real) * 38.0)
  {
  }

  /** The statistics endpoint's result, without its `last_update` clock stamp. */
  datatype TeamStatistics = TeamStatistics(
    teamId: int, league: int, season: int,
    seasonStats: Option<SeasonStats>,
    leaguePosition: Option<LeaguePosition>,
    recentForm: Option<seq<FormEntry>>,
    topScorers: Option<seq<TopScorer>>,
    metrics: Option<Metrics>)

  function StatisticsBody(teamId: int, league: int, season: int,
                          teamStats: Json, standings: Json, fixtures: Json, scorers: Json): (r: PyResult<TeamStatistics>)
    ensures r.Ok? ==> r.value.teamId == teamId && r.value.league == league && r.value.season == season
    ensures r.Ok? ==> (r.value.metrics.Some? ==> r.value.seasonStats.Some?)
  {
    var seasonStats :- SeasonSection(teamStats);
    var position :- PositionSection(standings, teamId);
    var form :- FormSection(fixtures, teamId);
    var top :- ScorersSection(scorers);
    var metrics :- MetricsOf(if seasonStats.Some? then Some(seasonStats.value.general) else None);
    Ok(TeamStatistics(teamId, league, season, seasonStats, position, form, top, metrics))
  }

  function Ids(team: Option<int>, league: int, season: int): map<string, Json> {
    var m := map["league" := JInt(league), "season" := JInt(season)];
    if team.Some? then m["team" := JInt(team.value)] else m
  }

  /** The four provider requests of the statistics endpoint, all made before any processing. */
  function StatisticsCalls(teamId: int, league: int, season: int): (c: seq<Request>)
    ensures |c| == 4
    ensures c[0].endpoint == "teams/statistics" && c[1].endpoint == "standings" &&
            c[2].endpoint == "fixtures" && c[3].endpoint == "players/topscorers"
    ensures forall i :: 0 <= i < 4 ==> "league" in c[i].params && c[i].params["league"] == JInt(league) &&
                                       "season" in c[i].params && c[i].params["season"] == JInt(season)
    ensures forall i :: 0 <= i < 4 ==> ("team" in c[i].params <==> i != 1)
    ensures "last" in c[2].params && c[2].params["last"] == JInt(10)
  {
    [Request("teams/statistics", Ids(Some(teamId), league, season)),
     Request("standings", Ids(None, league, season)),
     Request("fixtures", Ids(Some(teamId), league, season)["last" := JInt(10)]),
     Request("players/topscorers", Ids(Some(teamId), league, season))]
  }

  const StatisticsFailed := "Erreur lors de la récupération des statistiques"

  function GetTeamStatistics(api: Request -> Reply, teamId: int, league: int, season: int): (h: Handled<TeamStatistics>)
    ensures h.calls == StatisticsCalls(teamId, league, season)
    ensures h.result.Raise? ==> h.result.error == HttpError(500, StatisticsFailed)
  {
    var c := StatisticsCalls(teamId, league, season);
    var body := StatisticsBody(teamId, league, season,
      MakeApiRequest(api(c[0])), MakeApiRequest(api(c[1])), MakeApiRequest(api(c[2])), MakeApiRequest(api(c[3])));
    // The request helper never raises, so the `except HTTPException: raise` clause never fires.
    Handled(Internal(body, StatisticsFailed), c)
  }

  // ---------------------------------------------------------------- get_team_players_detailed

  datatype Performance = Performance(
    position: Json, appearances: Json, minutes: Json, rating: Json, captain: Json,
    goals: Json, assists: Json, saves: Json, yellowCards: Json, redCards: Json)

  /** `calculated_stats`, as exact quotients. */
  datatype RateStats = RateStats(goalsPerMatch: real, assistsPerMatch: real, minutesPerMatch: real, goalContribution: int)

  datatype DetailedPlayer = DetailedPlayer(
    id: Json, name: Json, age: Json, nationality: Json, height: Json, weight: Json, photo: Json,
    injured: Json, performance: Performance, calculated: Option<RateStats>)

  /** `x or 0` reads a missing or falsy counter as 0; the result is never None. */
  function OrZero(x: Json): (r: Json)
    ensures r != JNull
    ensures Truthy(x) ==> r == x
    ensures !Truthy(x) ==> r == JInt(0)
  {
    Or(x, JInt(0))
  }

  function RateStatsOf(p: Performance): (r: PyResult<Option<RateStats>>)
    ensures !Truthy(p.appearances) ==> r == Ok(None)
    ensures r.Ok? && Truthy(p.appearances) ==> AsNumber(p.appearances).Some?
  {
    if !Truthy(p.appearances) then Ok(None)
    else
      var positive :- Greater(p.appearances, JInt(0));
      if !positive then Ok(None)
      else
        var goals :- Div(p.goals, p.appearances);
        var assists :- Div(p.assists, p.appearances);
        var minutes :- if Truthy(p.minutes) then Div(p.minutes, p.appearances) else Ok(0.0);
        var contribution :- Add(p.goals, p.assists);
        Ok(Some(RateStats(goals, assists, minutes, contribution)))
  }

  /** Rates exist only for a positive appearance count; the contribution is goals plus assists
    * and the minutes rate is 0 when no minutes are recorded. */
  lemma RateStatsMeaning(apps: int, goals: int, assists: int, minutes: int, rest: Performance)
    ensures
      var p := rest.(appearances := JInt(apps), goals := JInt(goals), assists := JInt(assists), minutes := JInt(minutes));
      var r := RateStatsOf(p);
      r.Ok? && (r.value.Some? <==> apps > 0) &&
      (apps > 0 ==>
        r.value.value.goalContribution == goals + assists &&
        r.value.value.goalsPerMatch * (apps as real) == goals as real &&
        r.value.value.assistsPerMatch * (apps as real) == assists as real &&
        (minutes == 0 ==> r.value.value.minutesPerMatch == 0.0) &&
        r.value.value.minutesPerMatch * (apps as real) == minutes as real)
  {
  }

  function DetailedPlayerOf(item: Json): (r: PyResult<DetailedPlayer>)
    ensures r.Ok? ==> var p := r.value.performance;
      p.appearances != JNull && p.minutes != JNull && p.goals != JNull && p.assists != JNull &&
      p.saves != JNull && p.yellowCards != JNull && p.redCards != JNull
    ensures r.Ok? ==> RateStatsOf(r.value.performance) == Ok(r.value.calculated)
  {
    var itemFields :- Fields(item);
    var player :- Key(itemFields, "player");
    var st := At(itemFields, "statistics", JNull);
    var statistics :- if Truthy(st) then Nth(st, 0) else Ok(EmptyDict);
    var s :- Fields(statistics);
    var games :- Fields(At(s, "games", EmptyDict));
    var goals :- Fields(At(s, "goals", EmptyDict));
    var cards :- Fields(At(s, "cards", EmptyDict));
    var p :- Fields(player);
    var id :- Key(p, "id");
    var name :- Key(p, "name");
    var perf := Performance(
      At(games, "position", JNull), OrZero(At(games, "appearences", JInt(0))),
      OrZero(At(games, "minutes", JInt(0))), At(games, "rating", JNull), At(games, "captain", JBool(false)),
      OrZero(At(goals, "total", JInt(0))), OrZero(At(goals, "assists", JInt(0))),
      OrZero(At(goals, "saves", JInt(0))), OrZero(At(cards, "yellow", JInt(0))), OrZero(At(cards, "red", JInt(0))));
    var calculated :- RateStatsOf(perf);
    Ok(DetailedPlayer(id, name, At(p, "age", JNull), At(p, "nationality", JNull), At(p, "height", JNull),
                      At(p, "weight", JNull), At(p, "photo", JNull), At(p, "injured", JBool(false)),
                      perf, calculated))
  }

  /** The `detailed_players` loop. */
  method BuildDetailedPlayers(items: seq<Json>) returns (r: PyResult<seq<DetailedPlayer>>)
    ensures r == MapR(DetailedPlayerOf, items)
  {
    var out: seq<DetailedPlayer> := [];
    var i := 0;
    while i < |items|
      invariant 0 <= i <= |items|
      invariant MapR(DetailedPlayerOf, items[..i]) == Ok(out)
    {
      assert items[..i + 1][..i] == items[..i];
      var p := DetailedPlayerOf(items[i]);
      if p.Raise? {
        MapRPrefixRaise(DetailedPlayerOf, items, i + 1);
        return Raise(p.error);
      }
      out := out + [p.value];
      i := i + 1;
    }
    assert items[..i] == items;
    r := Ok(out);
  }

  function DetailedAppearances(p: DetailedPlayer): Json {
    OrZero(p.performance.appearances)
  }

  datatype DetailedPlayers = DetailedPlayers(players: seq<DetailedPlayer>, total: nat)

  function DetailedPlayersBody(playersData: Json): (r: PyResult<DetailedPlayers>)
    ensures r.Ok? ==> r.value.total == |r.value.players|
  {
    var resp :- Get(playersData, "response", JNull);
    if !Truthy(resp) then Ok(DetailedPlayers([], 0))
    else
      var items :- Elements(resp);
      var players :- MapR(DetailedPlayerOf, items);
      var sorted :- SortByKeyDesc(players, DetailedAppearances);
      Ok(DetailedPlayers(sorted, |sorted|))
  }

  /** The appearance test `appearances and appearances > 0` raises for every truthy key that is not a
    * number, so every player that reaches the sort has a numeric key and the sort never raises. */
  lemma DetailedSortNeverRaises(items: seq<Json>)
    requires MapR(DetailedPlayerOf, items).Ok?
    ensures var players := MapR(DetailedPlayerOf, items).value;
      AllNumeric(players, DetailedAppearances) && SortByKeyDesc(players, DetailedAppearances).Ok?
  {
    var players := MapR(DetailedPlayerOf, items).value;
    MapROk(DetailedPlayerOf, items);
    forall i | 0 <= i < |players| ensures AsNumber(DetailedAppearances(players[i])).Some? {
      assert DetailedPlayerOf(items[i]) == Ok(players[i]);
    }
  }

  /** The detailed list holds one processed entry per provider item, sorted by appearances
    * descending with ties in provider order; every entry's counters are non-None. */
  lemma DetailedPlayersMeaning(items: seq<Json>, rest: map<string, Json>, k: int)
    requires items != []
    requires DetailedPlayersBody(JDict(rest["response" := JList(items)])).Ok?
    ensures
      var out := DetailedPlayersBody(JDict(rest["response" := JList(items)])).value;
      var players := MapR(DetailedPlayerOf, items);
      players.Ok? &&
      multiset(out.players) == multiset(players.value) &&
      StableSort.NonIncreasing(out.players, NumericKey(DetailedAppearances)) &&
      StableSort.WithKey(out.players, NumericKey(DetailedAppearances), k) ==
        StableSort.WithKey(players.value, NumericKey(DetailedAppearances), k)
  {
    var players := MapR(DetailedPlayerOf, items);
    DetailedPlayersBodyOk(items, rest);
    DetailedSortNeverRaises(items);
    NumericSortKey(players.value, DetailedAppearances);
    SortByKeyDescOrdered(players.value, DetailedAppearances, k);
  }

  lemma DetailedPlayersBodyOk(items: seq<Json>, rest: map<string, Json>)
    requires items != []
    requires DetailedPlayersBody(JDict(rest["response" := JList(items)])).Ok?
    ensures var players := MapR(DetailedPlayerOf, items);
      players.Ok? && SortByKeyDesc(players.value, DetailedAppearances).Ok? &&
      DetailedPlayersBody(JDict(rest["response" := JList(items)])).value.players ==
        SortByKeyDesc(players.value, DetailedAppearances).value
  {
  }

  const PlayersFailed := "Erreur lors de la récupération des joueurs"

  function GetTeamPlayersDetailed(api: Request -> Reply, teamId: int, league: int, season: int): (h: Handled<DetailedPlayers>)
    ensures h.calls == [Request("players", Ids(Some(teamId), league, season))]
    ensures h.result.Raise? ==> h.result.error == HttpError(500, PlayersFailed)
  {
    var call := Request("players", Ids(Some(teamId), league, season));
    Handled(Internal(DetailedPlayersBody(MakeApiRequest(api(call))), PlayersFailed), [call])
  }

  // ---------------------------------------------------------------- get_team_complete_profile

  const TeamNotFound := "Équipe non trouvée"
  const ProfileFailed := "Erreur lors de la récupération du profil"

  function TeamsRequest(teamId: int): Request {
    Request("teams", map["id" := JInt(teamId)])
  }

  function ProfilePlayersRequest(teamId: int, league: int, season: int): Request {
    Request("players", Ids(Some(teamId), league, season))
  }

  /** What the first request yields: the `team` dict (whose `name` the success log reads) and the
    * `venue` entry (default `{}`). */
  datatype TeamHead = TeamHead(team: map<string, Json>, name: Json, venue: Json)

  function TeamHeadOf(teamData: Json): (r: TryResult<TeamHead>)
    ensures Get(teamData, "response", JNull).Ok? && !Truthy(Get(teamData, "response", JNull).value) ==>
      r == Raise(Http(HttpError(404, TeamNotFound)))
    ensures r.Ok? ==> "name" in r.value.team && r.value.name == r.value.team["name"]
  {
    var resp :- Lift(Get(teamData, "response", JNull));
    if !Truthy(resp) then Raise(Http(HttpError(404, TeamNotFound)))
    else
      var teamInfo :- Lift(Nth(resp, 0));
      var team :- Lift(Index(teamInfo, "team"));
      var venue := At(teamInfo.fields, "venue", EmptyDict);
      var name :- Lift(Index(team, "name"));
      Ok(TeamHead(team.fields, name, venue))
  }

  /** `standing_stats` of the profile. */
  datatype StandingStats = StandingStats(
    position: Json, points: Json, matchesPlayed: Json, wins: Json, draws: Json, losses: Json,
    goalsFor: Json, goalsAgainst: Json, goalDifference: Json, form: Json)

  function StandingStatsOf(entry: Json): PyResult<StandingStats> {
    var rank :- Index(entry, "rank");
    var points :- Key(entry.fields, "points");
    var all :- Key(entry.fields, "all");
    var played :- Index(all, "played");
    var win :- Key(all.fields, "win");
    var draw :- Key(all.fields, "draw");
    var lose :- Key(all.fields, "lose");
    var goals :- Key(all.fields, "goals");
    var goalsFor :- Index(goals, "for");
    var goalsAgainst :- Key(goals.fields, "against");
    var diff :- Key(entry.fields, "goalsDiff");
    Ok(StandingStats(rank, points, played, win, draw, lose, goalsFor, goalsAgainst, diff,
                     At(entry.fields, "form", JStr(""))))
  }

  /** The team's first entry in one standings group. */
  function GroupStanding(teamId: int): Json -> PyResult<Option<StandingStats>> {
    (group: Json) =>
      var entries :- Elements(group);
      ScanFirst(entries, teamId, StandingStatsOf)
  }

  /** The last find over the groups of one response element
    * (`league_standing.get("league", {}).get("standings", [])`). */
  function LeagueStanding(teamId: int): Json -> PyResult<Option<StandingStats>> {
    (leagueStanding: Json) =>
      var tables :- GetPath(leagueStanding, ["league", "standings"], EmptyList);
      var groups :- Elements(tables);
      LastFound(GroupStanding(teamId), groups)
  }

  /** The triple loop: every group of every response element is scanned, and the `break` leaves
    * only the innermost loop, so the last group holding the team wins. */
  function StandingIn(leagues: seq<Json>, teamId: int): PyResult<Option<StandingStats>> {
    LastFound(LeagueStanding(teamId), leagues)
  }

  /** The groups of one response element, as the middle loop sees them. */
  function GroupsOf(leagueStanding: Json): PyResult<seq<Json>> {
    var tables :- GetPath(leagueStanding, ["league", "standings"], EmptyList);
    Elements(tables)
  }

  /** No standing is found exactly when every group of every response element is readable and
    * holds only readable entries of other teams. */
  lemma {:induction false} StandingInNone(leagues: seq<Json>, teamId: int)
    ensures StandingIn(leagues, teamId) == Ok(None) <==>
      forall i :: 0 <= i < |leagues| ==>
        GroupsOf(leagues[i]).Ok? &&
        forall g :: 0 <= g < |GroupsOf(leagues[i]).value| ==>
          Elements(GroupsOf(leagues[i]).value[g]).Ok? &&
          forall e :: 0 <= e < |Elements(GroupsOf(leagues[i]).value[g]).value| ==>
            EntryIsTeam(Elements(GroupsOf(leagues[i]).value[g]).value[e], teamId) == Ok(false)
  {
    LastFoundNone(LeagueStanding(teamId), leagues);
    forall i | 0 <= i < |leagues|
      ensures LeagueStanding(teamId)(leagues[i]) == Ok(None) <==>
        GroupsOf(leagues[i]).Ok? &&
        forall g :: 0 <= g < |GroupsOf(leagues[i]).value| ==>
          Elements(GroupsOf(leagues[i]).value[g]).Ok? &&
          forall e :: 0 <= e < |Elements(GroupsOf(leagues[i]).value[g]).value| ==>
            EntryIsTeam(Elements(GroupsOf(leagues[i]).value[g]).value[e], teamId) == Ok(false)
    {
      var groups := GroupsOf(leagues[i]);
      if groups.Ok? {
        LastFoundNone(GroupStanding(teamId), groups.value);
        forall g | 0 <= g < |groups.value|
          ensures GroupStanding(teamId)(groups.value[g]) == Ok(None) <==>
            Elements(groups.value[g]).Ok? &&
            forall e :: 0 <= e < |Elements(groups.value[g]).value| ==>
              EntryIsTeam(Elements(groups.value[g]).value[e], teamId) == Ok(false)
        {
          var entries := Elements(groups.value[g]);
          if entries.Ok? {
            ScanFirstNone(entries.value, teamId, StandingStatsOf);
          }
        }
      }
    }
  }

  /** The innermost loop with its `break`: the team's first entry in one standings group. */
  method ScanStandingGroup(group: Json, teamId: int) returns (r: PyResult<Option<StandingStats>>)
    ensures r == GroupStanding(teamId)(group)
  {
    var entriesR := Elements(group);
    if entriesR.Raise? {
      return Raise(entriesR.error);
    }
    var entries := entriesR.value;
    var k := 0;
    while k < |entries|
      invariant 0 <= k <= |entries|
      invariant ScanFirst(entries, teamId, StandingStatsOf) == ScanFirst(entries[k..], teamId, StandingStatsOf)
    {
      var isTeam := EntryIsTeam(entries[k], teamId);
      if isTeam.Raise? {
        return Raise(isTeam.error);
      }
      if isTeam.value {
        var s := StandingStatsOf(entries[k]);
        if s.Raise? {
          return Raise(s.error);
        }
        return Ok(Some(s.value));
      }
      assert entries[k..][1..] == entries[k + 1..];
      k := k + 1;
    }
    r := Ok(None);
  }

  /** The nested `for ... for ... for ... break` search of the profile endpoint; `found` plays
    * `standing_stats` (and `current_position`, its rank), overwritten by every group's find. */
  method FindStandingStats(leagues: seq<Json>, teamId: int) returns (r: PyResult<Option<StandingStats>>)
    ensures r == StandingIn(leagues, teamId)
  {
    var found: Option<StandingStats> := None;
    var i := 0;
    while i < |leagues|
      invariant 0 <= i <= |leagues|
      invariant StandingIn(leagues[..i], teamId) == Ok(found)
    {
      assert leagues[..i + 1][..i] == leagues[..i];
      var groupsR := GroupsOf(leagues[i]);
      if groupsR.Raise? {
        LastFoundPrefixRaise(LeagueStanding(teamId), leagues, i + 1);
        return Raise(groupsR.error);
      }
      var groups := groupsR.value;
      assert LeagueStanding(teamId)(leagues[i]) == LastFound(GroupStanding(teamId), groups);
      var scanned := ScanGroups(found, groups, teamId);
      if scanned.Raise? {
        LastFoundPrefixRaise(LeagueStanding(teamId), leagues, i + 1);
        return scanned;
      }
      found := scanned.value;
      i := i + 1;
    }
    assert leagues[..i] == leagues;
    r := Ok(found);
  }

  /** The inner loop over one league's groups: the last group hit replaces what was found. */
  method ScanGroups(found: Option<StandingStats>, groups: seq<Json>, teamId: int) returns (r: PyResult<Option<StandingStats>>)
    ensures LastFound(GroupStanding(teamId), groups).Ok? ==>
      r == Ok(Or2(LastFound(GroupStanding(teamId), groups).value, found))
    ensures LastFound(GroupStanding(teamId), groups).Raise? ==>
      r == Raise(LastFound(GroupStanding(teamId), groups).error)
  {
    var current := found;
    var j := 0;
    while j < |groups|
      invariant 0 <= j <= |groups|
      invariant LastFound(GroupStanding(teamId), groups[..j]).Ok?
      invariant current == Or2(LastFound(GroupStanding(teamId), groups[..j]).value, found)
    {
      assert groups[..j + 1][..j] == groups[..j];
      var hit := ScanStandingGroup(groups[j], teamId);
      if hit.Raise? {
        LastFoundPrefixRaise(GroupStanding(teamId), groups, j + 1);
        return Raise(hit.error);
      }
      if hit.value.Some? {
        current := hit.value;
      }
      j := j + 1;
    }
    assert groups[..j] == groups;
    r := Ok(current);
  }

  /** `a` when it holds something, otherwise `b`. */
  function Or2<X>(a: Option<X>, b: Option<X>): (r: Option<X>)
    ensures a.Some? ==> r == a
    ensures a.None? ==> r == b
  {
    if a.Some? then a else b
  }

  function StandingSection(standings: Json, teamId: int): PyResult<Option<StandingStats>> {
    var resp :- Get(standings, "response", JNull);
    if !Truthy(resp) then Ok(None)
    else
      var leagues :- Elements(resp);
      StandingIn(leagues, teamId)
  }

  /** `current_season`: the found standing, or position None, zero counters and an empty form. */
  datatype CurrentSeason = CurrentSeason(
    league: int, season: int, position: Json, points: Json, matchesPlayed: Json, wins: Json,
    draws: Json, losses: Json, goalsFor: Json, goalsAgainst: Json, goalDifference: Json, form: Json)

  function CurrentSeasonOf(league: int, season: int, standing: Option<StandingStats>): (c: CurrentSeason)
    ensures c.league == league && c.season == season
    ensures standing.None? ==>
      c.position == JNull && c.form == JStr("") &&
      c.points == JInt(0) && c.matchesPlayed == JInt(0) && c.wins == JInt(0) && c.draws == JInt(0) &&
      c.losses == JInt(0) && c.goalsFor == JInt(0) && c.goalsAgainst == JInt(0) && c.goalDifference == JInt(0)
    ensures standing.Some? ==>
      var s := standing.value;
      c.position == s.position && c.points == s.points && c.matchesPlayed == s.matchesPlayed &&
      c.wins == s.wins && c.draws == s.draws && c.losses == s.losses && c.goalsFor == s.goalsFor &&
      c.goalsAgainst == s.goalsAgainst && c.goalDifference == s.goalDifference && c.form == s.form
  {
    match standing
    case None =>
      CurrentSeason(league, season, JNull, JInt(0), JInt(0), JInt(0), JInt(0), JInt(0), JInt(0), JInt(0),
                    JInt(0), JStr(""))
    case Some(s) =>
      CurrentSeason(league, season, s.position, s.points, s.matchesPlayed, s.wins, s.draws, s.losses,
                    s.goalsFor, s.goalsAgainst, s.goalDifference, s.form)
  }

  /** One `simplified_players` entry. */
  datatype ProfilePlayer = ProfilePlayer(
    id: Json, name: Json, age: Json, nationality: Json, height: Json, weight: Json, photo: Json,
    injured: Json, position: Json, appearances: Json, goals: Json, assists: Json, minutes: Json,
    rating: Json)

  /** A player with statistics takes position, counters (`or 0`) and rating from the first
    * statistics block; one without is kept with position and rating None and zero counters. */
  function ProfilePlayerOf(item: Json): (r: PyResult<ProfilePlayer>)
    ensures r.Ok? ==> r.value.appearances != JNull && r.value.goals != JNull &&
                      r.value.assists != JNull && r.value.minutes != JNull
  {
    var player :- Index(item, "player");
    var statistics := At(item.fields, "statistics", EmptyList);
    if Truthy(statistics) then
      var stat :- Nth(statistics, 0);
      var statFields :- Fields(stat);
      var games :- Fields(At(statFields, "games", EmptyDict));
      var goalsStats :- Fields(At(statFields, "goals", EmptyDict));
      var id :- Index(player, "id");
      var name :- Key(player.fields, "name");
      var p := player.fields;
      Ok(ProfilePlayer(id, name, At(p, "age", JNull), At(p, "nationality", JNull), At(p, "height", JNull),
                       At(p, "weight", JNull), At(p, "photo", JNull), At(p, "injured", JBool(false)),
                       At(games, "position", JNull), OrZero(At(games, "appearences", JInt(0))),
                       OrZero(At(goalsStats, "total", JInt(0))), OrZero(At(goalsStats, "assists", JInt(0))),
                       OrZero(At(games, "minutes", JInt(0))), At(games, "rating", JNull)))
    else
      var id :- Index(player, "id");
      var name :- Key(player.fields, "name");
      var p := player.fields;
      Ok(ProfilePlayer(id, name, At(p, "age", JNull), At(p, "nationality", JNull), At(p, "height", JNull),
                       At(p, "weight", JNull), At(p, "photo", JNull), At(p, "injured", JBool(false)),
                       JNull, JInt(0), JInt(0), JInt(0), JInt(0), JNull))
  }

  /** A player item without statistics is kept with the zero defaults and its identity. */
  lemma ProfilePlayerWithoutStatistics(player: map<string, Json>, rest: map<string, Json>)
    requires "id" in player && "name" in player
    requires "statistics" !in rest
    ensures
      var r := ProfilePlayerOf(JDict(rest["player" := JDict(player)]));
      r.Ok? && r.value.id == player["id"] && r.value.name == player["name"] &&
      r.value.position == JNull && r.value.rating == JNull &&
      r.value.appearances == JInt(0) && r.value.goals == JInt(0) &&
      r.value.assists == JInt(0) && r.value.minutes == JInt(0)
  {
  }

  /** The `simplified_players` loop. */
  method BuildProfilePlayers(items: seq<Json>) returns (r: PyResult<seq<ProfilePlayer>>)
    ensures r == MapR(ProfilePlayerOf, items)
  {
    var out: seq<ProfilePlayer> := [];
    var i := 0;
    while i < |items|
      invariant 0 <= i <= |items|
      invariant MapR(ProfilePlayerOf, items[..i]) == Ok(out)
    {
      assert items[..i + 1][..i] == items[..i];
      var p := ProfilePlayerOf(items[i]);
      if p.Raise? {
        MapRPrefixRaise(ProfilePlayerOf, items, i + 1);
        return Raise(p.error);
      }
      out := out + [p.value];
      i := i + 1;
    }
    assert items[..i] == items;
    r := Ok(out);
  }

  /** The sort key `x.get("appearances", 0) or 0`. */
  function ProfileAppearances(p: ProfilePlayer): Json {
    OrZero(p.appearances)
  }

  /** The processed players before sorting: those of the first twenty items, or none. */
  function ProfilePlayersOf(resp: Json): PyResult<seq<ProfilePlayer>> {
    if !Truthy(resp) then Ok([])
    else
      // The debug statement reading the first element.
      var _ :- Nth(resp, 0);
      var first :- Take(resp, 20);
      var items :- Elements(first);
      MapR(ProfilePlayerOf, items)
  }

  datatype Venue = Venue(name: Json, city: Json, capacity: Json, surface: Json, address: Json, image: Json)

  function VenueOf(venue: Json): (r: PyResult<Option<Venue>>)
    ensures !Truthy(venue) ==> r == Ok(None)
    ensures Truthy(venue) && r.Ok? ==> r.value.Some?
  {
    if !Truthy(venue) then Ok(None)
    else
      var v :- Fields(venue);
      Ok(Some(Venue(At(v, "name", JNull), At(v, "city", JNull), At(v, "capacity", JNull),
                    At(v, "surface", JNull), At(v, "address", JNull), At(v, "image", JNull))))
  }

  /** `detailed_statistics`: the statistics endpoint's result, or the
    * `{"error": "Statistiques non disponibles"}` placeholder when it raised. */
  datatype DetailedStatistics = Available(stats: TeamStatistics) | Unavailable

  function DetailedStatisticsOf(r: Result<TeamStatistics, HttpError>): (d: DetailedStatistics)
    ensures d.Unavailable? <==> r.Raise?
    ensures r.Ok? ==> d == Available(r.value)
  {
    if r.Ok? then Available(r.value) else Unavailable
  }

  /** `debug_info`: a constant call count and two lengths. */
  datatype DebugInfo = DebugInfo(apiCallsMade: int, playersApiResponseLength: nat, playersProcessed: nat)

  /** The complete profile, without its `last_update` clock stamp. */
  datatype TeamProfile = TeamProfile(
    id: Json, name: Json, logo: Json, country: Json, code: Json, founded: Json, national: Json,
    currentSeason: CurrentSeason, venue: Option<Venue>, detailedStatistics: DetailedStatistics,
    players: seq<ProfilePlayer>, playersCount: nat, debugInfo: DebugInfo)

  /** The players part: the length of the provider's list (the debug log line and `debug_info`)
    * and the processed players sorted by appearances. */
  datatype ProfileSquad = ProfileSquad(responseLength: nat, players: seq<ProfilePlayer>)

  function ProfileSquadOf(playersData: map<string, Json>): (r: PyResult<ProfileSquad>)
    ensures r.Ok? ==> |r.value.players| <= 20
  {
    var length :- Len(At(playersData, "response", EmptyList));
    var players :- ProfilePlayersOf(At(playersData, "response", JNull));
    var sorted :- SortByKeyDesc(players, ProfileAppearances);
    Ok(ProfileSquad(length, sorted))
  }

  /** The team part: identity fields by `[]`, the others by `.get`, and the venue. */
  datatype ProfileTeam = ProfileTeam(
    id: Json, name: Json, logo: Json, country: Json, code: Json, founded: Json, national: Json,
    venue: Option<Venue>)

  function ProfileTeamOf(head: TeamHead): (r: PyResult<ProfileTeam>)
    ensures r.Ok? ==> r.value.name == head.name
    ensures r.Ok? ==> "id" in head.team && r.value.id == head.team["id"]
  {
    var t := head.team;
    var id :- Key(t, "id");
    var logo :- Key(t, "logo");
    var country :- Key(t, "country");
    var venue :- VenueOf(head.venue);
    Ok(ProfileTeam(id, head.name, logo, country, At(t, "code", JNull), At(t, "founded", JNull),
                   At(t, "national", JBool(false)), venue))
  }

  /** Everything after the standings lookup: the players request's processing and the record. */
  function ProfileBody(league: int, season: int, head: TeamHead, standing: Option<StandingStats>,
                       stats: Result<TeamStatistics, HttpError>, playersData: map<string, Json>): (r: PyResult<TeamProfile>)
    ensures r.Ok? ==> r.value.playersCount == |r.value.players| == r.value.debugInfo.playersProcessed
    ensures r.Ok? ==> |r.value.players| <= 20
    ensures r.Ok? ==> r.value.currentSeason == CurrentSeasonOf(league, season, standing)
    ensures r.Ok? ==> r.value.detailedStatistics == DetailedStatisticsOf(stats)
    ensures r.Ok? <==> ProfileSquadOf(playersData).Ok? && ProfileTeamOf(head).Ok?
  {
    var squad :- ProfileSquadOf(playersData);
    var team :- ProfileTeamOf(head);
    Ok(TeamProfile(team.id, team.name, team.logo, team.country, team.code, team.founded, team.national,
                   CurrentSeasonOf(league, season, standing), team.venue, DetailedStatisticsOf(stats),
                   squad.players, |squad.players|, DebugInfo(4, squad.responseLength, |squad.players|)))
  }

  /** The requests the profile makes when it gets past the standings lookup: teams, standings, the
    * four of the statistics endpoint, then players. */
  function ProfileCalls(teamId: int, league: int, season: int): (c: seq<Request>)
    ensures |c| == 7
    ensures c[0] == TeamsRequest(teamId)
  {
    [TeamsRequest(teamId), Request("standings", Ids(None, league, season))] +
    StatisticsCalls(teamId, league, season) + [ProfilePlayersRequest(teamId, league, season)]
  }

  function GetTeamCompleteProfile(api: Request -> Reply, teamId: int, league: int, season: int): (h: Handled<TeamProfile>)
    ensures !Truthy(Get(MakeApiRequest(api(TeamsRequest(teamId))), "response", JNull).value) ==>
      h == Handled(Raise(HttpError(404, TeamNotFound)), [TeamsRequest(teamId)])
    ensures h.result.Raise? ==>
      h.result.error == HttpError(404, TeamNotFound) || h.result.error == HttpError(500, ProfileFailed)
    ensures h.result.Ok? ==> h.calls == ProfileCalls(teamId, league, season)
    ensures |h.calls| >= 1 && h.calls[0] == TeamsRequest(teamId) && h.calls <= ProfileCalls(teamId, league, season)
  {
    var calls := ProfileCalls(teamId, league, season);
    var head := TeamHeadOf(MakeApiRequest(api(calls[0])));
    if head.Raise? then
      var failed: TryResult<TeamProfile> := Raise(head.error);
      Handled(ReraiseHttp(failed, ProfileFailed), calls[..1])
    else
      ProfileAfterHead(api, teamId, league, season, head.value)
  }

  /** The handler once the team is found: the standings request, then the statistics and the
    * players requests. Any failure from here on is a 500. */
  function ProfileAfterHead(api: Request -> Reply, teamId: int, league: int, season: int, head: TeamHead): (h: Handled<TeamProfile>)
    ensures h.result.Raise? ==> h.result.error == HttpError(500, ProfileFailed)
    ensures h.result.Ok? ==> h.calls == ProfileCalls(teamId, league, season)
    ensures h.calls == ProfileCalls(teamId, league, season)[..2] || h.calls == ProfileCalls(teamId, league, season)
  {
    var calls := ProfileCalls(teamId, league, season);
    var standing := StandingSection(MakeApiRequest(api(calls[1])), teamId);
    if standing.Raise? then
      Handled(Raise(HttpError(500, ProfileFailed)), calls[..2])
    else
      var stats := GetTeamStatistics(api, teamId, league, season);
      var body := ProfileBody(league, season, head, standing.value, stats.result,
                              MakeApiRequest(api(calls[6])).fields);
      Handled(Internal(body, ProfileFailed), calls)
  }

  /** A provider that does not answer 200 to the teams request makes the profile a 404, raised
    * before any other request. */
  lemma ProfileNotFoundOnProviderFailure(api: Request -> Reply, teamId: int, league: int, season: int)
    requires !(api(TeamsRequest(teamId)).Reply? && api(TeamsRequest(teamId)).status == 200)
    ensures GetTeamCompleteProfile(api, teamId, league, season) ==
            Handled(Raise(HttpError(404, TeamNotFound)), [TeamsRequest(teamId)])
  {
    assert MakeApiRequest(api(TeamsRequest(teamId))) == EmptyResponse;
  }

  /** The profile without its statistics part. */
  function WithoutStatistics(r: Result<TeamProfile, HttpError>): Result<TeamProfile, HttpError> {
    if r.Ok? then Ok(r.value.(detailedStatistics := Unavailable)) else r
  }

  /** The record does not depend on the statistics outcome except through its
    * `detailed_statistics` field. */
  lemma ProfileBodyIgnoresStatistics(league: int, season: int, head: TeamHead, standing: Option<StandingStats>,
                                     stats1: Result<TeamStatistics, HttpError>,
                                     stats2: Result<TeamStatistics, HttpError>, playersData: map<string, Json>)
    ensures WithoutStatistics(Internal(ProfileBody(league, season, head, standing, stats1, playersData), ProfileFailed)) ==
            WithoutStatistics(Internal(ProfileBody(league, season, head, standing, stats2, playersData), ProfileFailed))
  {
    var b1 := ProfileBody(league, season, head, standing, stats1, playersData);
    var b2 := ProfileBody(league, season, head, standing, stats2, playersData);
    assert b1.Ok? <==> b2.Ok?;
    if b1.Ok? {
      assert b1.value.(detailedStatistics := Unavailable) == b2.value.(detailedStatistics := Unavailable);
    }
  }

  /** The statistics part never decides the profile: two providers that answer the teams,
    * standings and players requests alike give the same outcome apart from
    * `detailed_statistics`, however the statistics requests go. */
  lemma ProfileIndependentOfStatistics(api1: Request -> Reply, api2: Request -> Reply,
                                       teamId: int, league: int, season: int)
    requires api1(TeamsRequest(teamId)) == api2(TeamsRequest(teamId))
    requires api1(Request("standings", Ids(None, league, season))) == api2(Request("standings", Ids(None, league, season)))
    requires api1(ProfilePlayersRequest(teamId, league, season)) == api2(ProfilePlayersRequest(teamId, league, season))
    ensures WithoutStatistics(GetTeamCompleteProfile(api1, teamId, league, season).result) ==
            WithoutStatistics(GetTeamCompleteProfile(api2, teamId, league, season).result)
  {
    var calls := ProfileCalls(teamId, league, season);
    assert calls[1] == Request("standings", Ids(None, league, season));
    assert calls[6] == ProfilePlayersRequest(teamId, league, season);
    var head := TeamHeadOf(MakeApiRequest(api1(calls[0])));
    var standing := StandingSection(MakeApiRequest(api1(calls[1])), teamId);
    if head.Ok? && standing.Ok? {
      ProfileBodyIgnoresStatistics(league, season, head.value, standing.value,
        GetTeamStatistics(api1, teamId, league, season).result,
        GetTeamStatistics(api2, teamId, league, season).result,
        MakeApiRequest(api1(calls[6])).fields);
    }
  }

  /** With a non-empty players list the profile keeps the players of the first twenty items,
    * sorted by appearances descending with ties in provider order. */
  lemma ProfilePlayersMeaning(league: int, season: int, head: TeamHead, standing: Option<StandingStats>,
                              stats: Result<TeamStatistics, HttpError>, items: seq<Json>,
                              rest: map<string, Json>, k: int)
    requires items != []
    requires ProfileBody(league, season, head, standing, stats, rest["response" := JList(items)]).Ok?
    ensures
      var out := ProfileBody(league, season, head, standing, stats, rest["response" := JList(items)]).value;
      var players := MapR(ProfilePlayerOf, Text.FirstN(items, 20));
      players.Ok? && multiset(out.players) == multiset(players.value) &&
      StableSort.NonIncreasing(out.players, SortKey(players.value, ProfileAppearances)) &&
      StableSort.WithKey(out.players, SortKey(players.value, ProfileAppearances), k) ==
        StableSort.WithKey(players.value, SortKey(players.value, ProfileAppearances), k) &&
      out.debugInfo.playersApiResponseLength == |items|
  {
    var data := rest["response" := JList(items)];
    assert At(data, "response", JNull) == JList(items);
    assert At(data, "response", EmptyList) == JList(items);
    assert Len(JList(items)) == Ok(|items|);
    assert Take(JList(items), 20) == Ok(JList(Text.FirstN(items, 20)));
    var players := MapR(ProfilePlayerOf, Text.FirstN(items, 20));
    assert ProfilePlayersOf(JList(items)) == players;
    SortByKeyDescOrdered(players.value, ProfileAppearances, k);
  }
}
