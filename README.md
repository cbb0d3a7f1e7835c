# Football data app: a Dafny model of its logic

The repository is a football-data application. A FastAPI backend asks one upstream football
provider for teams, players, fixtures and standings, and reshapes the provider's nested JSON into
flat records with explicit defaults. A React front end shows those records and adds its own small
helpers, lookup tables and state machines.

This project models the deterministic part of both sides:

- **Backend.** The modules `TeamsApi`, `PlayersApi`, `FootballApi`, `StandingsApi`, `MatchesApi`
  and `Models` cover the request helpers and how each outcome is mapped. They cover every
  normaliser loop, the linear standings searches, the recent-form letters, the rates behind their
  zero guards, the truncations and sorts, and `_safe_int`. They also cover the statistics label
  index, the goal-event filter, the standings summary and the HTTP status of every failure path.
- **Front end.**
  - The status tables: `MatchStatus`, `MatchDetails` and `MatchCard`.
  - The pure helpers: `Formatters`, `DateUtils`, `PlayersService`, `StandingsService`,
    `LeagueTable` and `UseMatches`.
  - The breadcrumb trail: `Breadcrumbs`.
  - The HTTP client's query building and error classification: `HttpClient`.
  - The small state machines: the season cache (`Seasons`), the season selection (`UseSeason`),
    the matches page (`MatchesPage`), the data-loading hooks (`UseApi`) and the team search bar
    (`TeamSearch`).

The upstream JSON is the datatype `PyJson.Json`. It has Python's semantics for `.get`, indexing,
truthiness, `or`, comparison and `int()`. Any Python exception is a `Raise` in a `Result`. The
provider is a parameter `api: Request -> Reply`. A handler returns its outcome together with the
list of requests it made, so the model can state a fact such as "404 before any other request".

Source loops that build lists are `method`s with `while` loops. Each is proved equal to a
specification function (`PyLoops.MapR`, `FilterMapR`, `Filter`), and the lemmas are stated about
that function. Library sorts (`list.sort(key=..., reverse=True)`, `Array.prototype.sort`) are
specified by `StableSort`: sorted, a permutation, and stable. The front end's mutable state
(services with caches, hook state updated by setters) is a `class` whose methods state the new
state as a function of the old one.

Three points where the code behaves differently from what its names suggest; the model keeps
the code's behaviour:

- The source has no local time-window classifier for matches. "Recent" and "upcoming" are the
  provider's `last`/`next` queries, and "live" on the matches page is a fixed mock list.
- The teams request helper swallows the provider's 429 like every other failure.
- In `matches.py` the 400 for a bad date and the 404 for an unknown match surface as 500.

## Model

| member | source | states |
|---|---|---|
| TeamsApi.MakeApiRequest | src/backend/app/api/teams.py:17-47 | The result is always a dict whose `response` has a length. It is the provider's body only for a 200 reply with such a body. Every other status (429 included), timeout, transport failure or undecodable body gives `{"response": []}` |
| TeamsApi.RateLimitDegrades | src/backend/app/api/teams.py:36-47 | A 429 reply degrades to the empty response; it is never raised |
| TeamsApi.EntryIsTeam | src/backend/app/api/teams.py:158 | The comparison succeeds exactly when `team.id` can be read, and is true exactly when that id equals the team id |
| TeamsApi.ScanFirstFinds | src/backend/app/api/teams.py:156-166 | A found position is the first entry of the team: every earlier entry is readable and belongs to another team |
| TeamsApi.ScanFirstNone | src/backend/app/api/teams.py:156-166 | Nothing is found exactly when every entry is readable and belongs to another team |
| TeamsApi.TallyOf | src/backend/app/api/teams.py:103-130 | Each counter is the provider's value for that side when present, and 0 when absent |
| TeamsApi.SeasonSection | src/backend/app/api/teams.py:99-152 | A falsy statistics response gives no season section. A section exists only for a truthy response, and its total, home and away tallies are read from that response |
| TeamsApi.FindLeaguePosition | src/backend/app/api/teams.py:155-166 | The nested search with its `break` returns exactly the specification `LeaguePositionIn`: in each group the first entry of the team, a later group overriding an earlier one |
| TeamsApi.FormEntryOfFixture | src/backend/app/api/teams.py:172-194 | The letter is W iff the team's own goals exceed the opponent's, L iff fewer, D otherwise. The score is "own-opponent", a None count reads as 0, and the opponent is the other side's name |
| TeamsApi.FormEntrySideIndependent | src/backend/app/api/teams.py:175-192 | Swapping home and away does not change the entry: only which side is the team's matters |
| TeamsApi.BuildRecentForm | src/backend/app/api/teams.py:170-194 | The loop returns one form entry per fixture in order, or the first fixture's error |
| TeamsApi.FormSectionLastFive | src/backend/app/api/teams.py:169-196 | Recent form covers exactly the last five fixtures of the list, in payload order |
| TeamsApi.BuildTopScorers | src/backend/app/api/teams.py:200-215 | The loop returns one top scorer per item in order |
| TeamsApi.ScorersSectionFirstFive | src/backend/app/api/teams.py:199-215 | At most five top scorers, which are the first five items in order |
| TeamsApi.MetricsOf | src/backend/app/api/teams.py:218-226 | No metrics without general statistics or with at most zero matches played |
| TeamsApi.MetricsMeaning | src/backend/app/api/teams.py:218-226 | Metrics exist iff matches played > 0. Then the goal difference is goals for minus goals against, and each rate is its count over the matches played |
| TeamsApi.StatisticsBody | src/backend/app/api/teams.py:91-229 | The record carries the requested team, league and season; metrics exist only alongside the general statistics |
| TeamsApi.StatisticsCalls | src/backend/app/api/teams.py:63-88 | Exactly four provider requests, in order: statistics, standings, fixtures (`last` 10) and top scorers. Every request carries the league and season; all but the standings request carry the team |
| TeamsApi.GetTeamStatistics | src/backend/app/api/teams.py:49-235 | The four requests are made in that order; every failure is the endpoint's 500 |
| TeamsApi.OrZero | src/backend/app/api/teams.py:283-295 | `x or 0` is never None: a truthy value is kept and anything falsy becomes 0 |
| TeamsApi.RateStatsOf | src/backend/app/api/teams.py:303-310 | No rates unless appearances is truthy |
| TeamsApi.RateStatsMeaning | src/backend/app/api/teams.py:303-310 | Rates exist iff appearances > 0. The contribution is goals plus assists, and the minutes rate is 0 without recorded minutes |
| TeamsApi.DetailedPlayerOf | src/backend/app/api/teams.py:261-310 | Every counter of a built player is non-None, and its calculated stats are the rates of its own performance |
| TeamsApi.BuildDetailedPlayers | src/backend/app/api/teams.py:259-312 | The loop returns one detailed player per item in order |
| TeamsApi.DetailedPlayersBody | src/backend/app/api/teams.py:256-323 | `total` is the length of the returned list |
| TeamsApi.DetailedSortNeverRaises | src/backend/app/api/teams.py:303-315 | The `appearances > 0` test raises for every truthy non-number, so every built player has a numeric sort key and the sort never raises |
| PyLoops.SortByKeyDesc | src/backend/app/api/teams.py:469 | `list.sort(key, reverse=True)`: a permutation; it succeeds iff there are at most one item, or all keys are numbers, or all keys are strings |
| PyLoops.SortByKeyDescOrdered | src/backend/app/api/teams.py:469 | The result is non-increasing in the sort key, and items with equal keys keep their input order |
| PyLoops.SortKeyMeaning | src/backend/app/api/teams.py:469 | On a sortable list, the integer sort key orders two items exactly as Python's comparison of their keys does |
| PyLoops.SortByKeyDescSorted | src/backend/app/api/teams.py:469 | No item of the result has a key Python ranks above the key of an earlier item |
| TeamsApi.DetailedPlayersMeaning | src/backend/app/api/teams.py:259-321 | One entry per provider item, sorted by appearances descending with ties in provider order (a stable permutation of the built list). Every counter is non-None |
| TeamsApi.GetTeamPlayersDetailed | src/backend/app/api/teams.py:237-329 | One `players` request; every failure is the endpoint's 500 |
| TeamsApi.TeamHeadOf | src/backend/app/api/teams.py:345-352 | A falsy `response` is the 404 "team not found"; a found head carries the team's name |
| TeamsApi.StandingInNone | src/backend/app/api/teams.py:366-384 | No standing is found exactly when every group of every response element is readable and holds only other teams |
| TeamsApi.ScanStandingGroup | src/backend/app/api/teams.py:369-384 | The inner loop with its `break` equals the specification: the team's first entry in the group |
| TeamsApi.FindStandingStats | src/backend/app/api/teams.py:363-384 | The triple loop equals `StandingIn`: since `break` leaves only the innermost loop, a later group holding the team overrides an earlier one |
| TeamsApi.ScanGroups | src/backend/app/api/teams.py:368-384 | The loop over one league's groups returns the last group hit, or what was found before when no group holds the team; a raising group raises |
| TeamsApi.Or2 | src/backend/app/api/teams.py:363-384 | The later find wins when there is one; otherwise the earlier value is kept |
| TeamsApi.CurrentSeasonOf | src/backend/app/api/teams.py:483-496 | Carries the league and season. Without a standing, the position is None and the counters are 0 and "" for the form; with one, every field is copied |
| TeamsApi.ProfilePlayerOf | src/backend/app/api/teams.py:418-464 | A built player's appearances, goals, assists and minutes are never None |
| TeamsApi.ProfilePlayerWithoutStatistics | src/backend/app/api/teams.py:447-464 | A player without statistics is kept with zero counters, position and rating None, and its identity |
| TeamsApi.BuildProfilePlayers | src/backend/app/api/teams.py:413-464 | The loop returns one profile player per item in order |
| TeamsApi.VenueOf | src/backend/app/api/teams.py:499-506 | A falsy venue gives None; a truthy one gives a venue record |
| TeamsApi.DetailedStatisticsOf | src/backend/app/api/teams.py:388-392 | The statistics are "unavailable" exactly when the nested call raised; otherwise they are its record |
| TeamsApi.ProfileSquadOf | src/backend/app/api/teams.py:413-469 | At most twenty players |
| TeamsApi.ProfileTeamOf | src/backend/app/api/teams.py:474-480 | The profile's id and name are those of the team object |
| TeamsApi.ProfileBody | src/backend/app/api/teams.py:472-522 | `players_count` equals the number of players and of processed players, with at most twenty. The current season and detailed statistics come from their own functions. The body fails only if the squad or team part fails |
| TeamsApi.ProfileCalls | src/backend/app/api/teams.py:345-402 | Seven requests, the teams request first |
| TeamsApi.GetTeamCompleteProfile | src/backend/app/api/teams.py:331-533 | An empty team response is the 404 after the teams request alone. A success makes all seven requests; any run makes a prefix of them starting with the teams request |
| TeamsApi.ProfileAfterHead | src/backend/app/api/teams.py:358-533 | Once the team is found: any failure is the 500, a success makes all seven requests, and every run makes either the first two requests or all seven |
| TeamsApi.ProfileNotFoundOnProviderFailure | src/backend/app/api/teams.py:345-348 | A teams request not answered 200 gives the 404 before any other request |
| TeamsApi.ProfileBodyIgnoresStatistics | src/backend/app/api/teams.py:388-392 | The statistics outcome changes only the `detailed_statistics` field |
| TeamsApi.ProfileIndependentOfStatistics | src/backend/app/api/teams.py:388-392 | A failing statistics call never fails the profile: two providers agreeing on teams, standings and players give the same outcome up to `detailed_statistics` |
| TeamsApi.ProfilePlayersMeaning | src/backend/app/api/teams.py:413-469 | With a non-empty players list, the profile keeps the players of the first twenty items, sorted by appearances descending, ties in provider order |
| PlayersApi.PlayersApiRequest | src/backend/app/api/players.py:18-36 | The decoded body of a 200 reply, whatever JSON it holds. `{"response": []}` for another status, a transport failure or an undecodable body |
| PlayersApi.TeamRefOf | src/backend/app/api/players.py:67-71 | The team reference reads `id`, `name` and `logo` |
| PlayersApi.CurrentTeamOf | src/backend/app/api/players.py:65-71 | None unless the statistics block has a truthy `team` |
| PlayersApi.PerformanceDefaults | src/backend/app/api/players.py:78-88 | A missing counter reads as 0, but a counter sent as None stays None (no `or 0`) |
| PlayersApi.CalculatedOf | src/backend/app/api/players.py:91-99 | `{}` when appearances is a number at most 0; a None, string, list or dict appearances raises |
| PlayersApi.CalculatedMeaning | src/backend/app/api/players.py:91-99 | With integer counters, rates exist iff appearances > 0. They are the counts over appearances, the minutes rate is 0 without minutes, and the contribution is goals + assists |
| PlayersApi.PlayerDetailsOf | src/backend/app/api/players.py:60-122 | A falsy `response` is the 404, the only HTTP error. A built record carries the league and season, and its calculated stats are `calculated_stats` of its own performance |
| PlayersApi.GetPlayerDetails | src/backend/app/api/players.py:133-226 | One `players` request; an empty response is the 404; other failures are the 500 |
| PlayersApi.PlayerNotFoundOnProviderFailure | src/backend/app/api/players.py:57-58 | Any failed provider request makes the details a 404 |
| PlayersApi.CurrentTeamNeedsTeam | src/backend/app/api/players.py:62-71 | `current_team` is None unless the first statistics block names a team |
| PlayersApi.BuildPlayerMatches | src/backend/app/api/players.py:249-271 | The loop returns one match per fixture in order |
| PlayersApi.PlayerMatchesBody | src/backend/app/api/players.py:249-279 | `total` is the number of matches |
| PlayersApi.PlayerMatchesKept | src/backend/app/api/players.py:251-276 | `[:limit]` keeps the first `limit` fixtures, or all but the last `-limit` for a negative limit, one match per kept fixture in order |
| PlayersApi.GetPlayerMatches | src/backend/app/api/players.py:228-283 | One `fixtures/players` request with `last=limit`; failures are the 500 |
| PlayersApi.TransferSide | src/backend/app/api/players.py:304-313 | A side is a team reference exactly when `teams.get(side)` is truthy |
| PlayersApi.TransferWithoutTeams | src/backend/app/api/players.py:304-313 | A transfer without `teams` has neither a from nor a to team |
| PlayersApi.CollectTransfers | src/backend/app/api/players.py:297-315 | The nested loops return every transfer of every element, in order (the flattening) |
| PlayersApi.AppendTransfers | src/backend/app/api/players.py:300-315 | The inner loop appends every transfer of one element, in order, to the list built so far, or raises the first failure |
| PlayersApi.PlayerTransfersBody | src/backend/app/api/players.py:297-321 | `total` is the number of transfers |
| PlayersApi.TransfersFlattenInOrder | src/backend/app/api/players.py:299-315 | Two elements contribute their transfers one after the other |
| PlayersApi.GetPlayerTransfers | src/backend/app/api/players.py:285-325 | One `transfers` request; failures are the 500 |
| PlayersApi.SearchParams | src/backend/app/api/players.py:338-341 | Always `search`; `league` and season 2023 are added together, exactly when the league is truthy |
| PlayersApi.SearchResultOf | src/backend/app/api/players.py:348-373 | A hit's performance is None exactly when its first statistics block is empty |
| PlayersApi.BuildSearchResults | src/backend/app/api/players.py:345-374 | The loop returns one result per item in order |
| PlayersApi.SearchBody | src/backend/app/api/players.py:345-380 | At most twenty results, the first twenty items; `total` is their number |
| PlayersApi.SearchResultWithoutStatistics | src/backend/app/api/players.py:367-372 | A hit without statistics has performance None |
| PlayersApi.SearchPlayers | src/backend/app/api/players.py:327-384 | One `players` request with the search parameters; failures are the 500 |
| PlayersApi.CompareIds | src/backend/app/api/players.py:396-403 | A falsy list or fewer than two ids is the 400, the only HTTP error. Otherwise the first five ids: two to five of them |
| PlayersApi.ComparedPlayers | src/backend/app/api/players.py:402-409 | The kept players are the successful details lookups, in id order |
| PlayersApi.DetailsRequests | src/backend/app/api/players.py:403-405 | One details request per id tried |
| PlayersApi.CollectDetails | src/backend/app/api/players.py:402-409 | The try/skip loop returns exactly `ComparedPlayers` and makes exactly `DetailsRequests` |
| PlayersApi.ComparePlayers | src/backend/app/api/players.py:386-421 | `total` is the number of players and at most five; the 400 passes through |
| PlayersApi.ComparedPlayersMember | src/backend/app/api/players.py:403-409 | A compared player is what the details endpoint returns for one of the ids tried; a failed lookup is skipped |
| PlayersApi.ComparedPlayersAll | src/backend/app/api/players.py:403-409 | When every lookup succeeds, there is one player per id, in order |
| PlayersApi.CompareNeedsTwo | src/backend/app/api/players.py:397-398 | Fewer than two ids is the 400 before any request |
| Models.IntField | src/backend/app/models/team.py:5 | An `int` field accepts exactly ints and bools, with their numeric value; anything else is a ValidationError |
| Models.StrField | src/backend/app/models/team.py:6 | A `str` field accepts exactly strings |
| Models.BoolField | src/backend/app/models/team.py:12 | A `bool` field accepts bools and the ints 0 and 1 |
| Models.OptIntField | src/backend/app/models/team.py:11 | An `Optional[int]` takes None to None, and otherwise validates as an `int` |
| Models.OptStrField | src/backend/app/models/team.py:8 | An `Optional[str]` takes None to None, and otherwise validates as a `str` |
| Models.MakeTeamBase | src/backend/app/models/team.py:4-8 | Succeeds iff each field validates, and then holds the validated values |
| Models.MakeMatchScore | src/backend/app/models/match.py:6-8 | Succeeds iff both optional ints validate, and then holds them |
| FootballApi.ServiceReply | src/backend/app/services/football_api.py:17-31 | A 2xx reply gives its decoded body. A non-2xx status, timeout or transport failure gives `{"response": []}` |
| FootballApi.ServiceReplyRaises | src/backend/app/services/football_api.py:17-31 | The helper raises only for a 2xx reply whose body is not JSON |
| FootballApi.SafeInt | src/backend/app/services/football_api.py:255-262 | None gives None; a value `int()` accepts gives its integer; every other value gives None, never an exception. Strings are read as `int()` reads them: decimal digits of any script, single underscores, a sign, and stripped white space that includes the non-ASCII spaces |
| FootballApi.SafeIntOfUnicodeDigits | src/backend/app/services/football_api.py:255-262 | Arabic-Indic "١٢" between two U+3000 spaces gives 12 |
| FootballApi.SafeIntKeepsFileSeparator | src/backend/app/services/football_api.py:255-262 | A leading U+001C is not stripped, so "\x1c5" gives None |
| FootballApi.SafeIntOfRendering | src/backend/app/services/football_api.py:255-262 | A decimal rendering of n reads back as n |
| FootballApi.SafeIntOfPercentage | src/backend/app/services/football_api.py:255-262 | A percentage string such as "45%" gives None |
| FootballApi.ResponseItems | src/backend/app/services/football_api.py:42 | A dict without `response` gives no items; a list under `response` gives its items; a non-dict body raises AttributeError |
| FootballApi.TeamOf | src/backend/app/services/football_api.py:42-52 | A non-dict item raises AttributeError; every failure is AttributeError or ValidationError |
| FootballApi.TeamRoundTrip | src/backend/app/services/football_api.py:42-52 | Normalisation loses nothing: every team comes back from the item that describes it |
| FootballApi.TeamDefaults | src/backend/app/services/football_api.py:44-50 | Only `id`, `name` and `country` are needed; logo, founded and code default to None and national to False |
| FootballApi.TeamNeedsId | src/backend/app/services/football_api.py:44-50 | An item without a team id is a ValidationError |
| FootballApi.BuildTeams | src/backend/app/services/football_api.py:42-52 | The loop equals `MapR(TeamOf, items)` |
| FootballApi.SearchTeamsRequest | src/backend/app/services/football_api.py:35-39 | The request always carries `search`; `country` is added exactly when given non-empty; no other parameter |
| FootballApi.SearchTeams | src/backend/app/services/football_api.py:33-54 | One `teams` request |
| FootballApi.SearchTeamsOnProviderFailure | src/backend/app/services/football_api.py:17-54 | A failed provider request gives no teams rather than an error |
| FootballApi.SearchTeamsRoundTrip | src/backend/app/services/football_api.py:42-54 | The search lists exactly the teams the response items describe, in order |
| FootballApi.TeamDetailOf | src/backend/app/services/football_api.py:62-80 | Every failure is AttributeError or ValidationError |
| FootballApi.TeamDetailRoundTrip | src/backend/app/services/football_api.py:62-80 | The team and its venue come back from the item that describes them |
| FootballApi.TeamDetailWithoutVenue | src/backend/app/services/football_api.py:63-80 | Without `venue` every `venue_*` field is None |
| FootballApi.GetTeamById | src/backend/app/services/football_api.py:56-82 | One `teams` request; a found detail is the first item's |
| FootballApi.TeamByIdNone | src/backend/app/services/football_api.py:58-61 | An empty response, a missing `response` or a failed request gives None |
| FootballApi.PlayerOf | src/backend/app/services/football_api.py:91-108 | A non-dict item raises AttributeError; every failure is AttributeError or ValidationError |
| FootballApi.PlayerRoundTrip | src/backend/app/services/football_api.py:91-108 | Every player comes back from the item that describes it |
| FootballApi.PlayerNullBirth | src/backend/app/services/football_api.py:97-99 | A `birth` present but null raises AttributeError |
| FootballApi.BuildPlayers | src/backend/app/services/football_api.py:91-108 | The loop equals `MapR(PlayerOf, items)` |
| FootballApi.GetTeamPlayers | src/backend/app/services/football_api.py:84-110 | One `players` request; a success lists one player per item |
| FootballApi.TeamPlayersInOrder | src/backend/app/services/football_api.py:91-110 | Every listed player comes from the response item at the same position |
| FootballApi.GoalOf | src/backend/app/services/football_api.py:174-183 | Every failure is AttributeError or ValidationError |
| FootballApi.GoalEventOf | src/backend/app/services/football_api.py:173-184 | A non-dict event raises. A non-goal event gives nothing. A goal event gives its MatchGoal |
| FootballApi.GoalRoundTrip | src/backend/app/services/football_api.py:174-183 | Every goal comes back from the event that describes it |
| FootballApi.GoalDefaults | src/backend/app/services/football_api.py:176-183 | Without an assist both assist fields are None; without `detail` the type is "Goal" |
| FootballApi.CollectGoals | src/backend/app/services/football_api.py:172-184 | The loop equals `FilterMapR(GoalEventOf, events)` |
| FootballApi.GoalsAreGoalEvents | src/backend/app/services/football_api.py:172-184 | The goals are exactly the events of type "Goal", in event order, each built by `GoalOf` |
| FootballApi.LabelIndex | src/backend/app/services/football_api.py:193 | Building the index fails only with AttributeError (an entry that is not a dict) or TypeError (an unhashable label) |
| FootballApi.LabelIndexLookup | src/backend/app/services/football_api.py:193 | A label is in the index iff some entry carries it, and its value is that of the last such entry (a later duplicate wins) |
| FootballApi.Counter | src/backend/app/services/football_api.py:195-214 | A label not in the index gives None; otherwise `_safe_int` of its value |
| FootballApi.CounterOfStatistics | src/backend/app/services/football_api.py:193-214 | A counter is None when no entry carries its label, and otherwise `_safe_int` of the last entry's value |
| FootballApi.TeamStatsOf | src/backend/app/services/football_api.py:187-214 | A non-dict entry raises. Each of the thirteen counters is `Counter` of its own label; possession and pass percentage are the raw strings; the team id and name are validated from the entry's `team` object |
| FootballApi.PossessionKeptRaw | src/backend/app/services/football_api.py:207-213 | "45%" is kept as that string under ball possession, while a counter label turns the same value into None |
| FootballApi.CollectTeamStats | src/backend/app/services/football_api.py:187-214 | The loop equals `MapR(TeamStatsOf, entries)` |
| FootballApi.FromTimestamp | src/backend/app/services/football_api.py:223 | Succeeds iff the timestamp is a number between 0001-01-02 and the end of 9999 (UTC), and keeps it. A number outside that range is a ValueError; anything else is a TypeError |
| FootballApi.SideOf | src/backend/app/services/football_api.py:238-249 | A team side's country is always "" |
| FootballApi.MatchDetailOf | src/backend/app/services/football_api.py:216-253 | The detail's goals and statistics are the lists from the two loops. Its date is the timestamp, which lies within `fromtimestamp`'s range, and its timezone is the fixture's or "UTC" |
| FootballApi.MatchFromParts | src/backend/app/services/football_api.py:166-253 | The detail is assembled from the first fixture, the statistics list and the events list |
| FootballApi.GetMatchById | src/backend/app/services/football_api.py:151-253 | Either only the fixture request is made, or it is followed by the statistics and events requests. A found detail is `MatchFromParts` of the first fixture item and the statistics and events responses |
| FootballApi.MatchByIdNone | src/backend/app/services/football_api.py:154-157 | An empty or failed fixture request gives None after that one request |
| FootballApi.MatchGoalsAreGoalEvents | src/backend/app/services/football_api.py:172-184 | A detail's goals are the goal events of the events response, in order |
| StandingsApi.EntryOf | src/backend/app/api/standings.py:37-81 | A built entry comes from a dict and carries its rank; every key read is required |
| StandingsApi.EntryRoundTrip | src/backend/app/api/standings.py:37-81 | The entry loses nothing: every value the provider sends under the keys read is copied |
| StandingsApi.RecordRoundTrip | src/backend/app/api/standings.py:50-79 | The played/win/draw/lose/goals record is copied as sent |
| StandingsApi.EntryNeedsUpdate | src/backend/app/api/standings.py:37-81 | An entry without `update` (or any other key read) makes the loop raise |
| StandingsApi.BuildEntries | src/backend/app/api/standings.py:35-81 | The loop equals `MapR(EntryOf, entries)` |
| StandingsApi.StandingsBody | src/backend/app/api/standings.py:23-97 | A falsy response is the first 404; an empty standings list is the second 404 |
| StandingsApi.GetLeagueStandings | src/backend/app/api/standings.py:8-103 | The 404s pass through; every other failure is a 500 |
| StandingsApi.StandingsNotFoundOnProviderFailure | src/backend/app/api/standings.py:18-24 | A failed provider request is the 404, since the helper answers with an empty response |
| StandingsApi.StandingsEmptyTable | src/backend/app/api/standings.py:29-30 | A league with an empty standings list is the second 404 |
| StandingsApi.StandingsFirstGroupOnly | src/backend/app/api/standings.py:32-81 | Only the first group is used, one output entry per entry in order |
| StandingsApi.SumOf | src/backend/app/api/standings.py:123-124 | The sum fails with TypeError at the first value that is not a number |
| StandingsApi.SumOfBounds | src/backend/app/api/standings.py:123-124 | A sum of non-negative values is non-negative and at least each summand |
| StandingsApi.SummaryOf | src/backend/app/api/standings.py:118-142 | Empty standings give the 404, the only HTTP error. Otherwise `total_teams` is the entry count, the leader is the first entry, top 3 is the first up-to-three, and the relegation zone is the last three from three teams on. The average is `Average` of the played total over the team count, and the goals rate is `GoalsPerMatch` of the goal and played totals |
| StandingsApi.SummaryFrom | src/backend/app/api/standings.py:122-142 | For a non-empty table with known totals: the fields as above, and the average multiplied back by the team count is the played total |
| StandingsApi.Average | src/backend/app/api/standings.py:127 | The average matches per team, multiplied back by the team count, gives the total matches played |
| StandingsApi.GoalsPerMatch | src/backend/app/api/standings.py:128 | With matches played, the rate times the played total is twice the goals, since every match is counted once per team; with none the rate is 0 |
| StandingsApi.TopAndBottomOverlap | src/backend/app/api/standings.py:131-142 | With fewer than six teams, the top three and the relegation zone share entries; from six teams on they are disjoint |
| StandingsApi.SumOfRange | src/backend/app/api/standings.py:123-127 | Played counts between lo and hi put the total between lo and hi times the team count |
| StandingsApi.GetStandingsSummary | src/backend/app/api/standings.py:105-150 | The table's errors pass through, an empty table is a 404, and every other failure is a 500 |
| MatchesApi.MatchParams | src/backend/app/api/matches.py:46-63 | The chain of inserts builds `MatchParamsOf` of the arguments, which meets `MatchParamsSpec`: `league` and `season` are always present. Each optional filter is present exactly when truthy, with `from_date` sent as "from" and `to_date` as "to"; nothing else |
| MatchesApi.IntArg | src/backend/app/api/matches.py:52-55 | An integer filter is sent exactly when it is truthy (set and non-zero), as that integer |
| MatchesApi.StrArg | src/backend/app/api/matches.py:56-59 | A string filter is sent exactly when it is truthy (set and non-empty), as that string |
| MatchesApi.PutInt | src/backend/app/api/matches.py:52-53 | One `if value: api_params[key] = value` on an integer filter: the filter is inserted under its key when truthy, and the map is unchanged otherwise |
| MatchesApi.PutStr | src/backend/app/api/matches.py:56-57 | The same insert for a string filter |
| MatchesApi.MatchParamsLookup | src/backend/app/api/matches.py:46-63 | A key is present exactly when it is league or season or the name of a truthy filter, and it then holds that argument |
| MatchesApi.MatchParamsMeetSpec | src/backend/app/api/matches.py:46-63 | The parameters built satisfy `MatchParamsSpec`: only the eight known keys, league and season always, each filter exactly when truthy and with its value |
| MatchesApi.MatchParamsUnique | src/backend/app/api/matches.py:46-63 | The parameters are determined by the arguments |
| MatchesApi.LiveParams | src/backend/app/api/matches.py:145-150 | `live` is "all"; `league` is added exactly when truthy |
| MatchesApi.DateParams | src/backend/app/api/matches.py:196-201 | `date` is always present; `league` is added exactly when truthy |
| MatchesApi.FixturesData | src/backend/app/api/matches.py:71-91 | A non-200 status raises an HTTPException with that status. A missing `response` raises a 500. A non-JSON body raises the `requests` decoding error |
| MatchesApi.PyIn | src/backend/app/api/matches.py:87 | `in` tests a dict's keys, a list's items and a string's substrings; any other value is a TypeError |
| MatchesApi.RequestsHandlers | src/backend/app/api/matches.py:98-113 | A timeout is 504, another `requests` error 503, and anything else, the HTTPExceptions included, 500 |
| MatchesApi.MatchesAnswer | src/backend/app/api/matches.py:71-113 | The provider's body for a 200 with `response`; otherwise the handler status |
| MatchesApi.MatchesStatuses | src/backend/app/api/matches.py:78-113 | No answer is a 4xx: the provider's 404 or 429 comes back as a 500 |
| MatchesApi.GetMatches | src/backend/app/api/matches.py:19-113 | One `fixtures` request with `MatchParams`; the answer is `MatchesAnswer` |
| MatchesApi.DirectCallParams | src/backend/app/api/matches.py:19-63 | Called directly with `last` or `next` set, `get_matches` sends all eight keys (the limit key only for a non-zero limit): league, season, the limit, and the unresolved default object of every other filter |
| MatchesApi.DirectCallSendsDefaults | src/backend/app/api/matches.py:52-63 | The direct call sends everything the routed call with only the limit would send, plus from, to, team, status and the other of last/next, even for a limit of 0 |
| MatchesApi.GetRecentMatchesAsWritten | src/backend/app/api/matches.py:115-124 | One `fixtures` request with the direct call's parameters for `last=limit`, answered by `MatchesAnswer` |
| MatchesApi.GetUpcomingMatchesAsWritten | src/backend/app/api/matches.py:126-135 | One `fixtures` request with the direct call's parameters for `next=limit`, answered by `MatchesAnswer` |
| MatchesApi.GetRecentMatches | src/backend/app/api/matches.py:115-124 | As intended: one `fixtures` request with only league, season and `last=limit` (unless the limit is 0), answered by `MatchesAnswer` |
| MatchesApi.GetUpcomingMatches | src/backend/app/api/matches.py:126-135 | As intended: one `fixtures` request with only league, season and `next=limit` (unless the limit is 0), answered by `MatchesAnswer` |
| MatchesApi.CountedAnswer | src/backend/app/api/matches.py:159-176 | Every failure is a 500, the provider's status included |
| MatchesApi.GetLiveMatches | src/backend/app/api/matches.py:137-176 | One `fixtures` request with `LiveParams`, answered by `CountedAnswer` |
| MatchesApi.DaysInMonth | src/backend/app/api/matches.py:189 | Every month has between 28 and 31 days |
| MatchesApi.DateAcceptedIff | src/backend/app/api/matches.py:188-194 | A date written as its three fields is accepted iff each field fits its directive and the day exists |
| MatchesApi.NoThirtiethOfFebruary | src/backend/app/api/matches.py:188-194 | No year has a 30 February |
| MatchesApi.ArabicIndicYearAccepted | src/backend/app/api/matches.py:188-194 | `\d` accepts the decimal digits of every script, so a year written in Arabic-Indic digits is accepted |
| MatchesApi.GetMatchesByDate | src/backend/app/api/matches.py:178-227 | A date `strptime` refuses makes no request and surfaces as a 500 (the 400 is caught). A valid date makes one request with `DateParams`. `%Y` and the `\d` of `%d` accept any Unicode decimal digit |
| MatchesApi.DetailsAnswer | src/backend/app/api/matches.py:235-265 | The provider's body when `response` is truthy; every failure is a 500, the unknown match's 404 included |
| MatchesApi.UnknownMatchIsServerError | src/backend/app/api/matches.py:250-265 | An empty `response` is reported as a server error, not "not found" |
| MatchesApi.GetMatchDetails | src/backend/app/api/matches.py:229-265 | One `fixtures` request with the id, answered by `DetailsAnswer` |
| MatchStatus.CodeText | src/types/match.d.ts:189 | Every spelling has at least two characters, so the one-letter 'P' that `mapApiStatus` accepts is not a provider code |
| MatchStatus.CodeTextInjective | src/types/match.d.ts:189 | Distinct codes are spelled differently |
| MatchStatus.ApiStatusMap | src/types/match.d.ts:192-205 | Total over the twelve codes. Live is exactly 1H, HT, 2H, ET and BT; finished is exactly FT, AET and PEN; scheduled is exactly NS and TBD; postponed is exactly PST; cancelled is exactly CANC |
| MatchStatus.MapApiStatus | src/pages/MatchDetails.tsx:223-239 | NS is scheduled. LIVE, 1H, HT, 2H, ET and P are live. FT, AET and PEN are finished, PST postponed and CANC cancelled. Any other string, TBD and BT included, is scheduled |
| MatchStatus.TablesAgreeExceptBreakTime | src/types/match.d.ts:192-205 | On the twelve codes the two tables agree except on BT, which is live in `API_STATUS_MAP` and scheduled in `mapApiStatus` |
| MatchStatus.DetailsOnlyCodes | src/pages/MatchDetails.tsx:226-231 | LIVE and P are live for `mapApiStatus` but are not provider codes |
| MatchDetails.NonNull | src/pages/MatchDetails.tsx:174-208 | Reading through undefined or null fails; any other value is returned |
| MatchDetails.Transform | src/pages/MatchDetails.tsx:171-208 | Fails exactly when a path read without `?.` meets undefined or null. The status is `mapApiStatus` of the short code; halftime defaults to `{home: null, away: null}`; events and statistics are empty |
| MatchDetails.LoadDetails | src/pages/MatchDetails.tsx:154-216 | A non-2xx status fails with "Erreur {status}: Match non trouvé", and an empty or missing response with "Match non trouvé". Otherwise the transformed match, live iff its status is live |
| MatchDetails.EmptyResponseIsNotFound | src/pages/MatchDetails.tsx:167-169 | An empty `response` list never reaches the transformation |
| MatchDetails.LiveLabel | src/pages/MatchDetails.tsx:249 | A truthy elapsed gives "{elapsed}'", otherwise "LIVE" |
| MatchDetails.StatusConfigOf | src/pages/MatchDetails.tsx:242-286 | A live match is shown in the error colour with `LiveLabel`. Only a scheduled match has no label (its locale time). The error colour goes exactly with live and cancelled |
| MatchDetails.LiveMinuteLabel | src/pages/MatchDetails.tsx:249 | A live minute of 67 reads "67'" |
| Seasons.CurrentSeason | src/services/api/seasonsService.ts:108-113 | The season is this year from August on, and last year before |
| Seasons.SeasonsByPlan | src/services/api/seasonsService.ts:150-163 | Basic is 2018 to last year and premium 2008 to this year; any other name gets the free range 2021-2023 |
| Seasons.PlansNested | src/services/api/seasonsService.ts:150-163 | From 2024 on, each plan covers every season of the plan below it |
| Seasons.ProbeVerdictOf | src/services/api/seasonsService.ts:66-96 | Refused iff the message is a string containing the free-plan notice or a list holding it; another error iff the message is nullish, another string or a list without it; a crash iff the thrown value is nullish or its message has no `includes` |
| Seasons.DetectApiPlan | src/services/api/seasonsService.ts:51-96 | Premium iff the probe succeeded; basic iff it failed with another error; free for a refusal or a crash. The plan's seasons are `getSeasonsByPlan` of its name, with 100, 1000 or 10000 requests and none used |
| Seasons.ResolvePlan | src/services/api/seasonsService.ts:34-49 | The cached plan wins; then the plan of a `/status` reply; then the detected plan |
| Seasons.LastDigit | src/services/api/seasonsService.ts:121-123 | The last character of a year's rendering is its last decimal digit |
| Seasons.SeasonLabelDigits | src/services/api/seasonsService.ts:176-178 | From the year 9 on, the label ends with the last two digits of the next year |
| Seasons.SeasonLabelInjective | src/services/api/seasonsService.ts:176-178 | Different non-negative years have different labels |
| Seasons.SeasonList | src/services/api/seasonsService.ts:116-127 | One entry per year from `to` down to `from`, with `to - from + 1` entries (none if `to < from`), each built by `SeasonEntry` for its year |
| Seasons.SeasonListFacts | src/services/api/seasonsService.ts:116-127 | The list is strictly descending. Every entry is available and lies in the range, and exactly the current season is marked current |
| Seasons.AvailableIn | src/services/api/seasonsService.ts:168-171 | True iff some season has the year and is available |
| Seasons.AvailableInList | src/services/api/seasonsService.ts:168-171 | In a generated list, a year is available iff it lies in the plan's range |
| Seasons.FindSeason | src/services/api/seasonsService.ts:140 | The found position is the first whose season satisfies the predicate |
| Seasons.RecommendedOf | src/services/api/seasonsService.ts:136-145 | The first current and available season, else the first available, else the first; None only for an empty list |
| Seasons.RecommendedOfList | src/services/api/seasonsService.ts:136-145 | On a generated list: the current season when the plan covers it, else the plan's most recent season |
| Seasons.SeasonContextOf | src/services/api/seasonsService.ts:193-225 | Historic, current and future are pairwise exclusive. The previous season is none of them and is described "Saison précédente" |
| Seasons.SeasonsService.constructor | src/services/api/seasonsService.ts:28-29 | Both caches start empty |
| Seasons.SeasonsService.GetApiPlan | src/services/api/seasonsService.ts:34-49 | The plan is `ResolvePlan` of the cached plan; afterwards it is cached, and the season cache is untouched |
| Seasons.SeasonsService.GetAvailableSeasons | src/services/api/seasonsService.ts:102-131 | A cached list is returned unchanged without asking for the plan. Otherwise the plan's `SeasonList` is computed and cached |
| Seasons.SeasonsService.GetRecommendedSeason | src/services/api/seasonsService.ts:136-145 | `RecommendedOf` the cached list, which is kept; with no cache, the resolved plan and its season list are cached first |
| Seasons.SeasonsService.IsSeasonAvailable | src/services/api/seasonsService.ts:168-171 | `AvailableIn` the cached list, which is kept; with no cache, the resolved plan and its season list are cached first |
| Seasons.SeasonsService.ClearCache | src/services/api/seasonsService.ts:230-233 | Both caches are empty again |
| PlayersService.OrZero | src/services/api/playersService.ts:210-213 | Undefined and 0 read as 0; any other count is kept |
| PlayersService.CalculatePlayerStats | src/services/api/playersService.ts:209-232 | Missing counters count as 0. With no appearances every rate and the efficiency are 0, but the contribution is still goals + assists. Otherwise the rates are the counts over appearances and the efficiency is goals/appearances × 100 |
| PlayersService.ContributionPerMatch | src/services/api/playersService.ts:225-231 | With some appearances, goals per match plus assists per match, times appearances, is the goal contribution, and the efficiency times appearances is 100 times the goals |
| PlayersService.PlayerAge | src/services/api/playersService.ts:234-245 | The difference of the years, one less before this year's birthday |
| PlayersService.AgeCountsAnniversaries | src/services/api/playersService.ts:234-245 | The n-th anniversary has come iff n is at most the age |
| PlayersService.FormatPlayerPosition | src/services/api/playersService.ts:247-257 | The five known positions in French, Attacker and Forward both giving "Attaquant"; any other is returned unchanged |
| StandingsService.MinOf | src/services/api/standingsService.ts:129 | The minimum is an element and at most every element |
| StandingsService.MaxOf | src/services/api/standingsService.ts:130 | The maximum is an element and at least every element |
| StandingsService.PlayedCounts | src/services/api/standingsService.ts:128 | One count per team, in order |
| StandingsService.AnalyzeMatchesPlayed | src/services/api/standingsService.ts:118-147 | An empty table gives zeros and no team. Otherwise the minimum and maximum of the played counts, and the average is their `Mean`. The delayed teams are the order-preserving sublist below the average rounded down |
| StandingsService.Mean | src/services/api/standingsService.ts:131 | The mean of the played counts, multiplied back by their number, gives their sum |
| StandingsService.AverageBetweenMinAndMax | src/services/api/standingsService.ts:129-131 | minMatches ≤ average ≤ maxMatches |
| StandingsService.NoDelayWhenLevel | src/services/api/standingsService.ts:134-136 | When every team has played equally, no team is delayed |
| Formatters.FormatScore | src/utils/formatters.ts:8-13 | "- : -" iff either score is undefined, otherwise "h : a" |
| Formatters.FormatScoreInjective | src/utils/formatters.ts:8-13 | Different score pairs never display the same |
| Formatters.FirstSpace | src/utils/formatters.ts:12 | The first space of "x : y" follows x when x has none |
| Formatters.TrimStart | src/utils/formatters.ts:20 | The result has no leading white space and is a suffix of the input |
| Formatters.DigitOf | src/utils/formatters.ts:20 | A digit's value below the radix, or -1 |
| Formatters.DigitRun | src/utils/formatters.ts:20 | The longest prefix of digits of the radix |
| Formatters.ParseUnsignedReadsRendering | src/utils/formatters.ts:20 | A rendered natural number reads back in base 10 |
| Formatters.ParseIntReadsRendering | src/utils/formatters.ts:20 | `parseInt` reads back `String(n)` for an integer |
| Formatters.FormatPossession | src/utils/formatters.ts:18-21 | 0 for an undefined or empty possession |
| Formatters.PossessionReadsPercentage | src/utils/formatters.ts:18-21 | "57%" reads as 57 |
| Formatters.MatchStatusColor | src/utils/formatters.ts:34-47 | Success, error, warning and info each iff the lower-cased status names finished, else cancelled, else live, else none of them |
| Formatters.StatusColorIgnoresCase | src/utils/formatters.ts:35 | The colour does not depend on letter case |
| Formatters.TranslateMatchStatus | src/utils/formatters.ts:52-69 | The French name of each of the twelve known statuses; any other status is unchanged; every translation differs from its key |
| Formatters.FormatUnit | src/utils/formatters.ts:74-85 | '' for undefined or empty; a value without the unit is returned unchanged; otherwise a space is inserted before the unit's first occurrence |
| Formatters.FormatHeight | src/utils/formatters.ts:74-77 | '' for undefined or empty; a height without 'cm' is returned unchanged, otherwise ' cm' replaces its first 'cm' |
| Formatters.FormatWeight | src/utils/formatters.ts:82-85 | '' for undefined or empty; a weight without 'kg' is returned unchanged, otherwise ' kg' replaces its first 'kg' |
| Formatters.FormatUnitInverse | src/utils/formatters.ts:74-85 | Removing the first " cm" again gives back the original value |
| Formatters.Int32 | src/utils/formatters.ts:97 | The 32-bit wrap: congruent to x modulo 2^32, within [-2^31, 2^31) |
| Formatters.Shl5 | src/utils/formatters.ts:97 | `hash << 5` is always a 32-bit integer |
| Formatters.GetTeamColor | src/utils/formatters.ts:90-102 | The colour is always one of the eight palette entries, the one at `abs(hash) % 8`; the empty name gives the first |
| Formatters.TeamHashIsPolynomial | src/utils/formatters.ts:96-99 | The loop computes the base-31 polynomial hash of the character codes, up to a multiple of 2^32 |
| Formatters.TruncateText | src/utils/formatters.ts:107-110 | The text unchanged when its length ≤ max, else the first max characters plus "..." |
| DateUtils.DiffDays | src/utils/dateUtils.ts:43-44 | The floor of the difference over a day: `d*day <= diff < (d+1)*day` |
| DateUtils.RelativeTime | src/utils/dateUtils.ts:40-51 | 0 is "Aujourd'hui", 1 "Demain" and -1 "Hier". Beyond them "Dans n jours" and "Il y a n jours", the 's' only when \|n\| > 1 |
| DateUtils.YesterdayIsTheLastDay | src/utils/dateUtils.ts:44-48 | Every instant in the 24 hours before now is "Hier", and nothing else is |
| DateUtils.TodayIsTheNextDay | src/utils/dateUtils.ts:44-46 | "Aujourd'hui" covers exactly the next 24 hours from now, now included |
| LeagueTable.ChipOf | src/pages/Standings.tsx:88-107 | W → V/success, L → D/error, D → N/warning; any other character keeps its label with colour default |
| LeagueTable.Chips | src/pages/Standings.tsx:86-108 | One chip per character, in order |
| LeagueTable.ParseForm | src/pages/Standings.tsx:82-109 | Null for a missing or empty form; otherwise one chip per non-dot character, in order |
| LeagueTable.ParseRecentForm | src/pages/Teams.tsx:57-78 | Null for a missing or empty form; otherwise the chips of at most the last five non-dot characters |
| LeagueTable.RecentFormIsLastFive | src/components/Teams/TeamsCard.tsx:72-111 | The recent form is the last five chips of the full form, in order |
| LeagueTable.QualificationColor | src/pages/Standings.tsx:72-79 | Transparent iff the description is missing or names none of Champions League, Europa League and Relegation; otherwise the first of them it names, in that order, decides the colour |
| LeagueTable.TrendIconOf | src/pages/Standings.tsx:60-69 | Only 'up' and 'down' have an arrow; everything else is neutral |
| LeagueTable.RankColor | src/pages/Teams.tsx:99-105 | Missing or 0 is secondary, 1-4 success, 5-6 warning, 7-17 primary and 18 or more error; a negative rank is success. TeamsCard.tsx:40-46 uses the same thresholds |
| LeagueTable.QualificationBadge | src/components/Teams/TeamsCard.tsx:49-69 | A trophy only at rank 1, the relegation icon only from rank 18, nothing otherwise, a missing rank included |
| LeagueTable.BadgeAgreesWithRankColor | src/components/Teams/TeamsCard.tsx:40-69 | The trophy goes with success and the relegation badge with error |
| LeagueTable.GoalDiffText | src/pages/Teams.tsx:267-270 | '-' when undefined and "null" for null; otherwise the number, prefixed '+' only when positive |
| LeagueTable.GoalDiffReadsBack | src/pages/Teams.tsx:267-270 | The shown text reads back as the difference, so the prefix loses nothing |
| LeagueTable.GoalDiffColor | src/pages/Teams.tsx:262-263 | Success when positive, error when negative, primary iff the value is falsy (zero, null or undefined) |
| LeagueTable.CardLink | src/components/Teams/TeamsCard.tsx:230-241 | Wrapped in a link to `/league/{leagueId}/team/{id}` iff no click handler is given |
| LeagueTable.CardLinksDistinct | src/components/Teams/TeamsCard.tsx:233 | Two cards of one league link to the same page only for the same team |
| UseMatches.SortMatches | src/hooks/useMatches.ts:103-117 | A permutation of the input: ascending kick-off for 'date', descending for 'date-desc', ascending collation of the home or away name for the team sorts. An unknown option keeps the order |
| UseMatches.DateSortsKeepTies | src/hooks/useMatches.ts:108-111 | Matches at the same time keep their order under either date sort |
| UseMatches.WantedStatus | src/hooks/useMatches.ts:137-155 | 'recent'/'finished' want finished, 'upcoming'/'scheduled' scheduled, 'live' live; 'all' or absent nothing |
| UseMatches.ByStatus | src/hooks/useMatches.ts:137-155 | Keeps exactly the matches of the wanted status, in order |
| UseMatches.FilteredMatches | src/hooks/useMatches.ts:123-157 | The result is `SortMatches` of `ByStatus` applied to `Narrowed`: the team filter applies only for a truthy team, the date filter only when both ends are set. It is ordered by the chosen option, and is a permutation of what the filters kept. With a status filter, every match kept has that status. Without any filter, the result is a permutation of all matches |
| UseMatches.StatsOf | src/hooks/useMatches.ts:162-170 | `total` is the number of matches; `live`/`finished` count their statuses; `recent`/`upcoming` are the list lengths |
| UseMatches.CountsDisjoint | src/hooks/useMatches.ts:162-170 | No match is counted under two statuses: live + finished ≤ total |
| MatchesPage.GroupMatchesByLeague | src/pages/Matches.tsx:287-301 | The `forEach` loop builds exactly `GroupBy(matchList)` |
| MatchesPage.GroupHoldsItsLeague | src/pages/Matches.tsx:287-301 | A league has a group iff one of its matches is listed, and the group holds exactly its matches, in list order |
| MatchesPage.GroupLeagueIsFirstMatch | src/pages/Matches.tsx:291-296 | Each group's league record is that of its first match |
| MatchesPage.CountsPartition | src/pages/Matches.tsx:287-301 | Over distinct leagues covering the list, the per-league counts sum to the list length |
| MatchesPage.GroupSizesAreCounts | src/pages/Matches.tsx:297 | A group's size is the number of its league's matches |
| MatchesPage.GroupsPartitionTheList | src/pages/Matches.tsx:287-301 | The group sizes sum to the number of listed matches |
| MatchesPage.IsExpandedIn | src/pages/Matches.tsx:337 | Expanded unless the stored flag is exactly false |
| MatchesPage.ToggledAsWritten | src/pages/Matches.tsx:218-223 | The stored flag becomes the negation of the stored value, an absent one reading as false |
| MatchesPage.FirstToggleChangesNothing | src/pages/Matches.tsx:218-223 | The first click on a never-toggled league stores true: the section was open and stays open (an absent flag is read as open at Matches.tsx line 337) |
| MatchesPage.Flipped | src/pages/Matches.tsx:218-223 | The stored flag becomes the negation of what is shown |
| MatchesPage.FlipInverts | src/pages/Matches.tsx:218-223 | Every click opens or closes the section, and two clicks restore it |
| MatchesPage.TargetLeague | src/pages/Matches.tsx:226 | The context's league when set, else the route's parsed id when truthy, else none |
| MatchesPage.MatchesPageState.constructor | src/pages/Matches.tsx:205-215 | Three empty lists, no flags, not loading, no error |
| MatchesPage.MatchesPageState.IsExpanded | src/pages/Matches.tsx:337 | `IsExpandedIn` of the stored flags |
| MatchesPage.MatchesPageState.ToggleLeagueExpanded | src/pages/Matches.tsx:218-223 | The flags become `ToggledAsWritten`; nothing else changes |
| MatchesPage.MatchesPageState.FlipLeagueExpanded | src/pages/Matches.tsx:218-223 | The flags become `Flipped`, the shown state inverts, and nothing else changes |
| MatchesPage.MatchesPageState.FetchMatches | src/pages/Matches.tsx:229-260 | Only the active tab's list changes. 'live' gets the mock list; 'upcoming'/'recent' get `[]` without a target league, else the reply. A failure keeps the lists and sets the error. The other two tabs are unchanged |
| HttpClient.OrText | src/services/api/client.ts:115-119 | A truthy value is kept and anything falsy gives the default text, so the result is always truthy |
| HttpClient.HttpErrorKind | src/services/api/client.ts:75-80 | 404 is NOT_FOUND, any other 4xx VALIDATION_ERROR, everything else SERVER_ERROR |
| HttpClient.HttpErrorMessage | src/services/api/client.ts:65-73 | The body's truthy `detail`, else "HTTP {status}: {statusText}" |
| HttpClient.HandleHttpError | src/services/api/client.ts:64-87 | The kind and message above, with details `{status, statusText}` |
| HttpClient.Includes | src/services/api/client.ts:98 | Substring search on strings, element search on arrays; anything else is a TypeError |
| HttpClient.HandleRequestError | src/services/api/client.ts:92-120 | AbortError is TIMEOUT_ERROR with the timeout as details; a TypeError mentioning 'fetch' is NETWORK_ERROR with the base URL. A value with a type and message passes unchanged. Anything else is SERVER_ERROR with its message or the default text, and the value itself as details |
| HttpClient.HandleRequestErrorIdempotent | src/services/api/client.ts:110-112 | An error the handler produced comes back unchanged: errors are never wrapped twice |
| HttpClient.HttpErrorPassesThrough | src/services/api/client.ts:48-58 | The error `handleHttpError` throws inside `request` leaves its `catch` unchanged (the `catch` at client.ts lines 110-112) |
| HttpClient.Rejection | src/services/api/client.ts:56-58 | A rejection happens iff the thrown value is classified, and is that classified error; otherwise the handler itself fails |
| HttpClient.Request | src/services/api/client.ts:21-59 | An ok status resolves with the parsed body. Any other status rejects with `handleHttpError`'s error, unchanged |
| HttpClient.Stringified | src/services/api/client.ts:130-134 | One `String(value)` pair per kept parameter, in order |
| HttpClient.SearchParamsKept | src/services/api/client.ts:130-134 | A parameter is sent iff its value is set, with its `String` value |
| HttpClient.FalsyValuesAreSent | src/services/api/client.ts:131 | 0, false and '' are sent; only undefined and null are dropped |
| HttpClient.QueryString | src/services/api/client.ts:136-138 | The query string is empty exactly when there are no pairs |
| HttpClient.RequestPath | src/services/api/client.ts:125-142 | The endpoint, followed by '?' and the query only when the query is non-empty |
| HttpClient.ApiClient.constructor | src/services/api/client.ts:13-16 | The base URL and timeout are set |
| HttpClient.ApiClient.Get | src/services/api/client.ts:125-142 | Appends every set parameter in turn, requests the base URL + `RequestPath`, and ends as `Request` does |
| MatchCard.StatusColor | src/components/Matches/MatchCard.tsx:35-44 | One fixed colour per status; cancelled and unknown share grey |
| MatchCard.StatusText | src/components/Matches/MatchCard.tsx:55-69 | Live shows the first truthy of the two elapsed values (else 0) plus "'". Finished is 'FT', postponed 'REPORTÉ' and cancelled 'ANNULÉ' |
| MatchCard.LiveMinuteFallbacks | src/components/Matches/MatchCard.tsx:57-60 | Without any elapsed minute a live match reads "0'"; the call's minute wins over the match's |
| MatchCard.ScoreDisplay | src/components/Matches/MatchCard.tsx:71-76 | "h-a" iff neither score is null, else 'vs' |
| MatchCard.ScoreDisplayInjective | src/components/Matches/MatchCard.tsx:71-76 | Two known goal counts can be read back from the line |
| MatchCard.TruncateName | src/components/Matches/MatchCard.tsx:78-80 | The name when its length ≤ max, else its first max characters plus '...' |
| MatchCard.TruncateNameUnchanged | src/components/Matches/MatchCard.tsx:78-80 | A name comes back unchanged iff it fits, or is already max characters followed by '...' |
| MatchCard.TruncateNameKeepsEllipsis | src/components/Matches/MatchCard.tsx:78-80 | "abc..." with a bound of 3 is left as it is |
| UseSeason.InitialSelection | src/hooks/useSeason.ts:21 | `initialSeason \|\| 0`: a missing or zero initial season gives 0 |
| UseSeason.SeasonSelection.constructor | src/hooks/useSeason.ts:20-25 | The initial selection (or 0), no seasons, loading |
| UseSeason.SeasonSelection.IsSeasonAvailable | src/hooks/useSeason.ts:56-58 | True iff some loaded season has the year and is available |
| UseSeason.SeasonSelection.SetSelectedSeason | src/hooks/useSeason.ts:64-75 | The selection moves only when the season is available; nothing else changes |
| UseSeason.SeasonSelection.LoadSeasons | src/hooks/useSeason.ts:31-54 | Stores the list and the recommendation. A selection of 0 becomes the recommended year; any other is kept. A failure keeps the state and sets the error |
| UseSeason.CurrentSeasonHook | src/hooks/useSeason.ts:90-114 | The recommended year; on failure, the year from August on and the previous year before |
| Breadcrumbs.Segments | src/components/UI/BreadcrumbNavigation.tsx:72 | The non-empty parts of the pathname between slashes, none containing a slash |
| Breadcrumbs.PathOf | src/components/UI/BreadcrumbNavigation.tsx:107 | The path has at least one character (its slash) per segment |
| Breadcrumbs.Trail | src/components/UI/BreadcrumbNavigation.tsx:71-124 | The home crumb is always first. A path with 'league' first and 'standings' third gives exactly home, leagues and the league's standings crumb |
| Breadcrumbs.GenerateBreadcrumbs | src/components/UI/BreadcrumbNavigation.tsx:71-124 | The walk over the segments builds exactly `Trail(pathname)` |
| Breadcrumbs.WalkRoutes | src/components/UI/BreadcrumbNavigation.tsx:106-121 | The `forEach` over the segments appends exactly one crumb per route-mapped prefix path, in order, after the crumbs already pushed |
| Breadcrumbs.PathOfGrows | src/components/UI/BreadcrumbNavigation.tsx:107 | Longer prefixes have longer paths |
| Breadcrumbs.PrefixCrumbsComeFromRoutes | src/components/UI/BreadcrumbNavigation.tsx:106-121 | Every crumb after home is the crumb of a path prefix that is a route |
| Breadcrumbs.RoutePrefixesHaveCrumbs | src/components/UI/BreadcrumbNavigation.tsx:106-121 | Every prefix that is a route has its crumb |
| Breadcrumbs.PrefixCrumbsOrdered | src/components/UI/BreadcrumbNavigation.tsx:106-121 | The crumbs come in prefix order: their paths grow |
| Breadcrumbs.ActiveIsWholePath | src/components/UI/BreadcrumbNavigation.tsx:108-118 | Away from a standings page, a crumb after home is active iff its path is the whole path |
| Breadcrumbs.GeneralTrailHasAtMostTwoCrumbs | src/components/UI/BreadcrumbNavigation.tsx:106-121 | Away from a standings page there are at most two crumbs; the second is /leagues, /teams or /matches, named by the first segment (over the route table at BreadcrumbNavigation.tsx lines 21-47) |
| Breadcrumbs.PathOfInjective | src/components/UI/BreadcrumbNavigation.tsx:107 | Segments without slashes can be read back from their path |
| Breadcrumbs.NoRouteBelowFirst | src/components/UI/BreadcrumbNavigation.tsx:21-47 | A path of two or more segments is a route only as the standings route |
| UseApi.InitialPages | src/hooks/useApi.ts:97-101 | No data, page 1, not loading, no error, more to load |
| UseApi.Started | src/hooks/useApi.ts:109-111 | Loading on and the error cleared; data, page and hasMore kept |
| UseApi.Settled | src/hooks/useApi.ts:113-127 | On success the page is appended or replaces the data, `hasMore` iff the page is full, and `page` is the requested page. On failure data, page and hasMore are unchanged and the error is set. Not loading either way |
| UseApi.LoadedOutcome | src/hooks/useApi.ts:106-128 | A successful load leaves no error; a failed one leaves the list as it was |
| UseApi.LoadMoreGuard | src/hooks/useApi.ts:130-134 | No-op while loading or without more; otherwise page + 1 appended |
| UseApi.RefreshForgets | src/hooks/useApi.ts:136-141 | On success the data is exactly page 1; on failure the list is empty, on page 1, with more to load |
| UseApi.FullPagesAccumulate | src/hooks/useApi.ts:113-134 | Successive full pages are appended in order, the page advancing once per page, with more still to load |
| UseApi.ShortPageIsLast | src/hooks/useApi.ts:119-134 | After a short page every further `loadMore` is ignored |
| UseApi.LoadMoresIdle | src/hooks/useApi.ts:130-134 | Without more to load, any run of `loadMore` changes nothing |
| UseApi.Pagination.constructor | src/hooks/useApi.ts:97-101 | The state is `InitialPages` |
| UseApi.Pagination.StartLoad | src/hooks/useApi.ts:109-111 | The state becomes `Started` |
| UseApi.Pagination.SettleLoad | src/hooks/useApi.ts:113-127 | The state becomes `Settled` |
| UseApi.Pagination.LoadPage | src/hooks/useApi.ts:106-128 | The state becomes `Loaded` |
| UseApi.Pagination.LoadMore | src/hooks/useApi.ts:130-134 | A page is requested iff idle with more to load; the state becomes `AfterLoadMore` |
| UseApi.Pagination.Refresh | src/hooks/useApi.ts:136-141 | The state becomes `AfterRefresh` |
| UseApi.Executed | src/hooks/useApi.ts:19-31 | Exactly one of data and error is set: the value on success, the thrown value on failure |
| UseApi.ApiCall.constructor | src/hooks/useApi.ts:14-17 | No data, no error, loading iff immediate |
| UseApi.ApiCall.Execute | src/hooks/useApi.ts:19-31 | Data and error become `Executed(outcome)`; not loading |
| TeamSearch.SearchResults | src/components/Search/TeamSearchBar.tsx:20-31 | No results for a query of at most one character; every result is a listed team that matches |
| TeamSearch.SearchFindsExactlyTheMatches | src/components/Search/TeamSearchBar.tsx:22-27 | For a query of two characters or more, a team is found iff its lower-cased name or country contains the lower-cased query |
| TeamSearch.SearchKeepsListOrder | src/components/Search/TeamSearchBar.tsx:23-27 | The results are a subsequence of the team list, in its order |
| TeamSearch.SearchBar.constructor | src/components/Search/TeamSearchBar.tsx:17-18 | Empty query, no results |
| TeamSearch.SearchBar.HandleSearch | src/components/Search/TeamSearchBar.tsx:20-31 | The query always becomes the input, and the results become `SearchResults(value)` |

## Left out

- Network and HTTP plumbing are not modelled. This covers `requests`, `httpx`, `fetch`, routers, CORS, `main.py`, `start.py` and settings. Provider and backend replies are parameters.
- Concurrency is not modelled: `asyncio.gather` in `get_match_by_id` and `Promise.all`. The two parallel requests are made in sequence, and each awaited result is a parameter.
- Timers are not modelled: the debounced `useApiSearch` (useApi.ts:53-93), `useDebouncedValue`, the `setInterval` auto-refreshes and the `AbortController` timeout.
- Floating-point rounding is not modelled: `round(..., n)` and `toFixed`. Rates are exact rational quotients behind the source's zero guards.
- Clocks and locale are parameters or left out: `datetime.now()` stamps such as `last_update` and `comparison_date`, `new Date()` ("now" is passed as year, month and milliseconds), `toLocale*`, and the locale collation of team names (a comparator parameter).
- `getSeasonPeriod` (seasonsService.ts:183-189) is not modelled: it builds `Date` objects only.
- The network probe inside `detectApiPlan` is not modelled; only its outcome and the plan it chooses are.
- JSX rendering and the UI-only pages and components are not modelled, nor the thin service wrappers, `useTeams.ts`, `LeagueContext.tsx` and all logging.
- The `fetchData` effect of `useMatches` and the helpers it imports are not modelled; their definitions are not part of this model.
- The debug endpoint (teams.py:636-654) and the legacy endpoints after teams.py:535 are not modelled.
- Pydantic's lax coercion (a numeric string accepted as an `int`) is not modelled: fields accept only the JSON kinds listed under `Models`.
- String lengths count characters, not UTF-16 code units. Case mapping covers Basic Latin and Latin-1 only.
- Keys that name `Object.prototype` members (such as 'constructor') are looked up like any other key, so they are absent from the route and league tables.
- Standings entries whose `rank`, `points` or other counters are not numbers are not modelled: counters are kept as JSON values and are summed only in the summary, where a non-number raises TypeError.
- The message text of each HTTP 500 detail (the exception text the source appends) is not modelled.
- SafeInt: the limit of 4300 digits on `int()` of a string (Python 3.11, and the 2022 security releases of 3.8 to 3.10) is not modelled, because the code asks only for Python 3.8 or later. A longer literal reads as its value, where those versions raise ValueError and `_safe_int` gives None.
- FromTimestamp: the range is that of a server whose local time is UTC; another offset shifts both ends by that offset. Outside the range the model raises ValueError, where CPython raises ValueError, OverflowError or OSError depending on the magnitude. `get_match_by_id` catches none of them, so the kind does not change the outcome.
- PyJson.DigitValue: the decimal digits are those of Unicode 15.0. Another Python version's Unicode tables may add digit runs.
- PyJson.Json has no floating-point values. A float anywhere in the provider's JSON is outside the model; for example `FootballApi.FromTimestamp` refuses a float timestamp, which `datetime.fromtimestamp` accepts.
- PlayersService.PlayerAge and DateUtils.RelativeTime take dates that are already parsed. The `new Date(string)` parsing in `getPlayerAge` and `getRelativeTime` is not modelled: a date-only string is read as UTC midnight while its calendar day is then read in local time, and an unparsable string gives NaN.
- PyJson.Compare and PyLoops.SortByKeyDesc do not model Python's element-wise comparison of two lists: `Compare` raises for it, and a sort whose keys are all lists raises where Python would sort.
- MatchesPage.GroupBy returns the sections as a map, so the order in which `Object.entries` lists them (ascending league id) is not modelled.
- Seasons.SeasonsService.GetApiPlan: the `/status` reply is reduced to the plan it names, or to its failure. Its other fields are not modelled.

## Findings

| source | as written | input that shows it | evidently intended | confidence | as-written member | corrected member |
|---|---|---|---|---|---|---|
| src/pages/Matches.tsx:218-223 | The toggle stores `!prev[leagueId]`, and an absent flag is read as shown (open) at line 337 | The first click on a league section that was never toggled stores `true`: the section was open and stays open | The click should close the open section: store the negation of what is shown | not executed | MatchesPage.FirstToggleChangesNothing | MatchesPage.FlipInverts |
| src/backend/app/api/matches.py:124 | `get_recent_matches` and `get_upcoming_matches` call `get_matches` as a plain function. FastAPI then resolves no query default, so the other filters keep their truthy `Query(None)` objects, and lines 52-63 send them all | Any request to `/matches/recent`: the provider also receives `next`, `from`, `to`, `team` and `status` | Only league, season and the limit are sent, as a routed call with the other filters absent would send | not executed | MatchesApi.DirectCallSendsDefaults | MatchesApi.GetRecentMatches |
