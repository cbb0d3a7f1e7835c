/** The football service (app/services/football_api.py): its request helper, the normalisers that
  * turn provider items into the pydantic models of `Models`, and the match-detail assembly with its
  * goal filter and its per-team statistics indexed by label. */
module FootballApi {
  import opened Wrappers
  import opened PyJson
  import opened PyLoops
  import opened Upstream
  import opened Models

  // ---------------------------------------------------------------------------------------------
  // _make_request

  predicate IsSuccess(status: int) {
    200 <= status < 300
  }

  /** `_make_request`: `raise_for_status` rejects every status outside 2xx, and it and every
    * transport failure are `httpx.HTTPError`s, answered with `{"response": []}`. A 2xx body that is
    * not JSON raises from `response.json()`, which the handler does not catch. */
  function ServiceReply(reply: Reply): (r: PyResult<Json>)
    ensures reply.Reply? && IsSuccess(reply.status) && reply.body.Some? ==> r == Ok(reply.body.value)
    ensures reply.Reply? && IsSuccess(reply.status) && reply.body.None? ==> r == Raise(ValueError)
    ensures !(reply.Reply? && IsSuccess(reply.status)) ==> r == Ok(EmptyResponse)
  {
    match reply
    case Reply(status, body) =>
      if !IsSuccess(status) then Ok(EmptyResponse)
      else if body.Some? then Ok(body.value)
      else Raise(ValueError)
    case _ => Ok(EmptyResponse)
  }

  /** The helper raises only on a successful reply whose body is not JSON. */
  lemma ServiceReplyRaises(reply: Reply)
    ensures ServiceReply(reply).Raise? <==> reply.Reply? && IsSuccess(reply.status) && reply.body.None?
  {
  }

  // ---------------------------------------------------------------------------------------------
  // _safe_int

  /** `_safe_int`: None stays None, and `int(value)` is tried with its ValueError and TypeError
    * turned into None. Those are the only exceptions `int()` raises here, so it never raises. */
  function SafeInt(x: Json): (r: Option<int>)
    ensures x.JNull? ==> r == None
    ensures x.JInt? ==> r == Some(x.i)
    ensures x.JBool? ==> r == Some(if x.b then 1 else 0)
    ensures x.JStr? ==> r == IntLiteral(x.s)
    ensures x.JList? || x.JDict? ==> r == None
  {
    if x.JNull? then None
    else
      match PyInt(x)
      case Ok(n) => Some(n)
      case Raise(_) => None
  }

  /** A count the provider sends as a decimal string reads back as that count. */
  lemma SafeIntOfRendering(n: int)
    ensures SafeInt(JStr(Text.IntToString(n))) == Some(n)
  {
    IntLiteralOfIntToString(n);
  }

  /** A percentage such as "45%" is not an int, and `_safe_int` gives None instead of raising. */
  lemma SafeIntOfPercentage()
    ensures SafeInt(JStr("45%")) == None
  {
    var s := "45%";
    assert forall k :: 0 <= k < |s| ==> !IsSpace(s[k]);
    assert IntLiteral(s) == SignedLiteral(s);
    assert s[0] != '-' && s[0] != '+' && !IsDigitChar(s[|s| - 1]);
  }

  /** `int()` reads the decimal digits of every script and strips non-ASCII white space, so an
    * Arabic-Indic "١٢" framed by ideographic spaces is 12. */
  lemma SafeIntOfUnicodeDigits()
    ensures SafeInt(JStr("\U{3000}\U{0661}\U{0662}\U{3000}")) == Some(12)
  {
    IdeographicSpacesStripped();
    ArabicIndicTwelve();
    assert IntLiteral("\U{3000}\U{0661}\U{0662}\U{3000}") == Some(12);
  }

  /** U+3000 around a literal is stripped on both sides. */
  lemma IdeographicSpacesStripped()
    ensures Strip("\U{3000}\U{0661}\U{0662}\U{3000}") == "\U{0661}\U{0662}"
  {
    var u := "\U{0661}\U{0662}";
    assert "\U{3000}\U{0661}\U{0662}\U{3000}" == ['\U{3000}'] + (u + ['\U{3000}']);
    StripOneSpace('\U{3000}', u + ['\U{3000}']);
    StripOneSpaceRight(u, '\U{3000}');
  }

  /** The Arabic-Indic digits one and two make the literal 12. */
  lemma ArabicIndicTwelve()
    ensures SignedLiteral("\U{0661}\U{0662}") == Some(12)
  {
    var u := "\U{0661}\U{0662}";
    assert DigitValue(u[0]) == Some(1) by { assert u[0] == '\U{0661}'; }
    assert DigitValue(u[1]) == Some(2) by { assert u[1] == '\U{0662}'; }
    assert NoDoubleUnderscore(u) by { assert NoDoubleUnderscore(u[1..]); }
    assert DecimalLiteral(u);
    assert LiteralValue(u[..1]) == 1 by {
      assert u[..1][..0] == [];
      assert u[..1][0] == u[0];
    }
    assert LiteralValue(u) == 12;
  }

  /** The ASCII separators U+001C to U+001F are not stripped by `int()`: "\x1c5" gives None. */
  lemma SafeIntKeepsFileSeparator()
    ensures SafeInt(JStr("\U{001C}5")) == None
  {
    var s := "\U{001C}5";
    assert forall k :: 0 <= k < |s| ==> !IsSpace(s[k]);
    assert !IsDigitChar(s[0]);
  }

  // ---------------------------------------------------------------------------------------------
  // search_teams, get_team_by_id, get_team_players

  /** The body's `response` list as the normalising loops iterate it. */
  function ResponseItems(data: Json): (r: PyResult<seq<Json>>)
    ensures data.JDict? && "response" !in data.fields ==> r == Ok([])
    ensures data.JDict? && "response" in data.fields && data.fields["response"].JList? ==>
      r == Ok(data.fields["response"].items)
    ensures !data.JDict? ==> r == Raise(AttributeError)
  {
    var resp :- Get(data, "response", EmptyList);
    Elements(resp)
  }

  /** `Team(...)` from the provider's `team` object; `national` defaults to False. */
  function TeamOf(item: Json): (r: PyResult<Team>)
    ensures r.Raise? ==> r.error == AttributeError || r.error == ValidationError
    ensures !item.JDict? ==> r == Raise(AttributeError)
  {
    var f :- Fields(item);
    var t :- Fields(At(f, "team", EmptyDict));
    var id :- IntField(At(t, "id", JNull));
    var name :- StrField(At(t, "name", JNull));
    var country :- StrField(At(t, "country", JNull));
    var logo :- OptStrField(At(t, "logo", JNull));
    var founded :- OptIntField(At(t, "founded", JNull));
    var national :- BoolField(At(t, "national", JBool(false)));
    var code :- OptStrField(At(t, "code", JNull));
    Ok(Team(id, name, country, logo, founded, national, code))
  }

  /** The provider's item for a team. */
  function TeamJson(t: Team): (x: Json)
    ensures x.JDict?
  {
    JDict(map["id" := JInt(t.id), "name" := JStr(t.name), "country" := JStr(t.country),
              "logo" := OptStrJson(t.logo), "founded" := OptIntJson(t.founded),
              "national" := JBool(t.national), "code" := OptStrJson(t.code)])
  }

  /** The normaliser loses nothing: every team comes back from the item that describes it. */
  lemma TeamRoundTrip(t: Team)
    ensures TeamOf(JDict(map["team" := TeamJson(t)])) == Ok(t)
  {
  }

  /** Only `id`, `name` and `country` are needed: the other fields default to None and False. */
  lemma TeamDefaults(id: int, name: string, country: string)
    ensures TeamOf(JDict(map["team" := JDict(map["id" := JInt(id), "name" := JStr(name), "country" := JStr(country)])]))
         == Ok(Team(id, name, country, None, None, false, None))
  {
  }

  /** An item without a team id is rejected by the model. */
  lemma TeamNeedsId(t: map<string, Json>)
    requires "id" !in t
    ensures TeamOf(JDict(map["team" := JDict(t)])) == Raise(ValidationError)
  {
  }

  /** The loop of `search_teams`. */
  method BuildTeams(items: seq<Json>) returns (r: PyResult<seq<Team>>)
    ensures r == MapR(TeamOf, items)
  {
    var out: seq<Team> := [];
    var i := 0;
    while i < |items|
      invariant 0 <= i <= |items|
      invariant MapR(TeamOf, items[..i]) == Ok(out)
    {
      assert items[..i + 1][..i] == items[..i];
      var t := TeamOf(items[i]);
      if t.Raise? {
        MapRPrefixRaise(TeamOf, items, i + 1);
        return Raise(t.error);
      }
      out := out + [t.value];
      i := i + 1;
    }
    assert items[..i] == items;
    r := Ok(out);
  }

  /** The search request: the query, and the country only when it is a non-empty string. */
  function SearchTeamsRequest(query: string, country: Option<string>): (q: Request)
    ensures q.endpoint == "teams" && "search" in q.params && q.params["search"] == JStr(query)
    ensures "country" in q.params <==> country.Some? && country.value != ""
    ensures "country" in q.params ==> q.params["country"] == JStr(country.value)
    ensures q.params.Keys <= {"search", "country"}
  {
    var params := map["search" := JStr(query)];
    Request("teams", if country.Some? && country.value != "" then params["country" := JStr(country.value)] else params)
  }

  /** `search_teams`: one request, one team per response item in order. */
  function SearchTeams(api: Request -> Reply, query: string, country: Option<string>): (h: Fetched<seq<Team>>)
    ensures h.calls == [SearchTeamsRequest(query, country)]
  {
    var q := SearchTeamsRequest(query, country);
    var result :=
      var data :- ServiceReply(api(q));
      var items :- ResponseItems(data);
      MapR(TeamOf, items);
    Fetched(result, [q])
  }

  /** A failed provider request gives no teams rather than an error. */
  lemma SearchTeamsOnProviderFailure(api: Request -> Reply, query: string, country: Option<string>)
    requires !api(SearchTeamsRequest(query, country)).Reply?
    ensures SearchTeams(api, query, country).result == Ok([])
  {
  }

  /** The search lists exactly the teams described by the response items, in order. */
  lemma SearchTeamsRoundTrip(api: Request -> Reply, query: string, country: Option<string>, teams: seq<Team>)
    requires api(SearchTeamsRequest(query, country)) ==
      Reply(200, Some(JDict(map["response" := JList(seq(|teams|, i requires 0 <= i < |teams| =>
        JDict(map["team" := TeamJson(teams[i])])))])))
    ensures SearchTeams(api, query, country).result == Ok(teams)
  {
    var items := seq(|teams|, i requires 0 <= i < |teams| => JDict(map["team" := TeamJson(teams[i])]));
    forall i | 0 <= i < |items| ensures TeamOf(items[i]).Ok? {
      TeamRoundTrip(teams[i]);
    }
    MapROkIff(TeamOf, items);
    MapROk(TeamOf, items);
    var out := MapR(TeamOf, items).value;
    forall i | 0 <= i < |teams| ensures out[i] == teams[i] {
      TeamRoundTrip(teams[i]);
    }
    assert out == teams;
  }

  /** `TeamDetail(...)`: the team fields and the `venue` object's fields. */
  function TeamDetailOf(item: Json): (r: PyResult<TeamDetail>)
    ensures r.Raise? ==> r.error == AttributeError || r.error == ValidationError
  {
    var f :- Fields(item);
    var t :- Fields(At(f, "team", EmptyDict));
    var v :- Fields(At(f, "venue", EmptyDict));
    var team :- TeamOf(JDict(map["team" := JDict(t)]));
    var id :- OptIntField(At(v, "id", JNull));
    var name :- OptStrField(At(v, "name", JNull));
    var address :- OptStrField(At(v, "address", JNull));
    var city :- OptStrField(At(v, "city", JNull));
    var capacity :- OptIntField(At(v, "capacity", JNull));
    var surface :- OptStrField(At(v, "surface", JNull));
    var image :- OptStrField(At(v, "image", JNull));
    Ok(TeamDetail(team, Venue(id, name, address, city, capacity, surface, image)))
  }

  /** The provider's `venue` object. */
  function VenueJson(v: Venue): (x: Json)
    ensures x.JDict?
  {
    JDict(map["id" := OptIntJson(v.id), "name" := OptStrJson(v.name), "address" := OptStrJson(v.address),
              "city" := OptStrJson(v.city), "capacity" := OptIntJson(v.capacity),
              "surface" := OptStrJson(v.surface), "image" := OptStrJson(v.image)])
  }

  lemma TeamDetailRoundTrip(d: TeamDetail)
    ensures TeamDetailOf(JDict(map["team" := TeamJson(d.team), "venue" := VenueJson(d.venue)])) == Ok(d)
  {
    TeamRoundTrip(d.team);
  }

  /** A team without a `venue` object has every venue field None. */
  lemma TeamDetailWithoutVenue(t: Team)
    ensures TeamDetailOf(JDict(map["team" := TeamJson(t)])) ==
      Ok(TeamDetail(t, Venue(None, None, None, None, None, None, None)))
  {
    TeamRoundTrip(t);
  }

  function TeamByIdRequest(teamId: int): Request {
    Request("teams", map["id" := JInt(teamId)])
  }

  /** `get_team_by_id`: None when the response is empty, else the first item's detail. */
  function GetTeamById(api: Request -> Reply, teamId: int): (h: Fetched<Option<TeamDetail>>)
    ensures h.calls == [TeamByIdRequest(teamId)]
    ensures h.result.Ok? && h.result.value.Some? ==>
      var data := ServiceReply(api(TeamByIdRequest(teamId)));
      data.Ok? && data.value.JDict? && "response" in data.value.fields &&
      Truthy(data.value.fields["response"]) &&
      Nth(data.value.fields["response"], 0).Ok? &&
      TeamDetailOf(Nth(data.value.fields["response"], 0).value) == Ok(h.result.value.value)
  {
    var q := TeamByIdRequest(teamId);
    var result :=
      var data :- ServiceReply(api(q));
      var resp :- Get(data, "response", JNull);
      if !Truthy(resp) then Ok(None)
      else
        var item :- Nth(resp, 0);
        var d :- TeamDetailOf(item);
        Ok(Some(d));
    Fetched(result, [q])
  }

  /** An empty response, a missing `response` key and a failed request all give None. */
  lemma TeamByIdNone(api: Request -> Reply, teamId: int)
    requires var reply := api(TeamByIdRequest(teamId));
      !reply.Reply? || !IsSuccess(reply.status) ||
      reply.body == Some(JDict(map[])) || reply.body == Some(EmptyResponse)
    ensures GetTeamById(api, teamId).result == Ok(None)
  {
  }

  /** `Player(...)` from the provider's `player` object; the three birth fields come from its
    * `birth` object and `injured` defaults to False. */
  function PlayerOf(item: Json): (r: PyResult<Player>)
    ensures r.Raise? ==> r.error == AttributeError || r.error == ValidationError
    ensures !item.JDict? ==> r == Raise(AttributeError)
  {
    var f :- Fields(item);
    var p :- Fields(At(f, "player", EmptyDict));
    var birth :- Fields(At(p, "birth", EmptyDict));
    var who :- PlayerNamesOf(p);
    var born :- PlayerBirthOf(birth);
    var more :- PlayerProfileOf(p);
    Ok(Player(who.0, who.1, who.2, who.3, who.4, born.0, born.1, born.2,
              more.0, more.1, more.2, more.3, more.4))
  }

  /** The `id`, `name`, `firstname`, `lastname` and `age` arguments of `Player(...)`. */
  function PlayerNamesOf(p: map<string, Json>): (r: PyResult<(int, string, Option<string>, Option<string>, Option<int>)>)
    ensures r.Raise? ==> r.error == ValidationError
  {
    var id :- IntField(At(p, "id", JNull));
    var name :- StrField(At(p, "name", JNull));
    var firstname :- OptStrField(At(p, "firstname", JNull));
    var lastname :- OptStrField(At(p, "lastname", JNull));
    var age :- OptIntField(At(p, "age", JNull));
    Ok((id, name, firstname, lastname, age))
  }

  /** The three birth arguments, read from the `birth` object. */
  function PlayerBirthOf(birth: map<string, Json>): (r: PyResult<(Option<string>, Option<string>, Option<string>)>)
    ensures r.Raise? ==> r.error == ValidationError
  {
    var birthDate :- OptStrField(At(birth, "date", JNull));
    var birthPlace :- OptStrField(At(birth, "place", JNull));
    var birthCountry :- OptStrField(At(birth, "country", JNull));
    Ok((birthDate, birthPlace, birthCountry))
  }

  /** The `nationality`, `height`, `weight`, `injured` (False by default) and `photo` arguments. */
  function PlayerProfileOf(p: map<string, Json>): (r: PyResult<(Option<string>, Option<string>, Option<string>, bool, Option<string>)>)
    ensures r.Raise? ==> r.error == ValidationError
  {
    var nationality :- OptStrField(At(p, "nationality", JNull));
    var height :- OptStrField(At(p, "height", JNull));
    var weight :- OptStrField(At(p, "weight", JNull));
    var injured :- BoolField(At(p, "injured", JBool(false)));
    var photo :- OptStrField(At(p, "photo", JNull));
    Ok((nationality, height, weight, injured, photo))
  }

  /** The provider's `player` object. */
  function PlayerJson(p: Player): (x: Json)
    ensures x.JDict?
  {
    JDict(map["id" := JInt(p.id), "name" := JStr(p.name), "firstname" := OptStrJson(p.firstname),
              "lastname" := OptStrJson(p.lastname), "age" := OptIntJson(p.age),
              "birth" := JDict(map["date" := OptStrJson(p.birthDate), "place" := OptStrJson(p.birthPlace),
                                   "country" := OptStrJson(p.birthCountry)]),
              "nationality" := OptStrJson(p.nationality), "height" := OptStrJson(p.height),
              "weight" := OptStrJson(p.weight), "injured" := JBool(p.injured),
              "photo" := OptStrJson(p.photo)])
  }

  lemma PlayerRoundTrip(p: Player)
    ensures PlayerOf(JDict(map["player" := PlayerJson(p)])) == Ok(p)
  {
    var f := PlayerJson(p).fields;
    PlayerJsonNames(p);
    PlayerJsonProfile(p);
    NamesRead(f, p);
    BirthRead(f["birth"].fields, p);
    ProfileRead(f, p);
  }

  lemma NamesRead(f: map<string, Json>, p: Player)
    requires "id" in f && f["id"] == JInt(p.id) && "name" in f && f["name"] == JStr(p.name) &&
      "firstname" in f && f["firstname"] == OptStrJson(p.firstname) &&
      "lastname" in f && f["lastname"] == OptStrJson(p.lastname) &&
      "age" in f && f["age"] == OptIntJson(p.age)
    ensures PlayerNamesOf(f) == Ok((p.id, p.name, p.firstname, p.lastname, p.age))
  {
  }

  lemma BirthRead(birth: map<string, Json>, p: Player)
    requires birth == map["date" := OptStrJson(p.birthDate), "place" := OptStrJson(p.birthPlace),
                          "country" := OptStrJson(p.birthCountry)]
    ensures PlayerBirthOf(birth) == Ok((p.birthDate, p.birthPlace, p.birthCountry))
  {
  }

  lemma ProfileRead(f: map<string, Json>, p: Player)
    requires "nationality" in f && f["nationality"] == OptStrJson(p.nationality) &&
      "height" in f && f["height"] == OptStrJson(p.height) &&
      "weight" in f && f["weight"] == OptStrJson(p.weight) &&
      "injured" in f && f["injured"] == JBool(p.injured) &&
      "photo" in f && f["photo"] == OptStrJson(p.photo)
    ensures PlayerProfileOf(f) == Ok((p.nationality, p.height, p.weight, p.injured, p.photo))
  {
  }

  /** The keys `PlayerNamesOf` reads in `PlayerJson(p)`, each with its value. */
  lemma PlayerJsonNames(p: Player)
    ensures var f := PlayerJson(p).fields;
      "id" in f && f["id"] == JInt(p.id) && "name" in f && f["name"] == JStr(p.name) &&
      "firstname" in f && f["firstname"] == OptStrJson(p.firstname) &&
      "lastname" in f && f["lastname"] == OptStrJson(p.lastname) &&
      "age" in f && f["age"] == OptIntJson(p.age)
  {
    PlayerJsonId(p);
  }

  lemma PlayerJsonId(p: Player)
    ensures var f := PlayerJson(p).fields;
      "id" in f && f["id"] == JInt(p.id) && "name" in f && f["name"] == JStr(p.name)
  {
  }

  /** The `birth` object and the keys `PlayerProfileOf` reads in `PlayerJson(p)`. */
  lemma PlayerJsonProfile(p: Player)
    ensures var f := PlayerJson(p).fields;
      "birth" in f && f["birth"] == JDict(map["date" := OptStrJson(p.birthDate), "place" := OptStrJson(p.birthPlace),
                                              "country" := OptStrJson(p.birthCountry)]) &&
      "nationality" in f && f["nationality"] == OptStrJson(p.nationality) &&
      "height" in f && f["height"] == OptStrJson(p.height) &&
      "weight" in f && f["weight"] == OptStrJson(p.weight) &&
      "injured" in f && f["injured"] == JBool(p.injured) &&
      "photo" in f && f["photo"] == OptStrJson(p.photo)
  {
  }

  /** A `birth` that is present but null fails: `.get` is applied to None. */
  lemma PlayerNullBirth(p: map<string, Json>)
    requires "birth" in p && p["birth"] == JNull
    ensures PlayerOf(JDict(map["player" := JDict(p)])) == Raise(AttributeError)
  {
  }

  /** The loop of `get_team_players`. */
  method BuildPlayers(items: seq<Json>) returns (r: PyResult<seq<Player>>)
    ensures r == MapR(PlayerOf, items)
  {
    var out: seq<Player> := [];
    var i := 0;
    while i < |items|
      invariant 0 <= i <= |items|
      invariant MapR(PlayerOf, items[..i]) == Ok(out)
    {
      assert items[..i + 1][..i] == items[..i];
      var p := PlayerOf(items[i]);
      if p.Raise? {
        MapRPrefixRaise(PlayerOf, items, i + 1);
        return Raise(p.error);
      }
      out := out + [p.value];
      i := i + 1;
    }
    assert items[..i] == items;
    r := Ok(out);
  }

  /** `get_team_players`'s season when the caller gives none. */
  const DefaultPlayersSeason := 2024

  function TeamPlayersRequest(teamId: int, season: int): Request {
    Request("players", map["team" := JInt(teamId), "season" := JInt(season)])
  }

  /** `get_team_players`: one player per response item, in order. */
  function GetTeamPlayers(api: Request -> Reply, teamId: int, season: int): (h: Fetched<seq<Player>>)
    ensures h.calls == [TeamPlayersRequest(teamId, season)]
    ensures h.result.Ok? ==>
      var data := ServiceReply(api(TeamPlayersRequest(teamId, season)));
      data.Ok? && ResponseItems(data.value).Ok? && |h.result.value| == |ResponseItems(data.value).value|
  {
    var q := TeamPlayersRequest(teamId, season);
    var result :=
      var data :- ServiceReply(api(q));
      var items :- ResponseItems(data);
      MapR(PlayerOf, items);
    Fetched(result, [q])
  }

  /** Every listed player comes from the response item at the same position. */
  lemma TeamPlayersInOrder(api: Request -> Reply, teamId: int, season: int)
    requires GetTeamPlayers(api, teamId, season).result.Ok?
    ensures var items := ResponseItems(ServiceReply(api(TeamPlayersRequest(teamId, season))).value).value;
      var players := GetTeamPlayers(api, teamId, season).result.value;
      forall i :: 0 <= i < |items| ==> PlayerOf(items[i]) == Ok(players[i])
  {
    var items := ResponseItems(ServiceReply(api(TeamPlayersRequest(teamId, season))).value).value;
    MapROk(PlayerOf, items);
  }

  // ---------------------------------------------------------------------------------------------
  // get_match_by_id: goals

  /** The events the goal loop keeps: objects whose `type` is exactly "Goal". */
  predicate IsGoalEvent(event: Json) {
    event.JDict? && At(event.fields, "type", JNull) == JStr("Goal")
  }

  /** `MatchGoal(...)` from an event: `time.elapsed` defaults to 0, the assist fields are None
    * unless the event has a truthy `assist`, and the goal type is `detail`, "Goal" by default. */
  function GoalOf(event: Json): (r: PyResult<MatchGoal>)
    ensures r.Raise? ==> r.error == AttributeError || r.error == ValidationError
  {
    var f :- Fields(event);
    var elapsed :- Get(At(f, "time", EmptyDict), "elapsed", JInt(0));
    var team :- Fields(At(f, "team", EmptyDict));
    var player :- Fields(At(f, "player", EmptyDict));
    var assist := At(f, "assist", JNull);
    var assistFields :- if Truthy(assist) then Fields(assist) else Ok(map[]);
    var kind := At(f, "detail", JStr("Goal"));
    var t :- IntField(elapsed);
    var ti :- IntField(At(team, "id", JNull));
    var tn :- StrField(At(team, "name", JNull));
    var pi :- IntField(At(player, "id", JNull));
    var pn :- StrField(At(player, "name", JNull));
    var ai :- OptIntField(At(assistFields, "id", JNull));
    var an :- OptStrField(At(assistFields, "name", JNull));
    var k :- StrField(kind);
    Ok(MatchGoal(t, ti, tn, pi, pn, ai, an, k))
  }

  /** One pass of the goal loop: the event's MatchGoal when it is a goal, nothing otherwise. */
  function GoalEventOf(event: Json): (r: PyResult<Option<MatchGoal>>)
    ensures !event.JDict? ==> r == Raise(AttributeError)
    ensures event.JDict? && !IsGoalEvent(event) ==> r == Ok(None)
    ensures IsGoalEvent(event) ==> r == AsSome(GoalOf(event))
  {
    var f :- Fields(event);
    if At(f, "type", JNull) == JStr("Goal") then AsSome(GoalOf(event)) else Ok(None)
  }

  /** The provider's event for a goal. */
  function GoalEventJson(g: MatchGoal): (x: Json)
    ensures IsGoalEvent(x)
  {
    JDict(map["type" := JStr("Goal"), "time" := JDict(map["elapsed" := JInt(g.timeElapsed)]),
              "team" := JDict(map["id" := JInt(g.teamId), "name" := JStr(g.teamName)]),
              "player" := JDict(map["id" := JInt(g.playerId), "name" := JStr(g.playerName)]),
              "assist" := JDict(map["id" := OptIntJson(g.assistId), "name" := OptStrJson(g.assistName)]),
              "detail" := JStr(g.kind)])
  }

  lemma GoalRoundTrip(g: MatchGoal)
    ensures GoalEventOf(GoalEventJson(g)) == Ok(Some(g))
  {
    GoalEventFields(g);
    GoalRead(GoalEventJson(g).fields, g);
  }

  /** The keys `GoalOf` reads in `GoalEventJson(g)`, each with its value. */
  lemma GoalEventFields(g: MatchGoal)
    ensures var f := GoalEventJson(g).fields;
      "time" in f && f["time"] == JDict(map["elapsed" := JInt(g.timeElapsed)]) &&
      "team" in f && f["team"] == JDict(map["id" := JInt(g.teamId), "name" := JStr(g.teamName)]) &&
      "player" in f && f["player"] == JDict(map["id" := JInt(g.playerId), "name" := JStr(g.playerName)]) &&
      "assist" in f && f["assist"] == JDict(map["id" := OptIntJson(g.assistId), "name" := OptStrJson(g.assistName)]) &&
      At(f, "detail", JStr("Goal")) == JStr(g.kind)
  {
  }

  /** An event whose objects hold the goal's values describes that goal. */
  lemma GoalRead(f: map<string, Json>, g: MatchGoal)
    requires "time" in f && f["time"] == JDict(map["elapsed" := JInt(g.timeElapsed)])
    requires "team" in f && f["team"] == JDict(map["id" := JInt(g.teamId), "name" := JStr(g.teamName)])
    requires "player" in f && f["player"] == JDict(map["id" := JInt(g.playerId), "name" := JStr(g.playerName)])
    requires "assist" in f && f["assist"] == JDict(map["id" := OptIntJson(g.assistId), "name" := OptStrJson(g.assistName)])
    requires At(f, "detail", JStr("Goal")) == JStr(g.kind)
    ensures GoalOf(JDict(f)) == Ok(g)
  {
    assert "id" in f["assist"].fields;
  }

  /** A goal without an assist has both assist fields None, and without `detail` its type is
    * "Goal". */
  lemma GoalDefaults(elapsed: int, teamId: int, teamName: string, playerId: int, playerName: string)
    ensures GoalEventOf(JDict(map["type" := JStr("Goal"), "time" := JDict(map["elapsed" := JInt(elapsed)]),
              "team" := JDict(map["id" := JInt(teamId), "name" := JStr(teamName)]),
              "player" := JDict(map["id" := JInt(playerId), "name" := JStr(playerName)]),
              "assist" := JDict(map["id" := JNull, "name" := JNull])]))
         == Ok(Some(MatchGoal(elapsed, teamId, teamName, playerId, playerName, None, None, "Goal")))
  {
    var f := map["type" := JStr("Goal"), "time" := JDict(map["elapsed" := JInt(elapsed)]),
              "team" := JDict(map["id" := JInt(teamId), "name" := JStr(teamName)]),
              "player" := JDict(map["id" := JInt(playerId), "name" := JStr(playerName)]),
              "assist" := JDict(map["id" := JNull, "name" := JNull])];
    assert "detail" !in f;
    GoalRead(f, MatchGoal(elapsed, teamId, teamName, playerId, playerName, None, None, "Goal"));
  }

  /** The loop `for event in events: if event.get("type") == "Goal": goals.append(...)`. */
  method CollectGoals(events: seq<Json>) returns (r: PyResult<seq<MatchGoal>>)
    ensures r == FilterMapR(GoalEventOf, events)
  {
    var out: seq<MatchGoal> := [];
    var i := 0;
    while i < |events|
      invariant 0 <= i <= |events|
      invariant FilterMapR(GoalEventOf, events[..i]) == Ok(out)
    {
      assert events[..i + 1][..i] == events[..i];
      var g := GoalEventOf(events[i]);
      if g.Raise? {
        FilterMapRPrefixRaise(GoalEventOf, events, i + 1);
        return Raise(g.error);
      }
      if g.value.Some? {
        out := out + [g.value.value];
      }
      i := i + 1;
    }
    assert events[..i] == events;
    r := Ok(out);
  }

  /** The goals are exactly the events of type "Goal", in event order, each built by `GoalOf`. */
  lemma GoalsAreGoalEvents(events: seq<Json>)
    requires forall i :: 0 <= i < |events| ==> events[i].JDict?
    ensures FilterMapR(GoalEventOf, events) == MapR(GoalOf, Filter(IsGoalEvent, events))
  {
    FilterMapRSplit(GoalEventOf, IsGoalEvent, GoalOf, events);
  }

  // ---------------------------------------------------------------------------------------------
  // get_match_by_id: statistics

  /** An entry of a statistics list whose `type` label is the string `tag` (a label that is
    * not a string never matches a lookup). */
  predicate Labelled(stat: Json, tag: string) {
    stat.JDict? && At(stat.fields, "type", JNull) == JStr(tag)
  }

  /** `{stat.get("type"): stat.get("value") for stat in statistics}`, keeping the string labels
    * (the only ones looked up). A list or dict label is unhashable; a later entry with the same
    * label replaces an earlier one. */
  function LabelIndex(stats: seq<Json>): (r: PyResult<map<string, Json>>)
    ensures r.Raise? ==> r.error == AttributeError || r.error == TypeError
    decreases |stats|
  {
    if stats == [] then Ok(map[])
    else
      var init :- LabelIndex(stats[..|stats| - 1]);
      var f :- Fields(stats[|stats| - 1]);
      var tag := At(f, "type", JNull);
      if tag.JList? || tag.JDict? then Raise(TypeError)
      else if tag.JStr? then Ok(init[tag.s := At(f, "value", JNull)])
      else Ok(init)
  }

  /** No entry after the `i`-th carries `tag`. */
  predicate LastLabelled(stats: seq<Json>, i: nat, tag: string) {
    forall j :: i < j < |stats| ==> !Labelled(stats[j], tag)
  }

  /** A label is in the index exactly when some entry carries it, and its value is that of the
    * last such entry. */
  lemma {:induction false} LabelIndexLookup(stats: seq<Json>, tag: string)
    requires LabelIndex(stats).Ok?
    ensures tag in LabelIndex(stats).value <==> exists i :: 0 <= i < |stats| && Labelled(stats[i], tag)
    ensures tag in LabelIndex(stats).value ==>
      exists i :: 0 <= i < |stats| && Labelled(stats[i], tag) &&
        LabelIndex(stats).value[tag] == At(stats[i].fields, "value", JNull) &&
        forall j :: i < j < |stats| ==> !Labelled(stats[j], tag)
    decreases |stats|
  {
    if stats != [] {
      var p := stats[..|stats| - 1];
      var last := stats[|stats| - 1];
      LabelIndexLookup(p, tag);
      assert forall i :: 0 <= i < |p| ==> p[i] == stats[i];
      var index := LabelIndex(stats).value;
      if Labelled(last, tag) {
        assert index[tag] == At(last.fields, "value", JNull);
        var i := |stats| - 1;
        assert Labelled(stats[i], tag) && index[tag] == At(stats[i].fields, "value", JNull);
      } else {
        assert tag in index <==> tag in LabelIndex(p).value;
        if tag in LabelIndex(p).value {
          assert index[tag] == LabelIndex(p).value[tag];
          var i :| 0 <= i < |p| && Labelled(p[i], tag) &&
            LabelIndex(p).value[tag] == At(p[i].fields, "value", JNull) &&
            forall j :: i < j < |p| ==> !Labelled(p[j], tag);
          assert Labelled(stats[i], tag) && index[tag] == At(stats[i].fields, "value", JNull);
          assert forall j :: i < j < |stats| ==> !Labelled(stats[j], tag);
        }
      }
    }
  }

  /** A counter of the statistics: `_safe_int(stats_dict.get(tag))` for a label `tag`. */
  function Counter(index: map<string, Json>, tag: string): (r: Option<int>)
    ensures tag !in index ==> r == None
    ensures tag in index ==> r == SafeInt(index[tag])
  {
    SafeInt(At(index, tag, JNull))
  }

  /** A counter is None when no entry carries its tag, and otherwise `_safe_int` of the value
    * of the last entry carrying it. */
  lemma CounterOfStatistics(stats: seq<Json>, tag: string)
    requires LabelIndex(stats).Ok?
    ensures (forall i :: 0 <= i < |stats| ==> !Labelled(stats[i], tag)) ==>
      Counter(LabelIndex(stats).value, tag) == None
    ensures forall i :: 0 <= i < |stats| && Labelled(stats[i], tag) && LastLabelled(stats, i, tag) ==>
      Counter(LabelIndex(stats).value, tag) == SafeInt(At(stats[i].fields, "value", JNull))
  {
    LabelIndexLookup(stats, tag);
  }

  /** `MatchStats(...)` for one team's entry: the counters through `_safe_int`, ball possession
    * and pass percentage copied as they are. */
  function TeamStatsOf(teamStat: Json): (r: PyResult<MatchStats>)
    ensures !teamStat.JDict? ==> r == Raise(AttributeError)
    ensures r.Ok? ==>
      var f := teamStat.fields;
      var stats := Elements(At(f, "statistics", EmptyList));
      stats.Ok? && LabelIndex(stats.value).Ok? &&
      var index := LabelIndex(stats.value).value;
      && r.value.shotsOnGoal == Counter(index, "Shots on Goal")
      && r.value.shotsOffGoal == Counter(index, "Shots off Goal")
      && r.value.totalShots == Counter(index, "Total Shots")
      && r.value.blockedShots == Counter(index, "Blocked Shots")
      && r.value.shotsInsideBox == Counter(index, "Shots insidebox")
      && r.value.shotsOutsideBox == Counter(index, "Shots outsidebox")
      && r.value.fouls == Counter(index, "Fouls")
      && r.value.cornerKicks == Counter(index, "Corner Kicks")
      && r.value.offsides == Counter(index, "Offsides")
      && r.value.yellowCards == Counter(index, "Yellow Cards")
      && r.value.redCards == Counter(index, "Red Cards")
      && r.value.goalkeeperSaves == Counter(index, "Goalkeeper Saves")
      && r.value.totalPasses == Counter(index, "Total passes")
      && r.value.passesAccurate == Counter(index, "Passes accurate")
      && OptStrField(At(index, "Ball Possession", JNull)) == Ok(r.value.ballPossession)
      && OptStrField(At(index, "Passes %", JNull)) == Ok(r.value.passesPercentage)
    ensures r.Ok? ==>
      var team := Fields(At(teamStat.fields, "team", EmptyDict));
      team.Ok? && IntField(At(team.value, "id", JNull)) == Ok(r.value.teamId) &&
      StrField(At(team.value, "name", JNull)) == Ok(r.value.teamName)
  {
    var f :- Fields(teamStat);
    var info := At(f, "team", EmptyDict);
    var stats :- Elements(At(f, "statistics", EmptyList));
    var index :- LabelIndex(stats);
    var team :- Fields(info);
    var teamId :- IntField(At(team, "id", JNull));
    var teamName :- StrField(At(team, "name", JNull));
    var possession :- OptStrField(At(index, "Ball Possession", JNull));
    var passes :- OptStrField(At(index, "Passes %", JNull));
    Ok(MatchStats(teamId, teamName,
      Counter(index, "Shots on Goal"), Counter(index, "Shots off Goal"), Counter(index, "Total Shots"),
      Counter(index, "Blocked Shots"), Counter(index, "Shots insidebox"), Counter(index, "Shots outsidebox"),
      Counter(index, "Fouls"), Counter(index, "Corner Kicks"), Counter(index, "Offsides"),
      possession, Counter(index, "Yellow Cards"), Counter(index, "Red Cards"),
      Counter(index, "Goalkeeper Saves"), Counter(index, "Total passes"), Counter(index, "Passes accurate"),
      passes))
  }

  /** One more entry with a string label sets that label. */
  lemma LabelIndexSnoc(stats: seq<Json>, x: Json)
    requires LabelIndex(stats).Ok? && x.JDict? && At(x.fields, "type", JNull).JStr?
    ensures LabelIndex(stats + [x]) ==
      Ok(LabelIndex(stats).value[At(x.fields, "type", JNull).s := At(x.fields, "value", JNull)])
  {
    assert (stats + [x])[..|stats|] == stats;
  }

  /** A value that is not an integer literal, such as "45%", is kept as the provider's string
    * under "Ball Possession", where a counter label turns the same value into None. */
  lemma PossessionKeptRaw(v: string)
    requires IntLiteral(v) == None
    ensures var stats := [JDict(map["type" := JStr("Ball Possession"), "value" := JStr(v)]),
                          JDict(map["type" := JStr("Fouls"), "value" := JStr(v)])];
      LabelIndex(stats).Ok? &&
      OptStrField(At(LabelIndex(stats).value, "Ball Possession", JNull)) == Ok(Some(v)) &&
      Counter(LabelIndex(stats).value, "Fouls") == None
  {
    var a := JDict(map["type" := JStr("Ball Possession"), "value" := JStr(v)]);
    var b := JDict(map["type" := JStr("Fouls"), "value" := JStr(v)]);
    assert At(a.fields, "type", JNull) == JStr("Ball Possession") && At(a.fields, "value", JNull) == JStr(v);
    assert At(b.fields, "type", JNull) == JStr("Fouls") && At(b.fields, "value", JNull) == JStr(v);
    TwoLabels(a, b);
    var both := map["Ball Possession" := JStr(v)]["Fouls" := JStr(v)];
    assert both["Ball Possession"] == JStr(v) && both["Fouls"] == JStr(v);
  }

  /** The index of two labelled entries. */
  lemma TwoLabels(a: Json, b: Json)
    requires a.JDict? && At(a.fields, "type", JNull).JStr?
    requires b.JDict? && At(b.fields, "type", JNull).JStr?
    ensures LabelIndex([a, b]) ==
      Ok(map[At(a.fields, "type", JNull).s := At(a.fields, "value", JNull)]
            [At(b.fields, "type", JNull).s := At(b.fields, "value", JNull)])
  {
    LabelIndexSnoc([], a);
    assert [] + [a] == [a];
    LabelIndexSnoc([a], b);
    assert [a] + [b] == [a, b];
  }

  /** The loop building one MatchStats per team entry. */
  method CollectTeamStats(entries: seq<Json>) returns (r: PyResult<seq<MatchStats>>)
    ensures r == MapR(TeamStatsOf, entries)
  {
    var out: seq<MatchStats> := [];
    var i := 0;
    while i < |entries|
      invariant 0 <= i <= |entries|
      invariant MapR(TeamStatsOf, entries[..i]) == Ok(out)
    {
      assert entries[..i + 1][..i] == entries[..i];
      var s := TeamStatsOf(entries[i]);
      if s.Raise? {
        MapRPrefixRaise(TeamStatsOf, entries, i + 1);
        return Raise(s.error);
      }
      out := out + [s.value];
      i := i + 1;
    }
    assert entries[..i] == entries;
    r := Ok(out);
  }

  // ---------------------------------------------------------------------------------------------
  // get_match_by_id

  /** The first instant `datetime.fromtimestamp` accepts in UTC, 0001-01-02T00:00:00: it also
    * looks one day back to detect a fold, and that day must still be in year 1. */
  const MinTimestamp := -62135510400
  /** The last instant of year 9999 in UTC, 9999-12-31T23:59:59. */
  const MaxTimestamp := 253402300799

  /** `datetime.fromtimestamp(t)`: an int (or a bool) between the two bounds is an instant, one
    * outside them is out of range, and anything else is a TypeError. The instant is kept as
    * the timestamp itself. */
  function FromTimestamp(x: Json): (r: PyResult<int>)
    ensures r.Ok? <==> AsNumber(x).Some? && MinTimestamp <= AsNumber(x).value <= MaxTimestamp
    ensures r.Ok? ==> r.value == AsNumber(x).value
    ensures r.Raise? ==> (r.error == TypeError <==> AsNumber(x).None?)
    ensures r.Raise? ==> (r.error == ValueError <==> AsNumber(x).Some?)
  {
    match AsNumber(x)
    case Some(n) => if MinTimestamp <= n <= MaxTimestamp then Ok(n) else Raise(ValueError)
    case None => Raise(TypeError)
  }

  /** A `TeamBase` from a `teams.home` / `teams.away` object (`country` is always ""). */
  function SideOf(teams: map<string, Json>, side: string): (r: PyResult<TeamBase>)
    ensures r.Ok? ==> r.value.country == ""
  {
    var t :- Fields(At(teams, side, EmptyDict));
    MakeTeamBase(At(t, "id", JNull), At(t, "name", JNull), JStr(""), At(t, "logo", JNull))
  }

  /** The `MatchDetail(...)` call, its arguments evaluated in order after the goal and
    * statistics loops. */
  function MatchDetailOf(fixture: Json, league: Json, teams: Json, goals: Json,
                         matchGoals: seq<MatchGoal>, matchStats: seq<MatchStats>): (r: PyResult<MatchDetail>)
    ensures r.Ok? ==> r.value.goals == matchGoals && r.value.statistics == matchStats
    ensures r.Ok? ==> fixture.JDict? && r.value.fixture.date == r.value.fixture.timestamp
    ensures r.Ok? ==> MinTimestamp <= r.value.fixture.timestamp <= MaxTimestamp
    ensures r.Ok? ==> At(fixture.fields, "timezone", JStr("UTC")) == JStr(r.value.fixture.timezone)
  {
    var fx :- Fields(fixture);
    var ts := At(fx, "timestamp", JNull);
    var date :- FromTimestamp(ts);
    var status :- Fields(At(fx, "status", EmptyDict));
    var lg :- Fields(league);
    var tm :- Fields(teams);
    var home :- SideOf(tm, "home");
    var away :- SideOf(tm, "away");
    var gl :- Fields(goals);
    var score :- MakeMatchScore(At(gl, "home", JNull), At(gl, "away", JNull));
    var venue :- Fields(At(fx, "venue", EmptyDict));
    var id :- IntField(At(fx, "id", JNull));
    var referee :- OptStrField(At(fx, "referee", JNull));
    var timezone :- StrField(At(fx, "timezone", JStr("UTC")));
    var timestamp := date;  // the int field accepts what `fromtimestamp` accepted
    var statusLong :- StrField(At(status, "long", JStr("")));
    var statusShort :- StrField(At(status, "short", JStr("")));
    var elapsed :- OptIntField(At(status, "elapsed", JNull));
    var leagueId :- IntField(At(lg, "id", JNull));
    var leagueName :- StrField(At(lg, "name", JNull));
    var leagueCountry :- StrField(At(lg, "country", JNull));
    var leagueLogo :- OptStrField(At(lg, "logo", JNull));
    var leagueFlag :- OptStrField(At(lg, "flag", JNull));
    var season :- IntField(At(lg, "season", JNull));
    var round :- StrField(At(lg, "round", JNull));
    var venueId :- OptIntField(At(venue, "id", JNull));
    var venueName :- OptStrField(At(venue, "name", JNull));
    var venueCity :- OptStrField(At(venue, "city", JNull));
    Ok(MatchDetail(
      Fixture(id, referee, timezone, date, timestamp, statusLong, statusShort, elapsed),
      League(leagueId, leagueName, leagueCountry, leagueLogo, leagueFlag, season, round),
      home, away, score, venueId, venueName, venueCity, matchGoals, matchStats))
  }

  function FixtureRequest(matchId: int): Request {
    Request("fixtures", map["id" := JInt(matchId)])
  }

  function StatisticsRequest(matchId: int): Request {
    Request("fixtures/statistics", map["fixture" := JInt(matchId)])
  }

  function EventsRequest(matchId: int): Request {
    Request("fixtures/events", map["fixture" := JInt(matchId)])
  }

  /** The parts of `get_match_by_id` after the two parallel requests. */
  function MatchFromParts(item: map<string, Json>, statsData: Json, eventsData: Json): (r: PyResult<MatchDetail>)
    ensures r.Ok? ==>
      var events := ResponseItems(eventsData);
      events.Ok? && FilterMapR(GoalEventOf, events.value) == Ok(r.value.goals)
    ensures r.Ok? ==>
      var entries := ResponseItems(statsData);
      entries.Ok? && MapR(TeamStatsOf, entries.value) == Ok(r.value.statistics)
  {
    var events :- ResponseItems(eventsData);
    var goals :- FilterMapR(GoalEventOf, events);
    var entries :- ResponseItems(statsData);
    var stats :- MapR(TeamStatsOf, entries);
    MatchDetailOf(At(item, "fixture", EmptyDict), At(item, "league", EmptyDict),
                  At(item, "teams", EmptyDict), At(item, "goals", EmptyDict), goals, stats)
  }

  /** `get_match_by_id`: None on an empty fixture response, before the statistics and events
    * requests; otherwise both are made and the detail is assembled. */
  function GetMatchById(api: Request -> Reply, matchId: int): (h: Fetched<Option<MatchDetail>>)
    ensures h.calls == [FixtureRequest(matchId)] || h.calls == [FixtureRequest(matchId), StatisticsRequest(matchId), EventsRequest(matchId)]
    ensures h.result.Ok? && h.result.value.Some? ==>
      h.calls == [FixtureRequest(matchId), StatisticsRequest(matchId), EventsRequest(matchId)]
    ensures h.result.Ok? && h.result.value.Some? ==>
      var data := ServiceReply(api(FixtureRequest(matchId)));
      data.Ok? && Get(data.value, "response", JNull).Ok? &&
      var resp := Get(data.value, "response", JNull).value;
      Truthy(resp) && Nth(resp, 0).Ok? && Nth(resp, 0).value.JDict? &&
      var stats := ServiceReply(api(StatisticsRequest(matchId)));
      var events := ServiceReply(api(EventsRequest(matchId)));
      stats.Ok? && events.Ok? &&
      MatchFromParts(Nth(resp, 0).value.fields, stats.value, events.value) == Ok(h.result.value.value)
  {
    var q := FixtureRequest(matchId);
    var data := ServiceReply(api(q));
    if data.Raise? then Fetched(Raise(data.error), [q])
    else
      var resp := Get(data.value, "response", JNull);
      if resp.Raise? then Fetched(Raise(resp.error), [q])
      else if !Truthy(resp.value) then Fetched(Ok(None), [q])
      else
        var item := Nth(resp.value, 0);
        if item.Raise? then Fetched(Raise(item.error), [q])
        else
          var f := Fields(item.value);
          if f.Raise? then Fetched(Raise(f.error), [q])
          else
            var calls := [q, StatisticsRequest(matchId), EventsRequest(matchId)];
            var statsData := ServiceReply(api(StatisticsRequest(matchId)));
            var eventsData := ServiceReply(api(EventsRequest(matchId)));
            if statsData.Raise? then Fetched(Raise(statsData.error), calls)
            else if eventsData.Raise? then Fetched(Raise(eventsData.error), calls)
            else
              var m := MatchFromParts(f.value, statsData.value, eventsData.value);
              Fetched(if m.Ok? then Ok(Some(m.value)) else Raise(m.error), calls)
  }

  /** An empty or failed fixture request gives None after that one request. */
  lemma MatchByIdNone(api: Request -> Reply, matchId: int)
    requires var reply := api(FixtureRequest(matchId));
      !reply.Reply? || !IsSuccess(reply.status) || reply.body == Some(EmptyResponse)
    ensures GetMatchById(api, matchId) == Fetched(Ok(None), [FixtureRequest(matchId)])
  {
  }

  /** The goals of a detail are the goal events of the events response, in order. */
  lemma MatchGoalsAreGoalEvents(api: Request -> Reply, matchId: int)
    requires GetMatchById(api, matchId).result.Ok? && GetMatchById(api, matchId).result.value.Some?
    ensures var events := ResponseItems(ServiceReply(api(EventsRequest(matchId))).value).value;
      (forall i :: 0 <= i < |events| ==> events[i].JDict?) ==>
        MapR(GoalOf, Filter(IsGoalEvent, events)) == Ok(GetMatchById(api, matchId).result.value.value.goals)
  {
    var events := ResponseItems(ServiceReply(api(EventsRequest(matchId))).value).value;
    if forall i :: 0 <= i < |events| ==> events[i].JDict? {
      GoalsAreGoalEvents(events);
    }
  }
}
