/** The backend's pydantic models (app/models/team.py and app/models/match.py) and the validation
  * their constructors perform on the values the service passes them: a required `int` field takes
  * an int (a bool counts as 0 or 1), a required `str` field a string, a `bool` field a bool or the
  * ints 0 and 1, and an `Optional[...]` field also takes None. Anything else is a ValidationError. */
module Models {
  import opened Wrappers
  import opened PyJson

  /** An `int` field. */
  function IntField(x: Json): (r: PyResult<int>)
    ensures r.Ok? <==> x.JInt? || x.JBool?
    ensures r.Ok? ==> Some(r.value) == AsNumber(x)
    ensures r.Raise? ==> r.error == ValidationError
  {
    match AsNumber(x)
    case Some(n) => Ok(n)
    case None => Raise(ValidationError)
  }

  /** A `str` field. */
  function StrField(x: Json): (r: PyResult<string>)
    ensures r.Ok? <==> x.JStr?
    ensures r.Ok? ==> r.value == x.s
    ensures r.Raise? ==> r.error == ValidationError
  {
    if x.JStr? then Ok(x.s) else Raise(ValidationError)
  }

  /** A `bool` field. */
  function BoolField(x: Json): (r: PyResult<bool>)
    ensures r.Ok? <==> x.JBool? || x == JInt(0) || x == JInt(1)
    ensures x.JBool? ==> r == Ok(x.b)
    ensures x.JInt? && r.Ok? ==> r.value == (x.i == 1)
    ensures r.Raise? ==> r.error == ValidationError
  {
    match x
    case JBool(b) => Ok(b)
    case JInt(i) => if i == 0 || i == 1 then Ok(i == 1) else Raise(ValidationError)
    case _ => Raise(ValidationError)
  }

  /** An `Optional[int]` field. */
  function OptIntField(x: Json): (r: PyResult<Option<int>>)
    ensures x.JNull? ==> r == Ok(None)
    ensures !x.JNull? ==> (r.Ok? <==> IntField(x).Ok?)
    ensures !x.JNull? && r.Ok? ==> r.value == Some(IntField(x).value)
    ensures r.Raise? ==> r.error == ValidationError
  {
    if x.JNull? then Ok(None)
    else
      var n :- IntField(x);
      Ok(Some(n))
  }

  /** An `Optional[str]` field. */
  function OptStrField(x: Json): (r: PyResult<Option<string>>)
    ensures x.JNull? ==> r == Ok(None)
    ensures !x.JNull? ==> (r.Ok? <==> x.JStr?)
    ensures x.JStr? ==> r == Ok(Some(x.s))
    ensures r.Raise? ==> r.error == ValidationError
  {
    if x.JNull? then Ok(None)
    else
      var t :- StrField(x);
      Ok(Some(t))
  }

  /** The JSON the provider sends for an optional int. */
  function OptIntJson(o: Option<int>): (x: Json)
    ensures OptIntField(x) == Ok(o)
  {
    if o.Some? then JInt(o.value) else JNull
  }

  /** The JSON the provider sends for an optional string. */
  function OptStrJson(o: Option<string>): (x: Json)
    ensures OptStrField(x) == Ok(o)
  {
    if o.Some? then JStr(o.value) else JNull
  }

  datatype TeamBase = TeamBase(id: int, name: string, country: string, logo: Option<string>)

  /** `TeamBase(id=..., name=..., country=..., logo=...)`. */
  function MakeTeamBase(id: Json, name: Json, country: Json, logo: Json): (r: PyResult<TeamBase>)
    ensures r.Ok? <==>
      IntField(id).Ok? && StrField(name).Ok? && StrField(country).Ok? && OptStrField(logo).Ok?
    ensures r.Ok? ==>
      r.value == TeamBase(IntField(id).value, name.s, country.s, OptStrField(logo).value)
  {
    var i :- IntField(id);
    var n :- StrField(name);
    var c :- StrField(country);
    var l :- OptStrField(logo);
    Ok(TeamBase(i, n, c, l))
  }

  datatype Team = Team(
    id: int, name: string, country: string, logo: Option<string>,
    founded: Option<int>, national: bool, code: Option<string>)

  datatype Venue = Venue(
    id: Option<int>, name: Option<string>, address: Option<string>, city: Option<string>,
    capacity: Option<int>, surface: Option<string>, image: Option<string>)

  /** `TeamDetail`: a team and the `venue_*` fields. */
  datatype TeamDetail = TeamDetail(team: Team, venue: Venue)

  datatype Player = Player(
    id: int, name: string, firstname: Option<string>, lastname: Option<string>, age: Option<int>,
    birthDate: Option<string>, birthPlace: Option<string>, birthCountry: Option<string>,
    nationality: Option<string>, height: Option<string>, weight: Option<string>,
    injured: bool, photo: Option<string>)

  datatype MatchScore = MatchScore(home: Option<int>, away: Option<int>)

  /** `MatchScore(home=..., away=...)`. */
  function MakeMatchScore(home: Json, away: Json): (r: PyResult<MatchScore>)
    ensures r.Ok? <==> OptIntField(home).Ok? && OptIntField(away).Ok?
    ensures r.Ok? ==> r.value == MatchScore(OptIntField(home).value, OptIntField(away).value)
  {
    var h :- OptIntField(home);
    var a :- OptIntField(away);
    Ok(MatchScore(h, a))
  }

  /** `MatchGoal`; `kind` is the source's `type` field. */
  datatype MatchGoal = MatchGoal(
    timeElapsed: int, teamId: int, teamName: string, playerId: int, playerName: string,
    assistId: Option<int>, assistName: Option<string>, kind: string)

  datatype MatchStats = MatchStats(
    teamId: int, teamName: string,
    shotsOnGoal: Option<int>, shotsOffGoal: Option<int>, totalShots: Option<int>,
    blockedShots: Option<int>, shotsInsideBox: Option<int>, shotsOutsideBox: Option<int>,
    fouls: Option<int>, cornerKicks: Option<int>, offsides: Option<int>,
    ballPossession: Option<string>, yellowCards: Option<int>, redCards: Option<int>,
    goalkeeperSaves: Option<int>, totalPasses: Option<int>, passesAccurate: Option<int>,
    passesPercentage: Option<string>)

  /** The fixture part of `MatchDetail`. `date` is the instant of `timestamp`, in seconds. */
  datatype Fixture = Fixture(
    id: int, referee: Option<string>, timezone: string, date: int, timestamp: int,
    statusLong: string, statusShort: string, statusElapsed: Option<int>)

  datatype League = League(
    id: int, name: string, country: string, logo: Option<string>, flag: Option<string>,
    season: int, round: string)

  datatype MatchDetail = MatchDetail(
    fixture: Fixture, league: League, homeTeam: TeamBase, awayTeam: TeamBase, score: MatchScore,
    venueId: Option<int>, venueName: Option<string>, venueCity: Option<string>,
    goals: seq<MatchGoal>, statistics: seq<MatchStats>)
}
