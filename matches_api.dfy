/** The fixtures endpoints (app/api/matches.py), which call the provider directly: the query
  * parameters each handler builds, and the way each handler turns the provider's answer and the
  * exceptions on the way into its own answer or HTTP error. */
module MatchesApi {
  import opened Wrappers
  import opened PyJson
  import opened Upstream
  import Text

  const TimeoutDetail := "Timeout lors de l'appel à l'API Football"
  const ConnectionDetail := "Erreur de connexion à l'API Football"
  const ServerErrorDetail := "Erreur interne du serveur"
  const UnexpectedFormat := "Format de réponse API inattendu"
  const LiveFailed := "Erreur lors de la récupération des matchs en cours"
  const BadDate := "Format de date invalide. Utilisez YYYY-MM-DD"
  const ByDateFailed := "Erreur lors de la récupération des matchs"
  const DetailsFailed := "Erreur lors de la récupération du match"

  /** The default `limit` of the recent and upcoming endpoints. */
  const DefaultLimit := 10

  /** `if x:` on an optional int query parameter: None and 0 are false. */
  predicate IntSet(x: Option<int>) {
    x.Some? && x.value != 0
  }

  /** `if x:` on an optional string query parameter: None and "" are false. */
  predicate StrSet(x: Option<string>) {
    x.Some? && x.value != ""
  }

  /** The keys an optional parameter adds. */
  function IntKey(x: Option<int>, k: string): set<string> {
    if IntSet(x) then {k} else {}
  }

  function StrKey(x: Option<string>, k: string): set<string> {
    if StrSet(x) then {k} else {}
  }

  /** Every key `get_matches` may send. */
  const MatchKeys: set<string> := {"league", "season", "last", "next", "from", "to", "team", "status"}

  /** What `get_matches` sends: league and season always, each filter only when it is truthy,
    * under the provider's names (`from_date` as "from", `to_date` as "to"). */
  predicate MatchParamsSpec(p: map<string, Json>, league: int, season: int, last: Option<int>,
                            next: Option<int>, fromDate: Option<string>, toDate: Option<string>,
                            team: Option<int>, status: Option<string>)
  {
    p.Keys <= MatchKeys &&
    "league" in p && p["league"] == JInt(league) && "season" in p && p["season"] == JInt(season) &&
    ("last" in p <==> IntSet(last)) && (IntSet(last) ==> p["last"] == JInt(last.value)) &&
    ("next" in p <==> IntSet(next)) && (IntSet(next) ==> p["next"] == JInt(next.value)) &&
    ("from" in p <==> StrSet(fromDate)) && (StrSet(fromDate) ==> p["from"] == JStr(fromDate.value)) &&
    ("to" in p <==> StrSet(toDate)) && (StrSet(toDate) ==> p["to"] == JStr(toDate.value)) &&
    ("team" in p <==> IntSet(team)) && (IntSet(team) ==> p["team"] == JInt(team.value)) &&
    ("status" in p <==> StrSet(status)) && (StrSet(status) ==> p["status"] == JStr(status.value))
  }

  /** The value an integer filter sends: present only when it is truthy. */
  function IntArg(x: Option<int>): (v: Option<Json>)
    ensures v.Some? <==> IntSet(x)
    ensures v.Some? ==> v.value == JInt(x.value)
  {
    if IntSet(x) then Some(JInt(x.value)) else None
  }

  /** The value a string filter sends: present only when it is truthy. */
  function StrArg(x: Option<string>): (v: Option<Json>)
    ensures v.Some? <==> StrSet(x)
    ensures v.Some? ==> v.value == JStr(x.value)
  {
    if StrSet(x) then Some(JStr(x.value)) else None
  }

  /** `if value: params[key] = value`, on values. */
  function With(p: map<string, Json>, key: string, v: Option<Json>): map<string, Json> {
    if v.Some? then p[key := v.value] else p
  }

  /** A lookup after a conditional insert: the inserted value under its key, the old entry under
    * any other key. */
  lemma WithLookup(p: map<string, Json>, key: string, v: Option<Json>, k: string)
    ensures k in With(p, key, v) <==> (k == key && v.Some?) || k in p
    ensures k in With(p, key, v) ==> With(p, key, v)[k] == if k == key && v.Some? then v.value else p[k]
  {
  }

  /** The parameters `get_matches` builds: league and season, then the six filters in order. */
  function MatchParamsOf(league: int, season: int, last: Option<int>, next: Option<int>,
                         fromDate: Option<string>, toDate: Option<string>, team: Option<int>,
                         status: Option<string>): map<string, Json>
  {
    var p0 := map["league" := JInt(league), "season" := JInt(season)];
    var p1 := With(p0, "last", IntArg(last));
    var p2 := With(p1, "next", IntArg(next));
    var p3 := With(p2, "from", StrArg(fromDate));
    var p4 := With(p3, "to", StrArg(toDate));
    var p5 := With(p4, "team", IntArg(team));
    With(p5, "status", StrArg(status))
  }

  /** One `if value: api_params[key] = value` for an integer filter. */
  method PutInt(p: map<string, Json>, key: string, x: Option<int>) returns (r: map<string, Json>)
    ensures r == With(p, key, IntArg(x))
  {
    r := p;
    if IntSet(x) {
      r := r[key := JInt(x.value)];
    }
  }

  /** One `if value: api_params[key] = value` for a string filter. */
  method PutStr(p: map<string, Json>, key: string, x: Option<string>) returns (r: map<string, Json>)
    ensures r == With(p, key, StrArg(x))
  {
    r := p;
    if StrSet(x) {
      r := r[key := JStr(x.value)];
    }
  }

  /** The chain of conditional inserts into `api_params`. */
  method MatchParams(league: int, season: int, last: Option<int>, next: Option<int>,
                     fromDate: Option<string>, toDate: Option<string>, team: Option<int>,
                     status: Option<string>) returns (p: map<string, Json>)
    ensures p == MatchParamsOf(league, season, last, next, fromDate, toDate, team, status)
    ensures MatchParamsSpec(p, league, season, last, next, fromDate, toDate, team, status)
  {
    p := map["league" := JInt(league), "season" := JInt(season)];
    p := PutInt(p, "last", last);
    p := PutInt(p, "next", next);
    p := PutStr(p, "from", fromDate);
    p := PutStr(p, "to", toDate);
    p := PutInt(p, "team", team);
    p := PutStr(p, "status", status);
    MatchParamsMeetSpec(league, season, last, next, fromDate, toDate, team, status);
  }

  /** Each key holds the value of the last insert under it: a key is sent when it is league or
    * season or the name of a truthy filter, and then with that filter's value. */
  lemma MatchParamsLookup(league: int, season: int, last: Option<int>, next: Option<int>,
                          fromDate: Option<string>, toDate: Option<string>, team: Option<int>,
                          status: Option<string>, k: string)
    ensures var p := MatchParamsOf(league, season, last, next, fromDate, toDate, team, status);
      (k in p <==> k == "league" || k == "season" || (k == "last" && IntSet(last)) ||
                   (k == "next" && IntSet(next)) || (k == "from" && StrSet(fromDate)) ||
                   (k == "to" && StrSet(toDate)) || (k == "team" && IntSet(team)) ||
                   (k == "status" && StrSet(status))) &&
      (k in p ==>
         p[k] == (if k == "status" && StrSet(status) then JStr(status.value)
                  else if k == "team" && IntSet(team) then JInt(team.value)
                  else if k == "to" && StrSet(toDate) then JStr(toDate.value)
                  else if k == "from" && StrSet(fromDate) then JStr(fromDate.value)
                  else if k == "next" && IntSet(next) then JInt(next.value)
                  else if k == "last" && IntSet(last) then JInt(last.value)
                  else if k == "season" then JInt(season)
                  else JInt(league)))
  {
    var p0 := map["league" := JInt(league), "season" := JInt(season)];
    var p1 := With(p0, "last", IntArg(last));
    var p2 := With(p1, "next", IntArg(next));
    var p3 := With(p2, "from", StrArg(fromDate));
    var p4 := With(p3, "to", StrArg(toDate));
    var p5 := With(p4, "team", IntArg(team));
    WithLookup(p0, "last", IntArg(last), k);
    WithLookup(p1, "next", IntArg(next), k);
    WithLookup(p2, "from", StrArg(fromDate), k);
    WithLookup(p3, "to", StrArg(toDate), k);
    WithLookup(p4, "team", IntArg(team), k);
    WithLookup(p5, "status", StrArg(status), k);
  }

  /** The eight parameter names are distinct. */
  lemma MatchKeysDistinct()
    ensures "league" != "season" && "league" != "last" && "league" != "next" && "league" != "from" && "league" != "to" && "league" != "team" && "league" != "status" &&
      "season" != "last" && "season" != "next" && "season" != "from" && "season" != "to" && "season" != "team" && "season" != "status" &&
      "last" != "next" && "last" != "from" && "last" != "to" && "last" != "team" && "last" != "status" &&
      "next" != "from" && "next" != "to" && "next" != "team" && "next" != "status" &&
      "from" != "to" && "from" != "team" && "from" != "status" &&
      "to" != "team" && "to" != "status" &&
      "team" != "status"
  {
  }

  /** The parameters built meet the description of what `get_matches` sends. */
  lemma MatchParamsMeetSpec(league: int, season: int, last: Option<int>, next: Option<int>,
                            fromDate: Option<string>, toDate: Option<string>, team: Option<int>,
                            status: Option<string>)
    ensures MatchParamsSpec(MatchParamsOf(league, season, last, next, fromDate, toDate, team, status),
                            league, season, last, next, fromDate, toDate, team, status)
  {
    MatchKeysDistinct();
    var p := MatchParamsOf(league, season, last, next, fromDate, toDate, team, status);
    forall k | k in p
      ensures k in MatchKeys
    {
      MatchParamsLookup(league, season, last, next, fromDate, toDate, team, status, k);
    }
    MatchParamsLookup(league, season, last, next, fromDate, toDate, team, status, "league");
    MatchParamsLookup(league, season, last, next, fromDate, toDate, team, status, "season");
    MatchParamsLookup(league, season, last, next, fromDate, toDate, team, status, "last");
    MatchParamsLookup(league, season, last, next, fromDate, toDate, team, status, "next");
    MatchParamsLookup(league, season, last, next, fromDate, toDate, team, status, "from");
    MatchParamsLookup(league, season, last, next, fromDate, toDate, team, status, "to");
    MatchParamsLookup(league, season, last, next, fromDate, toDate, team, status, "team");
    MatchParamsLookup(league, season, last, next, fromDate, toDate, team, status, "status");
  }

  /** The parameters are determined by the arguments. */
  lemma MatchParamsUnique(p: map<string, Json>, q: map<string, Json>, league: int, season: int,
                          last: Option<int>, next: Option<int>, fromDate: Option<string>,
                          toDate: Option<string>, team: Option<int>, status: Option<string>)
    requires MatchParamsSpec(p, league, season, last, next, fromDate, toDate, team, status)
    requires MatchParamsSpec(q, league, season, last, next, fromDate, toDate, team, status)
    ensures p == q
  {
    assert p.Keys == q.Keys;
    forall k | k in p
      ensures p[k] == q[k]
    {
      assert k in MatchKeys;
    }
  }

  /** What the live endpoint sends: `live=all`, and the league when it is truthy. */
  predicate LiveParamsSpec(p: map<string, Json>, league: Option<int>) {
    p.Keys == {"live"} + IntKey(league, "league") &&
    p["live"] == JStr("all") &&
    (IntSet(league) ==> p["league"] == JInt(league.value))
  }

  method LiveParams(league: Option<int>) returns (p: map<string, Json>)
    ensures LiveParamsSpec(p, league)
  {
    p := map["live" := JStr("all")];
    if IntSet(league) {
      p := p["league" := JInt(league.value)];
    }
  }

  /** What the by-date endpoint sends: the date, and the league when it is truthy. */
  predicate DateParamsSpec(p: map<string, Json>, date: string, league: Option<int>) {
    p.Keys == {"date"} + IntKey(league, "league") &&
    p["date"] == JStr(date) &&
    (IntSet(league) ==> p["league"] == JInt(league.value))
  }

  method DateParams(date: string, league: Option<int>) returns (p: map<string, Json>)
    ensures DateParamsSpec(p, date, league)
  {
    p := map["date" := JStr(date)];
    if IntSet(league) {
      p := p["league" := JInt(league.value)];
    }
  }

  // ---------------------------------------------------------------- the provider's answer

  /** `requests.get(...)`, the status check and `response.json()`, inside the handler's `try`.
    * A body that is not JSON raises the `requests` decoding error, which is a
    * `RequestException`. */
  function FixturesData(reply: Reply): (r: TryResult<Json>)
    ensures r.Ok? <==> reply.Reply? && reply.status == 200 && reply.body.Some?
    ensures r.Ok? ==> r.value == reply.body.value
    ensures reply.TimedOut? ==> r == Raise(Py(RequestTimeout))
    ensures reply.ConnectionFailed? ==> r == Raise(Py(RequestFailure))
    ensures reply.Reply? && reply.status != 200 ==> r.Raise? && r.error.Http? && r.error.error.status == reply.status
    ensures reply.Reply? && reply.status == 200 && reply.body.None? ==> r == Raise(Py(RequestFailure))
  {
    match reply
    case TimedOut => Raise(Py(RequestTimeout))
    case ConnectionFailed => Raise(Py(RequestFailure))
    case Reply(status, body) =>
      if status != 200 then Raise(Http(HttpError(status, "Erreur API Football: " + Text.IntToString(status))))
      else if body.None? then Raise(Py(RequestFailure))
      else Ok(body.value)
  }

  /** `key in x`: a dict's keys, a list's items, a string's substrings; TypeError otherwise. */
  function PyIn(key: string, x: Json): (r: PyResult<bool>)
    ensures r.Ok? <==> x.JDict? || x.JList? || x.JStr?
    ensures x.JDict? ==> r == Ok(key in x.fields)
  {
    match x
    case JDict(m) => Ok(key in m)
    case JList(xs) => Ok(JStr(key) in xs)
    case JStr(s) => Ok(Text.Contains(s, key))
    case _ => Raise(TypeError)
  }

  /** The `try` of `get_matches` after the request: the "response" check and the log line's
    * `len(data['response'])`. */
  function MatchesBody(reply: Reply): (r: TryResult<Json>)
  {
    var data :- FixturesData(reply);
    var has :- Lift(PyIn("response", data));
    if !has then Raise(Http(HttpError(500, UnexpectedFormat)))
    else
      var listed :- Lift(Index(data, "response"));
      var n :- Lift(Len(listed));
      Ok(data)
  }

  /** A provider body `get_matches` returns: a dict whose "response" has a length. */
  predicate ListedBody(d: Json) {
    d.JDict? && "response" in d.fields && Len(d.fields["response"]).Ok?
  }

  /** The three `except` clauses of `get_matches`: Timeout, then any other RequestException,
    * then every other exception, the `HTTPException`s raised inside the `try` included. */
  function RequestsHandlers<T>(r: TryResult<T>): (s: Result<T, HttpError>)
    ensures r.Ok? <==> s.Ok?
    ensures r.Ok? ==> s.value == r.value
    ensures r == Raise(Py(RequestTimeout)) ==> s == Raise(HttpError(504, TimeoutDetail))
    ensures r == Raise(Py(RequestFailure)) ==> s == Raise(HttpError(503, ConnectionDetail))
    ensures r.Raise? && r.error != Py(RequestTimeout) && r.error != Py(RequestFailure) ==>
      s == Raise(HttpError(500, ServerErrorDetail))
  {
    match r
    case Ok(v) => Ok(v)
    case Raise(Py(RequestTimeout)) => Raise(HttpError(504, TimeoutDetail))
    case Raise(Py(RequestFailure)) => Raise(HttpError(503, ConnectionDetail))
    case Raise(_) => Raise(HttpError(500, ServerErrorDetail))
  }

  /** `get_matches`'s answer to one provider reply. */
  function MatchesAnswer(reply: Reply): (r: Result<Json, HttpError>)
    ensures r.Ok? <==> reply.Reply? && reply.status == 200 && reply.body.Some? && ListedBody(reply.body.value)
    ensures r.Ok? ==> r.value == reply.body.value
    ensures reply.TimedOut? ==> r == Raise(HttpError(504, TimeoutDetail))
    ensures reply.ConnectionFailed? ==> r == Raise(HttpError(503, ConnectionDetail))
    ensures reply.Reply? && reply.status == 200 && reply.body.None? ==> r == Raise(HttpError(503, ConnectionDetail))
    // the provider's own status and the missing "response" are not passed on: both are 500s
    ensures reply.Reply? && (reply.status != 200 || (reply.body.Some? && !ListedBody(reply.body.value))) ==>
      r == Raise(HttpError(500, ServerErrorDetail))
  {
    RequestsHandlers(MatchesBody(reply))
  }

  /** No answer of `get_matches` is a 4xx: the provider's 404 or 429 comes back as a 500. */
  lemma MatchesStatuses(reply: Reply)
    ensures MatchesAnswer(reply).Raise? ==> MatchesAnswer(reply).error.status in {500, 503, 504}
  {
  }

  /** `get_matches`: one request to "fixtures". */
  method GetMatches(api: Request -> Reply, league: int, season: int, last: Option<int>,
                    next: Option<int>, fromDate: Option<string>, toDate: Option<string>,
                    team: Option<int>, status: Option<string>) returns (h: Handled<Json>)
    ensures |h.calls| == 1 && h.calls[0].endpoint == "fixtures"
    ensures MatchParamsSpec(h.calls[0].params, league, season, last, next, fromDate, toDate, team, status)
    ensures h.result == MatchesAnswer(api(h.calls[0]))
  {
    var p := MatchParams(league, season, last, next, fromDate, toDate, team, status);
    var q := Request("fixtures", p);
    h := Handled(MatchesAnswer(api(q)), [q]);
  }

  /** The parameters `get_matches` builds when another handler calls it as a plain function with
    * `limitKey=limit`. FastAPI fills in query defaults only for a request it routes, so every other
    * filter keeps its `Query(None)` default object. That object is truthy, so `if next:` and the
    * other tests insert it: `shown(k)` is the value sent under `k` for it (its text form, which the
    * web framework's version decides and this model leaves open). */
  function DirectCallParams(league: int, season: int, limitKey: string, limit: int,
                            shown: string -> Json): (p: map<string, Json>)
    requires limitKey == "last" || limitKey == "next"
    ensures forall k :: k in p <==> k in MatchKeys && !(k == limitKey && limit == 0)
    ensures p["league"] == JInt(league) && p["season"] == JInt(season)
    ensures limit != 0 ==> p[limitKey] == JInt(limit)
    ensures forall k :: k in p && k !in {"league", "season", limitKey} ==> p[k] == shown(k)
  {
    var l, n, f, t, m, st := JInt(league), JInt(season), shown("from"), shown("to"), shown("team"), shown("status");
    if limitKey == "last" then
      if limit != 0 then
        map["league" := l, "season" := n, "last" := JInt(limit), "next" := shown("next"),
            "from" := f, "to" := t, "team" := m, "status" := st]
      else
        map["league" := l, "season" := n, "next" := shown("next"), "from" := f, "to" := t, "team" := m, "status" := st]
    else
      if limit != 0 then
        map["league" := l, "season" := n, "last" := shown("last"), "next" := JInt(limit),
            "from" := f, "to" := t, "team" := m, "status" := st]
      else
        map["league" := l, "season" := n, "last" := shown("last"), "from" := f, "to" := t, "team" := m, "status" := st]
  }

  /** What the direct call sends differs from what the routed endpoint with only `limitKey` set
    * sends: everything intended is sent, and the dates, the team, the status and the other of
    * last/next go out as well, even for a limit of 0. */
  lemma DirectCallSendsDefaults(league: int, season: int, limitKey: string, limit: int,
                                shown: string -> Json)
    requires limitKey == "last" || limitKey == "next"
    ensures var sent := DirectCallParams(league, season, limitKey, limit, shown);
      var intended := MatchParamsOf(league, season, if limitKey == "last" then Some(limit) else None,
                                    if limitKey == "next" then Some(limit) else None,
                                    None, None, None, None);
      var other := if limitKey == "last" then "next" else "last";
      intended.Keys <= sent.Keys &&
      other in sent && other !in intended && "from" in sent && "from" !in intended &&
      "to" in sent && "to" !in intended && "team" in sent && "team" !in intended &&
      "status" in sent && "status" !in intended
  {
    var last, next := if limitKey == "last" then Some(limit) else None, if limitKey == "next" then Some(limit) else None;
    MatchParamsMeetSpec(league, season, last, next, None, None, None, None);
  }

  /** `get_recent_matches` as written: one `fixtures` request with the parameters of the direct
    * call with `last=limit`. */
  method GetRecentMatchesAsWritten(api: Request -> Reply, league: int, season: int, limit: int,
                                   shown: string -> Json) returns (h: Handled<Json>)
    ensures h.calls == [Request("fixtures", DirectCallParams(league, season, "last", limit, shown))]
    ensures h.result == MatchesAnswer(api(h.calls[0]))
  {
    var p := DirectCallParams(league, season, "last", limit, shown);
    var q := Request("fixtures", p);
    h := Handled(MatchesAnswer(api(q)), [q]);
  }

  /** `get_upcoming_matches` as written: the direct call with `next=limit`. */
  method GetUpcomingMatchesAsWritten(api: Request -> Reply, league: int, season: int, limit: int,
                                     shown: string -> Json) returns (h: Handled<Json>)
    ensures h.calls == [Request("fixtures", DirectCallParams(league, season, "next", limit, shown))]
    ensures h.result == MatchesAnswer(api(h.calls[0]))
  {
    var p := DirectCallParams(league, season, "next", limit, shown);
    var q := Request("fixtures", p);
    h := Handled(MatchesAnswer(api(q)), [q]);
  }

  /** `get_recent_matches` as intended: `get_matches` with only `last=limit` set. */
  method GetRecentMatches(api: Request -> Reply, league: int, season: int, limit: int) returns (h: Handled<Json>)
    ensures |h.calls| == 1 && h.calls[0].endpoint == "fixtures"
    ensures h.calls[0].params.Keys == {"league", "season"} + (if limit != 0 then {"last"} else {})
    ensures limit != 0 ==> h.calls[0].params["last"] == JInt(limit)
    ensures h.result == MatchesAnswer(api(h.calls[0]))
  {
    h := GetMatches(api, league, season, Some(limit), None, None, None, None, None);
  }

  /** `get_upcoming_matches` as intended: `get_matches` with only `next=limit` set. */
  method GetUpcomingMatches(api: Request -> Reply, league: int, season: int, limit: int) returns (h: Handled<Json>)
    ensures |h.calls| == 1 && h.calls[0].endpoint == "fixtures"
    ensures h.calls[0].params.Keys == {"league", "season"} + (if limit != 0 then {"next"} else {})
    ensures limit != 0 ==> h.calls[0].params["next"] == JInt(limit)
    ensures h.result == MatchesAnswer(api(h.calls[0]))
  {
    h := GetMatches(api, league, season, None, Some(limit), None, None, None, None);
  }

  /** The `try` of the live and by-date handlers after the request: the log line's
    * `len(data.get('response', []))`. */
  function CountedBody(reply: Reply): (r: TryResult<Json>)
  {
    var data :- FixturesData(reply);
    var listed :- Lift(Get(data, "response", EmptyList));
    var n :- Lift(Len(listed));
    Ok(data)
  }

  /** A provider body the live and by-date handlers return: a dict whose "response", when
    * present, has a length. */
  predicate CountedDict(d: Json) {
    d.JDict? && Len(At(d.fields, "response", EmptyList)).Ok?
  }

  /** The answer of the live and by-date handlers: one `except Exception` turns every failure,
    * timeouts and the provider's status included, into a 500 with the handler's detail. */
  function CountedAnswer(reply: Reply, detail: string): (r: Result<Json, HttpError>)
    ensures r.Ok? <==> reply.Reply? && reply.status == 200 && reply.body.Some? && CountedDict(reply.body.value)
    ensures r.Ok? ==> r.value == reply.body.value
    ensures r.Raise? ==> r.error == HttpError(500, detail)
  {
    SwallowAll(CountedBody(reply), detail)
  }

  /** `get_live_matches`. */
  method GetLiveMatches(api: Request -> Reply, league: Option<int>) returns (h: Handled<Json>)
    ensures |h.calls| == 1 && h.calls[0].endpoint == "fixtures"
    ensures LiveParamsSpec(h.calls[0].params, league)
    ensures h.result == CountedAnswer(api(h.calls[0]), LiveFailed)
  {
    var p := LiveParams(league);
    var q := Request("fixtures", p);
    h := Handled(CountedAnswer(api(q), LiveFailed), [q]);
  }

  // ---------------------------------------------------------------- dates

  /** `%Y` in `strptime`: four characters `\d` matches, which are the Unicode decimal digits. */
  predicate YearText(y: string) {
    |y| == 4 && forall k :: 0 <= k < 4 ==> IsDigitChar(y[k])
  }

  /** `%m`: `1[0-2]`, `0[1-9]` or `[1-9]`. */
  predicate MonthText(m: string) {
    (|m| == 2 && ((m[0] == '1' && '0' <= m[1] <= '2') || (m[0] == '0' && '1' <= m[1] <= '9'))) ||
    (|m| == 1 && '1' <= m[0] <= '9')
  }

  /** `%d`: `3[01]`, `[12]` and a `\d` digit, `0[1-9]`, a space and `[1-9]`, or `[1-9]`. */
  predicate DayText(d: string) {
    (|d| == 2 && ((d[0] == '3' && (d[1] == '0' || d[1] == '1')) || ((d[0] == '1' || d[0] == '2') && IsDigitChar(d[1])) ||
                  ((d[0] == '0' || d[0] == ' ') && '1' <= d[1] <= '9'))) ||
    (|d| == 1 && '1' <= d[0] <= '9')
  }

  /** `int()` of a matched field; the leading space of a day such as " 7" is stripped. */
  function FieldValue(t: string): (v: nat)
    requires forall k :: 0 <= k < |t| ==> IsDigitChar(t[k]) || (k == 0 && t[k] == ' ')
  {
    if |t| > 0 && t[0] == ' ' then
      DigitsAfterSpace(t);
      LiteralValue(t[1..])
    else
      LiteralValue(t)
  }

  lemma DigitsAfterSpace(t: string)
    requires forall k :: 0 <= k < |t| ==> IsDigitChar(t[k]) || (k == 0 && t[k] == ' ')
    requires |t| > 0 && t[0] == ' '
    ensures forall k :: 0 <= k < |t| - 1 ==> IsDigitChar(t[1..][k])
  {
    forall k | 0 <= k < |t| - 1
      ensures IsDigitChar(t[1..][k])
    {
      assert t[1..][k] == t[k + 1];
    }
  }

  predicate LeapYear(y: int) {
    y % 4 == 0 && (y % 100 != 0 || y % 400 == 0)
  }

  function DaysInMonth(y: int, m: int): (n: int)
    ensures 28 <= n <= 31
  {
    if m == 2 then (if LeapYear(y) then 29 else 28)
    else if m == 4 || m == 6 || m == 9 || m == 11 then 30
    else 31
  }

  /** `datetime.strptime(date, "%Y-%m-%d")` succeeds: the whole string is a match of the
    * pattern and the date exists (year 1 or later, the day within its month). */
  predicate DateAccepted(s: string) {
    |s| >= 5 && YearText(s[..4]) && s[4] == '-' &&
    var rest := s[5..];
    var i := Text.FirstIndexOfChar(rest, '-');
    i < |rest| && MonthText(rest[..i]) && DayText(rest[i + 1..]) &&
    var year := FieldValue(s[..4]);
    var month := FieldValue(rest[..i]);
    year >= 1 && FieldValue(rest[i + 1..]) <= DaysInMonth(year, month)
  }

  /** A date written as its three fields is accepted exactly when each field matches its
    * directive and the day exists. */
  lemma DateAcceptedIff(y: string, m: string, d: string)
    requires YearText(y) && '-' !in m
    ensures DateAccepted(y + "-" + m + "-" + d) <==>
      MonthText(m) && DayText(d) && FieldValue(y) >= 1 && FieldValue(d) <= DaysInMonth(FieldValue(y), FieldValue(m))
  {
    var s := y + "-" + m + "-" + d;
    assert s[..4] == y;
    var rest := s[5..];
    assert rest == m + "-" + d;
    var i := Text.FirstIndexOfChar(rest, '-');
    assert rest[|m|] == '-';
    assert i == |m|;
    assert rest[..i] == m;
    assert rest[i + 1..] == d;
  }

  /** No year has a 30 February. */
  lemma NoThirtiethOfFebruary(y: string)
    requires YearText(y)
    ensures !DateAccepted(y + "-" + "02" + "-" + "30")
  {
    DateAcceptedIff(y, "02", "30");
    LiteralValueOfDigits("30");
    assert "30"[..1] == "3" && "3"[..0] == "";
    assert FieldValue("30") == 30;
  }

  /** `\d` takes the decimal digits of every script: a year written in Arabic-Indic digits is
    * accepted. */
  lemma ArabicIndicYearAccepted()
    ensures DateAccepted("\U{0662}\U{0660}\U{0662}\U{0664}" + "-" + "01" + "-" + "15")
  {
    var y := "\U{0662}\U{0660}\U{0662}\U{0664}";
    assert YearText(y) by {
      assert DigitValue(y[0]) == Some(2) && DigitValue(y[1]) == Some(0);
      assert DigitValue(y[2]) == Some(2) && DigitValue(y[3]) == Some(4);
    }
    DateAcceptedIff(y, "01", "15");
    assert FieldValue(y) >= 1 by {
      assert y[3] != '_';
    }
    LiteralValueOfDigits("15");
    assert "15"[..1] == "1" && "1"[..0] == "";
    assert FieldValue("15") == 15;
  }

  /** `get_matches_by_date`: a date `strptime` refuses makes no request, and its 400 is caught by
    * the handler's own `except Exception`, so it surfaces as a 500. */
  method GetMatchesByDate(api: Request -> Reply, date: string, league: Option<int>) returns (h: Handled<Json>)
    ensures !DateAccepted(date) ==> h == Handled(Raise(HttpError(500, ByDateFailed)), [])
    ensures DateAccepted(date) ==>
      |h.calls| == 1 && h.calls[0].endpoint == "fixtures" && DateParamsSpec(h.calls[0].params, date, league) &&
      h.result == CountedAnswer(api(h.calls[0]), ByDateFailed)
  {
    if !DateAccepted(date) {
      h := Handled(SwallowAll<Json>(Raise(Http(HttpError(400, BadDate))), ByDateFailed), []);
      return;
    }
    var p := DateParams(date, league);
    var q := Request("fixtures", p);
    h := Handled(CountedAnswer(api(q), ByDateFailed), [q]);
  }

  // ---------------------------------------------------------------- one match

  function DetailsBody(reply: Reply, matchId: int): (r: TryResult<Json>)
  {
    var data :- FixturesData(reply);
    var found :- Lift(Get(data, "response", JNull));
    if !Truthy(found) then Raise(Http(HttpError(404, "Match " + Text.IntToString(matchId) + " non trouvé")))
    else Ok(data)
  }

  /** `get_match_details`' answer: the provider's body when its "response" is truthy; every
    * failure, the unknown match's 404 included, is a 500. */
  function DetailsAnswer(reply: Reply, matchId: int): (r: Result<Json, HttpError>)
    ensures r.Ok? <==>
      reply.Reply? && reply.status == 200 && reply.body.Some? && reply.body.value.JDict? &&
      Truthy(At(reply.body.value.fields, "response", JNull))
    ensures r.Ok? ==> r.value == reply.body.value
    ensures r.Raise? ==> r.error == HttpError(500, DetailsFailed)
  {
    SwallowAll(DetailsBody(reply, matchId), DetailsFailed)
  }

  /** An empty "response" is reported as a server error, not as "not found". */
  lemma UnknownMatchIsServerError(matchId: int)
    ensures DetailsAnswer(Reply(200, Some(EmptyResponse)), matchId) == Raise(HttpError(500, DetailsFailed))
  {
    assert !Truthy(JList([]));
  }

  method GetMatchDetails(api: Request -> Reply, matchId: int) returns (h: Handled<Json>)
    ensures h.calls == [Request("fixtures", map["id" := JInt(matchId)])]
    ensures h.result == DetailsAnswer(api(h.calls[0]), matchId)
  {
    var q := Request("fixtures", map["id" := JInt(matchId)]);
    h := Handled(DetailsAnswer(api(q), matchId), [q]);
  }
}
