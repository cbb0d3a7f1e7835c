/** The match details page (src/pages/MatchDetails.tsx): how `fetchMatchDetails` turns the backend's
  * answer into the page's `MatchDetails` record or an error message, and the status label
  * `getStatusConfig` shows. */
module MatchDetails {
  import opened Wrappers
  import opened PyJson
  import opened JsValues
  import opened MatchStatus
  import Text

  datatype Side = Side(id: JsVal, name: JsVal, logo: JsVal)

  /** The page's `MatchDetails`; every field but `status`, `events` and `statistics` is copied from
    * the provider's fixture as it is. */
  datatype Details = Details(
    id: JsVal, date: JsVal, timestamp: JsVal, status: Status, statusLong: JsVal, elapsed: JsVal,
    referee: JsVal, homeTeam: Side, awayTeam: Side,
    home: JsVal, away: JsVal, halftime: JsVal,
    venueName: JsVal, venueCity: JsVal,
    leagueId: JsVal, leagueName: JsVal, leagueRound: JsVal,
    events: seq<Json>, statistics: seq<Json>)

  /** What one fetch leaves on the page: the record and the live flag, or the error message.
    * `Failed(None)` is a TypeError thrown by a property read, whose message the JavaScript engine
    * writes. */
  datatype Outcome = Shown(details: Details, isLive: bool) | Failed(message: Option<string>)

  const NotFound := "Match non trouvé"

  /** `{ home: null, away: null }`. */
  const NoHalftime: JsVal := Js(JDict(map["home" := JNull, "away" := JNull]))

  /** The value itself when it is neither undefined nor null; None is the TypeError of reading one
    * of its properties. */
  function NonNull(v: JsVal): (r: Option<JsVal>)
    ensures r.Some? <==> !Nullish(v)
    ensures r.Some? ==> r.value == v
  {
    if Nullish(v) then None else Some(v)
  }

  function SideOf(t: JsVal): (s: Side)
  {
    Side(OptProp(t, "id"), OptProp(t, "name"), OptProp(t, "logo"))
  }

  /** The match, its fixture, the fixture's status, its teams, each team, its goals and its league:
    * the objects `transformedMatch` reads through without `?.`. */
  predicate Readable(m: JsVal) {
    var fixture := OptProp(m, "fixture");
    var teams := OptProp(m, "teams");
    !Nullish(m) && !Nullish(fixture) && !Nullish(OptProp(fixture, "status")) &&
    !Nullish(teams) && !Nullish(OptProp(teams, "home")) && !Nullish(OptProp(teams, "away")) &&
    !Nullish(OptProp(m, "goals")) && !Nullish(OptProp(m, "league"))
  }

  /** The object literal `transformedMatch`, built from `data.response[0]`: it fails exactly when one
    * of the objects it reads through without `?.` is undefined or null. The status is the mapped
    * `status.short`, the half-time score defaults to two nulls, and events and statistics are
    * always empty. */
  function Transform(m: JsVal): (r: Option<Details>)
    ensures r.Some? <==> Readable(m)
    ensures r.Some? ==>
      r.value.status == MapApiStatus(JsText(OptProp(OptProp(OptProp(m, "fixture"), "status"), "short")))
    ensures r.Some? ==> r.value.halftime == JsOr(OptProp(OptProp(m, "score"), "halftime"), NoHalftime)
    ensures r.Some? ==> r.value.events == [] && r.value.statistics == []
    ensures r.Some? ==> r.value.homeTeam == SideOf(OptProp(OptProp(m, "teams"), "home"))
  {
    var m :- NonNull(m);
    var fixture :- NonNull(OptProp(m, "fixture"));
    var status :- NonNull(OptProp(fixture, "status"));
    var teams :- NonNull(OptProp(m, "teams"));
    var home :- NonNull(OptProp(teams, "home"));
    var away :- NonNull(OptProp(teams, "away"));
    var goals :- NonNull(OptProp(m, "goals"));
    var league :- NonNull(OptProp(m, "league"));
    var venue := OptProp(fixture, "venue");
    Some(Details(
      OptProp(fixture, "id"), OptProp(fixture, "date"), OptProp(fixture, "timestamp"),
      MapApiStatus(JsText(OptProp(status, "short"))), OptProp(status, "long"),
      OptProp(status, "elapsed"), OptProp(fixture, "referee"), SideOf(home), SideOf(away),
      OptProp(goals, "home"), OptProp(goals, "away"),
      JsOr(OptProp(OptProp(m, "score"), "halftime"), NoHalftime),
      OptProp(venue, "name"), OptProp(venue, "city"),
      OptProp(league, "id"), OptProp(league, "name"), OptProp(league, "round"), [], []))
  }

  /** `!data.response || data.response.length === 0`. */
  predicate NoMatch(response: JsVal) {
    !JsTruthy(response) || Prop(response, "length") == Some(Js(JInt(0)))
  }

  /** One call of `fetchMatchDetails` with the backend's HTTP status and decoded body. A non-2xx
    * status fails with "Erreur {status}: Match non trouvé", a missing or empty `response` with
    * 'Match non trouvé', both before any field is read; otherwise the page shows the transformed
    * first element, and it is live exactly when the mapped status is. */
  function LoadDetails(status: int, body: Json): (r: Outcome)
    ensures !(200 <= status <= 299) ==>
      r == Failed(Some("Erreur " + Text.IntToString(status) + ": " + NotFound))
    ensures 200 <= status <= 299 && body.JDict? ==>
      (NoMatch(OptProp(Js(body), "response")) ==> r == Failed(Some(NotFound)))
    ensures 200 <= status <= 299 && body == JNull ==> r == Failed(None)
    ensures r.Shown? ==> (r.isLive <==> r.details.status == Live)
    ensures r.Shown? ==>
      var response := OptProp(Js(body), "response");
      Item(response, 0).Some? && Some(r.details) == Transform(Item(response, 0).value)
  {
    if !(200 <= status <= 299) then Failed(Some("Erreur " + Text.IntToString(status) + ": " + NotFound))
    else
      match Prop(Js(body), "response")
      case None => Failed(None)
      case Some(response) =>
        if NoMatch(response) then Failed(Some(NotFound))
        else
          match Item(response, 0)
          case None => Failed(None)
          case Some(m) =>
            match Transform(m)
            case None => Failed(None)
            case Some(d) => Shown(d, d.status == Live)
  }

  /** An empty `response` list never reaches the transformation. */
  lemma EmptyResponseIsNotFound(status: int)
    requires 200 <= status <= 299
    ensures LoadDetails(status, JDict(map["response" := JList([])])) == Failed(Some(NotFound))
  {
    var body := JDict(map["response" := JList([])]);
    assert Prop(Js(body), "response") == Some(Js(JList([])));
  }

  /** A live match with a truthy `elapsed` is labelled with it and an apostrophe; otherwise 'LIVE'. */
  function LiveLabel(elapsed: JsVal): (s: string)
    ensures JsTruthy(elapsed) ==> s == JsText(elapsed) + "'"
    ensures !JsTruthy(elapsed) ==> s == "LIVE"
  {
    if JsTruthy(elapsed) then JsText(elapsed) + "'" else "LIVE"
  }

  datatype StatusConfig = StatusConfig(color: string, caption: Option<string>)

  /** `getStatusConfig` for a loaded match; the label of a scheduled match is the kick-off time in
    * the French locale, which is not modelled (None). */
  function StatusConfigOf(d: Details): (c: StatusConfig)
    ensures d.status == Live ==> c == StatusConfig("error", Some(LiveLabel(d.elapsed)))
    ensures c.caption.None? <==> d.status == Scheduled
    ensures c.color == "error" <==> d.status in {Live, Cancelled}
  {
    match d.status
    case Live => StatusConfig("error", Some(LiveLabel(d.elapsed)))
    case Finished => StatusConfig("success", Some("Terminé"))
    case Scheduled => StatusConfig("primary", None)
    case Postponed => StatusConfig("warning", Some("Reporté"))
    case Cancelled => StatusConfig("error", Some("Annulé"))
  }

  /** A live minute of 67 reads "67'". */
  lemma LiveMinuteLabel()
    ensures LiveLabel(Js(JInt(67))) == "67'"
    ensures LiveLabel(Js(JInt(0))) == "LIVE" && LiveLabel(Null) == "LIVE"
  {
    assert Text.NatToString(6) == "6";
    assert Text.NatToString(67) == Text.NatToString(6) + "7";
  }
}
