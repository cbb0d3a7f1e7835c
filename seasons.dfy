/** `SeasonsService` (src/services/api/seasonsService.ts): the provider plan the front end assumes,
  * the list of seasons it offers, the recommended season, labels, plan ranges and the description
  * of a season relative to the current one. The service caches the plan and the season list in two
  * fields. The clock reading (calendar year and month), the reply of the `/status` request and the
  * outcome of the standings probe are parameters. */
module Seasons {
  import opened Wrappers
  import opened PyJson
  import opened JsValues
  import Text

  /** One entry of the season selector; `caption` is the source's `label` (a reserved word here). */
  datatype Season = Season(year: int, caption: string, period: string, current: bool, available: bool)

  datatype PlanType = Free | Basic | Premium

  /** The first and last season a plan gives access to. */
  datatype Range = Range(from: int, to: int)

  datatype ApiPlan = ApiPlan(
    planType: PlanType, seasons: Range, currentRequests: int, maxRequests: int)

  /** The name of a plan type, as `getSeasonsByPlan` receives it. */
  function PlanName(t: PlanType): (s: string)
  {
    match t
    case Free => "free"
    case Basic => "basic"
    case Premium => "premium"
  }

  /** The season in progress: a football season runs from August to May, so it is named after this
    * year from August on and after last year before. */
  function CurrentSeason(year: int, month: int): (s: int)
    ensures year - 1 <= s <= year
    ensures s == year <==> month >= 8
  {
    if month >= 8 then year else year - 1
  }

  /** `getSeasonsByPlan`: free 2021-2023, basic 2018 to last year, premium 2008 to this year; any
    * other name is treated as free. */
  function SeasonsByPlan(planType: string, currentYear: int): (r: Range)
    ensures planType != "basic" && planType != "premium" ==> r == Range(2021, 2023)
    ensures planType == "basic" ==> r == Range(2018, currentYear - 1)
    ensures planType == "premium" ==> r == Range(2008, currentYear)
    ensures planType == "basic" || planType == "premium" ==> r.to <= currentYear
  {
    match planType
    case "free" => Range(2021, 2023)
    case "basic" => Range(2018, currentYear - 1)
    case "premium" => Range(2008, currentYear)
    case _ => Range(2021, 2023)
  }

  /** From 2024 on, each plan gives access to every season of the plan below it. */
  lemma PlansNested(currentYear: int)
    requires currentYear >= 2024
    ensures var free, basic, premium :=
      SeasonsByPlan("free", currentYear), SeasonsByPlan("basic", currentYear),
      SeasonsByPlan("premium", currentYear);
      basic.from <= free.from && free.to <= basic.to &&
      premium.from <= basic.from && basic.to <= premium.to
  {
  }

  /** The text the provider puts in the error of a season a free plan cannot see. */
  const FreePlanNotice := "Free plans do not have access"

  /** How `detectApiPlan` reads the value the standings probe was rejected with: its `message`
    * names the free-plan restriction (`message?.includes(...)` is true), names something else or is
    * missing, or reading it throws a TypeError (the value itself is undefined or null, or the
    * message is a number, boolean or object, which have no `includes`). */
  datatype ProbeVerdict = Refused | OtherError | Crashed

  function ProbeVerdictOf(error: JsVal): (v: ProbeVerdict)
    ensures Nullish(error) ==> v == Crashed
    ensures v == Refused <==>
      (exists s :: Prop(error, "message") == Some(Js(JStr(s))) && Text.Contains(s, FreePlanNotice)) ||
      (exists xs :: Prop(error, "message") == Some(Js(JList(xs))) && JStr(FreePlanNotice) in xs)
    ensures v == OtherError <==>
      (exists m :: Prop(error, "message") == Some(m) &&
        (Nullish(m) ||
         (m.json.JStr? && !Text.Contains(m.json.s, FreePlanNotice)) ||
         (m.json.JList? && JStr(FreePlanNotice) !in m.json.items)))
    ensures v == Crashed <==>
      Prop(error, "message").None? ||
      (exists m :: Prop(error, "message") == Some(m) && !Nullish(m) && !m.json.JStr? && !m.json.JList?)
  {
    match Prop(error, "message")
    case None => Crashed
    case Some(m) =>
      if Nullish(m) then OtherError
      else
        match m.json
        case JStr(s) => if Text.Contains(s, FreePlanNotice) then Refused else OtherError
        case JList(xs) => if JStr(FreePlanNotice) in xs then Refused else OtherError
        case _ => Crashed
  }

  function PlanFor(t: PlanType, currentYear: int): (p: ApiPlan)
  {
    ApiPlan(t, SeasonsByPlan(PlanName(t), currentYear), 0,
            match t case Free => 100 case Basic => 1000 case Premium => 10000)
  }

  /** `detectApiPlan`, given how the standings request for the current year ended (None: it
    * succeeded; Some(e): it was rejected with `e`). A success means premium, a free-plan refusal
    * means free, any other error basic, and an error whose message cannot be read drops to the
    * outer handler, which also assumes free. The detected range is always the one
    * `getSeasonsByPlan` gives for the detected type. */
  function DetectApiPlan(probe: Option<JsVal>, currentYear: int): (p: ApiPlan)
    ensures p.planType == Premium <==> probe.None?
    ensures p.planType == Basic <==> probe.Some? && ProbeVerdictOf(probe.value) == OtherError
    ensures p.planType == Free <==> probe.Some? && ProbeVerdictOf(probe.value) in {Refused, Crashed}
    ensures p.seasons == SeasonsByPlan(PlanName(p.planType), currentYear)
    ensures p.currentRequests == 0
    ensures p.maxRequests == (if p.planType == Free then 100 else if p.planType == Basic then 1000 else 10000)
  {
    if probe.None? then PlanFor(Premium, currentYear)
    else
      match ProbeVerdictOf(probe.value)
      case Refused => PlanFor(Free, currentYear)
      case OtherError => PlanFor(Basic, currentYear)
      case Crashed => PlanFor(Free, currentYear)
  }

  /** The plan `getApiPlan` settles on: the cached one, else the plan of a `/status` reply
    * (None: the request failed), else the detected one. */
  function ResolvePlan(cached: Option<ApiPlan>, statusPlan: Option<ApiPlan>, probe: Option<JsVal>,
                       currentYear: int): (p: ApiPlan)
    ensures cached.Some? ==> p == cached.value
    ensures cached.None? && statusPlan.Some? ==> p == statusPlan.value
    ensures cached.None? && statusPlan.None? ==> p == DetectApiPlan(probe, currentYear)
  {
    if cached.Some? then cached.value
    else if statusPlan.Some? then statusPlan.value
    else DetectApiPlan(probe, currentYear)
  }

  /** `getSeasonLabel` and a season's `period`: the year, a dash and the last two characters of
    * the next year (`String(year + 1).slice(-2)`). */
  function SeasonLabel(year: int): (s: string)
  {
    Text.IntToString(year) + "-" + Text.LastN(Text.IntToString(year + 1), 2)
  }

  /** The last character of a rendering is the last decimal digit. */
  lemma LastDigit(n: nat)
    ensures var s := Text.NatToString(n); s[|s| - 1] == Text.Digit(n % 10)
  {
  }

  /** From the year 9 on, the label ends with the tens and units digits of the next year. */
  lemma SeasonLabelDigits(year: nat)
    requires year >= 9
    ensures SeasonLabel(year) ==
      Text.IntToString(year) + "-" + [Text.Digit((year + 1) / 10 % 10), Text.Digit((year + 1) % 10)]
  {
    var n: nat := year + 1;
    var s := Text.NatToString(n);
    assert s == Text.NatToString(n / 10) + [Text.Digit(n % 10)];
    LastDigit(n / 10);
    var t := Text.NatToString(n / 10);
    assert s[|s| - 2] == t[|t| - 1];
    assert Text.LastN(s, 2) == [s[|s| - 2], s[|s| - 1]];
  }

  /** Different non-negative years have different labels: the text before the dash is the year. */
  lemma SeasonLabelInjective(a: nat, b: nat)
    requires SeasonLabel(a) == SeasonLabel(b)
    ensures a == b
  {
    var x1, x2 := Text.IntToString(a), Text.IntToString(b);
    NoDash(a);
    NoDash(b);
    Text.SplitAtFirst(x1, Text.LastN(Text.IntToString(a + 1), 2), x2, Text.LastN(Text.IntToString(b + 1), 2), '-');
    Text.IntToStringInjective(a, b);
  }

  lemma NoDash(n: nat)
    ensures '-' !in Text.IntToString(n)
  {
    var s := Text.IntToString(n);
    assert forall i :: 0 <= i < |s| ==> s[i] != '-';
  }

  /** The entry for `year` in a list generated for the range `from`..`to`. */
  function SeasonEntry(year: int, from: int, to: int, currentSeason: int): (s: Season)
  {
    Season(year, Text.IntToString(year) + "-" + Text.IntToString(year + 1), SeasonLabel(year),
           year == currentSeason, from <= year && year <= to)
  }

  /** The list `getAvailableSeasons` generates: one entry per year of the range, from the last
    * season down to the first. */
  function SeasonList(from: int, to: int, currentSeason: int): (r: seq<Season>)
    ensures |r| == if to < from then 0 else to - from + 1
    ensures forall k :: 0 <= k < |r| ==> r[k] == SeasonEntry(to - k, from, to, currentSeason)
  {
    var n := if to < from then 0 else to - from + 1;
    seq(n, k => SeasonEntry(to - k, from, to, currentSeason))
  }

  /** The generated list holds the years of the range in strictly decreasing order, every entry is
    * available, and exactly the current season is marked current. */
  lemma SeasonListFacts(from: int, to: int, currentSeason: int)
    ensures var r := SeasonList(from, to, currentSeason);
      (forall k :: 0 <= k < |r| ==> r[k].year == to - k) &&
      (forall k :: 0 <= k < |r| ==> from <= r[k].year <= to && r[k].available) &&
      (forall k :: 0 <= k < |r| ==> (r[k].current <==> r[k].year == currentSeason)) &&
      (forall i, j :: 0 <= i < j < |r| ==> r[i].year > r[j].year)
  {
  }

  /** `seasons.some(s => s.year === year && s.available)`. */
  function AvailableIn(seasons: seq<Season>, year: int): (b: bool)
    ensures b <==> exists i :: 0 <= i < |seasons| && seasons[i].year == year && seasons[i].available
  {
    if seasons == [] then false
    else (seasons[0].year == year && seasons[0].available) || AvailableIn(seasons[1..], year)
  }

  /** In a generated list, a season is available exactly when it lies in the plan's range. */
  lemma AvailableInList(from: int, to: int, currentSeason: int, year: int)
    ensures AvailableIn(SeasonList(from, to, currentSeason), year) <==> from <= year <= to
  {
    var r := SeasonList(from, to, currentSeason);
    SeasonListFacts(from, to, currentSeason);
    if from <= year <= to {
      assert r[to - year].year == year;
    }
  }

  /** The first position whose season satisfies `p`. */
  function FindSeason(seasons: seq<Season>, p: Season -> bool): (i: Option<nat>)
    ensures i.Some? ==> i.value < |seasons| && p(seasons[i.value])
    ensures i.Some? ==> forall j :: 0 <= j < i.value ==> !p(seasons[j])
    ensures i.None? ==> forall j :: 0 <= j < |seasons| ==> !p(seasons[j])
  {
    if seasons == [] then None
    else if p(seasons[0]) then Some(0)
    else
      match FindSeason(seasons[1..], p)
      case None => None
      case Some(k) => Some(k + 1)
  }

  predicate CurrentAndAvailable(s: Season) {
    s.current && s.available
  }

  predicate IsAvailable(s: Season) {
    s.available
  }

  /** `getRecommendedSeason` on a season list: the first season that is current and available,
    * else the first available one, else the first one; None is the `undefined` an empty list
    * gives. */
  function RecommendedOf(seasons: seq<Season>): (r: Option<Season>)
    ensures r.None? <==> seasons == []
    ensures r.Some? ==> r.value in seasons
    ensures (exists i :: 0 <= i < |seasons| && CurrentAndAvailable(seasons[i])) ==>
      r.Some? && CurrentAndAvailable(r.value)
    ensures (exists i :: 0 <= i < |seasons| && IsAvailable(seasons[i])) ==> r.Some? && r.value.available
    ensures (forall i :: 0 <= i < |seasons| ==> !IsAvailable(seasons[i])) && seasons != [] ==>
      r == Some(seasons[0])
    ensures (exists i :: 0 <= i < |seasons| && CurrentAndAvailable(seasons[i])) ==>
      exists i :: 0 <= i < |seasons| && r == Some(seasons[i]) && CurrentAndAvailable(seasons[i]) &&
        forall j :: 0 <= j < i ==> !CurrentAndAvailable(seasons[j])
    ensures (forall i :: 0 <= i < |seasons| ==> !CurrentAndAvailable(seasons[i])) &&
            (exists i :: 0 <= i < |seasons| && IsAvailable(seasons[i])) ==>
      exists i :: 0 <= i < |seasons| && r == Some(seasons[i]) && IsAvailable(seasons[i]) &&
        forall j :: 0 <= j < i ==> !IsAvailable(seasons[j])
  {
    match FindSeason(seasons, CurrentAndAvailable)
    case Some(i) => Some(seasons[i])
    case None =>
      match FindSeason(seasons, IsAvailable)
      case Some(i) => Some(seasons[i])
      case None => if seasons == [] then None else Some(seasons[0])
  }

  /** On a generated list the recommendation is the current season when the plan covers it, and
    * the most recent season of the plan otherwise. */
  lemma RecommendedOfList(from: int, to: int, currentSeason: int)
    requires from <= to
    ensures RecommendedOf(SeasonList(from, to, currentSeason)) ==
      Some(SeasonEntry(if from <= currentSeason <= to then currentSeason else to, from, to, currentSeason))
  {
    if from <= currentSeason <= to {
      CurrentInList(from, to, currentSeason);
    } else {
      NoCurrentInList(from, to, currentSeason);
    }
  }

  lemma CurrentInList(from: int, to: int, currentSeason: int)
    requires from <= currentSeason <= to
    ensures RecommendedOf(SeasonList(from, to, currentSeason)) == Some(SeasonEntry(currentSeason, from, to, currentSeason))
  {
    var r := SeasonList(from, to, currentSeason);
    var k := to - currentSeason;
    SeasonListFacts(from, to, currentSeason);
    assert r[k] == SeasonEntry(currentSeason, from, to, currentSeason);
    assert forall j :: 0 <= j < |r| && j != k ==> !r[j].current;
    OnlyCurrent(r, k);
  }

  lemma NoCurrentInList(from: int, to: int, currentSeason: int)
    requires from <= to && !(from <= currentSeason <= to)
    ensures RecommendedOf(SeasonList(from, to, currentSeason)) == Some(SeasonEntry(to, from, to, currentSeason))
  {
    var r := SeasonList(from, to, currentSeason);
    SeasonListFacts(from, to, currentSeason);
    assert r[0] == SeasonEntry(to, from, to, currentSeason);
    assert forall j :: 0 <= j < |r| ==> !r[j].current;
    NoCurrent(r);
  }

  lemma OnlyCurrent(seasons: seq<Season>, k: nat)
    requires k < |seasons| && CurrentAndAvailable(seasons[k])
    requires forall j :: 0 <= j < |seasons| && j != k ==> !seasons[j].current
    ensures RecommendedOf(seasons) == Some(seasons[k])
  {
    var i := FindSeason(seasons, CurrentAndAvailable);
    assert i.Some?;
  }

  lemma NoCurrent(seasons: seq<Season>)
    requires seasons != [] && IsAvailable(seasons[0])
    requires forall j :: 0 <= j < |seasons| ==> !seasons[j].current
    ensures RecommendedOf(seasons) == Some(seasons[0])
  {
    assert FindSeason(seasons, CurrentAndAvailable).None?;
  }

  /** What `getSeasonContext` says about a season. */
  datatype SeasonContext = SeasonContext(
    isHistoric: bool, isCurrent: bool, isFuture: bool, description: string)

  /** `getSeasonContext` on the date (year, month): the season is historic when it is older than
    * the previous one, current, or future; the previous season is none of the three. */
  function SeasonContextOf(year: int, todayYear: int, todayMonth: int): (c: SeasonContext)
    ensures var cs := CurrentSeason(todayYear, todayMonth);
      (c.isHistoric <==> year < cs - 1) && (c.isCurrent <==> year == cs) && (c.isFuture <==> year > cs)
    ensures !(c.isHistoric && c.isCurrent) && !(c.isHistoric && c.isFuture) && !(c.isCurrent && c.isFuture)
    ensures year == CurrentSeason(todayYear, todayMonth) - 1 ==>
      !c.isHistoric && !c.isCurrent && !c.isFuture && c.description == "Saison précédente"
    ensures c.isHistoric ==>
      c.description == "Il y a " + Text.IntToString(CurrentSeason(todayYear, todayMonth) - year) + " saisons"
    ensures c.description != ""
  {
    var cs := CurrentSeason(todayYear, todayMonth);
    var isHistoric := year < cs - 1;
    var isCurrent := year == cs;
    var isFuture := year > cs;
    var description :=
      if isCurrent then "Saison en cours"
      else if year == cs - 1 then "Saison précédente"
      else if isHistoric then
        "Il y a " + Text.IntToString(cs - year) + " saison" + (if cs - year > 1 then "s" else "")
      else if isFuture then "Saison future"
      else "";
    SeasonContext(isHistoric, isCurrent, isFuture, description)
  }

  class SeasonsService {
    var cachedSeasons: Option<seq<Season>>
    var apiPlan: Option<ApiPlan>

    constructor()
      ensures cachedSeasons == None && apiPlan == None
    {
      cachedSeasons := None;
      apiPlan := None;
    }

    /** `getApiPlan`: the cached plan when there is one; otherwise the plan of the `/status`
      * reply, or the detected plan when that request fails; the result is cached. */
    method GetApiPlan(statusPlan: Option<ApiPlan>, probe: Option<JsVal>, currentYear: int)
      returns (plan: ApiPlan)
      modifies this
      ensures plan == ResolvePlan(old(apiPlan), statusPlan, probe, currentYear)
      ensures apiPlan == Some(plan)
      ensures cachedSeasons == old(cachedSeasons)
    {
      if apiPlan.Some? {
        return apiPlan.value;
      }
      if statusPlan.Some? {
        plan := statusPlan.value;
      } else {
        plan := DetectApiPlan(probe, currentYear);
      }
      apiPlan := Some(plan);
    }

    /** `getAvailableSeasons` on the date (year, month): the cached list when there is one
      * (without asking for the plan); otherwise the seasons of the plan from the last down to
      * the first, which are then cached. */
    method GetAvailableSeasons(statusPlan: Option<ApiPlan>, probe: Option<JsVal>,
                               todayYear: int, todayMonth: int) returns (seasons: seq<Season>)
      modifies this
      ensures old(cachedSeasons).Some? ==> seasons == old(cachedSeasons).value && apiPlan == old(apiPlan)
      ensures old(cachedSeasons).None? ==>
        var plan := ResolvePlan(old(apiPlan), statusPlan, probe, todayYear);
        apiPlan == Some(plan) &&
        seasons == SeasonList(plan.seasons.from, plan.seasons.to, CurrentSeason(todayYear, todayMonth))
      ensures cachedSeasons == Some(seasons)
    {
      if cachedSeasons.Some? {
        return cachedSeasons.value;
      }
      var plan := GetApiPlan(statusPlan, probe, todayYear);
      var currentSeason := CurrentSeason(todayYear, todayMonth);
      var from, to := plan.seasons.from, plan.seasons.to;
      seasons := [];
      var year := to;
      while year >= from
        invariant year <= to && (from <= to ==> year >= from - 1) && (to < from ==> year == to)
        invariant |seasons| == to - year
        invariant forall k :: 0 <= k < |seasons| ==> seasons[k] == SeasonEntry(to - k, from, to, currentSeason)
        decreases year - from
      {
        seasons := seasons + [SeasonEntry(year, from, to, currentSeason)];
        year := year - 1;
      }
      ghost var expected := SeasonList(from, to, currentSeason);
      assert |seasons| == |expected|;
      assert forall k :: 0 <= k < |seasons| ==> seasons[k] == expected[k];
      assert seasons == expected;
      cachedSeasons := Some(seasons);
    }

    /** `getRecommendedSeason`: the recommendation on the (possibly cached) season list. */
    method GetRecommendedSeason(statusPlan: Option<ApiPlan>, probe: Option<JsVal>,
                                todayYear: int, todayMonth: int) returns (r: Option<Season>)
      modifies this
      ensures old(cachedSeasons).Some? ==> apiPlan == old(apiPlan) && cachedSeasons == old(cachedSeasons)
      ensures old(cachedSeasons).None? ==>
        var plan := ResolvePlan(old(apiPlan), statusPlan, probe, todayYear);
        apiPlan == Some(plan) &&
        cachedSeasons == Some(SeasonList(plan.seasons.from, plan.seasons.to, CurrentSeason(todayYear, todayMonth)))
      ensures cachedSeasons.Some? && r == RecommendedOf(cachedSeasons.value)
    {
      var seasons := GetAvailableSeasons(statusPlan, probe, todayYear, todayMonth);
      r := RecommendedOf(seasons);
    }

    /** `isSeasonAvailable`: whether the (possibly cached) season list has the year available. */
    method IsSeasonAvailable(statusPlan: Option<ApiPlan>, probe: Option<JsVal>,
                             todayYear: int, todayMonth: int, year: int) returns (b: bool)
      modifies this
      ensures old(cachedSeasons).Some? ==> apiPlan == old(apiPlan) && cachedSeasons == old(cachedSeasons)
      ensures old(cachedSeasons).None? ==>
        var plan := ResolvePlan(old(apiPlan), statusPlan, probe, todayYear);
        apiPlan == Some(plan) &&
        cachedSeasons == Some(SeasonList(plan.seasons.from, plan.seasons.to, CurrentSeason(todayYear, todayMonth)))
      ensures cachedSeasons.Some? && b == AvailableIn(cachedSeasons.value, year)
    {
      var seasons := GetAvailableSeasons(statusPlan, probe, todayYear, todayMonth);
      b := AvailableIn(seasons, year);
    }

    /** `clearCache`: forgets the plan and the season list. */
    method ClearCache()
      modifies this
      ensures cachedSeasons == None && apiPlan == None
    {
      cachedSeasons := None;
      apiPlan := None;
    }
  }
}
