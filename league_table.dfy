/** The helpers the league table views share (src/pages/Standings.tsx, src/pages/Teams.tsx and
  * src/components/Teams/TeamsCard.tsx): the recent-form chips, the qualification colour and badge,
  * the trend icon, the rank colour, the goal-difference text and the card's link. What they render
  * is described as data: a chip is its label and colour, an icon or badge a constructor. */
module LeagueTable {
  import opened Wrappers
  import Text
  import Formatters
  import PyJson
  import JsValues

  datatype ChipColor = Success | Error | Warning | Default

  /** One form chip: the letter it shows and its colour. */
  datatype Chip = Chip(caption: char, color: ChipColor)

  /** One result letter of the provider's form string in French: a win (W) is 'V', a loss (L) 'D'
    * and a draw (D) 'N'; any other character is shown as it is, in the default colour. */
  function ChipOf(c: char): (chip: Chip)
    ensures chip.color == Success <==> c == 'W'
    ensures chip.color == Error <==> c == 'L'
    ensures chip.color == Warning <==> c == 'D'
    ensures chip.color == Default ==> chip.caption == c
    ensures chip.caption == 'D' <==> c == 'L'
    ensures chip.caption == 'V' <==> c == 'W' || c == 'V'
  {
    match c
    case 'W' => Chip('V', Success)
    case 'L' => Chip('D', Error)
    case 'D' => Chip('N', Warning)
    case _ => Chip(c, Default)
  }

  /** One chip per character, in order (`split('').map(...)`). */
  function Chips(s: string): (r: seq<Chip>)
    ensures |r| == |s|
    ensures forall i :: 0 <= i < |s| ==> r[i] == ChipOf(s[i])
  {
    seq(|s|, i requires 0 <= i < |s| => ChipOf(s[i]))
  }

  /** `parseForm` of the standings page: nothing for a missing or empty form; otherwise one chip
    * per character once every dot is removed (a form of dots only gives no chip at all, which is
    * not the same as nothing). */
  function ParseForm(form: Option<string>): (r: Option<seq<Chip>>)
    ensures r.None? <==> form.None? || form == Some("")
    ensures r.Some? ==> r.value == Chips(Text.RemoveChar(form.value, '.'))
    ensures r.Some? ==> forall i :: 0 <= i < |r.value| ==> r.value[i].caption != '.' || r.value[i].color != Default
  {
    if form.None? || form.value == "" then None
    else Some(Chips(Text.RemoveChar(form.value, '.')))
  }

  /** `parseForm` of the teams page and the team card: as on the standings page, but only the
    * last five characters left after removing the dots are shown. */
  function ParseRecentForm(form: Option<string>): (r: Option<seq<Chip>>)
    ensures r.None? <==> form.None? || form == Some("")
    ensures r.Some? ==> |r.value| <= 5
  {
    if form.None? || form.value == "" then None
    else Some(Chips(Text.LastN(Text.RemoveChar(form.value, '.'), 5)))
  }

  /** The recent form is the last five chips of the full form, in the same order. */
  lemma RecentFormIsLastFive(form: Option<string>)
    ensures ParseRecentForm(form).None? <==> ParseForm(form).None?
    ensures ParseForm(form).Some? ==> ParseRecentForm(form).value == Text.LastN(ParseForm(form).value, 5)
  {
    if form.Some? && form.value != "" {
      var s := Text.RemoveChar(form.value, '.');
      var full := Chips(s);
      var recent := Chips(Text.LastN(s, 5));
      var tail := Text.LastN(full, 5);
      assert |recent| == |tail|;
      forall i | 0 <= i < |recent|
        ensures recent[i] == tail[i]
      {
        assert Text.LastN(s, 5)[i] == s[|s| - |recent| + i];
      }
    }
  }

  /** `getQualificationColor`: transparent for a missing or empty description; otherwise the
    * colour of the first competition it names, Champions League before Europa League before
    * relegation. */
  function QualificationColor(description: Option<string>): (color: string)
    ensures description.None? ==> color == "transparent"
    ensures description.Some? && Text.Contains(description.value, "Champions League") ==> color == "#00387b"
    ensures color == "#ff6b00" <==>
      (description.Some? && !Text.Contains(description.value, "Champions League") &&
       Text.Contains(description.value, "Europa League"))
    ensures color == "#d32f2f" <==>
      (description.Some? && !Text.Contains(description.value, "Champions League") &&
       !Text.Contains(description.value, "Europa League") && Text.Contains(description.value, "Relegation"))
    ensures color == "transparent" <==>
      (description.None? ||
       (!Text.Contains(description.value, "Champions League") &&
        !Text.Contains(description.value, "Europa League") && !Text.Contains(description.value, "Relegation")))
  {
    if description.None? || description.value == "" then "transparent"
    else if Text.Contains(description.value, "Champions League") then "#00387b"
    else if Text.Contains(description.value, "Europa League") then "#ff6b00"
    else if Text.Contains(description.value, "Relegation") then "#d32f2f"
    else "transparent"
  }

  datatype TrendIcon = TrendingUp | TrendingDown | Neutral

  /** `getTrendIcon`: only the exact statuses 'up' and 'down' have an arrow. */
  function TrendIconOf(status: string): (icon: TrendIcon)
    ensures icon == TrendingUp <==> status == "up"
    ensures icon == TrendingDown <==> status == "down"
  {
    match status
    case "up" => TrendingUp
    case "down" => TrendingDown
    case _ => Neutral
  }

  /** `getRankColor` (identical on the teams page and the team card): a missing or zero rank is
    * secondary; otherwise ranks up to 4 are success, 5 and 6 warning, from 18 on error, and the
    * rest primary. */
  function RankColor(rank: Option<int>): (color: string)
    ensures rank.None? || rank == Some(0) ==> color == "text.secondary"
    ensures rank.Some? && 1 <= rank.value <= 4 ==> color == "success.main"
    ensures rank.Some? && 5 <= rank.value <= 6 ==> color == "warning.main"
    ensures rank.Some? && 7 <= rank.value <= 17 ==> color == "text.primary"
    ensures rank.Some? && rank.value >= 18 ==> color == "error.main"
    ensures rank.Some? && rank.value < 0 ==> color == "success.main"
  {
    if rank.None? || rank.value == 0 then "text.secondary"
    else if rank.value <= 4 then "success.main"
    else if rank.value <= 6 then "warning.main"
    else if rank.value >= 18 then "error.main"
    else "text.primary"
  }

  datatype Badge = Champion | RelegationZone

  /** `getQualificationBadge`: a trophy for the leader, the relegation arrow from rank 18 on, and
    * nothing otherwise, a missing rank included. */
  function QualificationBadge(rank: Option<int>): (badge: Option<Badge>)
    ensures badge == Some(Champion) <==> rank == Some(1)
    ensures badge == Some(RelegationZone) <==> rank.Some? && rank.value >= 18
  {
    if rank.None? || rank.value == 0 then None
    else if rank.value == 1 then Some(Champion)
    else if rank.value >= 18 then Some(RelegationZone)
    else None
  }

  /** The badge and the rank colour tell the same story: the champion is coloured as a Champions
    * League place, and the relegation badge goes exactly with the relegation colour. */
  lemma BadgeAgreesWithRankColor(rank: Option<int>)
    ensures QualificationBadge(rank) == Some(Champion) ==> RankColor(rank) == "success.main"
    ensures QualificationBadge(rank) == Some(RelegationZone) <==> RankColor(rank) == "error.main"
  {
  }

  /** The goal difference column: '-' when it is undefined, "null" for null (the template prints
    * it, and `null > 0` is false), otherwise the number, with a '+' in front only when it is
    * positive. The value is a number, null or undefined. */
  function GoalDiffText(goalsDiff: JsValues.JsVal): (s: string)
    requires goalsDiff.Js? ==> goalsDiff.json.JNull? || goalsDiff.json.JInt?
    ensures goalsDiff == JsValues.Undefined ==> s == "-"
    ensures goalsDiff == JsValues.Null ==> s == "null"
    ensures |s| >= 1
    ensures goalsDiff.Js? && goalsDiff.json.JInt? ==>
      (s[0] == '+' <==> goalsDiff.json.i > 0) && (s[0] == '-' <==> goalsDiff.json.i < 0)
  {
    match goalsDiff
    case Undefined => "-"
    case Js(j) =>
      if j.JNull? then "null"
      else (if j.i > 0 then "+" else "") + Text.IntToString(j.i)
  }

  /** The shown difference reads back as the difference (`parseInt` accepts the '+'), so the sign
    * prefix loses nothing. */
  lemma GoalDiffReadsBack(d: int)
    ensures Formatters.ParseInt(GoalDiffText(JsValues.Js(PyJson.JInt(d)))) == Some(d)
  {
    if d > 0 {
      var n: nat := d;
      assert Text.IntToString(d) == Text.NatToString(n);
      assert GoalDiffText(JsValues.Js(PyJson.JInt(d))) == "+" + Text.NatToString(n);
      ParsePlusRendering(n);
    } else {
      assert GoalDiffText(JsValues.Js(PyJson.JInt(d))) == Text.IntToString(d);
      Formatters.ParseIntReadsRendering(d);
    }
  }

  lemma ParsePlusRendering(n: nat)
    ensures Formatters.ParseInt("+" + Text.NatToString(n)) == Some(n)
  {
    var t := "+" + Text.NatToString(n);
    Formatters.TrimStartKeeps(t);
    assert t[1..] == Text.NatToString(n);
    Formatters.ParseUnsignedReadsRendering(n);
  }

  /** The colour of the goal difference: success when positive, error when negative, primary for
    * zero, null or undefined. */
  function GoalDiffColor(goalsDiff: JsValues.JsVal): (color: string)
    requires goalsDiff.Js? ==> goalsDiff.json.JNull? || goalsDiff.json.JInt?
    ensures color == "success.main" <==> goalsDiff.Js? && goalsDiff.json.JInt? && goalsDiff.json.i > 0
    ensures color == "error.main" <==> goalsDiff.Js? && goalsDiff.json.JInt? && goalsDiff.json.i < 0
    ensures color == "text.primary" <==> !JsValues.JsTruthy(goalsDiff)
  {
    if goalsDiff.Js? && goalsDiff.json.JInt? && goalsDiff.json.i > 0 then "success.main"
    else if goalsDiff.Js? && goalsDiff.json.JInt? && goalsDiff.json.i < 0 then "error.main"
    else "text.primary"
  }

  /** The team card is wrapped in a link to the team's page of the league exactly when no click
    * handler is given. */
  function CardLink(hasOnClick: bool, leagueId: int, teamId: int): (link: Option<string>)
    ensures link.Some? <==> !hasOnClick
    ensures link.Some? ==>
      link.value == "/league/" + Text.IntToString(leagueId) + "/team/" + Text.IntToString(teamId)
  {
    if hasOnClick then None
    else Some("/league/" + Text.IntToString(leagueId) + "/team/" + Text.IntToString(teamId))
  }

  /** Two cards of the same league link to the same page only when they show the same team. */
  lemma CardLinksDistinct(leagueId: int, a: int, b: int)
    requires CardLink(false, leagueId, a) == CardLink(false, leagueId, b)
    ensures a == b
  {
    var prefix := "/league/" + Text.IntToString(leagueId) + "/team/";
    var s := CardLink(false, leagueId, a).value;
    assert s == prefix + Text.IntToString(a);
    assert Text.IntToString(a) == s[|prefix|..];
    assert Text.IntToString(b) == s[|prefix|..];
    Text.IntToStringInjective(a, b);
  }
}
