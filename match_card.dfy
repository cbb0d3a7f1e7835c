/** The helpers of the match card (src/components/Matches/MatchCard.tsx): the status colour and
  * caption, the score line and the shortened team names. Values read from the match keep
  * JavaScript's semantics (`JsVal`), since the card compares them with `null` only. */
module MatchCard {
  import opened Wrappers
  import opened PyJson
  import opened JsValues
  import Text
  import Formatters

  /** The match statuses the card knows. */
  predicate KnownStatus(status: string) {
    status == "live" || status == "finished" || status == "scheduled" || status == "postponed" ||
    status == "cancelled"
  }

  /** `getStatusColor`: one colour per status; cancelled and unknown statuses share the grey. */
  function StatusColor(status: string): (color: string)
    ensures color == "#ef4444" <==> status == "live"
    ensures color == "#22c55e" <==> status == "finished"
    ensures color == "#3b82f6" <==> status == "scheduled"
    ensures color == "#f59e0b" <==> status == "postponed"
    ensures color == "#6b7280" <==> status == "cancelled" || !KnownStatus(status)
  {
    match status
    case "live" => "#ef4444"
    case "finished" => "#22c55e"
    case "scheduled" => "#3b82f6"
    case "postponed" => "#f59e0b"
    case _ => "#6b7280"
  }

  /** `getStatusText` with the `elapsed` argument and the match's own `elapsed`: a live match shows
    * the first truthy of the two (else 0) and an apostrophe, a finished one 'FT', a postponed one
    * 'REPORTÉ', a cancelled one 'ANNULÉ', and an unknown status is upper-cased. A scheduled match
    * shows its kick-off time in the French locale, which is not modelled (None). */
  function StatusText(status: string, elapsed: JsVal, matchElapsed: JsVal): (text: Option<string>)
    ensures text.None? <==> status == "scheduled"
    ensures status == "live" ==> text == Some(JsText(JsOr(JsOr(elapsed, matchElapsed), Js(JInt(0)))) + "'")
    ensures status == "finished" ==> text == Some("FT")
    ensures status == "postponed" ==> text == Some("REPORTÉ")
    ensures status == "cancelled" ==> text == Some("ANNULÉ")
    ensures !KnownStatus(status) ==> text == Some(Text.Upper(status))
  {
    match status
    case "live" => Some(JsText(JsOr(JsOr(elapsed, matchElapsed), Js(JInt(0)))) + "'")
    case "finished" => Some("FT")
    case "scheduled" => None
    case "postponed" => Some("REPORTÉ")
    case "cancelled" => Some("ANNULÉ")
    case _ => Some(Text.Upper(status))
  }

  /** A live match without any elapsed minute reads "0'"; with the call's minute 12 it reads "12'"
    * whatever the match says. */
  lemma LiveMinuteFallbacks(matchElapsed: JsVal)
    ensures StatusText("live", Undefined, Undefined) == Some("0'")
    ensures StatusText("live", Js(JInt(12)), matchElapsed) == Some("12'")
  {
    assert !JsTruthy(Undefined) && JsOr(JsOr(Undefined, Undefined), Js(JInt(0))) == Js(JInt(0));
    assert JsText(Js(JInt(0))) == Text.IntToString(0) == "0";
    assert JsTruthy(Js(JInt(12))) && JsOr(JsOr(Js(JInt(12)), matchElapsed), Js(JInt(0))) == Js(JInt(12));
    assert Text.NatToString(12) == Text.NatToString(1) + "2";
    assert JsText(Js(JInt(12))) == Text.IntToString(12) == "12";
    assert "0" + "'" == "0'" && "12" + "'" == "12'";
  }

  /** `getScoreDisplay`: "home-away" when neither score is `null`, else 'vs'. A score that is
    * missing (`undefined`) is not `null`, so it is printed as "undefined". */
  function ScoreDisplay(home: JsVal, away: JsVal): (s: string)
    ensures s == "vs" <==> home == Null || away == Null
    ensures home != Null && away != Null ==> s == JsText(home) + "-" + JsText(away)
  {
    if home != Null && away != Null then
      var s := JsText(home) + "-" + JsText(away);
      assert s[|JsText(home)|] == '-';
      s
    else "vs"
  }

  /** For two known goal counts the score line gives both counts back. */
  lemma ScoreDisplayInjective(h1: nat, a1: nat, h2: nat, a2: nat)
    requires ScoreDisplay(Js(JInt(h1)), Js(JInt(a1))) == ScoreDisplay(Js(JInt(h2)), Js(JInt(a2)))
    ensures h1 == h2 && a1 == a2
  {
    var x1, y1, x2, y2 := Text.IntToString(h1), Text.IntToString(a1), Text.IntToString(h2), Text.IntToString(a2);
    assert forall i :: 0 <= i < |x1| ==> x1[i] != '-';
    assert forall i :: 0 <= i < |x2| ==> x2[i] != '-';
    Text.SplitAtFirst(x1, y1, x2, y2, '-');
    Text.IntToStringInjective(h1, h2);
    Text.IntToStringInjective(a1, a2);
  }

  /** `truncateName`: the name when it has at most `maxLength` characters, else its first
    * `maxLength` characters (none for a negative bound, as `substring` clamps) and '...'. */
  function TruncateName(name: string, maxLength: int): (r: string)
    ensures |name| <= maxLength ==> r == name
    ensures |name| > maxLength ==> r == name[..if maxLength < 0 then 0 else maxLength] + "..."
  {
    Formatters.TruncateText(name, maxLength)
  }

  /** A name comes back unchanged exactly when it fits, or when it is already its own shortened
    * form: `maxLength` characters followed by '...'. */
  lemma TruncateNameUnchanged(name: string, maxLength: int)
    ensures var n := if maxLength < 0 then 0 else maxLength;
      TruncateName(name, maxLength) == name <==>
      (|name| <= maxLength || (|name| == n + 3 && name[n..] == "..."))
  {
    var n := if maxLength < 0 then 0 else maxLength;
    if |name| > maxLength && TruncateName(name, maxLength) == name {
      assert |name| == n + 3;
      assert name[n..] == TruncateName(name, maxLength)[n..];
    }
    if |name| > maxLength && |name| == n + 3 && name[n..] == "..." {
      assert name == name[..n] + name[n..];
    }
  }

  /** So an overlong name is not always shortened: "abc..." with a bound of 3 is left as it is. */
  lemma TruncateNameKeepsEllipsis()
    ensures TruncateName("abc...", 3) == "abc..."
  {
    TruncateNameUnchanged("abc...", 3);
  }
}
