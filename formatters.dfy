/** The display helpers of src/utils/formatters.ts: scores, ball possession, status colours and
  * translations, player height and weight, the avatar colour of a team and text truncation. */
module Formatters {
  import opened Wrappers
  import opened Text

  /** `formatScore`: "- : -" when either score is undefined, else "h : a". */
  function FormatScore(home: Option<int>, away: Option<int>): (s: string)
    ensures (home.None? || away.None?) <==> s == "- : -"
    ensures home.Some? && away.Some? ==>
      s == IntToString(home.value) + " : " + IntToString(away.value)
  {
    if home.None? || away.None? then "- : -"
    else
      var h := IntToString(home.value);
      var s := h + " : " + IntToString(away.value);
      assert s[0] != '-' || s[1] != ' ';
      s
  }

  /** A rendered score names both numbers: two different pairs of scores never display the same. */
  lemma FormatScoreInjective(h1: int, a1: int, h2: int, a2: int)
    requires FormatScore(Some(h1), Some(a1)) == FormatScore(Some(h2), Some(a2))
    ensures h1 == h2 && a1 == a2
  {
    SplitAtSeparator(IntToString(h1), IntToString(a1), IntToString(h2), IntToString(a2));
    IntToStringInjective(h1, h2);
    IntToStringInjective(a1, a2);
  }

  lemma SplitAtSeparator(x1: string, y1: string, x2: string, y2: string)
    requires ' ' !in x1 && ' ' !in x2
    requires x1 + " : " + y1 == x2 + " : " + y2
    ensures x1 == x2 && y1 == y2
  {
    var s := x1 + " : " + y1;
    FirstSpace(x1, y1);
    FirstSpace(x2, y2);
    assert x1 == s[..|x1|] == x2;
    assert y1 == s[|x1| + 3..] == y2;
  }

  /** The first space of "x : y" follows `x` when `x` has none. */
  lemma FirstSpace(x: string, y: string)
    requires ' ' !in x
    ensures FirstIndexOfChar(x + " : " + y, ' ') == |x|
  {
    var s := x + " : " + y;
    assert s[|x|] == ' ';
    assert forall k :: 0 <= k < |x| ==> s[k] == x[k];
  }

  /** The white space `parseInt` skips: JavaScript's WhiteSpace and LineTerminator characters. */
  predicate JsSpace(c: char) {
    c == '\t' || c == '\n' || c == '\U{000B}' || c == '\U{000C}' || c == '\r' || c == ' ' ||
    c == '\U{00A0}' || c == '\U{1680}' || ('\U{2000}' <= c <= '\U{200A}') || c == '\U{2028}' ||
    c == '\U{2029}' || c == '\U{202F}' || c == '\U{205F}' || c == '\U{3000}' || c == '\U{FEFF}'
  }

  /** The string without its leading white space. */
  function TrimStart(s: string): (r: string)
    ensures |r| <= |s| && r == s[|s| - |r|..]
    ensures r != [] ==> !JsSpace(r[0])
    ensures forall i :: 0 <= i < |s| - |r| ==> JsSpace(s[i])
  {
    if s != [] && JsSpace(s[0]) then TrimStart(s[1..]) else s
  }

  /** The value of a digit in bases up to 16, or -1 for any other character. */
  function DigitOf(c: char): (v: int)
    ensures -1 <= v < 16
    ensures '0' <= c <= '9' ==> v == c as int - '0' as int
  {
    if '0' <= c <= '9' then c as int - '0' as int
    else if 'a' <= c <= 'f' then c as int - 'a' as int + 10
    else if 'A' <= c <= 'F' then c as int - 'A' as int + 10
    else -1
  }

  predicate IsDigitIn(c: char, radix: nat) {
    0 <= DigitOf(c) < radix
  }

  /** The length of the longest prefix of `s` made of digits of the radix. */
  function DigitRun(s: string, radix: nat): (n: nat)
    ensures n <= |s|
    ensures forall i :: 0 <= i < n ==> IsDigitIn(s[i], radix)
    ensures n < |s| ==> !IsDigitIn(s[n], radix)
  {
    if s != [] && IsDigitIn(s[0], radix) then 1 + DigitRun(s[1..], radix) else 0
  }

  /** The value of a string of digits of the radix. */
  function ValueIn(s: string, radix: nat): (v: nat)
    requires forall i :: 0 <= i < |s| ==> IsDigitIn(s[i], radix)
  {
    if s == [] then 0
    else
      var last := s[|s| - 1];
      assert IsDigitIn(last, radix);
      var high := ValueIn(s[..|s| - 1], radix);
      ProductOfNats(high, radix);
      high * radix + DigitOf(last)
  }

  lemma ProductOfNats(a: nat, b: nat)
    ensures a * b >= 0
  {
  }

  /** JavaScript's `parseInt(s)` without a radix; None is NaN. Leading white space is skipped, a sign
    * is read, "0x" or "0X" selects base 16, and the longest run of digits that follows is the
    * value; no digits at all is NaN. */
  function ParseInt(s: string): (r: Option<int>)
  {
    var t := TrimStart(s);
    if t != [] && (t[0] == '-' || t[0] == '+') then
      var v :- ParseUnsigned(t[1..]);
      var signed := if t[0] == '-' then -(v as int) else v as int;
      Some(signed)
    else
      var v :- ParseUnsigned(t);
      Some(v)
  }

  /** The digits after the sign: base 16 after "0x" or "0X", base 10 otherwise. */
  function ParseUnsigned(u: string): (r: Option<nat>)
  {
    var hex := |u| >= 2 && u[0] == '0' && (u[1] == 'x' || u[1] == 'X');
    var radix := if hex then 16 else 10;
    var digits := if hex then u[2..] else u;
    var n := DigitRun(digits, radix);
    if n == 0 then None else Some(ValueIn(digits[..n], radix))
  }

  lemma {:induction false} DecimalValue(s: string)
    requires forall i :: 0 <= i < |s| ==> '0' <= s[i] <= '9'
    ensures ValueIn(s, 10) == DigitsValue(s)
  {
    if s != [] {
      DecimalValue(s[..|s| - 1]);
    }
  }

  lemma {:induction false} DecimalRun(s: string)
    requires forall i :: 0 <= i < |s| ==> '0' <= s[i] <= '9'
    ensures DigitRun(s, 10) == |s|
  {
    if s != [] {
      DecimalRun(s[1..]);
    }
  }

  /** A rendered natural number is read back in base 10. */
  lemma ParseUnsignedReadsRendering(n: nat)
    ensures ParseUnsigned(NatToString(n)) == Some(n)
  {
    var u := NatToString(n);
    assert |u| >= 2 ==> u[1] != 'x' && u[1] != 'X';
    DecimalRun(u);
    assert u[..|u|] == u;
    DecimalValue(u);
    NatToStringValue(n);
  }

  /** `parseInt` reads back what `String(n)` writes for an integer. */
  lemma ParseIntReadsRendering(n: int)
    ensures ParseInt(IntToString(n)) == Some(n)
  {
    if n < 0 {
      var m: nat := -n;
      assert IntToString(n) == "-" + NatToString(m);
      ParseUnsignedReadsRendering(m);
      ParseSignedRendering(NatToString(m), m);
    } else {
      assert IntToString(n) == NatToString(n);
      ParseUnsignedReadsRendering(n);
      ParseUnsignedAlone(NatToString(n));
    }
  }

  /** Without white space or sign in front, `parseInt` reads the digits alone. */
  lemma ParseUnsignedAlone(u: string)
    requires u != [] && '0' <= u[0] <= '9'
    ensures ParseInt(u) == ParseUnsigned(u)
  {
    TrimStartKeeps(u);
  }

  lemma ParseSignedRendering(u: string, m: nat)
    requires ParseUnsigned(u) == Some(m)
    ensures ParseInt("-" + u) == Some(-(m as int))
  {
    var t := "-" + u;
    TrimStartKeeps(t);
    assert t[1..] == u;
  }

  lemma TrimStartKeeps(s: string)
    requires s != [] && !JsSpace(s[0])
    ensures TrimStart(s) == s
  {
  }

  /** `formatPossession`: 0 for an undefined or empty string, otherwise `parseInt` of the string with
    * its first '%' removed; None is NaN. */
  function FormatPossession(possession: Option<string>): (r: Option<int>)
    ensures possession.None? || possession == Some("") ==> r == Some(0)
  {
    if possession.None? || possession.value == "" then Some(0)
    else ParseInt(ReplaceFirst(possession.value, "%", ""))
  }

  /** A percentage such as "57%" is read as its number. */
  lemma PossessionReadsPercentage(n: int)
    ensures FormatPossession(Some(IntToString(n) + "%")) == Some(n)
  {
    var t := IntToString(n);
    var s := t + "%";
    assert OccursAt("%", s, |t|);
    assert forall j: nat :: OccursAt("%", s, j) ==> j == |t| by {
      forall j: nat | OccursAt("%", s, j) ensures j == |t| {
        assert s[j] == '%';
      }
    }
    assert s[..|t|] + "" + s[|t| + 1..] == t;
    ParseIntReadsRendering(n);
  }

  /** `getMatchStatusColor`: the lower-cased status is tested for "terminé" or "finished" first,
    * then "annulé" or "cancelled", then "en cours" or "live"; the first hit decides. */
  function MatchStatusColor(status: string): (c: string)
    ensures var l := Lower(status);
      (c == "success" <==> Contains(l, "terminé") || Contains(l, "finished")) &&
      (c == "error" <==> !(Contains(l, "terminé") || Contains(l, "finished")) &&
                         (Contains(l, "annulé") || Contains(l, "cancelled"))) &&
      (c == "info" <==> !(Contains(l, "terminé") || Contains(l, "finished")) &&
                        !(Contains(l, "annulé") || Contains(l, "cancelled")) &&
                        !(Contains(l, "en cours") || Contains(l, "live"))) &&
      (c == "warning" <==> !(Contains(l, "terminé") || Contains(l, "finished")) &&
                           !(Contains(l, "annulé") || Contains(l, "cancelled")) &&
                           (Contains(l, "en cours") || Contains(l, "live")))
  {
    var l := Lower(status);
    if Contains(l, "terminé") || Contains(l, "finished") then "success"
    else if Contains(l, "annulé") || Contains(l, "cancelled") then "error"
    else if Contains(l, "en cours") || Contains(l, "live") then "warning"
    else "info"
  }

  /** The colour does not depend on letter case. */
  lemma StatusColorIgnoresCase(status: string)
    ensures MatchStatusColor(Lower(status)) == MatchStatusColor(status)
  {
    LowerIdempotent(status);
  }

  /** The statuses `translateMatchStatus` knows. */
  const TranslatedStatuses: set<string> := {
    "Not Started", "Match Finished", "Match Postponed", "Match Cancelled", "First Half",
    "Second Half", "Half Time", "Extra Time", "Penalty In Progress", "Break Time",
    "Match Suspended", "Interrupted"}

  /** `translateMatchStatus`: the French name of a known status; any other status is returned as it
    * is. Every translation differs from its status, so the result changes exactly when the status is
    * known. */
  function TranslateMatchStatus(status: string): (r: string)
    ensures r != status <==> status in TranslatedStatuses
    ensures r != ""
      || status == ""
  {
    match status
    case "Not Started" => "À venir"
    case "Match Finished" => "Terminé"
    case "Match Postponed" => "Reporté"
    case "Match Cancelled" => "Annulé"
    case "First Half" => "1ère mi-temps"
    case "Second Half" => "2ème mi-temps"
    case "Half Time" => "Mi-temps"
    case "Extra Time" => "Prolongations"
    case "Penalty In Progress" => "Tirs au but"
    case "Break Time" => "Pause"
    case "Match Suspended" => "Suspendu"
    case "Interrupted" => "Interrompu"
    case _ => status
  }

  /** `formatHeight` and `formatWeight`: '' for an undefined or empty value, otherwise a space
    * inserted before the first occurrence of the unit. */
  function FormatUnit(value: Option<string>, unit: string): (r: string)
    ensures value.None? || value == Some("") ==> r == ""
    ensures value.Some? && !Contains(value.value, unit) ==> r == value.value
    ensures value.Some? && value.value != "" && Contains(value.value, unit) ==>
      var v, i := value.value, IndexOf(value.value, unit);
      0 <= i && i + |unit| <= |v| && r == v[..i] + " " + unit + v[i + |unit|..]
  {
    if value.None? || value.value == "" then "" else ReplaceFirst(value.value, unit, " " + unit)
  }

  function FormatHeight(height: Option<string>): (r: string)
    ensures height.None? || height == Some("") ==> r == ""
    ensures height.Some? && !Contains(height.value, "cm") ==> r == height.value
    ensures height.Some? && Contains(height.value, "cm") ==>
      var v, i := height.value, IndexOf(height.value, "cm");
      0 <= i && i + 2 <= |v| && r == v[..i] + " cm" + v[i + 2..]
  {
    FormatUnit(height, "cm")
  }

  function FormatWeight(weight: Option<string>): (r: string)
    ensures weight.None? || weight == Some("") ==> r == ""
    ensures weight.Some? && !Contains(weight.value, "kg") ==> r == weight.value
    ensures weight.Some? && Contains(weight.value, "kg") ==>
      var v, i := weight.value, IndexOf(weight.value, "kg");
      0 <= i && i + 2 <= |v| && r == v[..i] + " kg" + v[i + 2..]
  {
    FormatUnit(weight, "kg")
  }

  /** Removing the space again gives the original value: the first " cm" of "180 cm" is the one
    * the formatter inserted. */
  lemma {:induction false} FormatUnitInverse(value: string, unit: string)
    requires value != [] && |unit| == 2 && ' ' !in unit
    ensures ReplaceFirst(FormatUnit(Some(value), unit), " " + unit, unit) == value
  {
    var i := IndexOf(value, unit);
    if i >= 0 {
      SpacedUnitReplaced(value, unit, i);
    } else {
      NoSpacedUnit(value, unit);
    }
  }

  lemma SpacedUnitReplaced(value: string, unit: string, i: nat)
    requires |unit| == 2 && ' ' !in unit
    requires i == IndexOf(value, unit)
    ensures ReplaceFirst(ReplaceFirst(value, unit, " " + unit), " " + unit, unit) == value
  {
    var su := " " + unit;
    var r := value[..i] + su + value[i + 2..];
    Text.ReplaceAtIndex(value, unit, su);
    SpacedUnitAt(value, unit, i, r);
    NoEarlierSpacedUnit(value, unit, i, r);
    Text.IndexOfIs(r, su, i);
    Text.ReplaceAtIndex(r, su, unit);
    SpaceRemoved(value, unit, i, r);
  }

  lemma SpacedUnitAt(value: string, unit: string, i: nat, r: string)
    requires |unit| == 2 && i + 2 <= |value|
    requires r == value[..i] + " " + unit + value[i + 2..]
    ensures OccursAt(" " + unit, r, i)
  {
    assert r[i..i + 3] == " " + unit;
  }

  lemma SpaceRemoved(value: string, unit: string, i: nat, r: string)
    requires |unit| == 2 && OccursAt(unit, value, i)
    requires r == value[..i] + " " + unit + value[i + 2..]
    ensures r[..i] + unit + r[i + 3..] == value
  {
    assert r[..i] == value[..i] && r[i + 3..] == value[i + 2..];
    assert value == value[..i] + unit + value[i + 2..];
  }

  lemma NoEarlierSpacedUnit(value: string, unit: string, i: nat, r: string)
    requires |unit| == 2 && ' ' !in unit
    requires OccursAt(unit, value, i)
    requires forall j: nat :: j < i ==> !OccursAt(unit, value, j)
    requires r == value[..i] + " " + unit + value[i + 2..]
    ensures forall j: nat :: j < i ==> !OccursAt(" " + unit, r, j)
  {
    var su := " " + unit;
    forall j: nat | j < i
      ensures !OccursAt(su, r, j)
    {
      if j + 3 <= i {
        assert r[j..j + 3] == value[j..j + 3];
        assert !OccursAt(unit, value, j + 1);
      } else if j + 1 == i {
        assert r[j + 1] == ' ';
      } else {
        assert r[j + 2] == ' ';
      }
    }
  }

  lemma NoSpacedUnit(value: string, unit: string)
    requires |unit| == 2
    requires !Contains(value, unit)
    ensures !Contains(value, " " + unit)
  {
    forall j: nat | j <= |value|
      ensures !OccursAt(" " + unit, value, j)
    {
      if OccursAt(" " + unit, value, j) {
        assert value[j + 1..j + 3] == unit;
        assert OccursAt(unit, value, j + 1);
      }
    }
  }

  /** The avatar palette. */
  const Palette: seq<string> :=
    ["#1976d2", "#388e3c", "#f57c00", "#d32f2f", "#7b1fa2", "#303f9f", "#455a64", "#00796b"]

  const TwoTo32: int := 0x1_0000_0000

  /** JavaScript's ToInt32: the integer congruent to `x` modulo 2^32 in [-2^31, 2^31). */
  function Int32(x: int): (r: int)
    ensures -0x8000_0000 <= r < 0x8000_0000
    ensures r == x - TwoTo32 * ((x + 0x8000_0000) / TwoTo32)
  {
    (x + 0x8000_0000) % TwoTo32 - 0x8000_0000
  }

  /** `hash << 5`. */
  function Shl5(hash: int): (r: int)
    ensures -0x8000_0000 <= r < 0x8000_0000
  {
    Int32(Int32(hash) * 32)
  }

  /** The value `getTeamColor` has in `hash` after reading `name`, one character code at a time. */
  function TeamHash(name: string): (h: int)
  {
    if name == [] then 0
    else
      var h := TeamHash(name[..|name| - 1]);
      name[|name| - 1] as int + (Shl5(h) - h)
  }

  function Abs(x: int): nat {
    if x < 0 then -x else x
  }

  /** `getTeamColor`: the loop folds the character codes into `hash`, and the name's colour is the
    * palette entry at `|hash| % 8`. */
  method GetTeamColor(teamName: string) returns (color: string)
    ensures color == Palette[Abs(TeamHash(teamName)) % |Palette|]
    ensures color in Palette
    ensures teamName == [] ==> color == Palette[0]
  {
    var hash := 0;
    var i := 0;
    while i < |teamName|
      invariant 0 <= i <= |teamName|
      invariant hash == TeamHash(teamName[..i])
    {
      assert teamName[..i + 1][..i] == teamName[..i];
      hash := teamName[i] as int + (Shl5(hash) - hash);
      i := i + 1;
    }
    assert teamName[..i] == teamName;
    color := Palette[Abs(hash) % |Palette|];
  }

  /** The hash multiplies by 31 and adds each code, like Java's `String.hashCode`. */
  function PolynomialHash(name: string): (h: int)
  {
    if name == [] then 0
    else 31 * PolynomialHash(name[..|name| - 1]) + name[|name| - 1] as int
  }

  /** `(hash << 5) - hash` is 31 times the hash modulo 2^32, so the loop computes the polynomial hash
    * up to a multiple of 2^32. */
  lemma {:induction false} TeamHashIsPolynomial(name: string) returns (k: int)
    ensures TeamHash(name) == PolynomialHash(name) + TwoTo32 * k
  {
    if name == [] {
      k := 0;
    } else {
      var prefix := name[..|name| - 1];
      var c := name[|name| - 1] as int;
      var k0 := TeamHashIsPolynomial(prefix);
      var h := TeamHash(prefix);
      var q1 := (h + 0x8000_0000) / TwoTo32;
      var x := Int32(h) * 32;
      var q2 := (x + 0x8000_0000) / TwoTo32;
      assert Int32(h) == h - TwoTo32 * q1;
      assert Shl5(h) == x - TwoTo32 * q2;
      assert x == 32 * h - TwoTo32 * (32 * q1);
      k := 31 * k0 - 32 * q1 - q2;
      assert TeamHash(name) == c + 31 * h - TwoTo32 * (32 * q1 + q2);
      assert 31 * h == 31 * PolynomialHash(prefix) + TwoTo32 * (31 * k0);
    }
  }

  /** `truncateText`: the text when it fits, else its first `maxLength` characters (none when
    * `maxLength` is negative, as `substring` clamps) followed by "...". */
  function TruncateText(text: string, maxLength: int): (r: string)
    ensures |text| <= maxLength ==> r == text
    ensures |text| > maxLength ==>
      |r| == (if maxLength < 0 then 0 else maxLength) + 3 &&
      r == text[..|r| - 3] + "..."
  {
    if |text| <= maxLength then text
    else
      var n := if maxLength < 0 then 0 else maxLength;
      text[..n] + "..."
  }
}
