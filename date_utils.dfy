/** `getRelativeTime` of src/utils/dateUtils.ts: the French label for how many days a date lies from
  * now. Both instants are given in milliseconds since the epoch; the clock reading is a parameter. */
module DateUtils {
  import Text

  const DayMs: int := 1000 * 60 * 60 * 24

  /** `Math.floor((date - now) / DayMs)`: whole days, rounded down. */
  function DiffDays(dateMs: int, nowMs: int): (d: int)
    ensures d * DayMs <= dateMs - nowMs < (d + 1) * DayMs
  {
    (dateMs - nowMs) / DayMs
  }

  /** 0 is "Aujourd'hui", 1 "Demain", -1 "Hier"; later days read "Dans n jours" and earlier ones
    * "Il y a n jours", where the plural 's' is written only for more than one day. */
  function RelativeTime(dateMs: int, nowMs: int): (s: string)
    ensures DiffDays(dateMs, nowMs) == 0 ==> s == "Aujourd'hui"
    ensures DiffDays(dateMs, nowMs) == 1 ==> s == "Demain"
    ensures DiffDays(dateMs, nowMs) == -1 ==> s == "Hier"
    ensures DiffDays(dateMs, nowMs) >= 2 ==>
      s == "Dans " + Text.IntToString(DiffDays(dateMs, nowMs)) + " jours"
    ensures DiffDays(dateMs, nowMs) <= -2 ==>
      s == "Il y a " + Text.IntToString(-DiffDays(dateMs, nowMs)) + " jours"
  {
    var d := DiffDays(dateMs, nowMs);
    if d == 0 then "Aujourd'hui"
    else if d == 1 then "Demain"
    else if d == -1 then "Hier"
    else if d > 0 then "Dans " + Text.IntToString(d) + " jour" + (if d > 1 then "s" else "")
    else
      var a := -d;
      "Il y a " + Text.IntToString(a) + " jour" + (if a > 1 then "s" else "")
  }

  /** Because the difference is rounded down, every instant in the 24 hours before now is "Hier",
    * and nothing else is: not even a moment ago counts as today. */
  lemma YesterdayIsTheLastDay(dateMs: int, nowMs: int)
    ensures RelativeTime(dateMs, nowMs) == "Hier" <==> nowMs - DayMs <= dateMs < nowMs
  {
    var d := DiffDays(dateMs, nowMs);
    if nowMs - DayMs <= dateMs < nowMs {
      assert d == -1;
    } else if d > 1 {
      var s := RelativeTime(dateMs, nowMs);
      assert s[0] == 'D';
    } else if d < -1 {
      var s := RelativeTime(dateMs, nowMs);
      assert s[0] == 'I';
    }
  }

  /** "Aujourd'hui" covers exactly the next 24 hours from now, now included. */
  lemma TodayIsTheNextDay(dateMs: int, nowMs: int)
    ensures RelativeTime(dateMs, nowMs) == "Aujourd'hui" <==> nowMs <= dateMs < nowMs + DayMs
  {
    var d := DiffDays(dateMs, nowMs);
    if nowMs <= dateMs < nowMs + DayMs {
      assert d == 0;
    } else if d > 1 {
      var s := RelativeTime(dateMs, nowMs);
      assert s[0] == 'D';
    } else if d < -1 {
      var s := RelativeTime(dateMs, nowMs);
      assert s[0] == 'I';
    }
  }
}
