/** `StandingsService.analyzeMatchesPlayed` (src/services/api/standingsService.ts): the fewest,
  * most and average matches played in a league table, and the teams behind the average. The
  * original table is a value here, so it cannot be changed by the analysis. */
module StandingsService {
  import PyLoops

  datatype Analysis<T> = Analysis(
    minMatches: int, maxMatches: int, averageMatches: real, teamsWithDelayedMatches: seq<T>)

  /** `Math.min(...xs)` of a non-empty list. */
  function MinOf(xs: seq<int>): (m: int)
    requires xs != []
    ensures m in xs
    ensures forall i :: 0 <= i < |xs| ==> m <= xs[i]
  {
    if |xs| == 1 then xs[0]
    else
      var rest := MinOf(xs[1..]);
      if xs[0] <= rest then xs[0] else rest
  }

  /** `Math.max(...xs)` of a non-empty list. */
  function MaxOf(xs: seq<int>): (m: int)
    requires xs != []
    ensures m in xs
    ensures forall i :: 0 <= i < |xs| ==> xs[i] <= m
  {
    if |xs| == 1 then xs[0]
    else
      var rest := MaxOf(xs[1..]);
      if xs[0] >= rest then xs[0] else rest
  }

  /** `reduce((sum, m) => sum + m, 0)`. */
  function Sum(xs: seq<int>): int {
    if xs == [] then 0 else Sum(xs[..|xs| - 1]) + xs[|xs| - 1]
  }

  /** The mean of a non-empty list: multiplied by the length it gives back the sum. */
  function Mean(xs: seq<int>): (m: real)
    requires xs != []
    ensures m * |xs| as real == Sum(xs) as real
  {
    Sum(xs) as real / |xs| as real
  }

  /** `standings.map(team => team.all.played)`. */
  function PlayedCounts<T>(standings: seq<T>, played: T -> int): (xs: seq<int>)
    ensures |xs| == |standings|
    ensures forall i :: 0 <= i < |xs| ==> xs[i] == played(standings[i])
  {
    seq(|standings|, i requires 0 <= i < |standings| => played(standings[i]))
  }

  /** `analyzeMatchesPlayed`: zeros and no team for an empty table; otherwise the fewest and most
    * matches of any team, the mean number of matches (the source shows it rounded to one decimal,
    * which is not modelled), and, in table order, the teams that played fewer matches than the
    * mean rounded down. */
  function AnalyzeMatchesPlayed<T>(standings: seq<T>, played: T -> int): (r: Analysis<T>)
    ensures standings == [] ==> r == Analysis(0, 0, 0.0, [])
    ensures standings != [] ==>
      r.minMatches == MinOf(PlayedCounts(standings, played)) &&
      r.maxMatches == MaxOf(PlayedCounts(standings, played)) &&
      r.averageMatches == Mean(PlayedCounts(standings, played))
    ensures r.teamsWithDelayedMatches == PyLoops.Filter(Behind(played, r.averageMatches.Floor), standings)
  {
    if standings == [] then Analysis(0, 0, 0.0, [])
    else
      var xs := PlayedCounts(standings, played);
      var average := Mean(xs);
      Analysis(MinOf(xs), MaxOf(xs), average, PyLoops.Filter(Behind(played, average.Floor), standings))
  }

  /** `team => team.all.played < bound`. */
  function Behind<T>(played: T -> int, bound: int): (p: T -> bool)
  {
    (t: T) => played(t) < bound
  }

  lemma {:induction false} SumBounds(xs: seq<int>, lo: int, hi: int)
    requires forall i :: 0 <= i < |xs| ==> lo <= xs[i] <= hi
    ensures lo * |xs| <= Sum(xs) <= hi * |xs|
  {
    if xs != [] {
      SumBounds(xs[..|xs| - 1], lo, hi);
      assert lo * |xs| == lo * (|xs| - 1) + lo;
      assert hi * |xs| == hi * (|xs| - 1) + hi;
    }
  }

  /** The mean lies between the fewest and the most matches played. */
  lemma AverageBetweenMinAndMax<T>(standings: seq<T>, played: T -> int)
    requires standings != []
    ensures var r := AnalyzeMatchesPlayed(standings, played);
      r.minMatches as real <= r.averageMatches <= r.maxMatches as real
  {
    var xs := PlayedCounts(standings, played);
    SumBounds(xs, MinOf(xs), MaxOf(xs));
    QuotientBetween(MinOf(xs), MaxOf(xs), Sum(xs), |xs|);
  }

  lemma QuotientBetween(lo: int, hi: int, total: int, n: int)
    requires n > 0 && lo * n <= total <= hi * n
    ensures lo as real <= total as real / n as real <= hi as real
  {
  }

  /** When every team has played the same number of matches, no team is behind. */
  lemma {:induction false} NoDelayWhenLevel<T>(standings: seq<T>, played: T -> int, v: int)
    requires forall i :: 0 <= i < |standings| ==> played(standings[i]) == v
    ensures AnalyzeMatchesPlayed(standings, played).teamsWithDelayedMatches == []
  {
    if standings != [] {
      var xs := PlayedCounts(standings, played);
      SumBounds(xs, v, v);
      QuotientBetween(v, v, Sum(xs), |xs|);
      var r := AnalyzeMatchesPlayed(standings, played);
      assert r.averageMatches == v as real;
      assert r.averageMatches.Floor == v;
      PyLoops.FilterNone(Behind(played, v), standings);
    }
  }
}
