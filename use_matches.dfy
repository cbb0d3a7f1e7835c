/** The pure part of the `useMatches` hook (src/hooks/useMatches.ts): sorting a copy of the match
  * list, the filter chain behind `filteredMatches`, and the counters in `stats`. The team and date
  * filters the hook imports, and the locale's collation of team names, are parameters: their
  * definitions are not part of this model. */
module UseMatches {
  import opened Wrappers
  import PyLoops
  import StableSort

  /** The fields of a `MatchData` the hook reads. */
  datatype MatchItem = MatchItem(id: int, timestamp: int, homeName: string, awayName: string, status: string)

  function Timestamp(m: MatchItem): int {
    m.timestamp
  }

  /** The position of the home team's name in the locale's order (`localeCompare`). */
  function HomeOrder(collate: string -> int): MatchItem -> int {
    (m: MatchItem) => collate(m.homeName)
  }

  function AwayOrder(collate: string -> int): MatchItem -> int {
    (m: MatchItem) => collate(m.awayName)
  }

  /** `sortMatches`: a sorted copy. 'date' orders by ascending kick-off time, 'date-desc' by
    * descending time, 'team-home' and 'team-away' by the locale's order of the home or away
    * team's name; the library sort is stable. Any other option leaves the order as it is. */
  function SortMatches(matches: seq<MatchItem>, sortOption: string, collate: string -> int): (r: seq<MatchItem>)
    ensures multiset(r) == multiset(matches)
    ensures sortOption == "date" ==> StableSort.NonDecreasing(r, Timestamp)
    ensures sortOption == "date-desc" ==> StableSort.NonIncreasing(r, Timestamp)
    ensures sortOption == "team-home" ==> StableSort.NonDecreasing(r, HomeOrder(collate))
    ensures sortOption == "team-away" ==> StableSort.NonDecreasing(r, AwayOrder(collate))
    ensures sortOption !in {"date", "date-desc", "team-home", "team-away"} ==> r == matches
  {
    match sortOption
    case "date" =>
      StableSort.SortAscOrdered(matches, Timestamp);
      StableSort.SortAsc(matches, Timestamp)
    case "date-desc" =>
      StableSort.SortDescOrdered(matches, Timestamp);
      StableSort.SortDesc(matches, Timestamp)
    case "team-home" =>
      StableSort.SortAscOrdered(matches, HomeOrder(collate));
      StableSort.SortAsc(matches, HomeOrder(collate))
    case "team-away" =>
      StableSort.SortAscOrdered(matches, AwayOrder(collate));
      StableSort.SortAsc(matches, AwayOrder(collate))
    case _ => matches
  }

  /** Matches kicking off at the same time keep their order under either date sort. */
  lemma DateSortsKeepTies(matches: seq<MatchItem>, collate: string -> int, t: int)
    ensures StableSort.WithKey(SortMatches(matches, "date", collate), Timestamp, t) ==
            StableSort.WithKey(matches, Timestamp, t)
    ensures StableSort.WithKey(SortMatches(matches, "date-desc", collate), Timestamp, t) ==
            StableSort.WithKey(matches, Timestamp, t)
  {
    StableSort.SortAscStable(matches, Timestamp, t);
    StableSort.SortDescStable(matches, Timestamp, t);
  }

  /** The hook's filters; dates are instants in milliseconds. */
  datatype MatchFilters = MatchFilters(
    teamId: Option<int>, startDate: Option<int>, endDate: Option<int>, status: Option<string>)

  /** The match status a status filter keeps: finished for 'recent' and 'finished', scheduled for
    * 'upcoming' and 'scheduled', live for 'live'; 'all', an absent filter and any other value keep
    * everything. */
  function WantedStatus(filter: Option<string>): (wanted: Option<string>)
    ensures wanted == Some("finished") <==> filter == Some("recent") || filter == Some("finished")
    ensures wanted == Some("scheduled") <==> filter == Some("upcoming") || filter == Some("scheduled")
    ensures wanted == Some("live") <==> filter == Some("live")
    ensures wanted.None? <==>
      filter.None? || filter.value !in {"recent", "finished", "upcoming", "scheduled", "live"}
  {
    if filter.None? then None
    else
      match filter.value
      case "recent" => Some("finished")
      case "finished" => Some("finished")
      case "upcoming" => Some("scheduled")
      case "scheduled" => Some("scheduled")
      case "live" => Some("live")
      case _ => None
  }

  function HasStatus(status: string): MatchItem -> bool {
    (m: MatchItem) => m.status == status
  }

  /** `result.filter(match => match.status === wanted)` when a status is wanted. */
  function ByStatus(matches: seq<MatchItem>, wanted: Option<string>): (r: seq<MatchItem>)
    ensures wanted.None? ==> r == matches
    ensures wanted.Some? ==> r == PyLoops.Filter(HasStatus(wanted.value), matches)
  {
    if wanted.None? then matches else PyLoops.Filter(HasStatus(wanted.value), matches)
  }

  /** The team filter when a (non-zero) team is set, then the date filter when both ends are set. */
  function Narrowed(allMatches: seq<MatchItem>, filters: MatchFilters,
                    byTeam: (seq<MatchItem>, int) -> seq<MatchItem>,
                    byDates: (seq<MatchItem>, int, int) -> seq<MatchItem>): seq<MatchItem>
  {
    var afterTeam :=
      if filters.teamId.Some? && filters.teamId.value != 0 then byTeam(allMatches, filters.teamId.value)
      else allMatches;
    if filters.startDate.Some? && filters.endDate.Some?
    then byDates(afterTeam, filters.startDate.value, filters.endDate.value)
    else afterTeam
  }

  /** `filteredMatches`: the team and date filters (`Narrowed`), then the status filter, then the
    * sort. Whatever the two imported filters return, every match left has the wanted status, and
    * it is a match those filters left. */
  function FilteredMatches(allMatches: seq<MatchItem>, filters: MatchFilters, sortBy: string,
                           collate: string -> int,
                           byTeam: (seq<MatchItem>, int) -> seq<MatchItem>,
                           byDates: (seq<MatchItem>, int, int) -> seq<MatchItem>): (r: seq<MatchItem>)
    ensures multiset(r) == multiset(ByStatus(Narrowed(allMatches, filters, byTeam, byDates), WantedStatus(filters.status)))
    ensures WantedStatus(filters.status).Some? ==>
      forall i :: 0 <= i < |r| ==> r[i].status == WantedStatus(filters.status).value
    ensures filters == MatchFilters(None, None, None, None) ==> multiset(r) == multiset(allMatches)
    ensures sortBy == "date" ==> StableSort.NonDecreasing(r, Timestamp)
    ensures sortBy == "date-desc" ==> StableSort.NonIncreasing(r, Timestamp)
    ensures sortBy == "team-home" ==> StableSort.NonDecreasing(r, HomeOrder(collate))
    ensures sortBy == "team-away" ==> StableSort.NonDecreasing(r, AwayOrder(collate))
    ensures sortBy !in {"date", "date-desc", "team-home", "team-away"} ==>
      r == ByStatus(Narrowed(allMatches, filters, byTeam, byDates), WantedStatus(filters.status))
    ensures r == SortMatches(ByStatus(Narrowed(allMatches, filters, byTeam, byDates), WantedStatus(filters.status)),
                             sortBy, collate)
  {
    var wanted := WantedStatus(filters.status);
    var kept := ByStatus(Narrowed(allMatches, filters, byTeam, byDates), wanted);
    var r := SortMatches(kept, sortBy, collate);
    PermutationKeepsStatus(kept, r, wanted);
    r
  }

  /** A permutation of the status filter's output still has only the wanted status. */
  lemma PermutationKeepsStatus(kept: seq<MatchItem>, r: seq<MatchItem>, wanted: Option<string>)
    requires wanted.Some? ==> forall i :: 0 <= i < |kept| ==> kept[i].status == wanted.value
    requires multiset(r) == multiset(kept)
    ensures wanted.Some? ==> forall i :: 0 <= i < |r| ==> r[i].status == wanted.value
  {
    forall i | 0 <= i < |r|
      ensures wanted.Some? ==> r[i].status == wanted.value
    {
      assert r[i] in multiset(kept);
    }
  }

  /** `stats`. */
  datatype MatchStats = MatchStats(total: nat, recent: nat, upcoming: nat, live: nat, finished: nat)

  /** `stats`: the sizes of the three lists, and the numbers of live and finished matches among
    * all of them. */
  function StatsOf(allMatches: seq<MatchItem>, recentMatches: seq<MatchItem>,
                   upcomingMatches: seq<MatchItem>): (s: MatchStats)
    ensures s.total == |allMatches| && s.recent == |recentMatches| && s.upcoming == |upcomingMatches|
    ensures s.live == |PyLoops.Filter(HasStatus("live"), allMatches)|
    ensures s.finished == |PyLoops.Filter(HasStatus("finished"), allMatches)|
    ensures s.live + s.finished <= s.total
  {
    CountsDisjoint(allMatches, "live", "finished");
    MatchStats(|allMatches|, |recentMatches|, |upcomingMatches|,
               |PyLoops.Filter(HasStatus("live"), allMatches)|,
               |PyLoops.Filter(HasStatus("finished"), allMatches)|)
  }

  /** No match is counted under two different statuses. */
  lemma {:induction false} CountsDisjoint(s: seq<MatchItem>, a: string, b: string)
    requires a != b
    ensures |PyLoops.Filter(HasStatus(a), s)| + |PyLoops.Filter(HasStatus(b), s)| <= |s|
    decreases |s|
  {
    if s != [] {
      CountsDisjoint(s[..|s| - 1], a, b);
    }
  }
}
