/** The matches page (src/pages/Matches.tsx): the three match lists kept per tab, how one tab is
  * (re)loaded, the grouping of a list by league, and the expanded/collapsed state of each league's
  * section. The league of the page and the answers of the match services are parameters. */
module MatchesPage {
  import opened Wrappers
  import PyLoops
  import Formatters

  datatype League = League(id: int, name: string, round: string)

  /** The fields of a listed match the page groups by. */
  datatype ListedMatch = ListedMatch(id: int, status: string, league: League)

  datatype Tab = Live | Upcoming | Recent

  /** The simulated live matches the 'live' tab shows: Paris Saint Germain - Olympique Marseille in
    * Ligue 1 and Real Madrid - Barcelona in La Liga. */
  const MockLiveMatches: seq<ListedMatch> := [
    ListedMatch(999, "live", League(61, "Ligue 1", "Journée 15")),
    ListedMatch(998, "live", League(140, "La Liga", "El Clasico"))
  ]

  /** One section of the page: the league record and its matches. */
  datatype Group = Group(league: League, matches: seq<ListedMatch>)

  function InLeague(id: int): ListedMatch -> bool {
    (m: ListedMatch) => m.league.id == id
  }

  /** What `groupMatchesByLeague` builds from `matchList`, one match after the other: a match of a
    * league not seen yet opens its group with its own league record; any other match is appended
    * to its league's group. */
  function GroupBy(matchList: seq<ListedMatch>): (grouped: map<int, Group>)
    decreases |matchList|
  {
    if matchList == [] then map[]
    else
      var grouped := GroupBy(matchList[..|matchList| - 1]);
      var m := matchList[|matchList| - 1];
      if m.league.id in grouped then
        grouped[m.league.id := Group(grouped[m.league.id].league, grouped[m.league.id].matches + [m])]
      else grouped[m.league.id := Group(m.league, [m])]
  }

  /** `groupMatchesByLeague`. */
  method GroupMatchesByLeague(matchList: seq<ListedMatch>) returns (grouped: map<int, Group>)
    ensures grouped == GroupBy(matchList)
  {
    grouped := map[];
    var i := 0;
    while i < |matchList|
      invariant 0 <= i <= |matchList|
      invariant grouped == GroupBy(matchList[..i])
    {
      var m := matchList[i];
      ghost var before := grouped;
      ghost var id := m.league.id;
      assert matchList[..i + 1][..i] == matchList[..i];
      assert matchList[..i + 1][i] == m;
      assert GroupBy(matchList[..i + 1]) ==
        if id in before then before[id := Group(before[id].league, before[id].matches + [m])]
        else before[id := Group(m.league, [m])];
      if m.league.id !in grouped {
        grouped := grouped[m.league.id := Group(m.league, [])];
      }
      grouped := grouped[m.league.id := Group(grouped[m.league.id].league, grouped[m.league.id].matches + [m])];
      assert id !in before ==> grouped == before[id := Group(m.league, [] + [m])];
      assert [] + [m] == [m];
      i := i + 1;
    }
    assert matchList[..i] == matchList;
  }

  /** A league has a group exactly when one of its matches is listed, and its group holds exactly
    * the listed matches of that league, in list order. */
  lemma {:induction false} GroupHoldsItsLeague(matchList: seq<ListedMatch>, id: int)
    ensures id in GroupBy(matchList) <==> exists i :: 0 <= i < |matchList| && matchList[i].league.id == id
    ensures id in GroupBy(matchList) ==>
      GroupBy(matchList)[id].matches == PyLoops.Filter(InLeague(id), matchList)
    decreases |matchList|
  {
    if matchList != [] {
      var p := matchList[..|matchList| - 1];
      var m := matchList[|matchList| - 1];
      GroupHoldsItsLeague(p, id);
      if id in GroupBy(matchList) && id !in GroupBy(p) {
        assert m.league.id == id;
        assert PyLoops.Filter(InLeague(id), p) == [] by {
          PyLoops.FilterNone(InLeague(id), p);
        }
      }
      if exists i :: 0 <= i < |p| && p[i].league.id == id {
        var i :| 0 <= i < |p| && p[i].league.id == id;
        assert matchList[i] == p[i];
      }
    }
  }

  /** Each group's league record is the one of its first match. */
  lemma {:induction false} GroupLeagueIsFirstMatch(matchList: seq<ListedMatch>, id: int)
    requires id in GroupBy(matchList)
    ensures exists i :: 0 <= i < |matchList| && matchList[i].league.id == id &&
                        GroupBy(matchList)[id].league == matchList[i].league &&
                        forall j :: 0 <= j < i ==> matchList[j].league.id != id
    decreases |matchList|
  {
    var p := matchList[..|matchList| - 1];
    var m := matchList[|matchList| - 1];
    if id in GroupBy(p) {
      assert GroupBy(matchList)[id].league == GroupBy(p)[id].league;
      GroupLeagueIsFirstMatch(p, id);
      var i :| 0 <= i < |p| && p[i].league.id == id && GroupBy(p)[id].league == p[i].league &&
        forall j :: 0 <= j < i ==> p[j].league.id != id;
      assert matchList[i] == p[i];
      assert forall j :: 0 <= j < i ==> matchList[j] == p[j];
    } else {
      assert m.league.id == id && GroupBy(matchList)[id].league == m.league;
      GroupHoldsItsLeague(p, id);
      assert forall j :: 0 <= j < |p| ==> matchList[j] == p[j] && p[j].league.id != id;
      assert matchList[|p|] == m;
    }
  }

  predicate Distinct(ids: seq<int>) {
    forall i, j :: 0 <= i < j < |ids| ==> ids[i] != ids[j]
  }

  /** The number of listed matches of each league of `ids`, added up. */
  function CountOver(ids: seq<int>, matchList: seq<ListedMatch>): (n: nat)
  {
    if ids == [] then 0 else |PyLoops.Filter(InLeague(ids[0]), matchList)| + CountOver(ids[1..], matchList)
  }

  /** When `ids` lists every league once, the per-league counts add up to the length of the list. */
  lemma {:induction false} CountsPartition(ids: seq<int>, matchList: seq<ListedMatch>)
    requires Distinct(ids)
    requires forall i :: 0 <= i < |matchList| ==> matchList[i].league.id in ids
    ensures CountOver(ids, matchList) == |matchList|
    decreases |matchList|
  {
    if matchList == [] {
      CountOverEmpty(ids);
    } else {
      var p := matchList[..|matchList| - 1];
      assert forall i :: 0 <= i < |p| ==> p[i] == matchList[i];
      CountsPartition(ids, p);
      CountOverLast(ids, matchList);
    }
  }

  /** The count over a list is the count over all but its last match, plus one when that match's
    * league is listed. */
  lemma {:induction false} CountOverLast(ids: seq<int>, matchList: seq<ListedMatch>)
    requires Distinct(ids) && matchList != []
    ensures var m := matchList[|matchList| - 1];
      CountOver(ids, matchList) == CountOver(ids, matchList[..|matchList| - 1]) + (if m.league.id in ids then 1 else 0)
  {
    if ids != [] {
      var m := matchList[|matchList| - 1];
      assert Distinct(ids[1..]);
      CountOverLast(ids[1..], matchList);
      assert m.league.id in ids <==> m.league.id == ids[0] || m.league.id in ids[1..];
      assert ids[0] !in ids[1..];
    }
  }

  lemma {:induction false} CountOverEmpty(ids: seq<int>)
    ensures CountOver(ids, []) == 0
  {
    if ids != [] {
      CountOverEmpty(ids[1..]);
    }
  }

  /** The sizes of the groups of the listed leagues, added up. */
  function GroupSizes(grouped: map<int, Group>, ids: seq<int>): (n: nat)
    requires forall k :: 0 <= k < |ids| ==> ids[k] in grouped
  {
    if ids == [] then 0 else |grouped[ids[0]].matches| + GroupSizes(grouped, ids[1..])
  }

  lemma {:induction false} GroupSizesAreCounts(matchList: seq<ListedMatch>, ids: seq<int>)
    requires forall k :: 0 <= k < |ids| ==> ids[k] in GroupBy(matchList)
    ensures GroupSizes(GroupBy(matchList), ids) == CountOver(ids, matchList)
  {
    if ids != [] {
      GroupHoldsItsLeague(matchList, ids[0]);
      GroupSizesAreCounts(matchList, ids[1..]);
    }
  }

  /** The groups split the list: over the leagues of the grouping, each taken once, the group
    * sizes add up to the number of listed matches. */
  lemma GroupsPartitionTheList(matchList: seq<ListedMatch>, ids: seq<int>)
    requires Distinct(ids)
    requires forall k :: 0 <= k < |ids| ==> ids[k] in GroupBy(matchList)
    requires forall id :: id in GroupBy(matchList) ==> id in ids
    ensures GroupSizes(GroupBy(matchList), ids) == |matchList|
  {
    GroupSizesAreCounts(matchList, ids);
    forall i | 0 <= i < |matchList|
      ensures matchList[i].league.id in ids
    {
      GroupHoldsItsLeague(matchList, matchList[i].league.id);
    }
    CountsPartition(ids, matchList);
  }

  /** `isExpanded`: a section is open unless its stored flag is exactly false. */
  function IsExpandedIn(expanded: map<int, bool>, leagueId: int): (b: bool)
    ensures !b <==> leagueId in expanded && !expanded[leagueId]
  {
    !(leagueId in expanded && expanded[leagueId] == false)
  }

  /** The flags after `toggleLeagueExpanded` as written: the negation of the stored flag, an
    * absent flag reading as `undefined`, so `!undefined` stores true. */
  function ToggledAsWritten(expanded: map<int, bool>, leagueId: int): (r: map<int, bool>)
    ensures leagueId in r && r[leagueId] == !(leagueId in expanded && expanded[leagueId])
    ensures forall id :: id != leagueId ==> (id in r <==> id in expanded) && (id in expanded ==> r[id] == expanded[id])
  {
    expanded[leagueId := !(leagueId in expanded && expanded[leagueId])]
  }

  /** The first click on a section that was never toggled stores true: the section was open and
    * stays open, so the click has no visible effect; it takes a second click to close it. */
  lemma FirstToggleChangesNothing(expanded: map<int, bool>, leagueId: int)
    requires leagueId !in expanded
    ensures IsExpandedIn(expanded, leagueId) && IsExpandedIn(ToggledAsWritten(expanded, leagueId), leagueId)
    ensures !IsExpandedIn(ToggledAsWritten(ToggledAsWritten(expanded, leagueId), leagueId), leagueId)
  {
  }

  /** The flags after the intended toggle: the negation of what the section shows. */
  function Flipped(expanded: map<int, bool>, leagueId: int): (r: map<int, bool>)
    ensures IsExpandedIn(r, leagueId) == !IsExpandedIn(expanded, leagueId)
    ensures forall id :: id != leagueId ==> IsExpandedIn(r, id) == IsExpandedIn(expanded, id)
  {
    expanded[leagueId := !IsExpandedIn(expanded, leagueId)]
  }

  /** Every click on a section opens or closes it, and two clicks restore what is shown. */
  lemma FlipInverts(expanded: map<int, bool>, leagueId: int, other: int)
    ensures IsExpandedIn(Flipped(Flipped(expanded, leagueId), leagueId), other) == IsExpandedIn(expanded, other)
  {
  }

  /** The league the page loads: the selected league of the context, else the one of the route
    * (`parseInt` of a non-empty parameter, None being NaN), else none. */
  function TargetLeague(currentLeagueId: Option<int>, routeLeagueId: Option<string>): (r: Option<Option<int>>)
    ensures currentLeagueId.Some? ==> r == Some(currentLeagueId)
    ensures currentLeagueId.None? && routeLeagueId.Some? && routeLeagueId.value != "" ==>
      r == Some(Formatters.ParseInt(routeLeagueId.value))
    ensures r.None? <==> currentLeagueId.None? && (routeLeagueId.None? || routeLeagueId == Some(""))
  {
    if currentLeagueId.Some? then Some(currentLeagueId)
    else if routeLeagueId.Some? && routeLeagueId.value != "" then Some(Formatters.ParseInt(routeLeagueId.value))
    else None
  }

  /** The request a tab sends to the match service: the league (None: NaN) and the season. */
  datatype MatchRequest = MatchRequest(tab: Tab, leagueId: Option<int>, season: int)

  /** The message shown when loading a tab fails. */
  function LoadErrorMessage(tab: Tab): (s: string)
  {
    "Erreur lors du chargement des matchs " +
    (match tab case Live => "en cours" case Upcoming => "à venir" case Recent => "récents")
  }

  class MatchesPageState {
    var matches: map<Tab, seq<ListedMatch>>
    var expandedLeagues: map<int, bool>
    var loading: bool
    var error: Option<string>

    /** Every tab has its list. */
    predicate Valid()
      reads this
    {
      Live in matches && Upcoming in matches && Recent in matches
    }

    constructor()
      ensures Valid()
      ensures matches == map[Live := [], Upcoming := [], Recent := []]
      ensures expandedLeagues == map[] && !loading && error == None
    {
      matches := map[Live := [], Upcoming := [], Recent := []];
      expandedLeagues := map[];
      loading := false;
      error := None;
    }

    function IsExpanded(leagueId: int): (b: bool)
      reads this
      ensures b == IsExpandedIn(expandedLeagues, leagueId)
    {
      IsExpandedIn(expandedLeagues, leagueId)
    }

    /** `toggleLeagueExpanded` as written. */
    method ToggleLeagueExpanded(leagueId: int)
      modifies this
      ensures expandedLeagues == ToggledAsWritten(old(expandedLeagues), leagueId)
      ensures matches == old(matches) && loading == old(loading) && error == old(error)
    {
      expandedLeagues := expandedLeagues[leagueId := !(leagueId in expandedLeagues && expandedLeagues[leagueId])];
    }

    /** The toggle as intended: the section shown open is stored closed and the other way round. */
    method FlipLeagueExpanded(leagueId: int)
      modifies this
      ensures expandedLeagues == Flipped(old(expandedLeagues), leagueId)
      ensures IsExpanded(leagueId) == !old(IsExpanded(leagueId))
      ensures matches == old(matches) && loading == old(loading) && error == old(error)
    {
      expandedLeagues := expandedLeagues[leagueId := !IsExpanded(leagueId)];
    }

    /** `fetchMatches(tab, showLoading)` for the page's target league. The 'live' tab shows the
      * simulated list; 'upcoming' and 'recent' ask the service for season 2023 of the target
      * league (`reply`, None: the request failed) and stay empty without one. Only the tab's own
      * list is replaced; a failure keeps it and sets the tab's message. The loading flag is
      * touched only when `showLoading` is set, and is off afterwards. */
    method FetchMatches(tab: Tab, showLoading: bool, target: Option<Option<int>>,
                        reply: Option<seq<ListedMatch>>) returns (request: Option<MatchRequest>)
      requires Valid()
      modifies this
      ensures Valid()
      ensures request == (if tab != Live && target.Some? then Some(MatchRequest(tab, target.value, 2023)) else None)
      ensures tab == Live ==> matches == old(matches)[Live := MockLiveMatches] && error == None
      ensures tab != Live && target.None? ==> matches == old(matches)[tab := []] && error == None
      ensures request.Some? && reply.Some? ==> matches == old(matches)[tab := reply.value] && error == None
      ensures request.Some? && reply.None? ==>
        matches == old(matches) && error == Some(LoadErrorMessage(tab))
      ensures forall t :: t != tab ==> t in matches && matches[t] == old(matches)[t]
      ensures loading == (if showLoading then false else old(loading))
      ensures expandedLeagues == old(expandedLeagues)
    {
      if showLoading {
        loading := true;
      }
      error := None;
      request := None;
      var data: seq<ListedMatch> := [];
      var failed := false;
      match tab {
        case Live =>
          data := MockLiveMatches;
        case Upcoming =>
          if target.Some? {
            request := Some(MatchRequest(tab, target.value, 2023));
            if reply.Some? { data := reply.value; } else { failed := true; }
          }
        case Recent =>
          if target.Some? {
            request := Some(MatchRequest(tab, target.value, 2023));
            if reply.Some? { data := reply.value; } else { failed := true; }
          }
      }
      if failed {
        error := Some(LoadErrorMessage(tab));
      } else {
        matches := matches[tab := data];
      }
      if showLoading {
        loading := false;
      }
    }
  }
}
