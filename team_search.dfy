/** The team search bar (src/components/Search/TeamSearchBar.tsx): the search box filters a fixed
  * list of eight teams by name or country, ignoring case, once at least two characters are typed. */
module TeamSearch {
  import Text
  import PyLoops

  datatype MockTeam = MockTeam(id: int, name: string, country: string)

  /** The teams the bar searches, in display order. */
  const MockTeams: seq<MockTeam> := [
    MockTeam(85, "Paris Saint-Germain", "France"),
    MockTeam(79, "Olympique de Marseille", "France"),
    MockTeam(80, "Olympique Lyonnais", "France"),
    MockTeam(84, "OGC Nice", "France"),
    MockTeam(541, "Real Madrid", "Spain"),
    MockTeam(529, "FC Barcelona", "Spain"),
    MockTeam(50, "Manchester City", "England"),
    MockTeam(42, "Arsenal", "England")
  ]

  /** The team's lower-cased name or country contains the lower-cased query. */
  predicate Matches(query: string, team: MockTeam) {
    Text.Contains(Text.Lower(team.name), Text.Lower(query)) ||
    Text.Contains(Text.Lower(team.country), Text.Lower(query))
  }

  function MatchesQuery(query: string): MockTeam -> bool {
    (team: MockTeam) => Matches(query, team)
  }

  /** The teams `handleSearch` lists for `value`: none for a query of at most one character,
    * otherwise the matching teams in list order. */
  function SearchResults(value: string): (r: seq<MockTeam>)
    ensures |value| <= 1 ==> r == []
    ensures forall i :: 0 <= i < |r| ==> r[i] in MockTeams && Matches(value, r[i])
  {
    if |value| > 1 then PyLoops.Filter(MatchesQuery(value), MockTeams) else []
  }

  /** A query of two characters or more finds every team it matches, and only those. */
  lemma SearchFindsExactlyTheMatches(value: string, team: MockTeam)
    requires |value| > 1
    ensures team in SearchResults(value) <==> team in MockTeams && Matches(value, team)
  {
    PyLoops.FilterMember(MatchesQuery(value), MockTeams, team);
  }

  /** The results keep the list's order: each result sits at a position of the team list, and the
    * positions increase. */
  lemma SearchKeepsListOrder(value: string)
    ensures exists idx: seq<nat> ::
      |idx| == |SearchResults(value)| &&
      (forall k :: 0 <= k < |idx| ==> idx[k] < |MockTeams| && MockTeams[idx[k]] == SearchResults(value)[k]) &&
      (forall k, l :: 0 <= k < l < |idx| ==> idx[k] < idx[l])
  {
    if |value| > 1 {
      var idx := PyLoops.FilterIndices(MatchesQuery(value), MockTeams);
      assert |idx| == |SearchResults(value)|;
    } else {
      var idx: seq<nat> := [];
      assert |idx| == |SearchResults(value)|;
    }
  }

  /** The query and the listed teams, the two pieces of state of the component. */
  class SearchBar {
    var searchTerm: string
    var filteredTeams: seq<MockTeam>

    constructor()
      ensures searchTerm == "" && filteredTeams == []
    {
      searchTerm := "";
      filteredTeams := [];
    }

    /** `handleSearch`: the box always shows the latest input, and the list becomes its results. */
    method HandleSearch(value: string)
      modifies this
      ensures searchTerm == value
      ensures filteredTeams == SearchResults(value)
    {
      searchTerm := value;
      if |value| > 1 {
        filteredTeams := PyLoops.Filter(MatchesQuery(value), MockTeams);
      } else {
        filteredTeams := [];
      }
    }
  }
}
