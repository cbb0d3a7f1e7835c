/** The breadcrumb trail (src/components/UI/BreadcrumbNavigation.tsx): from the current pathname,
  * the list of crumbs shown above the page. Icons are named rather than rendered. */
module Breadcrumbs {
  import opened Wrappers
  import Text

  datatype Icon = HomeIcon | TrophyIcon | TeamsIcon | MatchesIcon

  datatype RouteInfo = RouteInfo(title: string, icon: Icon, color: string)

  /** One crumb; `isActive` is None where the source leaves the property out. */
  datatype Crumb = Crumb(title: string, path: string, icon: Icon, color: string, isActive: Option<bool>)

  /** The routes that have a crumb of their own. */
  const RouteMapping: map<string, RouteInfo> := map[
    "/" := RouteInfo("Accueil", HomeIcon, "#1976d2"),
    "/leagues" := RouteInfo("Championnats", TrophyIcon, "#FFD700"),
    "/teams" := RouteInfo("Équipes", TeamsIcon, "#4CAF50"),
    "/matches" := RouteInfo("Matchs", MatchesIcon, "#2196F3"),
    "/league/:id/standings" := RouteInfo("Classement", TrophyIcon, "#FFD700")
  ]

  /** The display names of the five leagues the application knows, by id. */
  const LeagueNames: map<string, string> := map[
    "61" := "Ligue 1 🇫🇷",
    "39" := "Premier League 🇬🇧",
    "140" := "La Liga 🇪🇸",
    "135" := "Serie A 🇮🇹",
    "78" := "Bundesliga 🇩🇪"
  ]

  const HomeCrumb := Crumb("Accueil", "/", HomeIcon, "#1976d2", None)
  const LeaguesCrumb := Crumb("Championnats", "/leagues", TrophyIcon, "#FFD700", None)

  /** The non-empty parts of the pathname between slashes. */
  function Segments(pathname: string): (segs: seq<string>)
    ensures forall k :: 0 <= k < |segs| ==> segs[k] != [] && '/' !in segs[k]
  {
    Text.NonEmpty(Text.Split(pathname, '/'))
  }

  /** A league's standings page: `/league/{id}/standings` and anything below it. */
  predicate IsStandingsRoute(segs: seq<string>) {
    |segs| >= 3 && segs[0] == "league" && segs[2] == "standings"
  }

  /** The last crumb of a standings page: the league's name, or "Ligue {id}" for another league. */
  function StandingsCrumb(leagueId: string): Crumb {
    var title := if leagueId in LeagueNames then LeagueNames[leagueId] else "Ligue " + leagueId;
    Crumb(title, "/league/" + leagueId + "/standings", TrophyIcon, "#FFD700", Some(true))
  }

  /** The path made of the segments, each preceded by a slash. */
  function PathOf(segs: seq<string>): (p: string)
    ensures |p| >= |segs|
  {
    if segs == [] then "" else PathOf(segs[..|segs| - 1]) + "/" + segs[|segs| - 1]
  }

  /** The crumb of the path of the first `k` segments, a known route; it is active on the last one. */
  function RouteCrumb(segs: seq<string>, k: nat): (c: Crumb)
    requires 1 <= k <= |segs| && PathOf(segs[..k]) in RouteMapping
  {
    var p := PathOf(segs[..k]);
    Crumb(RouteMapping[p].title, p, RouteMapping[p].icon, RouteMapping[p].color, Some(k == |segs|))
  }

  /** The crumb for the path of the first `k` segments, when that path is a known route. */
  function PrefixCrumb(segs: seq<string>, k: nat): seq<Crumb>
    requires 1 <= k <= |segs|
  {
    if PathOf(segs[..k]) in RouteMapping then [RouteCrumb(segs, k)] else []
  }

  /** The crumbs the general branch has added after visiting the first `k` segments. */
  function PrefixCrumbs(segs: seq<string>, k: nat): seq<Crumb>
    requires k <= |segs|
  {
    if k == 0 then [] else PrefixCrumbs(segs, k - 1) + PrefixCrumb(segs, k)
  }

  /** The trail of `generateBreadcrumbs`: always the home crumb first; on a standings page the
    * leagues crumb and the league's crumb; elsewhere one crumb per path prefix that is a route. */
  function Trail(pathname: string): (r: seq<Crumb>)
    ensures |r| >= 1 && r[0] == HomeCrumb
    ensures IsStandingsRoute(Segments(pathname)) ==>
      r == [HomeCrumb, LeaguesCrumb, StandingsCrumb(Segments(pathname)[1])]
  {
    var segs := Segments(pathname);
    if IsStandingsRoute(segs) then [HomeCrumb, LeaguesCrumb, StandingsCrumb(segs[1])]
    else [HomeCrumb] + PrefixCrumbs(segs, |segs|)
  }

  /** `generateBreadcrumbs`: the home crumb, then either the standings trail or a walk over the
    * segments growing the current path one segment at a time. */
  method GenerateBreadcrumbs(pathname: string) returns (crumbs: seq<Crumb>)
    ensures crumbs == Trail(pathname)
  {
    var segs := Segments(pathname);
    crumbs := [HomeCrumb];
    if |segs| >= 3 && segs[0] == "league" && segs[2] == "standings" {
      var leagueId := segs[1];
      crumbs := crumbs + [LeaguesCrumb];
      crumbs := crumbs + [StandingsCrumb(leagueId)];
      return;
    }
    crumbs := WalkRoutes(segs, crumbs);
    assert segs[..|segs|] == segs;
  }

  /** The general branch of `generateBreadcrumbs`: the walk over the segments, growing the current
    * path one segment at a time and pushing a crumb whenever that path is a route. */
  method WalkRoutes(segs: seq<string>, start: seq<Crumb>) returns (crumbs: seq<Crumb>)
    ensures crumbs == start + PrefixCrumbs(segs, |segs|)
  {
    crumbs := start;
    var currentPath := "";
    var index := 0;
    while index < |segs|
      invariant 0 <= index <= |segs|
      invariant currentPath == PathOf(segs[..index])
      invariant crumbs == start + PrefixCrumbs(segs, index)
    {
      CrumbStep(segs, index + 1);
      currentPath := currentPath + "/" + segs[index];
      var isLast := index == |segs| - 1;
      if currentPath in RouteMapping {
        var info := RouteMapping[currentPath];
        AppendAssociates(start, PrefixCrumbs(segs, index), Crumb(info.title, currentPath, info.icon, info.color, Some(isLast)));
        crumbs := crumbs + [Crumb(info.title, currentPath, info.icon, info.color, Some(isLast))];
      }
      index := index + 1;
    }
  }

  lemma AppendAssociates(start: seq<Crumb>, before: seq<Crumb>, crumb: Crumb)
    ensures start + before + [crumb] == start + (before + [crumb])
  {
  }

  /** One step of the walk: the path grows by a segment, and the crumbs by the crumb of the new
    * path when it is a route. */
  lemma CrumbStep(segs: seq<string>, k: nat)
    requires 1 <= k <= |segs|
    ensures PathOf(segs[..k]) == PathOf(segs[..k - 1]) + "/" + segs[k - 1]
    ensures var p := PathOf(segs[..k]);
      PrefixCrumbs(segs, k) == PrefixCrumbs(segs, k - 1) +
        if p in RouteMapping
        then [Crumb(RouteMapping[p].title, p, RouteMapping[p].icon, RouteMapping[p].color, Some(k == |segs|))]
        else []
  {
    assert segs[..k][..k - 1] == segs[..k - 1];
  }

  /** Each segment adds at least a slash: longer prefixes have longer paths. */
  lemma {:induction false} PathOfGrows(segs: seq<string>, k: nat, l: nat)
    requires k < l <= |segs|
    ensures |PathOf(segs[..k])| < |PathOf(segs[..l])|
    decreases l
  {
    assert segs[..l][..l - 1] == segs[..l - 1];
    if k < l - 1 {
      PathOfGrows(segs, k, l - 1);
    }
  }

  /** `c` is the crumb of one of the first `k` prefixes. */
  predicate FromRoutePrefix(segs: seq<string>, k: nat, c: Crumb)
    requires k <= |segs|
  {
    exists i :: 1 <= i <= k && PathOf(segs[..i]) in RouteMapping && c == RouteCrumb(segs, i)
  }

  /** Every crumb of the general walk is the crumb of a prefix that is a route. */
  lemma {:induction false} PrefixCrumbsComeFromRoutes(segs: seq<string>, k: nat)
    requires k <= |segs|
    ensures forall j :: 0 <= j < |PrefixCrumbs(segs, k)| ==> FromRoutePrefix(segs, k, PrefixCrumbs(segs, k)[j])
    decreases k
  {
    if k > 0 {
      PrefixCrumbsComeFromRoutes(segs, k - 1);
      var before := PrefixCrumbs(segs, k - 1);
      var now := PrefixCrumbs(segs, k);
      assert now == before + PrefixCrumb(segs, k);
      forall j | 0 <= j < |now|
        ensures FromRoutePrefix(segs, k, now[j])
      {
        if j < |before| {
          assert FromRoutePrefix(segs, k - 1, before[j]);
          var i :| 1 <= i <= k - 1 && PathOf(segs[..i]) in RouteMapping && before[j] == RouteCrumb(segs, i);
          assert now[j] == RouteCrumb(segs, i);
        } else {
          assert now[j] == RouteCrumb(segs, k);
        }
      }
    }
  }

  /** Every prefix that is a route has its crumb in the general walk. */
  lemma {:induction false} RoutePrefixesHaveCrumbs(segs: seq<string>, k: nat)
    requires k <= |segs|
    ensures forall i :: 1 <= i <= k && PathOf(segs[..i]) in RouteMapping ==>
      RouteCrumb(segs, i) in PrefixCrumbs(segs, k)
    decreases k
  {
    if k > 0 {
      RoutePrefixesHaveCrumbs(segs, k - 1);
      assert PrefixCrumbs(segs, k) == PrefixCrumbs(segs, k - 1) + PrefixCrumb(segs, k);
    }
  }

  /** The crumbs of the general walk come in the order of their prefixes: their paths grow, and
    * none is longer than the path walked so far. */
  lemma {:induction false} PrefixCrumbsOrdered(segs: seq<string>, k: nat)
    requires k <= |segs|
    ensures forall j1, j2 :: 0 <= j1 < j2 < |PrefixCrumbs(segs, k)| ==>
      |PrefixCrumbs(segs, k)[j1].path| < |PrefixCrumbs(segs, k)[j2].path|
    ensures forall j :: 0 <= j < |PrefixCrumbs(segs, k)| ==> |PrefixCrumbs(segs, k)[j].path| <= |PathOf(segs[..k])|
    decreases k
  {
    if k > 0 {
      PrefixCrumbsOrdered(segs, k - 1);
      PathOfGrows(segs, k - 1, k);
      assert PrefixCrumbs(segs, k) == PrefixCrumbs(segs, k - 1) + PrefixCrumb(segs, k);
    }
  }

  /** Away from a standings page, a crumb after the first is active exactly when its path is the
    * whole path. */
  lemma ActiveIsWholePath(pathname: string, j: int)
    requires !IsStandingsRoute(Segments(pathname))
    requires 1 <= j < |Trail(pathname)|
    ensures Trail(pathname)[j].isActive == Some(Trail(pathname)[j].path == PathOf(Segments(pathname)))
  {
    var segs := Segments(pathname);
    var walk := PrefixCrumbs(segs, |segs|);
    assert Trail(pathname) == [HomeCrumb] + walk;
    var c := walk[j - 1];
    assert Trail(pathname)[j] == c;
    PrefixCrumbsComeFromRoutes(segs, |segs|);
    assert FromRoutePrefix(segs, |segs|, c);
    var i :| 1 <= i <= |segs| && PathOf(segs[..i]) in RouteMapping && c == RouteCrumb(segs, i);
    assert c.path == PathOf(segs[..i]) && c.isActive == Some(i == |segs|);
    if i < |segs| {
      PathOfGrows(segs, i, |segs|);
      assert segs[..|segs|] == segs;
    } else {
      assert segs[..i] == segs;
    }
  }

  /** Away from a standings page, the walk meets at most one route: the only route of several
    * segments is the standings page, which has a branch of its own, so the trail holds the home
    * crumb and at most one of the leagues, teams or matches crumbs, for the first segment. */
  lemma GeneralTrailHasAtMostTwoCrumbs(pathname: string)
    requires !IsStandingsRoute(Segments(pathname))
    ensures |Trail(pathname)| <= 2
    ensures |Trail(pathname)| == 2 ==>
      Trail(pathname)[1].path in {"/leagues", "/teams", "/matches"} &&
      Trail(pathname)[1].path == "/" + Segments(pathname)[0]
  {
    var segs := Segments(pathname);
    forall i | 2 <= i <= |segs|
      ensures PathOf(segs[..i]) !in RouteMapping
    {
      NoRouteBelowFirst(segs, i);
    }
    OnlyFirstPrefix(segs, |segs|);
    if |segs| >= 1 && PathOf(segs[..1]) in RouteMapping {
      FirstSegmentRoute(segs);
    }
  }

  /** A route reached by the first segment alone is the leagues, teams or matches page. */
  lemma FirstSegmentRoute(segs: seq<string>)
    requires forall k :: 0 <= k < |segs| ==> segs[k] != [] && '/' !in segs[k]
    requires |segs| >= 1 && PathOf(segs[..1]) in RouteMapping
    ensures PathOf(segs[..1]) in {"/leagues", "/teams", "/matches"}
    ensures PathOf(segs[..1]) == "/" + segs[0]
  {
    var s := segs[..1];
    PathOfFront(s);
    assert s[1..] == [];
    PathOfNotRoot(s);
    RoutePaths();
    if PathOf(s) == "/league/:id/standings" {
      PathOfInjective(s, ["league", ":id", "standings"]);
    }
  }

  lemma {:induction false} OnlyFirstPrefix(segs: seq<string>, k: nat)
    requires k <= |segs|
    requires forall i :: 2 <= i <= |segs| ==> PathOf(segs[..i]) !in RouteMapping
    ensures PrefixCrumbs(segs, k) == if k == 0 then [] else PrefixCrumb(segs, 1)
    decreases k
  {
    if k > 1 {
      OnlyFirstPrefix(segs, k - 1);
    }
  }

  /** The path of one segment or more, read from its first segment. */
  lemma {:induction false} PathOfFront(segs: seq<string>)
    requires |segs| >= 1
    ensures PathOf(segs) == "/" + segs[0] + PathOf(segs[1..])
    decreases |segs|
  {
    var init := segs[..|segs| - 1];
    if |segs| == 1 {
      assert init == [] && segs[1..] == [];
    } else {
      PathOfFront(init);
      assert segs[1..][..|segs| - 2] == init[1..];
      assert segs[1..][|segs| - 2] == segs[|segs| - 1];
    }
  }

  /** Segments without slashes can be read back from their path. */
  lemma {:induction false} PathOfInjective(s: seq<string>, t: seq<string>)
    requires forall k :: 0 <= k < |s| ==> s[k] != [] && '/' !in s[k]
    requires forall k :: 0 <= k < |t| ==> t[k] != [] && '/' !in t[k]
    requires PathOf(s) == PathOf(t)
    ensures s == t
    decreases |s|
  {
    if s == [] || t == [] {
      if s != [] {
        PathOfFront(s);
      } else if t != [] {
        PathOfFront(t);
      }
    } else {
      PathAfterSlash(s);
      PathAfterSlash(t);
      SplitBeforeSlash(s[0], PathOf(s[1..]), t[0], PathOf(t[1..]));
      PathOfInjective(s[1..], t[1..]);
      assert s == [s[0]] + s[1..] && t == [t[0]] + t[1..];
    }
  }

  /** Past its leading slash, the path of slash-free segments is the first segment followed by
    * the path of the rest, which is empty or starts with a slash. */
  lemma PathAfterSlash(s: seq<string>)
    requires s != []
    requires forall k :: 0 <= k < |s| ==> s[k] != [] && '/' !in s[k]
    ensures PathOf(s)[1..] == s[0] + PathOf(s[1..]) && '/' !in s[0]
    ensures PathOf(s[1..]) == [] || PathOf(s[1..])[0] == '/'
    ensures forall k :: 0 <= k < |s[1..]| ==> s[1..][k] != [] && '/' !in s[1..][k]
  {
    PathOfFront(s);
    var rest := PathOf(s[1..]);
    assert ("/" + s[0] + rest)[1..] == s[0] + rest;
    SlashFirst(s[1..]);
    assert forall k :: 0 <= k < |s[1..]| ==> s[1..][k] == s[k + 1];
  }

  /** A path is empty or starts with a slash. */
  lemma SlashFirst(segs: seq<string>)
    ensures PathOf(segs) == [] || PathOf(segs)[0] == '/'
  {
    if segs != [] {
      PathOfFront(segs);
    }
  }

  /** A slash-free head followed by an empty or slash-led tail splits back into head and tail. */
  lemma SplitBeforeSlash(u1: string, p1: string, u2: string, p2: string)
    requires '/' !in u1 && '/' !in u2
    requires p1 == [] || p1[0] == '/'
    requires p2 == [] || p2[0] == '/'
    requires u1 + p1 == u2 + p2
    ensures u1 == u2 && p1 == p2
  {
    var s := u1 + p1;
    SlashAfterHead(u1, p1);
    SlashAfterHead(u2, p2);
    assert u1 == s[..|u1|] == u2;
    assert p1 == s[|u1|..] == p2;
  }

  /** The first slash of such a concatenation is where the tail starts. */
  lemma SlashAfterHead(u: string, p: string)
    requires '/' !in u
    requires p == [] || p[0] == '/'
    ensures Text.FirstIndexOfChar(u + p, '/') == |u|
  {
    if p != [] {
      assert u + p == u + ['/'] + p[1..];
      Text.FirstOfJoined(u, p[1..], '/');
    } else {
      assert u + p == u;
    }
  }

  /** The route paths, as paths of segments. */
  lemma RoutePaths()
    ensures "/leagues" == PathOf(["leagues"])
    ensures "/teams" == PathOf(["teams"])
    ensures "/matches" == PathOf(["matches"])
    ensures "/league/:id/standings" == PathOf(["league", ":id", "standings"])
  {
    var st := ["league", ":id", "standings"];
    assert st[..2] == ["league", ":id"];
    assert st[..2][..1] == ["league"];
    assert ["league"][..0] == [];
    assert PathOf(["league"]) == "/league";
    assert PathOf(["league", ":id"]) == "/league/:id";
    assert ["leagues"][..0] == [];
    assert ["teams"][..0] == [];
    assert ["matches"][..0] == [];
  }

  /** The path of one segment or more is longer than a single slash. */
  lemma PathOfNotRoot(segs: seq<string>)
    requires |segs| >= 1 && segs[0] != []
    ensures PathOf(segs) != "/"
  {
    PathOfFront(segs);
  }

  /** A path of two or more segments is a route only as the standings route. */
  lemma NoRouteBelowFirst(segs: seq<string>, i: nat)
    requires !IsStandingsRoute(segs)
    requires forall k :: 0 <= k < |segs| ==> segs[k] != [] && '/' !in segs[k]
    requires 2 <= i <= |segs|
    ensures PathOf(segs[..i]) !in RouteMapping
  {
    var s := segs[..i];
    var p := PathOf(s);
    PathOfNotRoot(s);
    RoutePaths();
    if p == "/leagues" {
      PathOfInjective(s, ["leagues"]);
    } else if p == "/teams" {
      PathOfInjective(s, ["teams"]);
    } else if p == "/matches" {
      PathOfInjective(s, ["matches"]);
    } else if p == "/league/:id/standings" {
      PathOfInjective(s, ["league", ":id", "standings"]);
    }
  }
}
