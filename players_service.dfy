/** The utilities of `PlayersService` (src/services/api/playersService.ts): the derived rates of a
  * player's season, the age from a birth date, and the French position names. */
module PlayersService {
  import opened Wrappers

  /** The counters of `performance` the rates use; None is a counter the backend left out. */
  datatype Performance = Performance(
    appearances: Option<int>, goals: Option<int>, assists: Option<int>, minutes: Option<int>)

  datatype PlayerStats = PlayerStats(
    goalsPerMatch: real, assistsPerMatch: real, minutesPerMatch: real,
    goalContribution: int, efficiency: real)

  /** `x || 0` on a counter: undefined (and 0) read as 0. */
  function OrZero(x: Option<int>): (n: int)
    ensures x.None? ==> n == 0
    ensures x.Some? ==> n == x.value
  {
    if x.Some? then x.value else 0
  }

  /** `calculatePlayerStats`. Missing counters (a missing `performance` included) count as 0; with
    * no appearances every rate is 0 but the goal contribution is still goals plus assists; otherwise
    * each rate times the appearances gives its counter back and the efficiency is 100 times the
    * goals per match. */
  function CalculatePlayerStats(performance: Option<Performance>): (r: PlayerStats)
    ensures var p := performance.GetOr(Performance(None, None, None, None));
      var app, goals, assists, minutes :=
        OrZero(p.appearances), OrZero(p.goals), OrZero(p.assists), OrZero(p.minutes);
      r.goalContribution == goals + assists &&
      (app == 0 ==> r == PlayerStats(0.0, 0.0, 0.0, goals + assists, 0.0)) &&
      (app != 0 ==>
        r.goalsPerMatch * app as real == goals as real &&
        r.assistsPerMatch * app as real == assists as real &&
        r.minutesPerMatch * app as real == minutes as real &&
        r.efficiency == r.goalsPerMatch * 100.0)
  {
    var p := performance.GetOr(Performance(None, None, None, None));
    var app := OrZero(p.appearances);
    var goals := OrZero(p.goals);
    var assists := OrZero(p.assists);
    var minutes := OrZero(p.minutes);
    if app == 0 then PlayerStats(0.0, 0.0, 0.0, goals + assists, 0.0)
    else
      PerMatchTimes(goals as real, app as real);
      PerMatchTimes(assists as real, app as real);
      PerMatchTimes(minutes as real, app as real);
      PlayerStats(goals as real / app as real, assists as real / app as real,
                  minutes as real / app as real, goals + assists,
                  (goals as real / app as real) * 100.0)
  }

  lemma PerMatchTimes(total: real, app: real)
    requires app != 0.0
    ensures (total / app) * app == total
  {
  }

  /** With some appearances, the two per-match rates together give the goal contribution back, and
    * the efficiency gives a hundred times the goals. */
  lemma ContributionPerMatch(performance: Option<Performance>)
    requires OrZero(performance.GetOr(Performance(None, None, None, None)).appearances) != 0
    ensures var p := performance.GetOr(Performance(None, None, None, None));
      var app, r := OrZero(p.appearances) as real, CalculatePlayerStats(performance);
      (r.goalsPerMatch + r.assistsPerMatch) * app == r.goalContribution as real &&
      r.efficiency * app == 100.0 * OrZero(p.goals) as real
  {
    var p := performance.GetOr(Performance(None, None, None, None));
    var app, r := OrZero(p.appearances) as real, CalculatePlayerStats(performance);
    assert (r.goalsPerMatch + r.assistsPerMatch) * app == r.goalsPerMatch * app + r.assistsPerMatch * app;
    assert r.efficiency * app == (r.goalsPerMatch * app) * 100.0;
  }

  /** A calendar date: year, month 1-12 and day of the month. */
  datatype Date = Date(year: int, month: int, day: int)

  /** The month and day of `today` are not before those of `birth`. */
  predicate BirthdayReached(birth: Date, today: Date) {
    today.month > birth.month || (today.month == birth.month && today.day >= birth.day)
  }

  /** `getPlayerAge`: the difference of the years, one less when this year's birthday has not come. */
  function PlayerAge(birth: Date, today: Date): (age: int)
    ensures BirthdayReached(birth, today) ==> age == today.year - birth.year
    ensures !BirthdayReached(birth, today) ==> age == today.year - birth.year - 1
  {
    var age := today.year - birth.year;
    var monthDiff := today.month - birth.month;
    if monthDiff < 0 || (monthDiff == 0 && today.day < birth.day) then age - 1 else age
  }

  /** Calendar order. */
  predicate NotAfter(a: Date, b: Date) {
    a.year < b.year || (a.year == b.year && (a.month < b.month || (a.month == b.month && a.day <= b.day)))
  }

  /** The birth date `n` years on. */
  function Anniversary(birth: Date, n: int): (d: Date)
  {
    Date(birth.year + n, birth.month, birth.day)
  }

  /** The age is the number of whole years lived: the `n`-th anniversary has come exactly when `n`
    * is at most the age. */
  lemma AgeCountsAnniversaries(birth: Date, today: Date, n: int)
    ensures NotAfter(Anniversary(birth, n), today) <==> n <= PlayerAge(birth, today)
  {
  }

  /** The positions `formatPlayerPosition` translates. */
  const KnownPositions: set<string> := {"Goalkeeper", "Defender", "Midfielder", "Attacker", "Forward"}

  /** `formatPlayerPosition`: the five known positions in French, Attacker and Forward both being
    * 'Attaquant'; any other position is returned as it is. */
  function FormatPlayerPosition(position: string): (r: string)
    ensures r != position <==> position in KnownPositions
    ensures r == "Attaquant" <==> position in {"Attacker", "Forward", "Attaquant"}
  {
    match position
    case "Goalkeeper" => "Gardien"
    case "Defender" => "Défenseur"
    case "Midfielder" => "Milieu"
    case "Attacker" => "Attaquant"
    case "Forward" => "Attaquant"
    case _ => position
  }
}
