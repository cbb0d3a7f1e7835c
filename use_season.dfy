/** The `useSeason` and `useCurrentSeason` hooks (src/hooks/useSeason.ts): the state behind the
  * season selector. The answers of the seasons service arrive as parameters; saving the preference
  * in localStorage is not modelled. */
module UseSeason {
  import opened Wrappers
  import opened Seasons

  /** How the seasons service answered `loadSeasons`: the list and the recommendation (None: the
    * `undefined` of an empty list), or a rejection whose error is an `Error` with a message
    * (Some) or some other value (None). */
  datatype SeasonsAnswer =
    | Loaded(seasons: seq<Season>, recommended: Option<Season>)
    | LoadFailed(errorMessage: Option<string>)

  /** An error shown by the hook; `EngineTypeError` is the TypeError of reading `year` of an
    * undefined recommendation, whose message the JavaScript engine writes. */
  datatype HookError = Message(text: string) | EngineTypeError

  const LoadErrorText := "Erreur lors du chargement des saisons"

  /** `initialSeason || 0`. */
  function InitialSelection(initialSeason: Option<int>): (s: int)
    ensures initialSeason.Some? && initialSeason.value != 0 ==> s == initialSeason.value
    ensures initialSeason.None? || initialSeason == Some(0) ==> s == 0
  {
    if initialSeason.Some? then initialSeason.value else 0
  }

  class SeasonSelection {
    var selectedSeason: int
    var availableSeasons: seq<Season>
    var recommendedSeason: Option<Season>
    var loading: bool
    var error: Option<HookError>

    /** The first render: the initial selection (or 0), no seasons, loading. */
    constructor(initialSeason: Option<int>)
      ensures selectedSeason == InitialSelection(initialSeason)
      ensures availableSeasons == [] && recommendedSeason == None && loading && error == None
    {
      selectedSeason := InitialSelection(initialSeason);
      availableSeasons := [];
      recommendedSeason := None;
      loading := true;
      error := None;
    }

    /** `isSeasonAvailable`: some loaded season has the year and is available. */
    function IsSeasonAvailable(year: int): (b: bool)
      reads this
      ensures b <==>
        exists i :: 0 <= i < |availableSeasons| && availableSeasons[i].year == year && availableSeasons[i].available
    {
      AvailableIn(availableSeasons, year)
    }

    /** `handleSetSelectedSeason`: the selection moves to the season only when it is available;
      * nothing else changes. */
    method SetSelectedSeason(season: int)
      modifies this
      ensures selectedSeason == (if old(IsSeasonAvailable(season)) then season else old(selectedSeason))
      ensures availableSeasons == old(availableSeasons) && recommendedSeason == old(recommendedSeason)
      ensures loading == old(loading) && error == old(error)
    {
      if IsSeasonAvailable(season) {
        selectedSeason := season;
      }
    }

    /** `loadSeasons`: the list and the recommendation are stored; a selection of 0 becomes the
      * recommended year, while any other selection is kept. When there is nothing to recommend
      * that read fails after both were stored. A rejection keeps the old list and selection and
      * records the error's message or the default text. Loading is over in every case. */
    method LoadSeasons(answer: SeasonsAnswer)
      modifies this
      ensures !loading
      ensures answer.Loaded? ==>
        availableSeasons == answer.seasons && recommendedSeason == answer.recommended
      ensures answer.Loaded? && old(selectedSeason) != 0 ==>
        selectedSeason == old(selectedSeason) && error == None
      ensures answer.Loaded? && old(selectedSeason) == 0 && answer.recommended.Some? ==>
        selectedSeason == answer.recommended.value.year && error == None
      ensures answer.Loaded? && old(selectedSeason) == 0 && answer.recommended.None? ==>
        selectedSeason == 0 && error == Some(EngineTypeError)
      ensures answer.LoadFailed? ==>
        availableSeasons == old(availableSeasons) && recommendedSeason == old(recommendedSeason) &&
        selectedSeason == old(selectedSeason) &&
        error == Some(Message(answer.errorMessage.GetOr(LoadErrorText)))
    {
      loading := true;
      error := None;
      match answer {
        case Loaded(seasons, recommended) =>
          availableSeasons := seasons;
          recommendedSeason := recommended;
          if selectedSeason == 0 {
            if recommended.Some? {
              selectedSeason := recommended.value.year;
            } else {
              error := Some(EngineTypeError);
            }
          }
        case LoadFailed(message) =>
          error := Some(Message(message.GetOr(LoadErrorText)));
      }
      loading := false;
    }
  }

  /** `useCurrentSeason`: the recommended season's year; when the service fails, or has no season
    * to recommend, the season computed from the date (year, month). */
  function CurrentSeasonHook(recommended: Option<Option<Season>>, todayYear: int, todayMonth: int): (s: int)
    ensures recommended.Some? && recommended.value.Some? ==> s == recommended.value.value.year
    ensures !(recommended.Some? && recommended.value.Some?) ==>
      (s == todayYear <==> todayMonth >= 8) && todayYear - 1 <= s <= todayYear
  {
    match recommended
    case Some(Some(season)) => season.year
    case _ => CurrentSeason(todayYear, todayMonth)
  }
}
