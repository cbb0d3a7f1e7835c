/** The front end's two tables from provider status codes to its five match statuses:
  * `API_STATUS_MAP` over the twelve `MatchStatusAPI` codes (src/types/match.d.ts) and the
  * string-keyed `mapApiStatus` of the match details page (src/pages/MatchDetails.tsx), which falls
  * back to 'scheduled' for every code it does not list. */
module MatchStatus {

  /** `MatchStatus`: 'scheduled' | 'live' | 'finished' | 'postponed' | 'cancelled'. */
  datatype Status = Scheduled | Live | Finished | Postponed | Cancelled

  /** `MatchStatusAPI`, one constructor per code. */
  datatype ApiCode =
    | NS | TBD | FirstHalf | HalfTime | SecondHalf | ExtraTime | BreakTime
    | FT | AET | PEN | PST | CANC

  /** The provider's spelling of a code. */
  function CodeText(c: ApiCode): (s: string)
    ensures |s| >= 2
  {
    match c
    case NS => "NS"
    case TBD => "TBD"
    case FirstHalf => "1H"
    case HalfTime => "HT"
    case SecondHalf => "2H"
    case ExtraTime => "ET"
    case BreakTime => "BT"
    case FT => "FT"
    case AET => "AET"
    case PEN => "PEN"
    case PST => "PST"
    case CANC => "CANC"
  }

  /** Distinct codes are spelled differently, so a spelling names one code. */
  lemma CodeTextInjective(c: ApiCode, d: ApiCode)
    ensures CodeText(c) == CodeText(d) ==> c == d
  {
  }

  /** `API_STATUS_MAP`: a total map, whose live codes are exactly 1H, HT, 2H, ET and BT, whose
    * finished codes are exactly FT, AET and PEN, and whose other three statuses each come from
    * NS/TBD, PST and CANC only. */
  function ApiStatusMap(c: ApiCode): (s: Status)
    ensures s == Live <==> c in {FirstHalf, HalfTime, SecondHalf, ExtraTime, BreakTime}
    ensures s == Finished <==> c in {FT, AET, PEN}
    ensures s == Scheduled <==> c in {NS, TBD}
    ensures s == Postponed <==> c == PST
    ensures s == Cancelled <==> c == CANC
  {
    match c
    case NS => Scheduled
    case TBD => Scheduled
    case FirstHalf => Live
    case HalfTime => Live
    case SecondHalf => Live
    case ExtraTime => Live
    case BreakTime => Live
    case FT => Finished
    case AET => Finished
    case PEN => Finished
    case PST => Postponed
    case CANC => Cancelled
  }

  /** The keys of `mapApiStatus`'s table. */
  const DetailsTableKeys: set<string> :=
    {"NS", "LIVE", "1H", "HT", "2H", "ET", "P", "FT", "AET", "PEN", "PST", "CANC"}

  /** `mapApiStatus`: NS is scheduled; LIVE, 1H, HT, 2H, ET and P are live; FT, AET and PEN are
    * finished; PST is postponed; CANC is cancelled; any other string, TBD and BT included, falls
    * back to scheduled. */
  function MapApiStatus(code: string): (s: Status)
    ensures s == Live <==> code in {"LIVE", "1H", "HT", "2H", "ET", "P"}
    ensures s == Finished <==> code in {"FT", "AET", "PEN"}
    ensures s == Postponed <==> code == "PST"
    ensures s == Cancelled <==> code == "CANC"
    ensures code !in DetailsTableKeys ==> s == Scheduled
  {
    match code
    case "NS" => Scheduled
    case "LIVE" => Live
    case "1H" => Live
    case "HT" => Live
    case "2H" => Live
    case "ET" => Live
    case "P" => Live
    case "FT" => Finished
    case "AET" => Finished
    case "PEN" => Finished
    case "PST" => Postponed
    case "CANC" => Cancelled
    case _ => Scheduled
  }

  /** On the twelve provider codes the two tables agree everywhere except BT, which
    * `API_STATUS_MAP` calls live and `mapApiStatus` leaves at scheduled. TBD agrees only through
    * the fallback: it is not a key of `mapApiStatus`'s table. */
  lemma TablesAgreeExceptBreakTime(c: ApiCode)
    ensures MapApiStatus(CodeText(c)) == ApiStatusMap(c) <==> c != BreakTime
    ensures c == TBD ==> CodeText(c) !in DetailsTableKeys
  {
  }

  /** LIVE and P are live for `mapApiStatus` but are not provider codes of `MatchStatusAPI`. */
  lemma DetailsOnlyCodes(c: ApiCode)
    ensures CodeText(c) != "LIVE" && CodeText(c) != "P"
    ensures MapApiStatus("LIVE") == Live && MapApiStatus("P") == Live
  {
  }
}
