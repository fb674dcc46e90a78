/** The enumerations and records shared by the whole application (types.ts). */
module Types {

  datatype TravelTimeOfDay = MORNING | AFTERNOON | EVENING

  datatype Language = EN | AR

  datatype CardinalDirection = N | NE | E | SE | S | SW | W | NW

  /** The keys of the seat-suggestion string table. */
  datatype SeatSuggestionKey =
    | SitLeft | SitRight | SitFront | SitBack
    | SitAnySideFront | SitAnySideBack
    | SitFrontLeft | SitFrontRight | SitBackLeft | SitBackRight
    | SitMiddle | SitAnywhere

  /** The keys of the seat-explanation string table: one per direction of travel
      and sun side (`travel<direction>_sun<E|W>`), plus two general ones. */
  datatype SeatExplanationKey =
    | TravelN_SunE | TravelNE_SunE | TravelE_SunE | TravelSE_SunE
    | TravelS_SunE | TravelSW_SunE | TravelW_SunE | TravelNW_SunE
    | TravelN_SunW | TravelNE_SunW | TravelE_SunW | TravelSE_SunW
    | TravelS_SunW | TravelSW_SunW | TravelW_SunW | TravelNW_SunW
    | MiddleGeneral | NoSun

  /** A point picked on the map; floating-point degrees are modelled as reals. */
  datatype NumericLocationPoint = NumericLocationPoint(lat: real, lon: real)

  datatype SuggestionOutput = SuggestionOutput(directSuggestion: string, explanation: string)

  /** The strings of one language: the flat user-interface strings (looked up by
      their property name), and the two nested seat tables, which the type system
      makes total. */
  datatype LanguageTranslations = LanguageTranslations(
    strings: map<string, string>,
    seatSuggestions: SeatSuggestionKey -> string,
    seatExplanations: SeatExplanationKey -> string)

  /** The static string tables, one per language; their contents are not modelled. */
  type Translations = Language -> LanguageTranslations

  predicate Distinct<T(==)>(s: seq<T>) {
    forall i, j :: 0 <= i < j < |s| ==> s[i] != s[j]
  }

  /** The time-of-day categories: exactly three, with no separate night. */
  function AllTravelTimes(): (r: seq<TravelTimeOfDay>)
    ensures |r| == 3 && Distinct(r)
  {
    [MORNING, AFTERNOON, EVENING]
  }

  lemma {:induction false} TravelTimeOfDayListed(t: TravelTimeOfDay)
    ensures t in AllTravelTimes()
  {
    match t
    case MORNING => assert AllTravelTimes()[0] == t;
    case AFTERNOON => assert AllTravelTimes()[1] == t;
    case EVENING => assert AllTravelTimes()[2] == t;
  }

  /** The two supported languages. */
  function AllLanguages(): (r: seq<Language>)
    ensures |r| == 2 && Distinct(r)
  {
    [EN, AR]
  }

  lemma {:induction false} LanguageListed(l: Language)
    ensures l in AllLanguages()
  {
    match l
    case EN => assert AllLanguages()[0] == l;
    case AR => assert AllLanguages()[1] == l;
  }

  /** The eight compass sectors, clockwise from north. */
  function AllDirections(): (r: seq<CardinalDirection>)
    ensures |r| == 8 && Distinct(r)
  {
    [N, NE, E, SE, S, SW, W, NW]
  }

  lemma {:induction false} CardinalDirectionListed(d: CardinalDirection)
    ensures d in AllDirections()
  {
    match d
    case N => assert AllDirections()[0] == d;
    case NE => assert AllDirections()[1] == d;
    case E => assert AllDirections()[2] == d;
    case SE => assert AllDirections()[3] == d;
    case S => assert AllDirections()[4] == d;
    case SW => assert AllDirections()[5] == d;
    case W => assert AllDirections()[6] == d;
    case NW => assert AllDirections()[7] == d;
  }

  /** The closed set of seat-suggestion keys. */
  function AllSeatSuggestionKeys(): (r: seq<SeatSuggestionKey>)
    ensures |r| == 12 && Distinct(r)
  {
    [SitLeft, SitRight, SitFront, SitBack, SitAnySideFront, SitAnySideBack, SitFrontLeft,
     SitFrontRight, SitBackLeft, SitBackRight, SitMiddle, SitAnywhere]
  }

  lemma {:induction false} SeatSuggestionKeyListed(k: SeatSuggestionKey)
    ensures k in AllSeatSuggestionKeys()
  {
    match k
    case SitLeft => assert AllSeatSuggestionKeys()[0] == k;
    case SitRight => assert AllSeatSuggestionKeys()[1] == k;
    case SitFront => assert AllSeatSuggestionKeys()[2] == k;
    case SitBack => assert AllSeatSuggestionKeys()[3] == k;
    case SitAnySideFront => assert AllSeatSuggestionKeys()[4] == k;
    case SitAnySideBack => assert AllSeatSuggestionKeys()[5] == k;
    case SitFrontLeft => assert AllSeatSuggestionKeys()[6] == k;
    case SitFrontRight => assert AllSeatSuggestionKeys()[7] == k;
    case SitBackLeft => assert AllSeatSuggestionKeys()[8] == k;
    case SitBackRight => assert AllSeatSuggestionKeys()[9] == k;
    case SitMiddle => assert AllSeatSuggestionKeys()[10] == k;
    case SitAnywhere => assert AllSeatSuggestionKeys()[11] == k;
  }

  /** The closed set of seat-explanation keys: 8 directions times 2 sun sides, plus two. */
  function AllSeatExplanationKeys(): (r: seq<SeatExplanationKey>)
    ensures |r| == 18 && Distinct(r)
  {
    [TravelN_SunE, TravelNE_SunE, TravelE_SunE, TravelSE_SunE, TravelS_SunE,
     TravelSW_SunE, TravelW_SunE, TravelNW_SunE, TravelN_SunW, TravelNE_SunW,
     TravelE_SunW, TravelSE_SunW, TravelS_SunW, TravelSW_SunW, TravelW_SunW,
     TravelNW_SunW, MiddleGeneral, NoSun]
  }

  lemma {:induction false} SeatExplanationKeyListed(k: SeatExplanationKey)
    ensures k in AllSeatExplanationKeys()
  {
    match k
    case TravelN_SunE => assert AllSeatExplanationKeys()[0] == k;
    case TravelNE_SunE => assert AllSeatExplanationKeys()[1] == k;
    case TravelE_SunE => assert AllSeatExplanationKeys()[2] == k;
    case TravelSE_SunE => assert AllSeatExplanationKeys()[3] == k;
    case TravelS_SunE => assert AllSeatExplanationKeys()[4] == k;
    case TravelSW_SunE => assert AllSeatExplanationKeys()[5] == k;
    case TravelW_SunE => assert AllSeatExplanationKeys()[6] == k;
    case TravelNW_SunE => assert AllSeatExplanationKeys()[7] == k;
    case TravelN_SunW => assert AllSeatExplanationKeys()[8] == k;
    case TravelNE_SunW => assert AllSeatExplanationKeys()[9] == k;
    case TravelE_SunW => assert AllSeatExplanationKeys()[10] == k;
    case TravelSE_SunW => assert AllSeatExplanationKeys()[11] == k;
    case TravelS_SunW => assert AllSeatExplanationKeys()[12] == k;
    case TravelSW_SunW => assert AllSeatExplanationKeys()[13] == k;
    case TravelW_SunW => assert AllSeatExplanationKeys()[14] == k;
    case TravelNW_SunW => assert AllSeatExplanationKeys()[15] == k;
    case MiddleGeneral => assert AllSeatExplanationKeys()[16] == k;
    case NoSun => assert AllSeatExplanationKeys()[17] == k;
  }
}
