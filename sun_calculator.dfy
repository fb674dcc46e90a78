/** The sun-avoidance seat recommender (services/sunCalculatorService.ts):
    bearing of travel, its compass sector, the side of the sky the sun is on,
    and the table that turns those two into a seat and a reason. */
module SunCalculator {
  import opened Wrappers
  import opened Types
  import opened JsText

  /** A value of `atan2` converted to degrees: always within [-180, 180]. */
  type Degrees180 = r: real | -180.0 <= r <= 180.0

  /** The great-circle initial-bearing formula (sines, cosines and `atan2` of the
      two points), taken as given rather than computed. */
  type RawBearing = (NumericLocationPoint, NumericLocationPoint) -> Degrees180

  /** JavaScript's `%` on numbers: the quotient is truncated towards zero, so the
      remainder keeps the sign of the dividend. */
  function JsRemainder(x: real, m: real): real
    requires m > 0.0
  {
    var q := x / m;
    var t := if q >= 0.0 then q.Floor else -((-q).Floor);
    x - (t as real) * m
  }

  /** `(bearing + 360) % 360` applied to the output of `atan2` in degrees. */
  function NormalizeBearing(raw: Degrees180): (b: real)
    ensures 0.0 <= b < 360.0
    ensures raw >= 0.0 ==> b == raw
    ensures raw < 0.0 ==> b == raw + 360.0
  {
    var x := raw + 360.0;
    var q := x / 360.0;
    assert x < 360.0 ==> 0.0 <= q < 1.0 && q.Floor == 0;
    assert x >= 360.0 ==> 1.0 <= q < 2.0 && q.Floor == 1;
    JsRemainder(x, 360.0)
  }

  /** The compass points clockwise from north; point k is centred on 45k degrees. */
  function CompassPoint(k: int): CardinalDirection
    requires 0 <= k < 8
  {
    match k
    case 0 => N
    case 1 => NE
    case 2 => E
    case 3 => SE
    case 4 => S
    case 5 => SW
    case 6 => W
    case _ => NW
  }

  /** The position of a direction in the clockwise order, in eighths of a turn. */
  function Octant(d: CardinalDirection): (k: nat)
    ensures k < 8 && CompassPoint(k) == d
  {
    match d
    case N => 0
    case NE => 1
    case E => 2
    case SE => 3
    case S => 4
    case SW => 5
    case W => 6
    case NW => 7
  }

  /** The 45-degree sector centred on `d`, closed below and open above, taken
      modulo a full turn (so north's sector wraps round 0). */
  predicate InSector(b: real, d: CardinalDirection) {
    var lo := 45.0 * (Octant(d) as real) - 22.5;
    (lo <= b < lo + 45.0) || (lo <= b - 360.0 < lo + 45.0)
  }

  /** The eight-way classification of a bearing, with its defensive fallback to
      north. */
  function GetTravelDirection(b: real): (d: CardinalDirection)
    ensures 0.0 <= b < 360.0 ==> InSector(b, d)
    ensures b < 0.0 || b >= 360.0 ==> d == N
  {
    if b >= 337.5 || b < 22.5 then N
    else if b >= 22.5 && b < 67.5 then NE
    else if b >= 67.5 && b < 112.5 then E
    else if b >= 112.5 && b < 157.5 then SE
    else if b >= 157.5 && b < 202.5 then S
    else if b >= 202.5 && b < 247.5 then SW
    else if b >= 247.5 && b < 292.5 then W
    else if b >= 292.5 && b < 337.5 then NW
    else N
  }

  /** The sectors do not overlap, so on [0, 360) the classifier returns a
      direction exactly when the bearing lies in that direction's sector. */
  lemma TravelDirectionIsSector(b: real, d: CardinalDirection)
    requires 0.0 <= b < 360.0
    ensures GetTravelDirection(b) == d <==> InSector(b, d)
  {
    var k := Octant(d);
    var got := Octant(GetTravelDirection(b));
    assert InSector(b, CompassPoint(got));
    if InSector(b, d) {
      assert k == got;
    }
  }

  /** The classifier agrees with rounding the bearing to the nearest eighth of a
      turn, halves rounding up: boundary values go to the sector starting there. */
  lemma TravelDirectionByRounding(b: real)
    requires 0.0 <= b < 360.0
    ensures GetTravelDirection(b) == CompassPoint(((b + 22.5) / 45.0).Floor % 8)
  {
    var q := (b + 22.5) / 45.0;
    if b < 22.5 {
      assert 0.0 <= q < 1.0;
      assert q.Floor == 0;
    } else if b < 67.5 {
      assert 1.0 <= q < 2.0;
      assert q.Floor == 1;
    } else if b < 112.5 {
      assert 2.0 <= q < 3.0;
      assert q.Floor == 2;
    } else if b < 157.5 {
      assert 3.0 <= q < 4.0;
      assert q.Floor == 3;
    } else if b < 202.5 {
      assert 4.0 <= q < 5.0;
      assert q.Floor == 4;
    } else if b < 247.5 {
      assert 5.0 <= q < 6.0;
      assert q.Floor == 5;
    } else if b < 292.5 {
      assert 6.0 <= q < 7.0;
      assert q.Floor == 6;
    } else if b < 337.5 {
      assert 7.0 <= q < 8.0;
      assert q.Floor == 7;
    } else {
      assert 8.0 <= q < 9.0;
      assert q.Floor == 8;
    }
  }

  /** Each boundary 22.5 + 45k belongs to the sector that starts there. */
  lemma SectorBoundaries(k: nat)
    requires k < 8
    ensures GetTravelDirection(22.5 + 45.0 * (k as real)) == CompassPoint((k + 1) % 8)
  {
    var b := 22.5 + 45.0 * (k as real);
    TravelDirectionByRounding(b);
    assert (b + 22.5) / 45.0 == (k + 1) as real;
  }

  datatype SunGlobalPosition = EAST | WEST | NONE

  /** Morning sun is in the east, afternoon sun in the west, and in the evening
      (which includes the night) there is none. */
  function GetSunPosition(timeOfDay: TravelTimeOfDay): (p: SunGlobalPosition)
    ensures p == EAST <==> timeOfDay == MORNING
    ensures p == WEST <==> timeOfDay == AFTERNOON
    ensures p == NONE <==> timeOfDay == EVENING
  {
    match timeOfDay
    case MORNING => EAST
    case AFTERNOON => WEST
    case EVENING => NONE
  }

  /** A pair of keys into the seat-suggestion and seat-explanation tables. */
  datatype RecommendationEntry = RecommendationEntry(
    suggestionKey: SeatSuggestionKey,
    explanationKey: SeatExplanationKey)

  /** The octant of the sky the sun is in: east is 90 degrees, west 270. */
  function SunOctant(p: SunGlobalPosition): nat
    requires p != NONE
  {
    if p == EAST then 2 else 6
  }

  /** The seat on the side of the vehicle facing relative octant k: 0 straight
      ahead, 2 the right, 4 straight behind, 6 the left. */
  function SeatFacing(k: int): SeatSuggestionKey
    requires 0 <= k < 8
  {
    match k
    case 0 => SitAnySideFront
    case 1 => SitFrontRight
    case 2 => SitRight
    case 3 => SitBackRight
    case 4 => SitAnySideBack
    case 5 => SitBackLeft
    case 6 => SitLeft
    case _ => SitFrontLeft
  }

  /** An octant count brought back into one turn. */
  function Wrap8(x: int): (k: nat)
    requires -8 <= x < 16
    ensures k < 8 && (k == x || k == x + 8 || k == x - 8)
  {
    if x < 0 then x + 8 else if x >= 8 then x - 8 else x
  }

  /** The shading rule: sit on the side facing away from the sun, measured
      relative to the direction of travel. */
  function ShadedSeat(d: CardinalDirection, p: SunGlobalPosition): SeatSuggestionKey
    requires p != NONE
  {
    SeatFacing(Wrap8(SunOctant(p) - Octant(d) + 4))
  }

  /** The seat the table recommends. The whole EAST table follows the shading
      rule; so does the WEST table except its north-east, south-east and
      north-west rows, which recommend back-right, front-right and front-right. */
  function RecommendedSeat(d: CardinalDirection, p: SunGlobalPosition): (seat: SeatSuggestionKey)
    requires p != NONE
  {
    if p == WEST && d == NE then SitBackRight
    else if p == WEST && (d == SE || d == NW) then SitFrontRight
    else ShadedSeat(d, p)
  }

  /** Which direction of travel and sun side an explanation key speaks of,
      read off its name `travel<direction>_sun<E|W>`. */
  function ExplainedRoute(k: SeatExplanationKey): Option<(CardinalDirection, SunGlobalPosition)> {
    match k
    case TravelN_SunE => Some((N, EAST))
    case TravelNE_SunE => Some((NE, EAST))
    case TravelE_SunE => Some((E, EAST))
    case TravelSE_SunE => Some((SE, EAST))
    case TravelS_SunE => Some((S, EAST))
    case TravelSW_SunE => Some((SW, EAST))
    case TravelW_SunE => Some((W, EAST))
    case TravelNW_SunE => Some((NW, EAST))
    case TravelN_SunW => Some((N, WEST))
    case TravelNE_SunW => Some((NE, WEST))
    case TravelE_SunW => Some((E, WEST))
    case TravelSE_SunW => Some((SE, WEST))
    case TravelS_SunW => Some((S, WEST))
    case TravelSW_SunW => Some((SW, WEST))
    case TravelW_SunW => Some((W, WEST))
    case TravelNW_SunW => Some((NW, WEST))
    case MiddleGeneral => None
    case NoSun => None
  }

  /** The explanation key `travel<direction>_sun<E|W>` for a route. */
  function TravelExplanation(d: CardinalDirection, p: SunGlobalPosition): (k: SeatExplanationKey)
    requires p != NONE
    ensures ExplainedRoute(k) == Some((d, p))
  {
    assert p == EAST || p == WEST;
    match d
    case N => if p == EAST then TravelN_SunE else TravelN_SunW
    case NE => if p == EAST then TravelNE_SunE else TravelNE_SunW
    case E => if p == EAST then TravelE_SunE else TravelE_SunW
    case SE => if p == EAST then TravelSE_SunE else TravelSE_SunW
    case S => if p == EAST then TravelS_SunE else TravelS_SunW
    case SW => if p == EAST then TravelSW_SunE else TravelSW_SunW
    case W => if p == EAST then TravelW_SunE else TravelW_SunW
    case NW => if p == EAST then TravelNW_SunE else TravelNW_SunW
  }

  /** The keys the recommendation matrix selects for a direction and a sun position. */
  function RecommendationKeys(d: CardinalDirection, p: SunGlobalPosition): (e: RecommendationEntry)
    ensures p == NONE ==> e == RecommendationEntry(SitAnywhere, NoSun)
    ensures p != NONE ==> e.suggestionKey == RecommendedSeat(d, p)
    ensures p != NONE ==> ExplainedRoute(e.explanationKey) == Some((d, p))
  {
    if p == NONE then RecommendationEntry(SitAnywhere, NoSun)
    else RecommendationEntry(RecommendedSeat(d, p), TravelExplanation(d, p))
  }

  /** The seats of the eight rows of the table with the sun in the east. */
  lemma EastSeats()
    ensures RecommendedSeat(N, EAST) == SitLeft
    ensures RecommendedSeat(NE, EAST) == SitBackLeft
    ensures RecommendedSeat(E, EAST) == SitAnySideBack
    ensures RecommendedSeat(SE, EAST) == SitBackRight
    ensures RecommendedSeat(S, EAST) == SitRight
    ensures RecommendedSeat(SW, EAST) == SitFrontRight
    ensures RecommendedSeat(W, EAST) == SitAnySideFront
    ensures RecommendedSeat(NW, EAST) == SitFrontLeft
  {
  }

  /** The seats of the eight rows of the table with the sun in the west. */
  lemma WestSeats()
    ensures RecommendedSeat(N, WEST) == SitRight
    ensures RecommendedSeat(NE, WEST) == SitBackRight
    ensures RecommendedSeat(E, WEST) == SitAnySideFront
    ensures RecommendedSeat(SE, WEST) == SitFrontRight
    ensures RecommendedSeat(S, WEST) == SitLeft
    ensures RecommendedSeat(SW, WEST) == SitBackLeft
    ensures RecommendedSeat(W, WEST) == SitAnySideBack
    ensures RecommendedSeat(NW, WEST) == SitFrontRight
  {
  }

  /** No suggestion key is the middle, front, back or anywhere seat while the sun
      is up, and the defaults `sitMiddle` and `middleGeneral` are never selected. */
  lemma DefaultsNeverSurvive(d: CardinalDirection, p: SunGlobalPosition)
    ensures RecommendationKeys(d, p).suggestionKey !in {SitMiddle, SitFront, SitBack}
    ensures RecommendationKeys(d, p).explanationKey != MiddleGeneral
    ensures p != NONE ==> RecommendationKeys(d, p).suggestionKey != SitAnywhere
    ensures p != NONE ==> RecommendationKeys(d, p).explanationKey != NoSun
  {
    if p != NONE {
      var k := Wrap8(SunOctant(p) - Octant(d) + 4);
      assert 0 <= k < 8;
      assert SeatFacing(k) !in {SitMiddle, SitFront, SitBack, SitAnywhere};
    }
  }

  /** The sixteen routes with the sun up have sixteen different explanations. */
  lemma ExplanationsDistinct(d1: CardinalDirection, p1: SunGlobalPosition, d2: CardinalDirection, p2: SunGlobalPosition)
    requires p1 != NONE && p2 != NONE
    requires TravelExplanation(d1, p1) == TravelExplanation(d2, p2)
    ensures d1 == d2 && p1 == p2
  {
    assert Some((d1, p1)) == ExplainedRoute(TravelExplanation(d1, p1));
  }

  /** The direction opposite `d`. */
  function Opposite(d: CardinalDirection): CardinalDirection {
    CompassPoint(Wrap8(Octant(d) + 4))
  }

  /** The seat opposite in both senses: front and back swapped, left and right swapped. */
  function OppositeSeat(seat: SeatSuggestionKey): SeatSuggestionKey {
    match seat
    case SitLeft => SitRight
    case SitRight => SitLeft
    case SitFront => SitBack
    case SitBack => SitFront
    case SitAnySideFront => SitAnySideBack
    case SitAnySideBack => SitAnySideFront
    case SitFrontLeft => SitBackRight
    case SitBackRight => SitFrontLeft
    case SitFrontRight => SitBackLeft
    case SitBackLeft => SitFrontRight
    case SitMiddle => SitMiddle
    case SitAnywhere => SitAnywhere
  }

  /** The seat with left and right swapped and front and back kept. */
  function LeftRightSwapped(seat: SeatSuggestionKey): SeatSuggestionKey {
    match seat
    case SitLeft => SitRight
    case SitRight => SitLeft
    case SitFrontLeft => SitFrontRight
    case SitFrontRight => SitFrontLeft
    case SitBackLeft => SitBackRight
    case SitBackRight => SitBackLeft
    case _ => seat
  }

  /** With the sun in the east, travelling the opposite way gets the opposite seat:
      N/S left/right, NE/SW back-left/front-right, E/W back/front, SE/NW
      back-right/front-left. */
  lemma {:induction false} EastTableOppositeDirections(d: CardinalDirection)
    ensures RecommendedSeat(Opposite(d), EAST) == OppositeSeat(RecommendedSeat(d, EAST))
  {
    var k: int := Octant(d);
    var k' := Wrap8(k + 4);
    OctantOfCompassPoint(k');
    SeatFacingOpposite(Wrap8(6 - k));
  }

  lemma OctantOfCompassPoint(j: int)
    requires 0 <= j < 8
    ensures Octant(CompassPoint(j)) == j
  {
    var ds := [N, NE, E, SE, S, SW, W, NW];
    assert CompassPoint(j) == ds[j];
  }

  lemma SeatFacingOpposite(r: int)
    requires 0 <= r < 8
    ensures SeatFacing(Wrap8(r + 4)) == OppositeSeat(SeatFacing(r))
  {
  }

  /** The WEST table breaks that symmetry: travelling north-east and south-west
      does not give opposite seats. */
  lemma WestTableNotOpposite()
    ensures RecommendedSeat(SW, WEST) != OppositeSeat(RecommendedSeat(NE, WEST))
  {
  }

  /** The WEST table follows the shading rule in every row except NE, SE and NW. */
  lemma {:induction false} WestTableDeviations(d: CardinalDirection)
    ensures RecommendedSeat(d, WEST) == ShadedSeat(d, WEST) <==> d !in {NE, SE, NW}
  {
    assert ShadedSeat(NE, WEST) == SitFrontRight;
    assert ShadedSeat(SE, WEST) == SitFrontLeft;
    assert ShadedSeat(NW, WEST) == SitBackRight;
  }

  /** `sitFrontRight` is the WEST seat for exactly two directions, SE and NW. */
  lemma {:induction false} WestFrontRightTwice(d: CardinalDirection)
    ensures RecommendedSeat(d, WEST) == SitFrontRight <==> d in {SE, NW}
  {
    var k := Wrap8(SunOctant(WEST) - Octant(d) + 4);
    assert d !in {SE, NW, NE} ==> 0 <= k < 8 && k != 1;
  }

  /** The WEST table is not the EAST table with left and right swapped: travelling
      east, the morning seat is towards the back and the afternoon one towards
      the front. */
  lemma WestIsNotLeftRightMirror()
    ensures RecommendedSeat(E, WEST) != LeftRightSwapped(RecommendedSeat(E, EAST))
  {
  }

  /** Resolves the two keys in one language's tables; an empty string falls back
      to the `sitMiddle` and `middleGeneral` entries of the same language. */
  function Localize(locale: LanguageTranslations, e: RecommendationEntry): (out: SuggestionOutput)
    ensures locale.seatSuggestions(e.suggestionKey) != "" ==>
              out.directSuggestion == locale.seatSuggestions(e.suggestionKey)
    ensures locale.seatSuggestions(e.suggestionKey) == "" ==>
              out.directSuggestion == locale.seatSuggestions(SitMiddle)
    ensures locale.seatExplanations(e.explanationKey) != "" ==>
              out.explanation == locale.seatExplanations(e.explanationKey)
    ensures locale.seatExplanations(e.explanationKey) == "" ==>
              out.explanation == locale.seatExplanations(MiddleGeneral)
  {
    SuggestionOutput(
      OrElse(locale.seatSuggestions(e.suggestionKey), locale.seatSuggestions(SitMiddle)),
      OrElse(locale.seatExplanations(e.explanationKey), locale.seatExplanations(MiddleGeneral)))
  }

  /** What the recommender produces for a trip, as a function of its inputs. */
  function Recommendation(
    startPoint: NumericLocationPoint, endPoint: NumericLocationPoint,
    travelTime: TravelTimeOfDay, language: Language,
    translations: Translations, bearingOf: RawBearing): SuggestionOutput
  {
    var direction := GetTravelDirection(NormalizeBearing(bearingOf(startPoint, endPoint)));
    Localize(translations(language), RecommendationKeys(direction, GetSunPosition(travelTime)))
  }

  /** In the evening the recommendation does not depend on where the trip goes. */
  lemma EveningIgnoresRoute(
    start1: NumericLocationPoint, end1: NumericLocationPoint,
    start2: NumericLocationPoint, end2: NumericLocationPoint,
    language: Language, translations: Translations, bearingOf: RawBearing)
    ensures Recommendation(start1, end1, EVENING, language, translations, bearingOf)
         == Recommendation(start2, end2, EVENING, language, translations, bearingOf)
  {
  }

  /** `calculateRecommendation`: classify, pick the keys by overwriting the
      `sitMiddle`/`middleGeneral` defaults, then resolve them in the language. */
  method CalculateRecommendation(
    startPoint: NumericLocationPoint, endPoint: NumericLocationPoint,
    travelTime: TravelTimeOfDay, language: Language,
    translations: Translations, bearingOf: RawBearing)
    returns (out: SuggestionOutput)
    ensures out == Recommendation(startPoint, endPoint, travelTime, language, translations, bearingOf)
  {
    var bearing := NormalizeBearing(bearingOf(startPoint, endPoint));
    var travelDirection := GetTravelDirection(bearing);
    var sunGlobalPos := GetSunPosition(travelTime);

    var localeTranslations := translations(language);
    EastSeats();
    WestSeats();
    var directSuggestionKey := SitMiddle;
    var explanationKey := MiddleGeneral;

    if sunGlobalPos == NONE {
      directSuggestionKey, explanationKey := SitAnywhere, NoSun;
    } else if sunGlobalPos == EAST {
      match travelDirection
      case N => directSuggestionKey, explanationKey := SitLeft, TravelN_SunE;
      case NE => directSuggestionKey, explanationKey := SitBackLeft, TravelNE_SunE;
      case E => directSuggestionKey, explanationKey := SitAnySideBack, TravelE_SunE;
      case SE => directSuggestionKey, explanationKey := SitBackRight, TravelSE_SunE;
      case S => directSuggestionKey, explanationKey := SitRight, TravelS_SunE;
      case SW => directSuggestionKey, explanationKey := SitFrontRight, TravelSW_SunE;
      case W => directSuggestionKey, explanationKey := SitAnySideFront, TravelW_SunE;
      case NW => directSuggestionKey, explanationKey := SitFrontLeft, TravelNW_SunE;
    } else if sunGlobalPos == WEST {
      match travelDirection
      case N => directSuggestionKey, explanationKey := SitRight, TravelN_SunW;
      case NE => directSuggestionKey, explanationKey := SitBackRight, TravelNE_SunW;
      case E => directSuggestionKey, explanationKey := SitAnySideFront, TravelE_SunW;
      case SE => directSuggestionKey, explanationKey := SitFrontRight, TravelSE_SunW;
      case S => directSuggestionKey, explanationKey := SitLeft, TravelS_SunW;
      case SW => directSuggestionKey, explanationKey := SitBackLeft, TravelSW_SunW;
      case W => directSuggestionKey, explanationKey := SitAnySideBack, TravelW_SunW;
      case NW => directSuggestionKey, explanationKey := SitFrontRight, TravelNW_SunW;
    }

    out := SuggestionOutput(
      OrElse(localeTranslations.seatSuggestions(directSuggestionKey),
             localeTranslations.seatSuggestions(SitMiddle)),
      OrElse(localeTranslations.seatExplanations(explanationKey),
             localeTranslations.seatExplanations(MiddleGeneral)));
  }
}
