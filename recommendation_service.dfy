/** The entry point the form calls (services/recommendationService.ts): reject a
    trip whose two ends coincide, otherwise delegate to the recommender. */
module RecommendationService {
  import opened Wrappers
  import opened Types
  import opened SunCalculator

  /** A thrown value: an `Error` object with its message, or anything else. */
  datatype Thrown = ErrorObject(message: string) | OtherValue

  const SameCoordinatesMessage: string := "SAME_COORDINATES"

  predicate SameCoordinates(a: NumericLocationPoint, b: NumericLocationPoint) {
    a.lat == b.lat && a.lon == b.lon
  }

  /** `getSunAvoidanceSuggestion`; the recommender itself never throws, so its
      result is passed on as it is. */
  function GetSunAvoidanceSuggestion(
    startPoint: NumericLocationPoint, endPoint: NumericLocationPoint,
    travelTime: TravelTimeOfDay, language: Language,
    translations: Translations, bearingOf: RawBearing): (r: Result<SuggestionOutput, Thrown>)
    ensures r.Failure? <==> SameCoordinates(startPoint, endPoint)
    ensures r.Failure? ==> r.error == ErrorObject(SameCoordinatesMessage)
    ensures r.Success? ==>
              r.value == Recommendation(startPoint, endPoint, travelTime, language, translations, bearingOf)
  {
    if startPoint.lat == endPoint.lat && startPoint.lon == endPoint.lon then
      Failure(ErrorObject(SameCoordinatesMessage))
    else
      Success(Recommendation(startPoint, endPoint, travelTime, language, translations, bearingOf))
  }

  /** The rejection is decided before anything is computed: it is the same for
      every time of day, language, string table and bearing formula. */
  lemma RejectionIgnoresEverythingElse(
    startPoint: NumericLocationPoint, endPoint: NumericLocationPoint,
    time1: TravelTimeOfDay, language1: Language, translations1: Translations, bearing1: RawBearing,
    time2: TravelTimeOfDay, language2: Language, translations2: Translations, bearing2: RawBearing)
    requires SameCoordinates(startPoint, endPoint)
    ensures GetSunAvoidanceSuggestion(startPoint, endPoint, time1, language1, translations1, bearing1)
         == GetSunAvoidanceSuggestion(startPoint, endPoint, time2, language2, translations2, bearing2)
  {
  }
}
