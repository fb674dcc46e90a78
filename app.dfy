/** The trip form (App.tsx): the start, the destination and the time the user
    picked, the submit handler that validates them and asks the recommendation
    service, and the state the page renders from. */
module App {
  import opened Wrappers
  import opened Types
  import opened JsText
  import opened SunCalculator
  import opened RecommendationService
  import opened LanguageContext
  import TimePickerModal

  /** The time-of-day category of an hour: 4 to 11 is morning, 12 to 17 is
      afternoon, and everything else, NaN included, is evening. */
  function HourCategory(hours: Option<nat>): (c: TravelTimeOfDay)
    ensures c == MORNING <==> hours.Some? && 4 <= hours.value < 12
    ensures c == AFTERNOON <==> hours.Some? && 12 <= hours.value < 18
    ensures c == EVENING <==> hours.None? || hours.value < 4 || hours.value >= 18
  {
    if hours.Some? && hours.value >= 4 && hours.value < 12 then MORNING
    else if hours.Some? && hours.value >= 12 && hours.value < 18 then AFTERNOON
    else EVENING
  }

  /** `getTimeCategory`: the category of the hour before the first ':'; the
      empty text counts as morning. */
  function GetTimeCategory(time: string): (c: TravelTimeOfDay)
    ensures time == "" ==> c == MORNING
  {
    if time == "" then MORNING
    else HourCategory(ParseInt(Split(time, ':')[0]))
  }

  /** A non-empty text that does not start with a digit has no hour, and so
      is evening. */
  lemma {:induction false} NonNumericTimeIsEvening(time: string)
    requires time != "" && !IsDigit(time[0])
    ensures GetTimeCategory(time) == EVENING
  {
    FirstPieceIsPrefix(time, ':');
    var first := Split(time, ':')[0];
    if first != "" {
      assert first[0] == time[0];
    }
  }

  /** A time from the picker falls in the category of its hour. */
  lemma {:induction false} CategoryOfPickedTime(h: nat, m: nat)
    requires h < 24 && m < 60
    ensures GetTimeCategory(TimePickerModal.FormatTime24(h, m)) == HourCategory(Some(h))
  {
    TimePickerModal.ParseTime(h, m);
  }

  /** The form's initial time, 09:00, is a morning. */
  lemma InitialTimeIsMorning()
    ensures GetTimeCategory("09:00") == MORNING
  {
    assert TimePickerModal.FormatTime24(9, 0) == "09:00" by {
      assert NatToString(9) == "9" && NatToString(0) == "0";
    }
    CategoryOfPickedTime(9, 0);
  }

  /** Before 04:00 and from 18:00 on there is no sun to avoid: the seat is
      "anywhere", whatever the route. */
  lemma {:induction false} NightHasNoSun(h: nat, m: nat)
    requires h < 24 && m < 60
    requires h < 4 || h >= 18
    ensures GetSunPosition(GetTimeCategory(TimePickerModal.FormatTime24(h, m))) == NONE
    ensures forall d :: RecommendationKeys(d, GetSunPosition(GetTimeCategory(TimePickerModal.FormatTime24(h, m))))
                     == RecommendationEntry(SitAnywhere, NoSun)
  {
    CategoryOfPickedTime(h, m);
  }

  /** The two location fields of the form. */
  datatype LocationField = StartField | DestinationField

  /** The key of the message shown for a value the service throws: the
      same-coordinates message for its own error, a general one otherwise. */
  function CaughtErrorKey(thrown: Thrown): (key: string)
    ensures key == "sameCoordinatesError" <==> thrown == ErrorObject(SameCoordinatesMessage)
    ensures key == "errorCalculatingSuggestion" <==> thrown != ErrorObject(SameCoordinatesMessage)
  {
    assert "sameCoordinatesError"[0] != "errorCalculatingSuggestion"[0];
    if thrown.ErrorObject? && thrown.message == SameCoordinatesMessage then "sameCoordinatesError"
    else "errorCalculatingSuggestion"
  }

  /** The key of the message for the first check a submit fails, in the order
      start, destination, time, distinct points; none when all pass. */
  function SubmitCheckKey(
    startPoint: Option<NumericLocationPoint>, endPoint: Option<NumericLocationPoint>,
    travelTimeInput: string): (key: Option<string>)
    ensures startPoint.None? ==> key == Some("selectStartLocationError")
    ensures startPoint.Some? && endPoint.None? ==> key == Some("selectDestinationLocationError")
    ensures startPoint.Some? && endPoint.Some? && travelTimeInput == "" ==> key == Some("enterTravelTime")
    ensures startPoint.Some? && endPoint.Some? && travelTimeInput != "" ==>
              key == (if SameCoordinates(startPoint.value, endPoint.value)
                      then Some("sameCoordinatesError") else None)
    ensures key.Some? ==> key.value in {"selectStartLocationError", "selectDestinationLocationError",
                                        "enterTravelTime", "sameCoordinatesError"}
  {
    if startPoint.None? then Some("selectStartLocationError")
    else if endPoint.None? then Some("selectDestinationLocationError")
    else if travelTimeInput == "" then Some("enterTravelTime")
    else if SameCoordinates(startPoint.value, endPoint.value) then Some("sameCoordinatesError")
    else None
  }

  /** A submit that passes the form's checks is never rejected by the
      service: both test the same coordinates, so the catch branch is not
      reached from the form. */
  lemma PassingSubmitIsAccepted(
    startPoint: Option<NumericLocationPoint>, endPoint: Option<NumericLocationPoint>,
    travelTimeInput: string, language: Language, translations: Translations, bearingOf: RawBearing)
    requires SubmitCheckKey(startPoint, endPoint, travelTimeInput).None?
    ensures GetSunAvoidanceSuggestion(startPoint.value, endPoint.value, GetTimeCategory(travelTimeInput),
                                      language, translations, bearingOf).Success?
  {
  }

  /** The page's state. */
  class AppState {
    var startPoint: Option<NumericLocationPoint>
    var endPoint: Option<NumericLocationPoint>
    var travelTimeInput: string
    var suggestion: Option<SuggestionOutput>
    var isLoading: bool
    var error: Option<string>
    const i18n: LanguageProvider
    const bearingOf: RawBearing

    constructor (i18n: LanguageProvider, bearingOf: RawBearing)
      ensures startPoint.None? && endPoint.None? && travelTimeInput == "09:00"
      ensures suggestion.None? && !isLoading && error.None?
      ensures this.i18n == i18n && this.bearingOf == bearingOf
    {
      this.i18n := i18n;
      this.bearingOf := bearingOf;
      startPoint, endPoint := None, None;
      travelTimeInput := "09:00";
      suggestion, isLoading, error := None, false, None;
    }

    /** A location picked (or cleared) on one of the two maps. */
    method HandleLocationSelected(field: LocationField, location: Option<NumericLocationPoint>)
      modifies this`startPoint, this`endPoint
      ensures field == StartField ==> startPoint == location && endPoint == old(endPoint)
      ensures field == DestinationField ==> endPoint == location && startPoint == old(startPoint)
    {
      if field == StartField {
        startPoint := location;
      } else {
        endPoint := location;
      }
    }

    /** The time field's change handler. */
    method SetTravelTimeInput(value: string)
      modifies this`travelTimeInput
      ensures travelTimeInput == value
    {
      travelTimeInput := value;
    }

    /** What a passing submit does before it calls the service. */
    method BeginRequest()
      modifies this`isLoading, this`error, this`suggestion
      ensures isLoading && error.None? && suggestion.None?
    {
      isLoading := true;
      error := None;
      suggestion := None;
    }

    /** The service's outcome: its result is shown, or what it threw becomes
      an error message; either way loading ends. */
    method FinishRequest(outcome: Result<SuggestionOutput, Thrown>)
      modifies this`suggestion, this`error, this`isLoading
      ensures !isLoading
      ensures outcome.Success? ==> suggestion == Some(outcome.value) && error == old(error)
      ensures outcome.Failure? ==>
                suggestion == old(suggestion) && error == Some(i18n.T(CaughtErrorKey(outcome.error)))
    {
      if outcome.Success? {
        suggestion := Some(outcome.value);
      } else {
        error := Some(i18n.T("errorCalculatingSuggestion"));
        if outcome.error.ErrorObject? && outcome.error.message == SameCoordinatesMessage {
          error := Some(i18n.T("sameCoordinatesError"));
        }
      }
      isLoading := false;
    }

    /** `handleSubmit`: the first failing check sets its message and nothing
        else; a passing submit ends with the recommendation shown, no error and
        loading over. */
    method HandleSubmit()
      modifies this`suggestion, this`error, this`isLoading
      ensures var check := SubmitCheckKey(startPoint, endPoint, travelTimeInput);
              check.Some? ==>
                error == Some(i18n.T(check.value)) &&
                suggestion == old(suggestion) && isLoading == old(isLoading)
      ensures var check := SubmitCheckKey(startPoint, endPoint, travelTimeInput);
              check.None? ==>
                !isLoading && error.None? &&
                suggestion == Some(Recommendation(startPoint.value, endPoint.value,
                                                  GetTimeCategory(travelTimeInput), i18n.language,
                                                  i18n.translations, bearingOf))
    {
      if startPoint.None? {
        error := Some(i18n.T("selectStartLocationError"));
        return;
      }
      if endPoint.None? {
        error := Some(i18n.T("selectDestinationLocationError"));
        return;
      }
      if travelTimeInput == "" {
        error := Some(i18n.T("enterTravelTime"));
        return;
      }
      if startPoint.value.lat == endPoint.value.lat && startPoint.value.lon == endPoint.value.lon {
        error := Some(i18n.T("sameCoordinatesError"));
        return;
      }

      BeginRequest();
      var travelTimeCategory := GetTimeCategory(travelTimeInput);
      var result := GetSunAvoidanceSuggestion(startPoint.value, endPoint.value, travelTimeCategory,
                                              i18n.language, i18n.translations, bearingOf);
      FinishRequest(result);
    }
  }
}
