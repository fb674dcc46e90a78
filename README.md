# SunSmart Seating — a Dafny model of the seat recommender

SunSmart Seating tells a passenger which side of a vehicle stays out of the sun.
The user picks a start point, a destination and a travel time. The page then:

- turns the travel time into a time-of-day category;
- classifies the bearing from start to destination into one of eight compass sectors;
- reads a seat and an explanation from a fixed table indexed by sector and by where the sun is (east in the morning, west in the afternoon, nowhere in the evening);
- shows both in the current language.

This project models that core in Dafny. It has one module per source file:

| module | file | source |
|---|---|---|
| `Types` | `types.dfy` | the enumerations and records of `types.ts` |
| `JsText` | `js_text.dfy` | the JavaScript built-ins the code relies on: `split`, `parseInt`, `toString`, `padStart`, and `\|\|` on strings |
| `SunCalculator` | `sun_calculator.dfy` | `services/sunCalculatorService.ts`: bearing normalisation, sector classification, sun position, the recommendation table |
| `RecommendationService` | `recommendation_service.dfy` | `services/recommendationService.ts`: the same-location guard |
| `LanguageContext` | `language_context.dfy` | `contexts/LanguageContext.tsx`: the current language and the `t` lookup |
| `TimePickerModal` | `time_picker_modal.dfy` | `components/TimePickerModal.tsx`: 24-hour to 12-hour on opening, and back on confirm |
| `TimePickerInput` | `time_picker_input.dfy` | `components/TimePickerInput.tsx`: the 12-hour display text |
| `App` | `app.dfy` | `App.tsx`: hour bucketing and the submit handler |

Modelling choices:

- The trigonometric bearing is a function parameter, `RawBearing`. It returns a real in [-180, 180], which is the range of `atan2` in degrees. Only the normalisation step after it is modelled.
- A JavaScript `NaN` from `parseInt` is `None` in an `Option<nat>`. Every ordering comparison with NaN (`<`, `>=`) is false, and the model takes the same branch as the code. An inequality with NaN is true. So `hour24 !== 12` sends NaN into `hour24 += 12` (components/TimePickerModal.tsx:87). The model leaves a NaN hour as it is there, which gives the same value because NaN + 12 is NaN.
- The translation tables are a parameter, `Translations`. For each language it gives a string map for `t` and total functions for the seat-suggestion and seat-explanation keys.
- Components whose fields change are classes with `modifies` clauses:
  - the language provider;
  - the time picker's three selections;
  - the page state of `App.tsx`.
- `calculateRecommendation` is an imperative method over the literal table. It is proved equal to `Recommendation`, a specification built from an independent rule: sit on the side facing away from the sun, relative to the direction of travel. The EAST table follows that rule everywhere. The WEST table follows it except in three rows, and the lemmas name them.

## Model

| member | source | states |
|---|---|---|
| Types.AllTravelTimes | types.ts:1-5 | the time-of-day category has exactly three distinct values |
| Types.TravelTimeOfDayListed | types.ts:1-5 | every category is one of MORNING, AFTERNOON, EVENING; there is no night category |
| Types.AllLanguages | types.ts:7-10 | there are exactly two distinct languages |
| Types.LanguageListed | types.ts:7-10 | every language is EN or AR |
| Types.AllDirections | types.ts:22-31 | there are exactly eight distinct compass directions |
| Types.CardinalDirectionListed | types.ts:22-31 | every direction is one of N, NE, E, SE, S, SW, W, NW |
| Types.AllSeatSuggestionKeys | types.ts:34-47 | there are exactly twelve distinct seat-suggestion keys, including sitMiddle and sitAnywhere |
| Types.SeatSuggestionKeyListed | types.ts:34-47 | no seat-suggestion key exists outside those twelve |
| Types.AllSeatExplanationKeys | types.ts:50-68 | there are eighteen distinct explanation keys: one per direction and sun side, plus middleGeneral and noSun |
| Types.SeatExplanationKeyListed | types.ts:50-68 | no explanation key exists outside those eighteen |
| JsText.Split | components/TimePickerModal.tsx:41 | the pieces contain no separator, there is at least one piece, and joining them with the separator gives the text back |
| JsText.SplitAtSeparator | components/TimePickerModal.tsx:41 | a separator-free prefix followed by a separator becomes the first piece, and the rest is split on its own |
| JsText.SplitWithoutSeparator | App.tsx:37 | text without a separator splits into itself alone |
| JsText.FirstPieceIsPrefix | App.tsx:37 | the first piece of a split is a prefix of the text |
| JsText.DigitPrefixLength | components/TimePickerModal.tsx:42-43 | the leading digits are all digits, and the character after them is not a digit |
| JsText.ParseInt | components/TimePickerModal.tsx:42-43 | the result is NaN exactly when the text is empty or does not start with a digit |
| JsText.ParseIntField | components/TimePickerModal.tsx:41-43 | a missing piece of a split (`undefined`) parses as NaN; a present one parses as itself |
| JsText.NatToString | components/TimePickerModal.tsx:53-54 | the decimal text is non-empty and all digits, has one digit exactly below 10, has the number's value, and starts with '0' only for 0 |
| JsText.PadStart2 | components/TimePickerModal.tsx:53-54 | the text is padded with zeros on the left to length 2 and ends with the original |
| JsText.TwoDigits | components/TimePickerModal.tsx:14-15 | below 100 the text is exactly two digits: tens then units |
| JsText.ParseIntOfDigits | components/TimePickerModal.tsx:42-43 | digits followed by a non-digit or by nothing parse to the value of the digits |
| JsText.TwoDigitsRoundTrip | components/TimePickerModal.tsx:53-92 | a number below 100 written as two digits parses back to itself |
| SunCalculator.NormalizeBearing | services/sunCalculatorService.ts:20 | `(b + 360) % 360` for b in [-180, 180] is in [0, 360); it is b when b >= 0 and b + 360 otherwise |
| SunCalculator.Octant | types.ts:22-31 | each direction has a position 0..7 in clockwise order, and that position names the direction back |
| SunCalculator.GetTravelDirection | services/sunCalculatorService.ts:24-34 | in [0, 360) the direction's 45-degree sector contains the bearing; outside that range the fallback gives N |
| SunCalculator.TravelDirectionIsSector | services/sunCalculatorService.ts:25-32 | in [0, 360) the result is d exactly when the bearing lies in d's sector, so the sectors are exclusive and exhaustive and the fallback is unreachable |
| SunCalculator.TravelDirectionByRounding | services/sunCalculatorService.ts:24-33 | the if-chain equals rounding the bearing to the nearest eighth of a turn, halves up, modulo 8 |
| SunCalculator.SectorBoundaries | services/sunCalculatorService.ts:26-32 | each boundary 22.5 + 45k belongs to the sector that starts there |
| SunCalculator.GetSunPosition | services/sunCalculatorService.ts:38-49 | morning is EAST, afternoon WEST, and evening NONE, each an if-and-only-if; the default branch is unreachable |
| SunCalculator.Wrap8 | services/sunCalculatorService.ts:70-88 | a helper of the shading-rule specification that `Recommendation` is compared with; it models no source line. It brings an octant count in [-8, 16) into 0..7 by adding or subtracting at most one turn |
| SunCalculator.TravelExplanation | services/sunCalculatorService.ts:70-88 | the explanation key chosen for a direction and sun side decodes back to that same direction and side |
| SunCalculator.RecommendationKeys | services/sunCalculatorService.ts:62-89 | with no sun the keys are (sitAnywhere, noSun); otherwise the seat is the recommended one and the explanation names the route and the sun side |
| SunCalculator.EastSeats | services/sunCalculatorService.ts:70-77 | the shading rule yields exactly the eight EAST seats of the table |
| SunCalculator.WestSeats | services/sunCalculatorService.ts:81-88 | the shading rule with its three exceptions yields exactly the eight WEST seats of the table |
| SunCalculator.DefaultsNeverSurvive | services/sunCalculatorService.ts:62-89 | the sitMiddle/middleGeneral defaults are never selected, sitFront and sitBack never appear, and with the sun up neither sitAnywhere nor noSun is chosen |
| SunCalculator.ExplanationsDistinct | services/sunCalculatorService.ts:70-88 | the sixteen (direction, sun side) pairs receive sixteen different explanation keys |
| SunCalculator.EastTableOppositeDirections | services/sunCalculatorService.ts:70-77 | in the EAST table, opposite directions get opposite seats (left/right and front/back both swapped) |
| SunCalculator.OctantOfCompassPoint | types.ts:22-31 | the position of the k-th compass point is k |
| SunCalculator.SeatFacingOpposite | services/sunCalculatorService.ts:70-77 | turning the sun's relative octant by half a turn gives the opposite seat |
| SunCalculator.WestTableNotOpposite | services/sunCalculatorService.ts:82-86 | in the WEST table, north-east and south-west do not get opposite seats |
| SunCalculator.WestTableDeviations | services/sunCalculatorService.ts:81-88 | a WEST row follows the shading rule exactly when its direction is not NE, SE or NW |
| SunCalculator.WestFrontRightTwice | services/sunCalculatorService.ts:84-88 | sitFrontRight is the WEST seat for exactly the two directions SE and NW |
| SunCalculator.WestIsNotLeftRightMirror | services/sunCalculatorService.ts:72-83 | the WEST seat is not the EAST seat with left and right swapped (travelling east: back in the morning, front in the afternoon) |
| SunCalculator.Localize | services/sunCalculatorService.ts:92-95 | a non-empty string for a key is used; an empty one falls back to sitMiddle/middleGeneral of the same language, never to another language |
| SunCalculator.EveningIgnoresRoute | services/sunCalculatorService.ts:65-67 | in the evening the recommendation is the same for every start and destination |
| SunCalculator.CalculateRecommendation | services/sunCalculatorService.ts:51-96 | the imperative table lookup with its overwritten defaults returns exactly the specified recommendation |
| RecommendationService.GetSunAvoidanceSuggestion | services/recommendationService.ts:5-26 | it fails with an `Error("SAME_COORDINATES")` exactly when latitude and longitude are both equal; otherwise it returns the recommendation for the same four arguments |
| RecommendationService.RejectionIgnoresEverythingElse | services/recommendationService.ts:14-16 | the rejection is decided before any computation: it is the same whatever the time, language, tables or bearing |
| LanguageContext.Translate | contexts/LanguageContext.tsx:31-45 | a present, non-empty entry is returned; a missing or empty one gives the key itself; a non-empty key never gives an empty string |
| LanguageContext.LanguageProvider.constructor | contexts/LanguageContext.tsx:19-20 | the provider starts in Arabic |
| LanguageContext.LanguageProvider.SetLanguage | contexts/LanguageContext.tsx:27-29 | the language is replaced, and nothing else changes |
| LanguageContext.LanguageProvider.T | contexts/LanguageContext.tsx:31-45 | the current language's entry when present and non-empty, otherwise the key; no other language is consulted |
| LanguageContext.LanguageProvider.Dir | contexts/LanguageContext.tsx:22-25 | the document direction is "rtl" exactly when the language is AR, and "ltr" exactly when it is EN |
| TimePickerModal.HoursArray12 | components/TimePickerModal.tsx:14 | the hour column has twelve entries |
| TimePickerModal.MinutesArray | components/TimePickerModal.tsx:15 | the minute column has sixty entries |
| TimePickerModal.HoursArrayReadsBack | components/TimePickerModal.tsx:14 | entry i of the hour column is two decimal digits that parse to i + 1, so it lists "01" to "12" |
| TimePickerModal.MinutesArrayReadsBack | components/TimePickerModal.tsx:15 | entry i of the minute column is two decimal digits that parse to i, so it lists "00" to "59" |
| TimePickerModal.PeriodOf | components/TimePickerModal.tsx:45 | the period is PM exactly when the hour is a number >= 12; NaN gives AM |
| TimePickerModal.TwelveHour | components/TimePickerModal.tsx:46-50 | NaN stays NaN; 0 becomes 12; an hour above 12 loses 12; hours 1..12 are unchanged; so an hour below 24 becomes 1..12 |
| TimePickerModal.TwentyFourHour | components/TimePickerModal.tsx:84-90 | NaN stays NaN; 12 AM becomes 0; another AM hour is unchanged; a PM hour other than 12 gains 12; 12 PM stays 12; so 1..12 gives an hour below 24 that is >= 12 exactly for PM |
| TimePickerModal.TwelveHourRoundTrip | components/TimePickerModal.tsx:45-90 | a 24-hour hour converted to 12-hour form on opening and back on confirm is unchanged |
| TimePickerModal.TwentyFourHourRoundTrip | components/TimePickerModal.tsx:45-90 | a 12-hour hour and period converted to 24 hours and back are unchanged |
| TimePickerModal.FormatTime24 | components/TimePickerModal.tsx:92 | the confirmed text is five characters: two digits, ':', two digits |
| TimePickerModal.NoColonInTwoDigits | components/TimePickerModal.tsx:92 | a two-digit field contains no ':' |
| TimePickerModal.SplitTime | components/TimePickerModal.tsx:41 | a canonical "HH:mm" splits on ':' into its hour field and its minute field |
| TimePickerModal.ParseTime | components/TimePickerModal.tsx:41-43 | a canonical "HH:mm" parses back to its hour and its minute |
| TimePickerModal.OpenCanonical | components/TimePickerModal.tsx:40-55 | opening on "HH:mm" selects the two-digit 12-hour hour, the minute and the period, all of them entries of the columns |
| TimePickerModal.ConfirmColumns | components/TimePickerModal.tsx:83-94 | confirming column entries gives the canonical text of the converted hour and the picked minute |
| TimePickerModal.OpenConfirmRoundTrip | components/TimePickerModal.tsx:34-94 | opening on a canonical "HH:mm" and confirming without a change gives the same text back |
| TimePickerModal.OpenEmpty | components/TimePickerModal.tsx:36-40 | an empty initial value opens on 09, 00 and AM |
| TimePickerModal.DefaultSelectionInColumns | components/TimePickerModal.tsx:25-26 | the initial "09" and "00" are entries of their columns |
| TimePickerModal.ConfirmedCanonical | components/TimePickerModal.tsx:83-94 | any selection made from the columns confirms to some canonical time below 24:00 |
| TimePickerModal.TimePicker.constructor | components/TimePickerModal.tsx:25-27 | the picker starts at 09, 00 and AM, with both entries in their columns |
| TimePickerModal.TimePicker.Open | components/TimePickerModal.tsx:34-58 | the opening effect, with its reassigned locals, sets the three selections to the specified opened selection |
| TimePickerModal.TimePicker.SelectHour | components/TimePickerModal.tsx:155-160 | only the hour changes, and the selection stays within the columns |
| TimePickerModal.TimePicker.SelectMinute | components/TimePickerModal.tsx:177-182 | only the minute changes, and the selection stays within the columns |
| TimePickerModal.TimePicker.SelectPeriod | components/TimePickerModal.tsx:128-132 | only the period changes |
| TimePickerModal.TimePicker.Confirm | components/TimePickerModal.tsx:83-94 | the step-by-step hour conversion returns the specified confirmed time, which is canonical whenever the selection comes from the columns |
| TimePickerModal.ReopenAndConfirm | components/TimePickerInput.tsx:77-82 | a fresh picker opened on a canonical time and confirmed at once returns that time |
| TimePickerInput.ZeroPadded | components/TimePickerInput.tsx:28-29 | a number below 10 gets exactly one leading zero; any other is written as it is |
| TimePickerInput.FormatTimeTo12Hour | components/TimePickerInput.tsx:16-34 | an empty value shows the placeholder translation |
| TimePickerInput.DisplayHour | components/TimePickerInput.tsx:25-26 | the displayed hour is in 1..12; it is the hour modulo 12 unless that is 0; NaN, 0 and every multiple of 12 show as 12 |
| TimePickerInput.PeriodKey | components/TimePickerInput.tsx:24 | the period is PM exactly when the hour is a number >= 12, and AM otherwise (NaN included) |
| TimePickerInput.MinuteText | components/TimePickerInput.tsx:28 | a numeric minute gets one leading zero below 10; NaN shows as "NaN" |
| TimePickerInput.MissingFieldGivesPlaceholder | components/TimePickerInput.tsx:17-19 | text with no ':' (no minute field), text starting with ':' (empty hour field), and text whose only ':' is last all show the placeholder |
| TimePickerInput.EmptyMinuteFieldGivesPlaceholder | components/TimePickerInput.tsx:17-19 | a separator-free hour field followed by an empty minute field, as in "9:" or "9::30", shows the placeholder |
| TimePickerInput.FormatCanonicalFields | components/TimePickerInput.tsx:18-22 | a canonical "HH:mm" is displayed from its hour and minute |
| TimePickerInput.ZeroPaddedIsTwoDigits | components/TimePickerInput.tsx:28-29 | below 100, the one-leading-zero rule equals padding to two digits |
| TimePickerInput.FieldsOfCanonical | components/TimePickerInput.tsx:24-33 | for hour h < 24 and minute m < 60 the display is the two-digit 12-hour hour, ':', the two-digit minute, a space, and the translated period |
| TimePickerInput.FormatAgreesWithPicker | components/TimePickerInput.tsx:16-34 | the field shows a canonical time with the same hour, minute and period that the picker opens on |
| TimePickerInput.MidnightAndNoon | components/TimePickerInput.tsx:24-26 | 00:00 shows as "12:00 AM" and 12:00 as "12:00 PM" |
| TimePickerInput.OnePm | components/TimePickerInput.tsx:24-29 | 13:05 shows as "01:05 PM" |
| TimePickerInput.NonNumericFields | components/TimePickerInput.tsx:21-29 | a non-numeric hour shows as 12 AM and a non-numeric minute as "NaN" |
| App.HourCategory | App.tsx:38-41 | 4..11 is MORNING, 12..17 AFTERNOON, and every other hour, NaN included, EVENING, each an if-and-only-if |
| App.GetTimeCategory | App.tsx:35-42 | an empty time is MORNING |
| App.NonNumericTimeIsEvening | App.tsx:37-41 | a non-empty time that does not start with a digit is EVENING |
| App.CategoryOfPickedTime | App.tsx:35-42 | a canonical "HH:mm" falls in the category of its hour |
| App.InitialTimeIsMorning | App.tsx:19-42 | the initial travel time "09:00" is MORNING |
| App.NightHasNoSun | App.tsx:39-41 | before 04:00 and from 18:00 there is no sun, and the keys are (sitAnywhere, noSun) for every direction |
| App.CaughtErrorKey | App.tsx:80-89 | the `Error("SAME_COORDINATES")` thrown by the service gives sameCoordinatesError, and any other thrown value gives errorCalculatingSuggestion |
| App.SubmitCheckKey | App.tsx:46-64 | the first failing check decides the message, in the order start (selectStartLocationError), destination (selectDestinationLocationError), time (enterTravelTime), equal coordinates (sameCoordinatesError); none fails exactly when all pass |
| App.PassingSubmitIsAccepted | App.tsx:61-79 | a submit that passes the form's checks is never rejected by the service, so its catch branch cannot be reached from the form |
| App.AppState.constructor | App.tsx:17-22 | no points, time "09:00", no suggestion, not loading, no error |
| App.AppState.HandleLocationSelected | App.tsx:24-33 | the chosen field takes the new location, and the other field is unchanged |
| App.AppState.SetTravelTimeInput | App.tsx:143-144 | the time field's change handler replaces the travel time |
| App.AppState.BeginRequest | App.tsx:66-68 | before the call, loading is on and both error and suggestion are cleared |
| App.AppState.FinishRequest | App.tsx:72-92 | a result becomes the suggestion; a thrown value becomes the caught-error message; loading ends in every outcome |
| App.AppState.HandleSubmit | App.tsx:44-93 | a failing check sets only its message; a passing submit ends with the recommendation for the category of the time, no error, and loading off |

## Left out

- The great-circle bearing formula (`toRadians`, `toDegrees`, sin/cos/`atan2`, services/sunCalculatorService.ts:5-19) is floating-point numerics. It is the `RawBearing` parameter. Only its range [-180, 180] is assumed.
- Numbers are exact reals and naturals. Floating-point rounding, `-0`, infinities and NaN coordinates are not modelled. Coordinate equality is exact real equality.
- JsText.ParseInt: reads only leading decimal digits. JavaScript also skips leading white space and accepts a sign, so text such as " 9" or "-1" parses as NaN here rather than as 9 or -1. Picker and form values never contain either.
- The content of translations.ts is a parameter. Which strings exist in which language is not modelled, and neither is the Arabic text.
- translations.ts is not part of this model beyond that parameter. Neither are MapInput, MapModal, Modal, SuggestionCard, LanguageSwitcher, Select or Input, which are map integration and presentation.
- React hooks and effects, DOM writes, the Promise wrapper and `console.error` are left out:
  - the `lang`, `dir` and font writes at App.tsx:95-104 and contexts/LanguageContext.tsx:22-25 are left out, except that `Dir` states the choice of direction;
  - scrolling, the modal's open/closed flag and the loading spinner are left out;
  - the `await` of the service is an ordinary call.
- RecommendationService.GetSunAvoidanceSuggestion: the re-throw of a calculation error (services/recommendationService.ts:21-25) has nothing to re-throw, because the modelled calculation is total and cannot fail.
- TimePickerInput.FormatTimeTo12Hour: its function contract covers only the empty-value case. Lemmas state the placeholder for each of the three missing fields: an empty hour field (`MissingFieldGivesPlaceholder`), no minute field (`MissingFieldGivesPlaceholder`), and an empty minute field (`EmptyMinuteFieldGivesPlaceholder`). Other lemmas cover canonical times and non-numeric fields. The text for other malformed values, such as "7:5:9", follows from its body but is not stated separately. Its `lang` argument is unused in the source and is kept without effect.
- The time field's own choice between the formatted text and a grey placeholder element (components/TimePickerInput.tsx:56) is presentation.
- In two places the code does not do what one might expect, and the model follows the code:
  - The WEST table is not a left/right mirror of the EAST table. It deviates in the NE, SE and NW rows, and it uses sitFrontRight twice (`WestTableDeviations`, `WestFrontRightTwice`, `WestIsNotLeftRightMirror`).
  - No lookup falls back to English. `t` falls back to the key. The recommendation falls back to sitMiddle/middleGeneral of the same language, which may itself be empty.
