/** The text the time field shows (components/TimePickerInput.tsx): a 24-hour
    "HH:mm" value rendered as a 12-hour time followed by the translated period. */
module TimePickerInput {
  import opened Wrappers
  import opened Types
  import opened JsText
  import opened TimePickerModal

  const PlaceholderKey: string := "selectTimePlaceholder"

  /** A number below 10 written with one leading zero, any other as it is. */
  function ZeroPadded(n: nat): (s: string)
    ensures n < 10 ==> s == "0" + NatToString(n)
    ensures n >= 10 ==> s == NatToString(n)
  {
    if n < 10 then "0" + NatToString(n) else NatToString(n)
  }

  /** `formatTimeTo12Hour(time24, t, lang)`. The language argument is not used. */
  function FormatTimeTo12Hour(time24: string, t: string -> string, lang: Language): (r: string)
    ensures time24 == "" ==> r == t(PlaceholderKey)
  {
    if time24 == "" then t(PlaceholderKey)
    else
      var parts := Split(time24, ':');
      if parts[0] == "" || |parts| < 2 || parts[1] == "" then t(PlaceholderKey)
      else FormatFields(ParseInt(parts[0]), ParseInt(parts[1]), t)
  }

  /** The text for an hour and a minute read from the two fields. */
  function FormatFields(hours: Option<nat>, minutes: Option<nat>, t: string -> string): string {
    ZeroPadded(DisplayHour(hours)) + ":" + MinuteText(minutes) + " " + t(PeriodKey(hours))
  }

  /** The hour modulo 12, with 0 and NaN (both falsy) shown as 12. */
  function DisplayHour(hours: Option<nat>): (h: nat)
    ensures 1 <= h <= 12
    ensures hours.Some? && hours.value % 12 != 0 ==> h == hours.value % 12
    ensures hours.None? || hours.value % 12 == 0 ==> h == 12
  {
    if hours.Some? && hours.value % 12 != 0 then hours.value % 12 else 12
  }

  /** The key of the period: PM from hour 12 on; NaN compares false. */
  function PeriodKey(hours: Option<nat>): (key: string)
    ensures key == "PM" <==> hours.Some? && hours.value >= 12
    ensures key == "AM" <==> !(hours.Some? && hours.value >= 12)
  {
    assert "PM"[0] != "AM"[0];
    if hours.Some? && hours.value >= 12 then "PM" else "AM"
  }

  /** The minute with one leading zero below 10; NaN compares false and is
      written "NaN". */
  function MinuteText(minutes: Option<nat>): (s: string)
    ensures minutes.Some? ==> s == ZeroPadded(minutes.value)
    ensures minutes.None? ==> s == "NaN"
  {
    if minutes.Some? && minutes.value < 10 then "0" + NatToString(minutes.value)
    else NumberToString(minutes)
  }

  /** Text without a separator, text starting with one, and text whose only
      separator is its last character all show the placeholder. */
  lemma {:induction false} MissingFieldGivesPlaceholder(s: string, t: string -> string, lang: Language)
    requires ':' !in s || s[0] == ':' || (s[|s| - 1] == ':' && ':' !in s[..|s| - 1])
    ensures FormatTimeTo12Hour(s, t, lang) == t(PlaceholderKey)
  {
    if s == "" {
    } else if ':' !in s {
      SplitWithoutSeparator(s, ':');
    } else if s[0] == ':' {
      assert s == [] + [':'] + s[1..];
      SplitAtSeparator([], ':', s[1..]);
    } else {
      assert s == s[..|s| - 1] + [':'] + [];
      SplitAtSeparator(s[..|s| - 1], ':', []);
    }
  }

  /** A separator-free hour field followed by an empty minute field, as in
      "9:" or "9::30", shows the placeholder. */
  lemma {:induction false} EmptyMinuteFieldGivesPlaceholder(a: string, b: string, t: string -> string, lang: Language)
    requires ':' !in a
    requires b == [] || b[0] == ':'
    ensures FormatTimeTo12Hour(a + [':'] + b, t, lang) == t(PlaceholderKey)
  {
    SplitAtSeparator(a, ':', b);
    if b == [] {
      SplitWithoutSeparator(b, ':');
    } else {
      assert b == [] + [':'] + b[1..];
      SplitAtSeparator([], ':', b[1..]);
    }
  }

  /** The text shown for a canonical time is built from its hour and minute. */
  lemma {:induction false} FormatCanonicalFields(h: nat, m: nat, t: string -> string, lang: Language)
    requires h < 24 && m < 60
    ensures FormatTimeTo12Hour(FormatTime24(h, m), t, lang) == FormatFields(Some(h), Some(m), t)
  {
    ParseTime(h, m);
    SplitTime(h, m);
    TwoDigitsRoundTrip(h);
    TwoDigitsRoundTrip(m);
  }

  /** The one-leading-zero rule agrees with padding to two digits. */
  lemma ZeroPaddedIsTwoDigits(n: nat)
    requires n < 100
    ensures ZeroPadded(n) == TwoDigits(n)
  {
  }

  /** The field shows a canonical time as the picker would open on it: the
      same two-digit 12-hour hour, the same minute and the translated period
      of the same half of the day. */
  lemma {:induction false} FormatAgreesWithPicker(h: nat, m: nat, t: string -> string, lang: Language)
    requires h < 24 && m < 60
    ensures var sel := OpenedSelection(FormatTime24(h, m));
            FormatTimeTo12Hour(FormatTime24(h, m), t, lang)
              == sel.hour12 + ":" + sel.minute + " " + t(if sel.period == PM then "PM" else "AM")
  {
    FormatCanonicalFields(h, m, t, lang);
    OpenCanonical(h, m);
    FieldsOfCanonical(h, m, t);
  }

  lemma {:induction false} FieldsOfCanonical(h: nat, m: nat, t: string -> string)
    requires h < 24 && m < 60
    ensures FormatFields(Some(h), Some(m), t)
         == TwoDigits(TwelveHour(Some(h)).value) + ":" + TwoDigits(m) + " " + t(if h >= 12 then "PM" else "AM")
  {
    var h12 := TwelveHour(Some(h)).value;
    assert DisplayHour(Some(h)) == h12;
    ZeroPaddedIsTwoDigits(h12);
    ZeroPaddedIsTwoDigits(m);
  }

  /** Midnight and noon both show as 12, told apart by the period. */
  lemma {:induction false} MidnightAndNoon(t: string -> string)
    ensures FormatFields(Some(0), Some(0), t) == "12:00 " + t("AM")
    ensures FormatFields(Some(12), Some(0), t) == "12:00 " + t("PM")
  {
    TwelveShownAsTwelve();
    assert NatToString(0) == "0";
  }

  /** One in the afternoon shows as 01 PM. */
  lemma {:induction false} OnePm(t: string -> string)
    ensures FormatFields(Some(13), Some(5), t) == "01:05 " + t("PM")
  {
    assert NatToString(1) == "1" && NatToString(5) == "5";
  }

  lemma TwelveShownAsTwelve()
    ensures ZeroPadded(12) == "12"
  {
    assert NatToString(1) == "1";
    assert NatToString(2) == "2";
  }

  /** A non-numeric hour shows as 12 AM and a non-numeric minute as "NaN". */
  lemma {:induction false} NonNumericFields(t: string -> string, lang: Language)
    ensures FormatTimeTo12Hour("xx:yy", t, lang) == "12:NaN " + t("AM")
  {
    SplitNonNumeric();
    assert ParseInt("xx") == None && ParseInt("yy") == None;
    TwelveShownAsTwelve();
  }

  lemma {:induction false} SplitNonNumeric()
    ensures Split("xx:yy", ':') == ["xx", "yy"]
  {
    assert "xx:yy" == "xx" + [':'] + "yy";
    SplitAtSeparator("xx", ':', "yy");
    SplitWithoutSeparator("yy", ':');
  }
}
