/** The time picker dialog (components/TimePickerModal.tsx): it opens on a
    24-hour "HH:mm" value shown as a 12-hour hour, a minute and AM/PM, lets the
    user pick from fixed columns, and confirms back to 24-hour "HH:mm". */
module TimePickerModal {
  import opened Wrappers
  import opened JsText

  datatype Period = AM | PM

  /** The hour column: "01" to "12". */
  function HoursArray12(): (r: seq<string>)
    ensures |r| == 12
  {
    seq(12, i requires 0 <= i < 12 => TwoDigits(i + 1))
  }

  /** The minute column: "00" to "59". */
  function MinutesArray(): (r: seq<string>)
    ensures |r| == 60
  {
    seq(60, i requires 0 <= i < 60 => TwoDigits(i))
  }

  /** Every entry of the hour column is two digits that read back as its hour,
      so the column lists 1 to 12 in order, each once. */
  lemma HoursArrayReadsBack()
    ensures forall i :: 0 <= i < 12 ==>
              |HoursArray12()[i]| == 2 && AllDigits(HoursArray12()[i]) &&
              ParseInt(HoursArray12()[i]) == Some(i + 1)
  {
    forall i | 0 <= i < 12
      ensures |HoursArray12()[i]| == 2 && AllDigits(HoursArray12()[i]) &&
              ParseInt(HoursArray12()[i]) == Some(i + 1)
    {
      TwoDigitsRoundTrip(i + 1);
    }
  }

  /** Every entry of the minute column is two digits that read back as its minute. */
  lemma MinutesArrayReadsBack()
    ensures forall i :: 0 <= i < 60 ==>
              |MinutesArray()[i]| == 2 && AllDigits(MinutesArray()[i]) &&
              ParseInt(MinutesArray()[i]) == Some(i)
  {
    forall i | 0 <= i < 60
      ensures |MinutesArray()[i]| == 2 && AllDigits(MinutesArray()[i]) &&
              ParseInt(MinutesArray()[i]) == Some(i)
    {
      TwoDigitsRoundTrip(i);
    }
  }

  /** The period a 24-hour hour falls in; NaN compares false and gives AM. */
  function PeriodOf(h: Option<nat>): (p: Period)
    ensures p == PM <==> h.Some? && h.value >= 12
  {
    match h
    case Some(v) => if v >= 12 then PM else AM
    case None => AM
  }

  /** The hour shown by the picker for a 24-hour hour: 0 becomes 12, an hour
      above 12 loses 12, NaN stays NaN. */
  function TwelveHour(h: Option<nat>): (r: Option<nat>)
    ensures r.None? <==> h.None?
    ensures h.Some? && h.value < 24 ==> r.Some? && 1 <= r.value <= 12
    ensures h.Some? && 1 <= h.value <= 12 ==> r == h
    ensures h == Some(0) ==> r == Some(12)
    ensures h.Some? && h.value > 12 ==> r == Some(h.value - 12)
  {
    match h
    case None => None
    case Some(v) => if v == 0 then Some(12) else if v > 12 then Some(v - 12) else Some(v)
  }

  /** The 24-hour hour for a 12-hour hour and a period: 12 AM is 0, a PM hour
      other than 12 gains 12, NaN stays NaN. */
  function TwentyFourHour(h12: Option<nat>, p: Period): (r: Option<nat>)
    ensures r.None? <==> h12.None?
    ensures h12.Some? && 1 <= h12.value <= 12 ==> r.Some? && r.value < 24
    ensures h12.Some? && 1 <= h12.value <= 12 ==> (r.value >= 12 <==> p == PM)
    ensures p == AM && h12 == Some(12) ==> r == Some(0)
    ensures p == AM && h12.Some? && h12.value != 12 ==> r == h12
    ensures p == PM && h12.Some? && h12.value != 12 ==> r == Some(h12.value + 12)
    ensures p == PM && h12 == Some(12) ==> r == h12
  {
    match h12
    case None => None
    case Some(v) =>
      match p
      case AM => if v == 12 then Some(0) else Some(v)
      case PM => if v != 12 then Some(v + 12) else Some(v)
  }

  /** A 24-hour hour survives the trip to the picker's 12-hour form and back. */
  lemma TwelveHourRoundTrip(h: nat)
    requires h < 24
    ensures TwentyFourHour(TwelveHour(Some(h)), PeriodOf(Some(h))) == Some(h)
  {
  }

  /** A 12-hour hour and period survive the trip to 24 hours and back. */
  lemma TwentyFourHourRoundTrip(h12: nat, p: Period)
    requires 1 <= h12 <= 12
    ensures TwelveHour(TwentyFourHour(Some(h12), p)) == Some(h12)
    ensures PeriodOf(TwentyFourHour(Some(h12), p)) == p
  {
  }

  /** What the three columns show. */
  datatype Selection = Selection(hour12: string, minute: string, period: Period)

  /** The selection the picker shows after opening on `initialValue`: the
      empty value opens on 9:00 AM, anything else is split on ':' and read. */
  function OpenedSelection(initialValue: string): Selection {
    var h := if initialValue == "" then Some(9) else ParseIntField(Split(initialValue, ':'), 0);
    var m := if initialValue == "" then Some(0) else ParseIntField(Split(initialValue, ':'), 1);
    Selection(PadStart2(NumberToString(TwelveHour(h))), PadStart2(NumberToString(m)), PeriodOf(h))
  }

  /** The 24-hour value the picker hands back for a selection. */
  function ConfirmedTime(sel: Selection): string {
    var hour24 := TwentyFourHour(ParseInt(sel.hour12), sel.period);
    PadStart2(NumberToString(hour24)) + ":" + sel.minute
  }

  /** The canonical "HH:mm" text of a time of day. */
  function FormatTime24(h: nat, m: nat): (s: string)
    requires h < 24 && m < 60
    ensures |s| == 5 && s[2] == ':'
    ensures AllDigits(s[..2]) && AllDigits(s[3..])
  {
    TwoDigits(h) + ":" + TwoDigits(m)
  }

  lemma {:induction false} NoColonInTwoDigits(n: nat)
    requires n < 100
    ensures ':' !in TwoDigits(n)
  {
    var r := TwoDigits(n);
    assert |r| == 2 && IsDigit(r[0]) && IsDigit(r[1]);
    forall i | 0 <= i < |r|
      ensures r[i] != ':'
    {
      assert i == 0 || i == 1;
    }
  }

  /** A canonical time splits on ':' into its two fields. */
  lemma {:induction false} SplitTime(h: nat, m: nat)
    requires h < 24 && m < 60
    ensures Split(FormatTime24(h, m), ':') == [TwoDigits(h), TwoDigits(m)]
  {
    NoColonInTwoDigits(h);
    NoColonInTwoDigits(m);
    SplitAtSeparator(TwoDigits(h), ':', TwoDigits(m));
    SplitWithoutSeparator(TwoDigits(m), ':');
  }

  /** A canonical time reads back as its hour and its minute. */
  lemma {:induction false} ParseTime(h: nat, m: nat)
    requires h < 24 && m < 60
    ensures ParseIntField(Split(FormatTime24(h, m), ':'), 0) == Some(h)
    ensures ParseIntField(Split(FormatTime24(h, m), ':'), 1) == Some(m)
  {
    SplitTime(h, m);
    TwoDigitsRoundTrip(h);
    TwoDigitsRoundTrip(m);
  }

  /** Opening on a canonical time shows its 12-hour hour and its period, with
      both hour and minute taken from the picker's own columns. */
  lemma {:induction false} OpenCanonical(h: nat, m: nat)
    requires h < 24 && m < 60
    ensures OpenedSelection(FormatTime24(h, m))
         == Selection(TwoDigits(TwelveHour(Some(h)).value), TwoDigits(m), PeriodOf(Some(h)))
    ensures OpenedSelection(FormatTime24(h, m)).hour12 in HoursArray12()
    ensures OpenedSelection(FormatTime24(h, m)).minute in MinutesArray()
  {
    ParseTime(h, m);
    var h12 := TwelveHour(Some(h)).value;
    assert HoursArray12()[h12 - 1] == TwoDigits(h12);
    assert MinutesArray()[m] == TwoDigits(m);
  }

  /** Whatever is picked from the columns, confirming gives a canonical time:
      the 24-hour hour for the picked hour and period, and the picked minute. */
  lemma {:induction false} ConfirmColumns(i: nat, j: nat, p: Period)
    requires i < 12 && j < 60
    ensures TwentyFourHour(Some(i + 1), p).Some?
    ensures ConfirmedTime(Selection(HoursArray12()[i], MinutesArray()[j], p))
         == FormatTime24(TwentyFourHour(Some(i + 1), p).value, j)
  {
    var hour, minute := HoursArray12()[i], MinutesArray()[j];
    assert hour == TwoDigits(i + 1) && minute == TwoDigits(j);
    TwoDigitsRoundTrip(i + 1);
    var hour24 := TwentyFourHour(Some(i + 1), p);
    assert ConfirmedTime(Selection(hour, minute, p)) == PadStart2(NumberToString(hour24)) + ":" + minute;
  }

  /** Opening on a canonical "HH:mm" and confirming without a change gives the
      same text back. */
  lemma {:induction false} OpenConfirmRoundTrip(h: nat, m: nat)
    requires h < 24 && m < 60
    ensures ConfirmedTime(OpenedSelection(FormatTime24(h, m))) == FormatTime24(h, m)
  {
    OpenCanonical(h, m);
    var h12 := TwelveHour(Some(h)).value;
    TwoDigitsRoundTrip(h12);
    TwelveHourRoundTrip(h);
  }

  /** The empty value opens on 09, 00 and AM. */
  lemma OpenEmpty()
    ensures OpenedSelection("") == Selection("09", "00", AM)
  {
    assert NatToString(9) == "9";
    assert NatToString(0) == "0";
  }

  /** "09" and "00" are entries of their columns. */
  lemma DefaultSelectionInColumns()
    ensures "09" in HoursArray12() && "00" in MinutesArray()
  {
    assert NatToString(9) == "9";
    assert NatToString(0) == "0";
    assert HoursArray12()[8] == "09";
    assert MinutesArray()[0] == "00";
  }

  lemma ColumnIndex(column: seq<string>, entry: string) returns (i: nat)
    requires entry in column
    ensures i < |column| && column[i] == entry
  {
    i :| 0 <= i < |column| && column[i] == entry;
  }

  /** A selection made from the two columns confirms to a canonical time. */
  lemma ConfirmedCanonical(sel: Selection) returns (h: nat, m: nat)
    requires sel.hour12 in HoursArray12() && sel.minute in MinutesArray()
    ensures h < 24 && m < 60 && ConfirmedTime(sel) == FormatTime24(h, m)
  {
    var i := ColumnIndex(HoursArray12(), sel.hour12);
    m := ColumnIndex(MinutesArray(), sel.minute);
    ConfirmColumns(i, m, sel.period);
    h := TwentyFourHour(Some(i + 1), sel.period).value;
  }

  /** The dialog's selection state. */
  class TimePicker {
    var selectedHour12: string
    var selectedMinute: string
    var selectedPeriod: Period

    function Current(): Selection
      reads this
    {
      Selection(selectedHour12, selectedMinute, selectedPeriod)
    }

    /** Both selections are entries of their columns. */
    predicate Valid()
      reads this
    {
      selectedHour12 in HoursArray12() && selectedMinute in MinutesArray()
    }

    constructor ()
      ensures Current() == Selection("09", "00", AM)
      ensures Valid()
    {
      selectedHour12 := "09";
      selectedMinute := "00";
      selectedPeriod := AM;
      DefaultSelectionInColumns();
    }

    /** The effect run when the dialog opens on `initialValue`. */
    method Open(initialValue: string)
      modifies this
      ensures Current() == OpenedSelection(initialValue)
    {
      var initialH: Option<nat> := Some(9);
      var initialM: Option<nat> := Some(0);
      var period := AM;
      if initialValue != "" {
        var parts := Split(initialValue, ':');
        initialH := ParseIntField(parts, 0);
        initialM := ParseIntField(parts, 1);
        period := if initialH.Some? && initialH.value >= 12 then PM else AM;
        if initialH == Some(0) {
          initialH := Some(12);
        } else if initialH.Some? && initialH.value > 12 {
          initialH := Some(initialH.value - 12);
        }
      }
      selectedHour12 := PadStart2(NumberToString(initialH));
      selectedMinute := PadStart2(NumberToString(initialM));
      selectedPeriod := period;
    }

    /** A click on an hour of the hour column. */
    method SelectHour(hour: string)
      requires hour in HoursArray12()
      modifies this`selectedHour12
      ensures Current() == old(Current()).(hour12 := hour)
      ensures old(Valid()) ==> Valid()
    {
      selectedHour12 := hour;
    }

    /** A click on a minute of the minute column. */
    method SelectMinute(minute: string)
      requires minute in MinutesArray()
      modifies this`selectedMinute
      ensures Current() == old(Current()).(minute := minute)
      ensures old(Valid()) ==> Valid()
    {
      selectedMinute := minute;
    }

    /** A click on the AM or PM button. */
    method SelectPeriod(period: Period)
      modifies this`selectedPeriod
      ensures Current() == old(Current()).(period := period)
      ensures old(Valid()) ==> Valid()
    {
      selectedPeriod := period;
    }

    /** The confirm button: the selection as a 24-hour "HH:mm". */
    method Confirm() returns (time24: string)
      ensures time24 == ConfirmedTime(Current())
      ensures Valid() ==> exists h: nat, m: nat :: h < 24 && m < 60 && time24 == FormatTime24(h, m)
    {
      var hour24 := ParseInt(selectedHour12);
      if selectedPeriod == AM && hour24 == Some(12) {
        hour24 := Some(0);
      } else if selectedPeriod == PM && hour24.Some? && hour24.value != 12 {
        hour24 := Some(hour24.value + 12);
      }
      assert hour24 == TwentyFourHour(ParseInt(selectedHour12), selectedPeriod);
      time24 := PadStart2(NumberToString(hour24)) + ":" + selectedMinute;
      if Valid() {
        var h, m := ConfirmedCanonical(Current());
        assert time24 == FormatTime24(h, m);
      }
    }
  }

  /** Opening on a canonical time and confirming at once hands the same time
      back, through a fresh dialog. */
  method ReopenAndConfirm(h: nat, m: nat) returns (time24: string)
    requires h < 24 && m < 60
    ensures time24 == FormatTime24(h, m)
  {
    var picker := new TimePicker();
    picker.Open(FormatTime24(h, m));
    OpenConfirmRoundTrip(h, m);
    time24 := picker.Confirm();
  }
}
