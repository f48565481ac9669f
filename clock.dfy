/** Clock-time rendering shared by several components: the `formatTime` helper
    that turns "HH:MM" into a 12-hour label (written out identically in the
    bookings dashboard, the date/time picker and the success page) and the
    48-entry half-hour `TIME_OPTIONS` table with its lookup `formatTime`
    (written out identically in the weekly availability editor and the
    blocked-time editor). */
module Clock {
  import opened Wrappers
  import opened Text

  // ------------------------------------------------ 12-hour formatting

  /** The hour a 12-hour clock shows: above 12 subtract 12, 0 becomes 12. */
  function DisplayHour(hour: int): int {
    if hour > 12 then hour - 12 else if hour == 0 then 12 else hour
  }

  function Meridiem(hour: int): string {
    if hour >= 12 then "PM" else "AM"
  }

  /** `formatTime(time)`: split at ':', parse the hour with `parseInt`, and
      print `${displayHour}:${minutes} ${ampm}`. A missing minutes part prints
      as "undefined"; an unparsable hour is `NaN`, which prints as "NaN" and
      compares false with 12, so it is labelled "AM". */
  function FormatTime(time: string): string {
    var parts := Split(time, ':');
    var minutes := if |parts| >= 2 then parts[1] else "undefined";
    match ParseInt(parts[0])
    case Some(hour) => IntToString(DisplayHour(hour)) + ":" + minutes + " " + Meridiem(hour)
    case None => "NaN:" + minutes + " AM"
  }

  /** On a clock time "HH:MM" the label is the 12-hour hour, the minutes text
      kept verbatim, and AM before noon, PM from noon on. */
  lemma FormatTimeOfClockTime(hour: nat, minutes: string)
    requires hour < 100
    requires ':' !in minutes
    ensures FormatTime(Pad2(hour) + ":" + minutes)
         == IntToString(DisplayHour(hour)) + ":" + minutes + " " + Meridiem(hour)
  {
    var hh := Pad2(hour);
    assert ':' !in hh by {
      forall i | 0 <= i < |hh| ensures hh[i] != ':' { assert IsDigit(hh[i]); }
    }
    SplitJoin([hh, minutes], ':');
    assert Join([hh, minutes], ':') == hh + ":" + minutes;
    ParseIntOfNumeral(hh, []);
    assert hh + [] == hh;
  }

  /** The 12-hour label loses nothing on a day's hours: the shown hour is in
      1..12, and with the meridiem it gives back the 24-hour hour. */
  lemma DisplayHourInverse(hour: int)
    requires 0 <= hour < 24
    ensures 1 <= DisplayHour(hour) <= 12
    ensures DisplayHour(hour) % 12 + (if Meridiem(hour) == "PM" then 12 else 0) == hour
  {
  }

  // -------------------------------------------------- TIME_OPTIONS

  datatype TimeOption = TimeOption(value: string, labelText: string)

  function MinuteText(i: nat): string {
    if i % 2 == 0 then "00" else "30"
  }

  /** Entry `i` of `TIME_OPTIONS`: hour `i / 2`, minute "00" or "30", the
      value zero-padded "HH:MM", the label the 12-hour text. */
  function TimeOptionAt(i: nat): TimeOption
    requires i < 48
  {
    var hour := i / 2;
    var minute := MinuteText(i);
    var hour12 := if hour == 0 then 12 else if hour > 12 then hour - 12 else hour;
    var ampm := if hour < 12 then "AM" else "PM";
    TimeOption(Pad2(hour) + ":" + minute, IntToString(hour12) + ":" + minute + " " + ampm)
  }

  /** `TIME_OPTIONS`: the 48 half-hour entries of a day, in order. */
  function TimeOptions(): seq<TimeOption> {
    seq(48, i requires 0 <= i && i < 48 => TimeOptionAt(i))
  }

  /** The minute of the day an "HH:MM" text denotes, when it has that shape. */
  function MinuteOfDay(v: string): Option<int> {
    if |v| == 5 && v[2] == ':' && AllDigits(v[..2]) && AllDigits(v[3..]) then
      Some(DecimalValue(v[..2]) * 60 + DecimalValue(v[3..]))
    else None
  }

  /** An "HH:MM" text made of four digits denotes HH·60 + MM minutes. */
  lemma ClockTextMinute(v: string)
    requires |v| == 5 && v[2] == ':'
    requires IsDigit(v[0]) && IsDigit(v[1]) && IsDigit(v[3]) && IsDigit(v[4])
    ensures MinuteOfDay(v) == Some((DigitValue(v[0]) * 10 + DigitValue(v[1])) * 60
                                   + DigitValue(v[3]) * 10 + DigitValue(v[4]))
  {
    var h, m := v[..2], v[3..];
    assert AllDigits(h) && AllDigits(m);
    assert h[..|h| - 1] == [v[0]] && h[|h| - 1] == v[1];
    assert m[..|m| - 1] == [v[3]] && m[|m| - 1] == v[4];
    assert DecimalValue([v[0]]) == DigitValue(v[0]) by { assert [v[0]][..0] == []; }
    assert DecimalValue([v[3]]) == DigitValue(v[3]) by { assert [v[3]][..0] == []; }
  }

  /** Entry `i` is the clock time 30·i minutes after midnight. */
  lemma TimeOptionMinute(i: nat)
    requires i < 48
    ensures MinuteOfDay(TimeOptions()[i].value) == Some(30 * i)
  {
    var mm, h := MinuteText(i), i / 2;
    assert TimeOptions()[i] == TimeOptionAt(i);
    assert TimeOptionAt(i).value == Pad2(h) + ":" + mm;
    PaddedMinute(h, mm);
    assert h * 60 + 30 * (i % 2) == 30 * i;
    assert DecimalValue(mm) == 30 * (i % 2) by {
      assert DecimalValue("00") == 0;
      assert DecimalValue("30") == 30 by {
        assert "30"[..1] == "3";
        assert ""[..0] == "";
      }
    }
  }

  /** A padded hour, a colon and two minute digits denote hour·60 plus the
      minutes. */
  lemma PaddedMinute(hour: nat, mm: string)
    requires hour < 100 && |mm| == 2 && AllDigits(mm)
    ensures MinuteOfDay(Pad2(hour) + ":" + mm) == Some(hour * 60 + DecimalValue(mm))
  {
    var hh := Pad2(hour);
    assert |hh| == 2 && AllDigits(hh) && DecimalValue(hh) == hour;
    MinuteOfText(hh, mm, hour);
  }

  lemma MinuteOfText(hh: string, mm: string, hour: nat)
    requires |hh| == 2 && AllDigits(hh) && |mm| == 2 && AllDigits(mm)
    requires DecimalValue(hh) == hour
    ensures MinuteOfDay(hh + ":" + mm) == Some(hour * 60 + DecimalValue(mm))
  {
    var v := hh + ":" + mm;
    assert |v| == 5 && v[2] == ':';
    assert v[..2] == hh;
    assert v[3..] == mm;
    MinuteOfDayParts(v);
  }

  /** The minute of a text of the "HH:MM" shape, read off its two parts. */
  lemma MinuteOfDayParts(v: string)
    requires |v| == 5 && v[2] == ':' && AllDigits(v[..2]) && AllDigits(v[3..])
    ensures MinuteOfDay(v) == Some(DecimalValue(v[..2]) * 60 + DecimalValue(v[3..]))
  {
  }

  /** `TIME_OPTIONS` has 48 entries on the half hour, strictly increasing. */
  lemma TimeOptionsAscending()
    ensures |TimeOptions()| == 48
    ensures forall i :: 0 <= i < 48 ==>
      MinuteOfDay(TimeOptions()[i].value).Some? && MinuteOfDay(TimeOptions()[i].value).value % 30 == 0
    ensures forall i, j :: 0 <= i < j < 48 ==>
      MinuteOfDay(TimeOptions()[i].value).value < MinuteOfDay(TimeOptions()[j].value).value
  {
    forall i | 0 <= i < 48 ensures MinuteOfDay(TimeOptions()[i].value) == Some(30 * i) {
      TimeOptionMinute(i);
    }
  }

  /** The lookup `formatTime(time24)`: the label of the first entry whose value
      is `time24`, or `time24` itself when there is none. */
  function TableFormatTime(time24: string): string {
    LabelIn(TimeOptions(), time24).GetOr(time24)
  }

  function LabelIn(options: seq<TimeOption>, time24: string): (r: Option<string>)
    ensures r.None? <==> forall i :: 0 <= i < |options| ==> options[i].value != time24
  {
    if options == [] then None
    else if options[0].value == time24 then Some(options[0].labelText)
    else LabelIn(options[1..], time24)
  }

  lemma {:induction false} LabelInFirst(options: seq<TimeOption>, k: nat)
    requires k < |options|
    requires forall i :: 0 <= i < k ==> options[i].value != options[k].value
    ensures LabelIn(options, options[k].value) == Some(options[k].labelText)
  {
    if k > 0 {
      LabelInFirst(options[1..], k - 1);
    }
  }

  /** Looking up an entry's value gives that entry's label. */
  lemma TableFormatTimeOfOption(k: nat)
    requires k < 48
    ensures TableFormatTime(TimeOptions()[k].value) == TimeOptions()[k].labelText
  {
    forall i | 0 <= i < k ensures TimeOptions()[i].value != TimeOptions()[k].value {
      TimeOptionMinute(i);
      TimeOptionMinute(k);
    }
    LabelInFirst(TimeOptions(), k);
  }

  /** A text that is no entry's value is returned unchanged. */
  lemma TableFormatTimeOther(time24: string)
    requires forall i :: 0 <= i < 48 ==> TimeOptions()[i].value != time24
    ensures TableFormatTime(time24) == time24
  {
  }

  /** The two `formatTime` helpers agree on every half-hour value: the table's
      label is what the split-and-parse formatter prints. */
  lemma TableAgreesWithFormatTime(k: nat)
    requires k < 48
    ensures TimeOptions()[k].labelText == FormatTime(TimeOptions()[k].value)
  {
    assert ':' !in MinuteText(k);
    FormatTimeOfClockTime(k / 2, MinuteText(k));
  }
}
