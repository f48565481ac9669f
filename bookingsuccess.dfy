/** The booking confirmation page (components/booking/booking-success.tsx):
    its 12-hour time label and the start and end of the calendar event it
    offers, written as compact UTC timestamps. A `Date` is a count of
    milliseconds since 1 January 1970 UTC, `None` for an invalid date; the
    local time zone is taken to be UTC. */
module BookingSuccess {
  import opened Wrappers
  import opened Text
  import opened Seqs
  import Clock

  /** `x / m` and `x % m` for a known quotient and remainder. */
  lemma DivMod(x: int, m: int, q: int, r: int)
    requires m > 0 && x == q * m + r && 0 <= r < m
    ensures x / m == q && x % m == r
  {
    ModUnique(x, m, q, r);
  }

  // ------------------------------------------------------------ time label

  /** The page's `formatTime` is the shared 12-hour formatter: on "HH:MM" it
      shows the 12-hour hour, the minutes text as given and AM or PM. */
  lemma FormatTimeOfBookingTime(hour: nat, minutes: string)
    requires hour < 24 && ':' !in minutes
    ensures Clock.FormatTime(Pad2(hour) + ":" + minutes)
         == IntToString(Clock.DisplayHour(hour)) + ":" + minutes + " " + (if hour >= 12 then "PM" else "AM")
    ensures 1 <= Clock.DisplayHour(hour) <= 12
  {
    Clock.FormatTimeOfClockTime(hour, minutes);
    Clock.DisplayHourInverse(hour);
  }

  // ------------------------------------------------------ the event times

  /** `setHours(hours, minutes)`: the same day, at the given hour and minute,
      seconds and milliseconds kept. Hours and minutes out of range carry
      into the neighbouring days as in JavaScript. */
  function WithClock(t: int, hours: int, minutes: int): int {
    (t / 86400000) * 86400000 + hours * 3600000 + minutes * 60000 + t % 60000
  }

  /** The instant `k` minutes after `t`. */
  function MinutesLater(t: int, k: int): int {
    t + k * 60000
  }

  /** A `Date` the handler changes in place. */
  class EventDate {
    var time: Option<int>

    constructor (time: Option<int>)
      ensures this.time == time
    {
      this.time := time;
    }

    /** `setHours(h, m)`; a `NaN` argument, or an invalid date, leaves an
        invalid date. */
    method SetHours(hours: Option<int>, minutes: Option<int>)
      modifies this
      ensures old(time).Some? && hours.Some? && minutes.Some? ==>
        time == Some(WithClock(old(time).value, hours.value, minutes.value))
      ensures !(old(time).Some? && hours.Some? && minutes.Some?) ==> time.None?
    {
      if time.Some? && hours.Some? && minutes.Some? {
        time := Some(WithClock(time.value, hours.value, minutes.value));
      } else {
        time := None;
      }
    }

    /** `setMinutes(getMinutes() + k)`: `k` minutes later. */
    method AddMinutes(k: int)
      modifies this
      ensures time == if old(time).Some? then Some(MinutesLater(old(time).value, k)) else None
    {
      if time.Some? {
        var t := time.value;
        var minuteOfHour := (t % 3600000) / 60000;
        time := Some(t - minuteOfHour * 60000 + (minuteOfHour + k) * 60000);
      }
    }
  }

  // --------------------------------------------------------- UTC calendar

  datatype DateTime = DateTime(year: int, month: int, day: int,
                               hour: int, minute: int, second: int, millis: int)

  predicate ValidTime(p: DateTime) {
    0 <= p.hour < 24 && 0 <= p.minute < 60 && 0 <= p.second < 60 && 0 <= p.millis < 1000
  }

  /** The fields `toISOString` prints in its four-digit-year form. */
  predicate Printable(p: DateTime) {
    0 <= p.year < 10000 && 1 <= p.month && 1 <= p.day && ValidTime(p)
  }

  /** The year of a 400-year era, counted from 1 March, that day `doe` of
      the era falls in. */
  function YearOfEra(doe: int): int {
    (doe - doe / 1460 + doe / 36524 - doe / 146096) / 365
  }

  /** The days from the start of an era to 1 March of its year `yoe`. */
  function YearStart(yoe: int): int {
    365 * yoe + yoe / 4 - yoe / 100
  }

  /** The month, counted from March as 0, of day `doy` of a March-based
      year. */
  function MonthOfYear(doy: int): int {
    (5 * doy + 2) / 153
  }

  /** The days from 1 March to the first of month `mp` (March is 0). */
  function MonthStart(mp: int): int {
    (153 * mp + 2) / 5
  }

  /** The proleptic Gregorian date of a day count, through 400-year eras
      and years that start on 1 March. */
  function CivilFromDays(days: int): (ymd: (int, int, int))
    ensures 1 <= ymd.1 <= 12 && 1 <= ymd.2 <= 31
  {
    var z := days + 719468;
    CivilInEra(z / 146097, z % 146097)
  }

  /** The date of day `doe` of era `era` (era 0 starts on 1 March of year
      0). */
  function CivilInEra(era: int, doe: int): (ymd: (int, int, int))
    requires 0 <= doe < 146097
    ensures 1 <= ymd.1 <= 12 && 1 <= ymd.2 <= 31
  {
    YearOfEraBounds(doe);
    var yoe := YearOfEra(doe);
    var doy := doe - YearStart(yoe);
    MonthBounds(doy);
    var mp := MonthOfYear(doy);
    var d := doy - MonthStart(mp) + 1;
    var m := if mp < 10 then mp + 3 else mp - 9;
    var y := yoe + era * 400 + (if m <= 2 then 1 else 0);
    (y, m, d)
  }

  /** The day count of a proleptic Gregorian date, the inverse of
      `CivilFromDays`. */
  function DaysFromCivil(y: int, m: int, d: int): int {
    var y1 := if m <= 2 then y - 1 else y;
    var era := y1 / 400;
    var yoe := y1 - era * 400;
    var mp := if m > 2 then m - 3 else m + 9;
    var doy := MonthStart(mp) + d - 1;
    era * 146097 + YearStart(yoe) + doy - 719468
  }

  /** Every day count names a distinct date: counting the date's days gives
      the day count back. */
  lemma CivilRoundTrip(days: int)
    ensures var ymd := CivilFromDays(days); DaysFromCivil(ymd.0, ymd.1, ymd.2) == days
  {
    var z := days + 719468;
    var era, doe := z / 146097, z % 146097;
    assert CivilFromDays(days) == CivilInEra(era, doe);
    assert era * 146097 + doe - 719468 == days;
    CivilInEraRoundTrip(era, doe);
  }

  lemma CivilInEraRoundTrip(era: int, doe: int)
    requires 0 <= doe < 146097
    ensures var ymd := CivilInEra(era, doe); DaysFromCivil(ymd.0, ymd.1, ymd.2) == era * 146097 + doe - 719468
  {
    YearOfEraBounds(doe);
    var yoe := YearOfEra(doe);
    var doy := doe - YearStart(yoe);
    MonthBounds(doy);
    var mp := MonthOfYear(doy);
    var m := if mp < 10 then mp + 3 else mp - 9;
    var y := yoe + era * 400 + (if m <= 2 then 1 else 0);
    var y1 := if m <= 2 then y - 1 else y;
    DivMod(y1, 400, era, yoe);
  }

  /** Day `doe` of a 400-year era falls in one of its 400 years, on one of
      that year's (at most 366) days. */
  lemma YearOfEraBounds(doe: int)
    requires 0 <= doe < 146097
    ensures 0 <= YearOfEra(doe) < 400 && 0 <= doe - YearStart(YearOfEra(doe)) < 366
  {
    if doe == 146096 {
      assert YearOfEra(doe) == 399;
    } else {
      // centuries of 36524 days, then four-year cycles of 1461 days
      var r := doe % 36524;
      CenturyDay(doe / 36524, r / 1461, r % 1461);
    }
  }

  /** Day `s` of four-year cycle `b` of century `a` of an era. */
  lemma CenturyDay(a: int, b: int, s: int)
    requires 0 <= a <= 3 && 0 <= s < 1461 && 0 <= 1461 * b + s < 36524
    ensures var doe := 36524 * a + 1461 * b + s;
      0 <= YearOfEra(doe) < 400 && 0 <= doe - YearStart(YearOfEra(doe)) < 366
  {
    var doe := 36524 * a + 1461 * b + s;
    DivMod(doe, 146096, 0, doe);
    DivMod(doe, 36524, a, 1461 * b + s);
    var delta := if 24 * a + b + s >= 1460 then 1 else 0;
    DivMod(doe, 1460, 25 * a + b + delta, 24 * a + b + s - 1460 * delta);
    var k := (s - delta) / 365;
    var yoe := 100 * a + 4 * b + k;
    DivMod(doe - doe / 1460 + doe / 36524 - doe / 146096, 365, yoe, s - delta - 365 * k);
    assert YearOfEra(doe) == yoe;
    DivMod(yoe, 4, 25 * a + b, k);
    DivMod(yoe, 100, a, 4 * b + k);
    assert YearStart(yoe) == 36524 * a + 1461 * b + 365 * k;
  }

  /** A day of a March-based year falls in one of its twelve months, on a
      day from 1 to 31. */
  lemma MonthBounds(doy: int)
    requires 0 <= doy < 366
    ensures 0 <= MonthOfYear(doy) < 12
    ensures 1 <= doy - MonthStart(MonthOfYear(doy)) + 1 <= 31
  {
  }

  /** Day 0 is 1 January 1970. */
  lemma CivilEpoch()
    ensures CivilFromDays(0) == (1970, 1, 1)
  {
    assert 719468 / 146097 == 4;
    assert 135080 / 1460 == 92;
    assert 135080 / 36524 == 3;
    assert 135080 / 146096 == 0;
    assert 134991 / 365 == 369;
    assert 369 / 4 == 92;
    assert 369 / 100 == 3;
    assert 1532 / 153 == 10;
    assert 1532 / 5 == 306;
  }

  /** Day 19737 is 15 January 2024. */
  lemma CivilMidJanuary2024()
    ensures CivilFromDays(19737) == (2024, 1, 15)
  {
    assert 739205 / 146097 == 5;
    assert 8720 / 1460 == 5;
    assert 8720 / 36524 == 0;
    assert 8720 / 146096 == 0;
    assert 8715 / 365 == 23;
    assert 23 / 4 == 5;
    assert 23 / 100 == 0;
    assert 1602 / 153 == 10;
    assert 1532 / 5 == 306;
  }

  /** Day 11016 is 29 February 2000. */
  lemma CivilLeapDay2000()
    ensures CivilFromDays(11016) == (2000, 2, 29)
  {
    assert 730484 / 146097 == 4;
    assert 146096 / 1460 == 100;
    assert 146096 / 36524 == 4;
    assert 146096 / 146096 == 1;
    assert 145999 / 365 == 399;
    assert 399 / 4 == 99;
    assert 399 / 100 == 3;
    assert 1827 / 153 == 11;
    assert 1685 / 5 == 337;
  }

  /** Day -1 is 31 December 1969. */
  lemma CivilEveOfEpoch()
    ensures CivilFromDays(-1) == (1969, 12, 31)
  {
    assert 719467 / 146097 == 4;
    assert 135079 / 1460 == 92;
    assert 135079 / 36524 == 3;
    assert 135079 / 146096 == 0;
    assert 134990 / 365 == 369;
    assert 369 / 4 == 92;
    assert 369 / 100 == 3;
    assert 1527 / 153 == 9;
    assert 1379 / 5 == 275;
  }

  /** The minute of the UTC day an instant falls in. */
  function MinuteOfDay(t: int): (m: int)
    ensures 0 <= m < 1440
  {
    var inDay := t % 86400000;
    DivMod(inDay, 60000, inDay / 60000, inDay % 60000);
    inDay / 60000
  }

  /** The UTC fields of an instant. */
  function UtcParts(t: int): (p: DateTime)
    ensures ValidTime(p) && 1 <= p.month <= 12 && 1 <= p.day <= 31
    ensures p.hour * 60 + p.minute == MinuteOfDay(t)
  {
    var ymd := CivilFromDays(t / 86400000);
    var m := MinuteOfDay(t);
    var rest := t % 60000;
    DateTime(ymd.0, ymd.1, ymd.2, m / 60, m % 60, rest / 1000, rest % 1000)
  }

  /** The last two, three or four decimal digits of `n`, leading zeros
      included. */
  function Digits2(n: nat): (r: string)
    ensures |r| == 2 && AllDigits(r)
  {
    [DigitChar(n / 10 % 10), DigitChar(n % 10)]
  }

  function Digits3(n: nat): (r: string)
    ensures |r| == 3 && AllDigits(r)
  {
    [DigitChar(n / 100 % 10)] + Digits2(n)
  }

  function Digits4(n: nat): (r: string)
    ensures |r| == 4 && AllDigits(r)
  {
    [DigitChar(n / 1000 % 10)] + Digits3(n)
  }

  /** `toISOString()` for a four-digit year: "YYYY-MM-DDTHH:MM:SS.sssZ". */
  function IsoText(p: DateTime): (s: string)
    requires Printable(p)
    ensures |s| == 24
  {
    Digits4(p.year) + "-" + Digits2(p.month) + "-" + Digits2(p.day) + "T"
      + Digits2(p.hour) + ":" + Digits2(p.minute) + ":" + Digits2(p.second) + "."
      + Digits3(p.millis) + "Z"
  }

  predicate KeptInCompact(c: char) {
    c != '-' && c != ':'
  }

  /** `.replace(/[-:]/g, "").split(".")[0] + "Z"`. */
  function Compact(iso: string): string {
    Split(Filter(iso, KeptInCompact), '.')[0] + "Z"
  }

  lemma DigitsKept(s: string)
    requires AllDigits(s)
    ensures Filter(s, KeptInCompact) == s
  {
    forall i | 0 <= i < |s| ensures KeptInCompact(s[i]) {
      assert IsDigit(s[i]);
    }
    FilterKeepsAll(s, KeptInCompact);
  }

  /** The compact form of an ISO timestamp: its digits without the dashes
      and colons, the 'T' kept, the milliseconds dropped, and "Z". */
  lemma CompactIso(p: DateTime)
    requires Printable(p)
    ensures Compact(IsoText(p)) == CompactHead(p) + "Z"
  {
    var head, tail := CompactHead(p), Digits3(p.millis) + "Z";
    FilterIso(p);
    NoDots(head, tail);
    SplitJoin([head, tail], '.');
    assert Join([head, tail], '.') == head + "." + tail;
  }

  /** The digits of the date, 'T', and the digits of the time up to the
      seconds. */
  function CompactHead(p: DateTime): (s: string)
    requires Printable(p)
    ensures |s| == 15
  {
    Digits4(p.year) + Digits2(p.month) + Digits2(p.day) + "T"
      + Digits2(p.hour) + Digits2(p.minute) + Digits2(p.second)
  }

  lemma NoDots(head: string, tail: string)
    requires |head| == 15 && |tail| == 4
    requires forall i :: 0 <= i < 15 && i != 8 ==> IsDigit(head[i])
    requires head[8] == 'T' && tail[3] == 'Z' && forall i :: 0 <= i < 3 ==> IsDigit(tail[i])
    ensures '.' !in head && '.' !in tail
  {
    forall i | 0 <= i < |head| ensures head[i] != '.' {
      if i != 8 { assert IsDigit(head[i]); }
    }
    forall i | 0 <= i < |tail| ensures tail[i] != '.' {
      if i < 3 { assert IsDigit(tail[i]); }
    }
  }

  /** Dropping the dashes and colons leaves the compact head, then ".",
      the milliseconds and "Z". */
  lemma FilterIso(p: DateTime)
    requires Printable(p)
    ensures Filter(IsoText(p), KeptInCompact) == CompactHead(p) + "." + (Digits3(p.millis) + "Z")
  {
    FilterIsoPieces(Digits4(p.year), Digits2(p.month), Digits2(p.day),
                    Digits2(p.hour), Digits2(p.minute), Digits2(p.second), Digits3(p.millis));
  }

  lemma FilterIsoPieces(y: string, mo: string, d: string, h: string, mi: string, s: string, ms: string)
    requires AllDigits(y) && AllDigits(mo) && AllDigits(d)
    requires AllDigits(h) && AllDigits(mi) && AllDigits(s) && AllDigits(ms)
    ensures Filter(y + "-" + mo + "-" + d + "T" + h + ":" + mi + ":" + s + "." + ms + "Z", KeptInCompact)
         == y + mo + d + "T" + h + mi + s + "." + (ms + "Z")
  {
    FilterIsoHead(y, mo, d, h);
    FilterIsoTail(y + "-" + mo + "-" + d + "T" + h, y + mo + d + "T" + h, mi, s, ms);
  }

  /** The minutes, seconds and milliseconds after a head already filtered:
      the colons dropped. */
  lemma FilterIsoTail(head: string, fhead: string, mi: string, s: string, ms: string)
    requires Filter(head, KeptInCompact) == fhead
    requires AllDigits(mi) && AllDigits(s) && AllDigits(ms)
    ensures Filter(head + ":" + mi + ":" + s + "." + ms + "Z", KeptInCompact)
         == fhead + mi + s + "." + (ms + "Z")
  {
    DigitsKept(mi); DigitsKept(s); DigitsKept(ms);
    assert Filter(":", KeptInCompact) == "";
    assert Filter(".", KeptInCompact) == ".";
    assert Filter("Z", KeptInCompact) == "Z";
    var l, f := head, fhead;
    FilterDrop(l, ":", f); l := l + ":";
    FilterStep(l, mi, f, mi); l, f := l + mi, f + mi;
    FilterDrop(l, ":", f); l := l + ":";
    FilterStep(l, s, f, s); l, f := l + s, f + s;
    FilterStep(l, ".", f, "."); l, f := l + ".", f + ".";
    FilterStep(l, ms, f, ms); l, f := l + ms, f + ms;
    FilterStep(l, "Z", f, "Z"); l, f := l + "Z", f + "Z";
    assert f == fhead + mi + s + "." + (ms + "Z");
  }

  /** The date, the "T" and the hour: the dashes dropped. */
  lemma FilterIsoHead(y: string, mo: string, d: string, h: string)
    requires AllDigits(y) && AllDigits(mo) && AllDigits(d) && AllDigits(h)
    ensures Filter(y + "-" + mo + "-" + d + "T" + h, KeptInCompact) == y + mo + d + "T" + h
  {
    DigitsKept(y); DigitsKept(mo); DigitsKept(d); DigitsKept(h);
    assert Filter("-", KeptInCompact) == "";
    assert Filter("T", KeptInCompact) == "T";
    var l, f := y, y;
    FilterDrop(l, "-", f); l := l + "-";
    FilterStep(l, mo, f, mo); l, f := l + mo, f + mo;
    FilterDrop(l, "-", f); l := l + "-";
    FilterStep(l, d, f, d); l, f := l + d, f + d;
    FilterStep(l, "T", f, "T"); l, f := l + "T", f + "T";
    FilterStep(l, h, f, h); l, f := l + h, f + h;
  }

  lemma FilterDrop(a: string, b: string, fa: string)
    requires Filter(a, KeptInCompact) == fa && Filter(b, KeptInCompact) == []
    ensures Filter(a + b, KeptInCompact) == fa
  {
    FilterAppend(a, b, KeptInCompact);
    assert fa + [] == fa;
  }

  lemma FilterStep(a: string, b: string, fa: string, fb: string)
    requires Filter(a, KeptInCompact) == fa && Filter(b, KeptInCompact) == fb
    ensures Filter(a + b, KeptInCompact) == fa + fb
  {
    FilterAppend(a, b, KeptInCompact);
  }

  // ------------------------------------------------------------ the event

  datatype CalendarTimes = CalendarTimes(start: string, end: string)

  /** The event's start instant: the booking day at the booking time. */
  function EventStart(date: Option<int>, time: string): Option<int> {
    var (hours, minutes) := ClockFields(time);
    if date.Some? && hours.Some? && minutes.Some? then Some(WithClock(date.value, hours.value, minutes.value))
    else None
  }

  /** `bookingData.time.split(":")` and `Number.parseInt` of the two parts;
      a missing part parses as `NaN`. */
  function ClockFields(time: string): (Option<int>, Option<int>) {
    var parts := Split(time, ':');
    (ParseInt(parts[0]), if |parts| >= 2 then ParseInt(parts[1]) else None)
  }

  /** Both timestamps, or `None` where `toISOString` throws: an invalid
      date, or a year outside 0..9999, which this model does not print. */
  function EventTimes(date: Option<int>, time: string, duration: int): Option<CalendarTimes> {
    match EventStart(date, time)
    case None => None
    case Some(start) => TimesOf(start, MinutesLater(start, duration))
  }

  /** Two instants written compactly. */
  function TimesOf(start: int, end: int): Option<CalendarTimes> {
    var a, b := UtcParts(start), UtcParts(end);
    if 0 <= a.year < 10000 && 0 <= b.year < 10000 then
      Some(CalendarTimes(Compact(IsoText(a)), Compact(IsoText(b))))
    else None
  }

  /** `handleAddToCalendar`, up to the URL: the start date set to the booking
      time, a copy moved on by the service's duration, both written
      compactly. */
  method AddToCalendar(date: Option<int>, time: string, duration: int) returns (event: Option<CalendarTimes>)
    ensures event == EventTimes(date, time, duration)
  {
    var startDate := new EventDate(date);
    var (hours, minutes) := ClockFields(time);
    startDate.SetHours(hours, minutes);
    var start := startDate.time;
    assert start == EventStart(date, time);
    var endDate := new EventDate(start);
    endDate.AddMinutes(duration);
    if start.None? {
      return None;
    }
    var end := endDate.time.value;
    var a, b := UtcParts(start.value), UtcParts(end);
    if 0 <= a.year < 10000 && 0 <= b.year < 10000 {
      event := Some(CalendarTimes(Compact(IsoText(a)), Compact(IsoText(b))));
    } else {
      event := None;
    }
  }

  /** An instant is its day, its minute of the day and the milliseconds
      within that minute. */
  lemma Decompose(t: int)
    ensures t == (t / 86400000) * 86400000 + MinuteOfDay(t) * 60000 + t % 60000
  {
    var inDay := t % 86400000;
    var m := inDay / 60000;
    assert inDay == m * 60000 + inDay % 60000;
    assert t == (t / 86400000) * 86400000 + inDay;
    DivMod(t, 60000, (t / 86400000) * 1440 + m, inDay % 60000);
  }

  /** Conversely, a day, a minute of the day and milliseconds within the
      minute make an instant with those parts. */
  lemma Compose(day: int, minute: int, rest: int)
    requires 0 <= minute < 1440 && 0 <= rest < 60000
    ensures var t := day * 86400000 + minute * 60000 + rest;
      t / 86400000 == day && MinuteOfDay(t) == minute && t % 60000 == rest
  {
    var t := day * 86400000 + minute * 60000 + rest;
    DivMod(t, 86400000, day, minute * 60000 + rest);
    DivMod(minute * 60000 + rest, 60000, minute, rest);
    DivMod(t, 60000, day * 1440 + minute, rest);
  }

  /** On a day at "HH:MM" the event starts at that hour and minute (UTC
      standing for local time), on the same day, with the date's seconds
      and milliseconds. */
  lemma EventStartsAtBookingTime(date: int, hour: nat, minute: nat)
    requires hour < 24 && minute < 60
    ensures EventStart(Some(date), Pad2(hour) + ":" + Pad2(minute)).Some?
    ensures var t := EventStart(Some(date), Pad2(hour) + ":" + Pad2(minute)).value;
      && UtcParts(t).hour == hour && UtcParts(t).minute == minute
      && t / 86400000 == date / 86400000 && t % 60000 == date % 60000
  {
    var hh, mm := Pad2(hour), Pad2(minute);
    assert ':' !in hh by {
      forall i | 0 <= i < |hh| ensures hh[i] != ':' { assert IsDigit(hh[i]); }
    }
    assert ':' !in mm by {
      forall i | 0 <= i < |mm| ensures mm[i] != ':' { assert IsDigit(mm[i]); }
    }
    SplitJoin([hh, mm], ':');
    assert Join([hh, mm], ':') == hh + ":" + mm;
    ParseIntOfNumeral(hh, []);
    ParseIntOfNumeral(mm, []);
    assert hh + [] == hh && mm + [] == mm;
    var t := WithClock(date, hour, minute);
    assert EventStart(Some(date), hh + ":" + mm) == Some(t);
    ClockAt(date, hour, minute);
  }

  /** `setHours(hour, minute)` within the day's range keeps the day, the
      seconds and the milliseconds, and sets the clock. */
  lemma ClockAt(date: int, hour: nat, minute: nat)
    requires hour < 24 && minute < 60
    ensures var t := WithClock(date, hour, minute);
      && UtcParts(t).hour == hour && UtcParts(t).minute == minute
      && t / 86400000 == date / 86400000 && t % 60000 == date % 60000
  {
    var t := WithClock(date, hour, minute);
    var day, clock, rest := date / 86400000, hour * 60 + minute, date % 60000;
    Compose(day, clock, rest);
    assert t == day * 86400000 + clock * 60000 + rest;
    DivMod(clock, 60, hour, minute);
  }

  /** The event lasts the service's duration: within one day, its end's
      clock time is the start's plus the duration in minutes, with the same
      seconds and milliseconds. */
  lemma EventEndClock(t: int, duration: int)
    requires 0 <= MinuteOfDay(t) + duration < 1440
    ensures var end := MinutesLater(t, duration);
      && MinuteOfDay(end) == MinuteOfDay(t) + duration
      && UtcParts(end).hour * 60 + UtcParts(end).minute == UtcParts(t).hour * 60 + UtcParts(t).minute + duration
      && end / 86400000 == t / 86400000
      && UtcParts(end).second == UtcParts(t).second && UtcParts(end).millis == UtcParts(t).millis
  {
    Decompose(t);
    var end := t + duration * 60000;
    assert end == (t / 86400000) * 86400000 + (MinuteOfDay(t) + duration) * 60000 + t % 60000;
    Compose(t / 86400000, MinuteOfDay(t) + duration, t % 60000);
  }
}
