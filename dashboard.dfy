/** The professional's dashboard (components/dashboard/dashboard.tsx): the
    week strip built from the Sunday of the current week, moving that week
    back and forth, and the avatar initials of a client's name. A date is a
    day number (day 0 is Thursday 1 January 1970, in local time); the time
    of day a `Date` carries is kept by every operation here and is not
    modelled. */
module Dashboard {
  import opened Text

  /** `getDay()`: 0 for Sunday up to 6 for Saturday. */
  function Weekday(day: int): (w: int)
    ensures 0 <= w < 7
  {
    (day + 4) % 7
  }

  /** The Sunday on or before `day`. */
  function WeekStart(day: int): int {
    day - Weekday(day)
  }

  /** The week start is a Sunday no more than six days back, and it is the
      only such Sunday. */
  lemma WeekStartMeaning(day: int, sunday: int)
    ensures Weekday(WeekStart(day)) == 0
    ensures WeekStart(day) <= day < WeekStart(day) + 7
    ensures Weekday(sunday) == 0 && sunday <= day < sunday + 7 ==> sunday == WeekStart(day)
  {
    var s := WeekStart(day);
    assert (s + 4) % 7 == 0 by {
      assert s + 4 == 7 * ((day + 4) / 7);
    }
    if Weekday(sunday) == 0 && sunday <= day < sunday + 7 {
      assert (sunday + 4) % 7 == 0;
      var q := (sunday + 4) / 7;
      assert day + 4 == 7 * q + (day - sunday);
    }
  }

  /** Every day of a week has the same week start. */
  lemma SameWeek(sunday: int, i: int)
    requires Weekday(sunday) == 0 && 0 <= i < 7
    ensures WeekStart(sunday + i) == sunday
  {
    WeekStartMeaning(sunday + i, sunday);
  }

  /** `getWeekDates`: the Sunday of the date's week, then each following day
      pushed in turn. */
  method GetWeekDates(date: int) returns (week: seq<int>)
    ensures |week| == 7
    ensures week[0] == WeekStart(date)
    ensures forall i :: 0 <= i < 7 ==> week[i] == week[0] + i
  {
    var startDate := date - Weekday(date);
    week := [];
    var i := 0;
    while i < 7
      invariant 0 <= i <= 7
      invariant |week| == i
      invariant forall j :: 0 <= j < i ==> week[j] == startDate + j
    {
      var day := startDate + i;
      week := week + [day];
      i := i + 1;
    }
  }

  /** The week strip starts on a Sunday, holds the date, and lists seven
      consecutive days of one week. */
  lemma WeekDatesMeaning(date: int, week: seq<int>)
    requires |week| == 7 && week[0] == WeekStart(date)
    requires forall i :: 0 <= i < 7 ==> week[i] == week[0] + i
    ensures Weekday(week[0]) == 0
    ensures date in week
    ensures forall i :: 0 <= i < 7 ==> Weekday(week[i]) == i && WeekStart(week[i]) == week[0]
  {
    WeekStartMeaning(date, week[0]);
    assert week[date - week[0]] == date;
    forall i | 0 <= i < 7
      ensures Weekday(week[i]) == i && WeekStart(week[i]) == week[0]
    {
      SameWeek(week[0], i);
    }
  }

  datatype Direction = Prev | Next

  /** The day `navigateWeek` moves to. */
  function Shifted(day: int, direction: Direction): (moved: int)
    ensures direction == Next ==> moved == day + 7
    ensures direction == Prev ==> moved == day - 7
  {
    day + (if direction == Next then 7 else -7)
  }

  /** Moving forward then back (or back then forward) returns to the same
      day, and moving keeps the weekday while changing the week by one. */
  lemma ShiftedInverse(day: int, direction: Direction)
    ensures Shifted(Shifted(day, Next), Prev) == day
    ensures Shifted(Shifted(day, Prev), Next) == day
    ensures Weekday(Shifted(day, direction)) == Weekday(day)
    ensures WeekStart(Shifted(day, direction)) == WeekStart(day) + (if direction == Next then 7 else -7)
  {
    var d := Shifted(day, direction);
    var k := if direction == Next then 1 else -1;
    assert d + 4 == (day + 4) + 7 * k;
  }

  /** The `currentWeek` state of the dashboard. */
  class WeekView {
    var currentWeek: int

    constructor (today: int)
      ensures currentWeek == today
    {
      currentWeek := today;
    }

    /** `navigateWeek`: a copy of the current date moved seven days and
        stored. */
    method NavigateWeek(direction: Direction)
      modifies this
      ensures currentWeek == Shifted(old(currentWeek), direction)
    {
      var newDate := currentWeek + (if direction == Next then 7 else -7);
      currentWeek := newDate;
    }
  }

  // ------------------------------------------------------------- initials

  /** `n[0]` for each word, joined with nothing: an empty word (from a
      doubled, leading or trailing space) gives `undefined`, which `join`
      writes as nothing. */
  function FirstLetters(words: seq<string>): (r: string)
    ensures |r| <= |words|
  {
    if words == [] then ""
    else (if words[0] == "" then "" else [words[0][0]]) + FirstLetters(words[1..])
  }

  /** The avatar fallback text of a name. */
  function Initials(name: string): string {
    FirstLetters(Split(name, ' '))
  }

  /** A name made of words separated by single spaces gets exactly one
      letter per word: each word's first. */
  lemma {:induction false} InitialsOfWords(words: seq<string>)
    requires |words| >= 1
    requires forall i :: 0 <= i < |words| ==> words[i] != "" && ' ' !in words[i]
    ensures |Initials(Join(words, ' '))| == |words|
    ensures forall i :: 0 <= i < |words| ==> Initials(Join(words, ' '))[i] == words[i][0]
  {
    SplitJoin(words, ' ');
    FirstLettersOfWords(words);
  }

  lemma {:induction false} FirstLettersOfWords(words: seq<string>)
    requires forall i :: 0 <= i < |words| ==> words[i] != ""
    ensures |FirstLetters(words)| == |words|
    ensures forall i :: 0 <= i < |words| ==> FirstLetters(words)[i] == words[i][0]
  {
    if words != [] {
      FirstLettersOfWords(words[1..]);
      assert FirstLetters(words) == [words[0][0]] + FirstLetters(words[1..]);
    }
  }

  /** "Sarah Johnson" shows as "SJ". */
  lemma InitialsExample()
    ensures Initials("Sarah Johnson") == "SJ"
  {
    assert "Sarah Johnson" == Join(["Sarah", "Johnson"], ' ');
    InitialsOfWords(["Sarah", "Johnson"]);
  }
}
