/** Step 2 of the booking wizard (components/booking/datetime-selection.tsx):
    a calendar limited to the next sixty days, the hard-coded list of
    half-hour slots with a few marked as taken, and the hand-over of the
    chosen date and time to the wizard. Dates are epoch milliseconds; whether
    a date is today is decided by the date library, so it comes in as a
    flag. Slot labels are `Clock.FormatTime`. */
module DateTimeSelection {
  import opened Wrappers
  import opened Seqs
  import opened Clock
  import Text
  import BookingFlow

  /** The twelve slots the picker starts from. */
  const BaseSlots: seq<string> :=
    ["09:00", "09:30", "10:00", "10:30", "11:00", "11:30",
     "14:00", "14:30", "15:00", "15:30", "16:00", "16:30"]

  /** The minute of the day of each base slot. */
  const BaseMinutes: seq<int> := [540, 570, 600, 630, 660, 690, 840, 870, 900, 930, 960, 990]

  /** The slots shown as taken today, and on any other day. */
  const TakenToday: seq<string> := ["10:00", "14:30", "16:00"]
  const TakenOtherDays: seq<string> := ["09:30", "15:30"]

  /** `getAvailableSlots(date)`: the base slots without the taken ones. The
      date matters only through whether it is today; the service plays no
      part. */
  function AvailableSlots(isToday: bool): seq<string> {
    Filter(BaseSlots, IsFree(isToday))
  }

  function Taken(isToday: bool): seq<string> {
    if isToday then TakenToday else TakenOtherDays
  }

  /** The filter's test: the slot is not among the taken ones. */
  function IsFree(isToday: bool): string -> bool {
    (slot: string) => slot !in Taken(isToday)
  }

  /** The base slots are clock times in strictly increasing order. */
  lemma BaseSlotsAscending()
    ensures forall i :: 0 <= i < |BaseSlots| ==> MinuteOfDay(BaseSlots[i]) == Some(BaseMinutes[i])
    ensures forall i, j :: 0 <= i < j < |BaseMinutes| ==> BaseMinutes[i] < BaseMinutes[j]
  {
    forall i | 0 <= i < |BaseSlots| ensures MinuteOfDay(BaseSlots[i]) == Some(BaseMinutes[i]) {
      if i < 6 {
        MorningSlotMinute(i);
      } else {
        AfternoonSlotMinute(i);
      }
    }
    MinutesAscending();
  }

  /** Morning slots run every half hour from 9:00, afternoon ones from 14:00. */
  lemma MinutesAscending()
    ensures forall i, j :: 0 <= i < j < |BaseMinutes| ==> BaseMinutes[i] < BaseMinutes[j]
  {
    forall k | 0 <= k < 12
      ensures BaseMinutes[k] == if k < 6 then 540 + 30 * k else 660 + 30 * k
    {
    }
  }

  /** Morning slot `k` denotes its minute of the day. */
  lemma MorningSlotMinute(k: nat)
    requires k < 6
    ensures MinuteOfDay(BaseSlots[k]) == Some(BaseMinutes[k])
  {
    var v := BaseSlots[k];
    assert |v| == 5 && v[2] == ':';
    assert Text.IsDigit(v[0]) && Text.IsDigit(v[1]) && Text.IsDigit(v[3]) && Text.IsDigit(v[4]);
    ClockTextMinute(v);
  }

  /** Afternoon slot `k` denotes its minute of the day. */
  lemma AfternoonSlotMinute(k: nat)
    requires 6 <= k < 12
    ensures MinuteOfDay(BaseSlots[k]) == Some(BaseMinutes[k])
  {
    var v := BaseSlots[k];
    assert |v| == 5 && v[2] == ':';
    assert Text.IsDigit(v[0]) && Text.IsDigit(v[1]) && Text.IsDigit(v[3]) && Text.IsDigit(v[4]);
    ClockTextMinute(v);
  }

  /** Which base slots are taken today and on other days. */
  lemma TakenBaseSlots()
    ensures forall i :: 0 <= i < 12 ==> (BaseSlots[i] in TakenToday <==> i == 2 || i == 7 || i == 10)
    ensures forall i :: 0 <= i < 12 ==> (BaseSlots[i] in TakenOtherDays <==> i == 1 || i == 9)
  {
    forall i | 0 <= i < 12
      ensures BaseSlots[i] in TakenToday <==> i == 2 || i == 7 || i == 10
      ensures BaseSlots[i] in TakenOtherDays <==> i == 1 || i == 9
    {
      var s := BaseSlots[i];
      assert s[1] != '0' || s[3] != '0' ==> s != "10:00";
      assert s[1] != '4' || s[3] != '3' ==> s != "14:30";
      assert s[1] != '6' || s[3] != '0' ==> s != "16:00";
      assert s[1] != '9' || s[3] != '3' ==> s != "09:30";
      assert s[1] != '5' || s[3] != '3' ==> s != "15:30";
    }
  }

  /** The filter's test on each base slot. */
  lemma FreeSlots()
    ensures forall i :: 0 <= i < 12 ==> (IsFree(true)(BaseSlots[i]) <==> i != 2 && i != 7 && i != 10)
    ensures forall i :: 0 <= i < 12 ==> (IsFree(false)(BaseSlots[i]) <==> i != 1 && i != 9)
  {
    TakenBaseSlots();
  }

  /** A filter over twelve slots that drops exactly slots 2, 7 and 10. */
  lemma FilterDroppingToday(s: seq<string>, keep: string -> bool)
    requires |s| == 12
    requires forall i :: 0 <= i < 12 ==> (keep(s[i]) <==> i != 2 && i != 7 && i != 10)
    ensures Filter(s, keep) == s[0..2] + s[3..7] + s[8..10] + s[11..12]
  {
    assert s[0..] == s;
    FilterRun(s, keep, 0, 2);
    FilterSkip(s, keep, 2);
    FilterRun(s, keep, 3, 7);
    FilterSkip(s, keep, 7);
    FilterRun(s, keep, 8, 10);
    FilterSkip(s, keep, 10);
    FilterRun(s, keep, 11, 12);
    assert s[12..] == [];
  }

  /** A filter over twelve slots that drops exactly slots 1 and 9. */
  lemma FilterDroppingOtherDay(s: seq<string>, keep: string -> bool)
    requires |s| == 12
    requires forall i :: 0 <= i < 12 ==> (keep(s[i]) <==> i != 1 && i != 9)
    ensures Filter(s, keep) == s[0..1] + s[2..9] + s[10..12]
  {
    assert s[0..] == s;
    FilterRun(s, keep, 0, 1);
    FilterSkip(s, keep, 1);
    FilterRun(s, keep, 2, 9);
    FilterSkip(s, keep, 9);
    FilterRun(s, keep, 10, 12);
    assert s[12..] == [];
  }

  lemma TodayPieces()
    ensures BaseSlots[0..2] + BaseSlots[3..7] + BaseSlots[8..10] + BaseSlots[11..12]
         == ["09:00", "09:30", "10:30", "11:00", "11:30", "14:00", "15:00", "15:30", "16:30"]
  {
    var b := BaseSlots;
    assert b[0..2] + b[3..7] + b[8..10] + b[11..12] == [b[0], b[1], b[3], b[4], b[5], b[6], b[8], b[9], b[11]];
  }

  lemma OtherDayPieces()
    ensures BaseSlots[0..1] + BaseSlots[2..9] + BaseSlots[10..12]
         == ["09:00", "10:00", "10:30", "11:00", "11:30", "14:00", "14:30", "15:00", "16:00", "16:30"]
  {
    var b := BaseSlots;
    assert b[0..1] + b[2..9] + b[10..12] == [b[0], b[2], b[3], b[4], b[5], b[6], b[7], b[8], b[10], b[11]];
  }

  /** Today the picker offers nine slots: all but 10:00, 14:30 and 16:00, in
      the base order. */
  lemma TodaySlots()
    ensures AvailableSlots(true)
         == ["09:00", "09:30", "10:30", "11:00", "11:30", "14:00", "15:00", "15:30", "16:30"]
    ensures IsSubsequence(AvailableSlots(true), BaseSlots)
  {
    FreeSlots();
    FilterDroppingToday(BaseSlots, IsFree(true));
    TodayPieces();
    FilterIsSubsequence(BaseSlots, IsFree(true));
  }

  /** On any other day it offers ten: all but 09:30 and 15:30. */
  lemma OtherDaySlots()
    ensures AvailableSlots(false)
         == ["09:00", "10:00", "10:30", "11:00", "11:30", "14:00", "14:30", "15:00", "16:00", "16:30"]
    ensures IsSubsequence(AvailableSlots(false), BaseSlots)
  {
    FreeSlots();
    FilterDroppingOtherDay(BaseSlots, IsFree(false));
    OtherDayPieces();
    FilterIsSubsequence(BaseSlots, IsFree(false));
  }

  /** A slot is offered exactly when it is a base slot that is not taken. */
  lemma AvailableMeaning(isToday: bool, slot: string)
    ensures slot in AvailableSlots(isToday) <==>
      slot in BaseSlots && slot !in (if isToday then TakenToday else TakenOtherDays)
  {
    FilterMembers(BaseSlots, IsFree(isToday));
  }

  /** The slot list before a date is chosen is empty. */
  function SlotsFor(selectedDate: Option<int>, isToday: bool): seq<string> {
    if selectedDate.Some? then AvailableSlots(isToday) else []
  }

  /** A slot button is shown exactly when a date is chosen and the slot is a
      base slot not taken on that day. */
  lemma SlotsForMeaning(selectedDate: Option<int>, isToday: bool, slot: string)
    ensures slot in SlotsFor(selectedDate, isToday) <==>
      selectedDate.Some? && slot in BaseSlots && slot !in Taken(isToday)
  {
    AvailableMeaning(isToday, slot);
  }

  const DayMs := 24 * 60 * 60 * 1000

  /** The calendar's `disabled` rule: before now, or after now plus sixty
      days. */
  predicate IsDateDisabled(date: int, now: int) {
    date < now || date > now + 60 * DayMs
  }

  /** The bookable dates form one window, from now to sixty days on. */
  lemma EnabledWindow(a: int, b: int, c: int, now: int)
    requires a <= b <= c && !IsDateDisabled(a, now) && !IsDateDisabled(c, now)
    ensures !IsDateDisabled(b, now)
    ensures !IsDateDisabled(now, now) && !IsDateDisabled(now + 60 * DayMs, now)
    ensures IsDateDisabled(now - 1, now) && IsDateDisabled(now + 60 * DayMs + 1, now)
  {
  }

  /** The calendar hands over a day at its start, so once a day has begun its
      start is already in the past and the day, today included, cannot be
      picked: the "today" slot list is only shown for a date carried in from
      before. */
  lemma StartedDayIsDisabled(dayStart: int, now: int)
    requires dayStart < now
    ensures IsDateDisabled(dayStart, now)
  {
  }

  class Picker {
    var selectedDate: Option<int>
    var selectedTime: Option<string>

    /** The picker starts from what the wizard already holds. */
    constructor (bookingData: BookingFlow.BookingData)
      ensures selectedDate == bookingData.date && selectedTime == bookingData.time
    {
      selectedDate := bookingData.date;
      selectedTime := bookingData.time;
    }

    /** The calendar's `onSelect` (a cleared selection is `undefined`). */
    method SelectDate(date: Option<int>)
      modifies this`selectedDate
      ensures selectedDate == date
    {
      selectedDate := date;
    }

    /** A slot button. */
    method SelectTime(slot: string)
      modifies this`selectedTime
      ensures selectedTime == Some(slot)
    {
      selectedTime := Some(slot);
    }

    /** The Next button is disabled without a date or a (non-empty) time. */
    predicate NextDisabled()
      reads this
    {
      selectedDate.None? || selectedTime.None? || selectedTime.value == ""
    }

    /** `handleNext()`: the patch passed to `onNext`, if it is called; it is
        called exactly when the Next button is enabled. */
    method HandleNext() returns (patch: Option<BookingFlow.BookingData>)
      ensures patch.Some? <==> !NextDisabled()
      ensures patch.Some? ==>
        patch.value == BookingFlow.BookingData(None, selectedDate, selectedTime, None)
    {
      if selectedDate.Some? && selectedTime.Some? && selectedTime.value != "" {
        patch := Some(BookingFlow.BookingData(None, selectedDate, selectedTime, None));
      } else {
        patch := None;
      }
    }
  }

  /** What this step hands over opens the wizard's step-2 guard. */
  lemma HandOverOpensStepTwo(data: BookingFlow.BookingData, date: int, time: string)
    requires time != ""
    ensures BookingFlow.CanGoNext(2, BookingFlow.Merge(data, BookingFlow.BookingData(None, Some(date), Some(time), None)))
  {
  }
}
