/** The weekly availability editor (components/timetable/availability-settings.tsx):
    for each day of the week an on/off switch and a list of time slots, with
    handlers that toggle a day, add, remove or edit a slot, and copy one
    day's hours to every other day. The slot pickers list `Clock.TimeOptions`
    and label times with `Clock.TableFormatTime`. */
module Availability {

  datatype Day = Monday | Tuesday | Wednesday | Thursday | Friday | Saturday | Sunday

  /** `DAYS`, in display order. */
  const Days: seq<Day> := [Monday, Tuesday, Wednesday, Thursday, Friday, Saturday, Sunday]

  datatype TimeSlot = TimeSlot(start: string, end: string)

  datatype DayAvailability = DayAvailability(isAvailable: bool, timeSlots: seq<TimeSlot>)

  type Week = map<Day, DayAvailability>

  /** `DAYS` names every day of the week. */
  lemma DaysListEveryDay()
    ensures forall d: Day :: d in Days
  {
    forall d: Day ensures d in Days {
      match d
      case Monday => assert Days[0] == d;
      case Tuesday => assert Days[1] == d;
      case Wednesday => assert Days[2] == d;
      case Thursday => assert Days[3] == d;
      case Friday => assert Days[4] == d;
      case Saturday => assert Days[5] == d;
      case Sunday => assert Days[6] == d;
    }
  }

  /** The slot a newly opened day or an added slot starts with. */
  const DefaultSlot := TimeSlot("09:00", "17:00")

  datatype SlotField = Start | End

  /** Every day of the week has an entry. */
  predicate Complete(w: Week) {
    forall d: Day :: d in w
  }

  /** The initial table: Monday to Friday open 09:00-17:00, the weekend
      closed. */
  function InitialWeek(): (w: Week)
    ensures Complete(w)
  {
    DaysListEveryDay();
    map d | d in Days :: if d == Saturday || d == Sunday then DayAvailability(false, [])
                  else DayAvailability(true, [DefaultSlot])
  }

  lemma InitialWeekShape(d: Day)
    ensures d != Saturday && d != Sunday ==> InitialWeek()[d] == DayAvailability(true, [TimeSlot("09:00", "17:00")])
    ensures d == Saturday || d == Sunday ==> InitialWeek()[d] == DayAvailability(false, [])
  {
  }

  // ----------------------------------------------------- one day's edits

  /** `toggleDayAvailability`: flip the switch; a day being opened gets the
      single default slot, a day being closed loses all its slots. */
  function ToggleDay(d: DayAvailability): (r: DayAvailability)
    ensures r.isAvailable == !d.isAvailable
    ensures r.timeSlots == if r.isAvailable then [DefaultSlot] else []
  {
    DayAvailability(!d.isAvailable, if !d.isAvailable then [DefaultSlot] else [])
  }

  /** `addTimeSlot`: the default slot appended. */
  function AddSlot(d: DayAvailability): DayAvailability {
    d.(timeSlots := d.timeSlots + [DefaultSlot])
  }

  /** `slots.filter((_, i) => i !== index)`. */
  function DropIndex(slots: seq<TimeSlot>, index: int): (r: seq<TimeSlot>)
    ensures r == if 0 <= index < |slots| then slots[..index] + slots[index + 1..] else slots
    decreases |slots|
  {
    if slots == [] then []
    else
      var rest := DropIndex(slots[1..], index - 1);
      if index == 0 then rest else [slots[0]] + rest
  }

  /** `slots.map((slot, i) => i === index ? {...slot, [field]: value} : slot)`. */
  function UpdateIndex(slots: seq<TimeSlot>, index: int, field: SlotField, value: string): (r: seq<TimeSlot>)
    ensures |r| == |slots|
    ensures forall i :: 0 <= i < |r| ==>
      r[i] == if i == index then SetField(slots[i], field, value) else slots[i]
    decreases |slots|
  {
    if slots == [] then []
    else
      var head := if index == 0 then SetField(slots[0], field, value) else slots[0];
      [head] + UpdateIndex(slots[1..], index - 1, field, value)
  }

  function SetField(slot: TimeSlot, field: SlotField, value: string): TimeSlot {
    match field
    case Start => slot.(start := value)
    case End => slot.(end := value)
  }

  /** Editing a slot changes only the named field of that one slot. */
  lemma UpdateIndexOnlyThatField(slots: seq<TimeSlot>, index: int, field: SlotField, value: string, i: nat)
    requires i < |slots|
    ensures var r := UpdateIndex(slots, index, field, value);
      && (i != index ==> r[i] == slots[i])
      && (i == index && field == Start ==> r[i].start == value && r[i].end == slots[i].end)
      && (i == index && field == End ==> r[i].end == value && r[i].start == slots[i].start)
  {
  }

  // ----------------------------------------------------- whole-week edits

  /** The week with every day holding the source day's switch and slots. */
  function CopiedWeek(w: Week, source: Day): (r: Week)
    requires source in w
    ensures Complete(r)
    ensures forall d: Day :: r[d] == w[source]
  {
    DaysListEveryDay();
    map d | d in Days :: w[source]
  }

  /** After copying, the source day is unchanged, and copying again (from the
      same or any other day) changes nothing. */
  lemma CopyIdempotent(w: Week, source: Day, other: Day)
    requires Complete(w)
    ensures CopiedWeek(w, source)[source] == w[source]
    ensures CopiedWeek(CopiedWeek(w, source), other) == CopiedWeek(w, source)
  {
  }

  /** A day is switched on exactly when it has slots. */
  predicate DayConsistent(d: DayAvailability) {
    d.isAvailable <==> |d.timeSlots| > 0
  }

  predicate Consistent(w: Week) {
    Complete(w) && forall d: Day :: DayConsistent(w[d])
  }

  /** What the editor can do, as the buttons and pickers call the handlers. */
  datatype Edit =
    | Toggle(day: Day)
    | Add(day: Day)
    | Remove(day: Day, index: int)
    | Update(day: Day, index: int, field: SlotField, value: string)
    | CopyAll(day: Day)

  function Apply(w: Week, e: Edit): (r: Week)
    requires Complete(w)
    ensures Complete(r)
  {
    match e
    case Toggle(day) => w[day := ToggleDay(w[day])]
    case Add(day) => w[day := AddSlot(w[day])]
    case Remove(day, index) => w[day := w[day].(timeSlots := DropIndex(w[day].timeSlots, index))]
    case Update(day, index, field, value) =>
      w[day := w[day].(timeSlots := UpdateIndex(w[day].timeSlots, index, field, value))]
    case CopyAll(day) => CopiedWeek(w, day)
  }

  /** The controls on screen: "Add Slot", "Copy to All" and the slot rows
      appear only on an open day, and a slot's delete button only when the
      day has more than one slot. */
  predicate Offered(w: Week, e: Edit)
    requires Complete(w)
  {
    match e
    case Toggle(_) => true
    case Add(day) => w[day].isAvailable
    case Remove(day, index) => w[day].isAvailable && |w[day].timeSlots| > 1 && 0 <= index < |w[day].timeSlots|
    case Update(day, index, _, _) => w[day].isAvailable && 0 <= index < |w[day].timeSlots|
    case CopyAll(day) => w[day].isAvailable
  }

  /** Each control the screen offers keeps every day's switch in step with
      its slot list. */
  lemma OfferedEditKeepsConsistent(w: Week, e: Edit)
    requires Consistent(w) && Offered(w, e)
    ensures Consistent(Apply(w, e))
  {
    var r := Apply(w, e);
    forall d: Day ensures DayConsistent(r[d]) {
      assert DayConsistent(w[d]);
      if e.Remove? && d == e.day {
        assert |r[d].timeSlots| == |w[d].timeSlots| - 1;
      }
    }
  }

  /** Without that gating the editor can reach a closed day with slots:
      adding a slot to a closed day. */
  lemma UngatedAddBreaksConsistency()
    ensures Consistent(InitialWeek())
    ensures !Consistent(Apply(InitialWeek(), Add(Sunday)))
  {
    assert !DayConsistent(Apply(InitialWeek(), Add(Sunday))[Sunday]);
  }

  /** Any sequence of offered edits from the initial table keeps it
      consistent. */
  lemma {:induction false} OfferedRunKeepsConsistent(w: Week, edits: seq<Edit>)
    requires Consistent(w)
    requires OfferedRun(w, edits)
    ensures Consistent(ApplyAll(w, edits))
    decreases |edits|
  {
    if edits != [] {
      OfferedEditKeepsConsistent(w, edits[0]);
      OfferedRunKeepsConsistent(Apply(w, edits[0]), edits[1..]);
    }
  }

  function ApplyAll(w: Week, edits: seq<Edit>): (r: Week)
    requires Complete(w)
    ensures Complete(r)
    decreases |edits|
  {
    if edits == [] then w else ApplyAll(Apply(w, edits[0]), edits[1..])
  }

  predicate OfferedRun(w: Week, edits: seq<Edit>)
    requires Complete(w)
    decreases |edits|
  {
    edits == [] || (Offered(w, edits[0]) && OfferedRun(Apply(w, edits[0]), edits[1..]))
  }

  // ----------------------------------------------------- the editor state

  class Settings {
    var availability: Week
    var bufferTime: int
    var timezone: string

    predicate Valid()
      reads this
    {
      Complete(availability)
    }

    constructor ()
      ensures Valid() && availability == InitialWeek() && Consistent(availability)
      ensures bufferTime == 15 && timezone == "America/New_York"
    {
      availability := InitialWeek();
      bufferTime := 15;
      timezone := "America/New_York";
    }

    method ToggleDayAvailability(day: Day)
      requires Valid()
      modifies this`availability
      ensures Valid()
      ensures availability == old(availability)[day := ToggleDay(old(availability)[day])]
    {
      availability := availability[day := ToggleDay(availability[day])];
    }

    method AddTimeSlot(day: Day)
      requires Valid()
      modifies this`availability
      ensures Valid()
      ensures availability == old(availability)[day := AddSlot(old(availability)[day])]
      ensures availability[day].timeSlots[..|old(availability)[day].timeSlots|] == old(availability)[day].timeSlots
      ensures |availability[day].timeSlots| == |old(availability)[day].timeSlots| + 1
    {
      availability := availability[day := AddSlot(availability[day])];
    }

    method RemoveTimeSlot(day: Day, index: int)
      requires Valid()
      modifies this`availability
      ensures Valid()
      ensures availability == Apply(old(availability), Remove(day, index))
    {
      var d := availability[day];
      availability := availability[day := d.(timeSlots := DropIndex(d.timeSlots, index))];
    }

    method UpdateTimeSlot(day: Day, index: int, field: SlotField, value: string)
      requires Valid()
      modifies this`availability
      ensures Valid()
      ensures availability == Apply(old(availability), Update(day, index, field, value))
    {
      var d := availability[day];
      availability := availability[day := d.(timeSlots := UpdateIndex(d.timeSlots, index, field, value))];
    }

    /** `copyToAllDays(sourceDay)`: walks `DAYS`, overwriting every other day
        with a copy of the source day. */
    method CopyToAllDays(sourceDay: Day)
      requires Valid()
      modifies this`availability
      ensures Valid()
      ensures availability == CopiedWeek(old(availability), sourceDay)
    {
      var source := availability[sourceDay];
      var next := availability;
      for i := 0 to |Days|
        invariant Complete(next)
        invariant next[sourceDay] == source
        invariant forall j :: 0 <= j < i ==> next[Days[j]] == source
        invariant forall j :: i <= j < |Days| ==> next[Days[j]] == availability[Days[j]]
      {
        if Days[i] != sourceDay {
          next := next[Days[i] := source];
        }
      }
      DaysListEveryDay();
      var target := CopiedWeek(availability, sourceDay);
      forall d: Day ensures next[d] == target[d] {
        assert d in Days;
        var j :| 0 <= j < |Days| && Days[j] == d;
      }
      assert next.Keys == target.Keys;
      availability := next;
    }
  }
}
