/** The four-step public booking wizard (components/booking/booking-flow.tsx):
    a step counter 1..4, a booking record filled in by each step's `onNext`,
    the "can go back / can go next" guards handed to the step components, and
    completion, which stamps a booking id and swaps the wizard for the
    success view. */
module BookingFlow {
  import opened Wrappers
  import opened Text

  /** The service offered on the public booking page (price in cents,
      duration in minutes). */
  datatype Service = Service(id: string, name: string, description: string,
                             price: int, duration: int, category: string)

  datatype ClientInfo = ClientInfo(name: string, email: string, phone: string, notes: Option<string>)

  /** `BookingData`: every field optional. The date is an epoch-millisecond
      instant; a `Date` object is truthy whatever it holds. */
  datatype BookingData = BookingData(service: Option<Service>, date: Option<int>,
                                     time: Option<string>, clientInfo: Option<ClientInfo>)

  const NoData := BookingData(None, None, None, None)

  /** The number of wizard steps (`steps.length`). */
  const StepCount := 4

  /** A field of `{...prev, ...data}`: the patch's value when it supplies one. */
  function Pick<T>(prev: Option<T>, patch: Option<T>): (r: Option<T>)
    ensures patch.Some? ==> r == patch
    ensures patch.None? ==> r == prev
  {
    if patch.Some? then patch else prev
  }

  /** `{...prev, ...data}`: the fields the patch supplies overwrite, every
      other field keeps its previous value. */
  function Merge(prev: BookingData, patch: BookingData): BookingData {
    BookingData(Pick(prev.service, patch.service), Pick(prev.date, patch.date),
                Pick(prev.time, patch.time), Pick(prev.clientInfo, patch.clientInfo))
  }

  /** An empty patch changes nothing, the same patch twice is the patch once,
      and two merges in a row are one merge of the combined patch. */
  lemma MergeLaws(a: BookingData, b: BookingData, c: BookingData)
    ensures Merge(a, NoData) == a
    ensures Merge(Merge(a, b), b) == Merge(a, b)
    ensures Merge(Merge(a, b), c) == Merge(a, Merge(b, c))
  {
  }

  /** The step after `handleNext`: one further while below the last step. */
  function NextStep(step: int): int {
    if step < StepCount then step + 1 else step
  }

  /** The step after `handleBack`: one back while above the first step. */
  function PrevStep(step: int): int {
    if step > 1 then step - 1 else step
  }

  /** `canGoBack={currentStep > 1}`. */
  predicate CanGoBack(step: int) {
    step > 1
  }

  /** The back button is enabled exactly when going back moves the wizard,
      and an advance then returns to the same step; it is disabled only on
      the first step. */
  lemma BackOfferedWhenItMoves(step: int)
    requires 1 <= step <= StepCount
    ensures CanGoBack(step) <==> PrevStep(step) < step
    ensures CanGoBack(step) ==> NextStep(PrevStep(step)) == step
    ensures !CanGoBack(step) <==> step == 1
  {
  }

  /** The `canGoNext` expression, read as a boolean: a service chosen on
      step 1; a date and a non-empty time on step 2; client details on
      step 3; always on step 4. */
  predicate CanGoNext(step: int, data: BookingData) {
    || (step == 1 && data.service.Some?)
    || (step == 2 && data.date.Some? && data.time.Some? && data.time.value != "")
    || (step == 3 && data.clientInfo.Some?)
    || step == 4
  }

  /** Merging more data never closes a guard that was open, unless the patch
      supplies an empty time (the empty string is falsy). */
  lemma MergeKeepsGuardOpen(step: int, data: BookingData, patch: BookingData)
    requires CanGoNext(step, data)
    requires patch.time != Some("")
    ensures CanGoNext(step, Merge(data, patch))
  {
  }

  /** An empty time keeps step 2 closed whatever else the record holds. */
  lemma EmptyTimeClosesStepTwo(data: BookingData)
    requires data.time == Some("")
    ensures !CanGoNext(2, data)
  {
  }

  /** What the user does to the wizard: advance with a patch, or go back. */
  datatype Move = Next(patch: BookingData) | Back

  /** The step and record after a run of moves. */
  function Replay(step: int, data: BookingData, moves: seq<Move>): (int, BookingData)
    decreases |moves|
  {
    if moves == [] then (step, data)
    else match moves[0]
      case Next(patch) => Replay(NextStep(step), Merge(data, patch), moves[1..])
      case Back => Replay(PrevStep(step), data, moves[1..])
  }

  /** Whatever the user does, the step stays within 1..4. */
  lemma {:induction false} ReplayStaysInRange(step: int, data: BookingData, moves: seq<Move>)
    requires 1 <= step <= StepCount
    ensures 1 <= Replay(step, data, moves).0 <= StepCount
    decreases |moves|
  {
    if moves != [] {
      match moves[0]
      case Next(patch) => ReplayStaysInRange(NextStep(step), Merge(data, patch), moves[1..]);
      case Back => ReplayStaysInRange(PrevStep(step), data, moves[1..]);
    }
  }

  /** Going back leaves the record alone: a run of `Back` moves only moves
      the step, down to 1 at the lowest. */
  lemma {:induction false} BacksKeepData(step: int, data: BookingData, n: nat)
    requires 1 <= step <= StepCount
    ensures Replay(step, data, seq(n, _ => Back)) == (if step - n >= 1 then step - n else 1, data)
    decreases n
  {
    if n > 0 {
      assert seq(n, _ => Back)[1..] == seq(n - 1, _ => Back);
      BacksKeepData(PrevStep(step), data, n - 1);
    }
  }

  /** From any step `s`, `n` advances land on step min(s + n, 4). */
  lemma {:induction false} NextsReachStep(step: int, data: BookingData, patches: seq<BookingData>)
    requires 1 <= step <= StepCount
    ensures Replay(step, data, seq(|patches|, i requires 0 <= i < |patches| => Next(patches[i]))).0
         == if step + |patches| <= StepCount then step + |patches| else StepCount
    decreases |patches|
  {
    var moves := seq(|patches|, i requires 0 <= i < |patches| => Next(patches[i]));
    if patches != [] {
      var rest := seq(|patches| - 1, i requires 0 <= i < |patches| - 1 => Next(patches[1..][i]));
      assert moves[1..] == rest;
      NextsReachStep(NextStep(step), Merge(data, patches[0]), patches[1..]);
    }
  }

  /** A booking id for the timestamp `now`: "BK", then digits that denote
      `now` modulo 10^6, six of them once `now` has six digits. */
  predicate IsBookingId(r: string, now: nat) {
    && |r| >= 3 && r[..2] == "BK" && AllDigits(r[2..])
    && (now >= 100000 ==> |r| == 8)
    && DecimalValue(r[2..]) == now % 1000000
  }

  /** `BK` followed by the last six digits of the millisecond timestamp. */
  function BookingIdFor(now: nat): (r: string)
    ensures IsBookingId(r, now)
  {
    var tail := SliceLast(NatToString(now), 6);
    LastSixDigits(now);
    assert ("BK" + tail)[2..] == tail;
    "BK" + tail
  }

  /** The last six digits of a timestamp's numeral denote it modulo 10^6. */
  lemma LastSixDigits(now: nat)
    ensures DecimalValue(SliceLast(NatToString(now), 6)) == now % 1000000
    ensures now >= 100000 ==> |NatToString(now)| >= 6
  {
    var digits := NatToString(now);
    DecimalRoundTrip(now);
    assert Pow10(5) == 100000;
    assert Pow10(6) == 1000000;
    if |digits| >= 6 {
      SuffixValue(digits, 6);
      assert SliceLast(digits, 6) == digits[|digits| - 6..];
    } else {
      NumeralBound(now);
      Pow10Monotone(|digits|, 5);
      assert now < 100000;
      ModUnique(now, 1000000, 0, now);
      assert SliceLast(digits, 6) == digits;
    }
  }

  /** What the page shows. */
  datatype Screen = Wizard(step: int) | Success(bookingId: string)

  /** The booking wizard's state. */
  class Flow {
    var currentStep: int
    var bookingData: BookingData
    var bookingId: string
    var isComplete: bool

    predicate Valid()
      reads this
    {
      1 <= currentStep <= StepCount
    }

    /** Once complete, the success view replaces the wizard. */
    function Shown(): (s: Screen)
      reads this
      ensures s.Success? <==> isComplete
    {
      if isComplete then Success(bookingId) else Wizard(currentStep)
    }

    constructor ()
      ensures Valid()
      ensures currentStep == 1 && bookingData == NoData && bookingId == "" && !isComplete
    {
      currentStep := 1;
      bookingData := NoData;
      bookingId := "";
      isComplete := false;
    }

    /** `handleNext(data)`: merge, then advance unless on the last step. */
    method HandleNext(data: BookingData)
      requires Valid()
      modifies this
      ensures Valid()
      ensures bookingData == Merge(old(bookingData), data)
      ensures currentStep == NextStep(old(currentStep))
      ensures old(currentStep) == StepCount ==> currentStep == StepCount
      ensures bookingId == old(bookingId) && isComplete == old(isComplete)
    {
      bookingData := Merge(bookingData, data);
      if currentStep < StepCount {
        currentStep := currentStep + 1;
      }
    }

    /** `handleBack()`: one step back unless on the first; the record is kept. */
    method HandleBack()
      requires Valid()
      modifies this
      ensures Valid()
      ensures currentStep == PrevStep(old(currentStep))
      ensures bookingData == old(bookingData)
      ensures bookingId == old(bookingId) && isComplete == old(isComplete)
    {
      if currentStep > 1 {
        currentStep := currentStep - 1;
      }
    }

    /** `handleBookingComplete()` at time `now`. */
    method HandleBookingComplete(now: nat)
      requires Valid()
      modifies this`bookingId, this`isComplete
      ensures Valid()
      ensures bookingId == BookingIdFor(now) && isComplete
      ensures Shown() == Success(bookingId)
      ensures currentStep == old(currentStep) && bookingData == old(bookingData)
    {
      bookingId := BookingIdFor(now);
      isComplete := true;
    }
  }
}
