/** `PUT /api/availability/working-hours`
    (app/api/availability/working-hours/route.ts): two guards, then the
    request echoed as the day's working hours. The time slots are passed
    through as they are: neither their order nor overlaps are checked. */
module WorkingHoursRoute {
  import opened Wrappers
  import opened ApiTypes

  /** `UpdateWorkingHoursRequest`, every field possibly missing. */
  datatype UpdateWorkingHoursRequest = UpdateWorkingHoursRequest(
    dayOfWeek: Option<int>, isAvailable: Option<bool>, timeSlots: Option<seq<TimeSlot>>)

  const RequiredError := "Day of week, availability status, and time slots are required"
  const DayError := "Day of week must be between 0 (Sunday) and 6 (Saturday)"

  /** The PUT handler. The checks on `dayOfWeek` and `isAvailable` compare
      with `undefined`, so 0 and `false` pass them; any array, even an empty
      one, passes the `timeSlots` check. */
  function UpdateWorkingHours(body: UpdateWorkingHoursRequest, now: int): Response<WorkingHours> {
    if body.dayOfWeek.None? || body.isAvailable.None? || body.timeSlots.None? then
      Failure(400, RequiredError)
    else if body.dayOfWeek.value < 0 || body.dayOfWeek.value > 6 then
      Failure(400, DayError)
    else
      Success(200, WorkingHours("1", "1", body.dayOfWeek.value, body.isAvailable.value,
                                body.timeSlots.value, now, now),
              Some("Working hours updated successfully"))
  }

  /** The update succeeds exactly when all three fields are present and the
      day is 0 to 6; it then echoes the day, the flag and the slots
      unchanged. */
  lemma UpdateWorkingHoursOutcome(body: UpdateWorkingHoursRequest, now: int)
    ensures var r := UpdateWorkingHours(body, now);
      r.Success? <==> body.dayOfWeek.Some? && body.isAvailable.Some? && body.timeSlots.Some?
                      && 0 <= body.dayOfWeek.value <= 6
    ensures var r := UpdateWorkingHours(body, now);
      r.Success? ==> r.status == 200 && r.data.dayOfWeek == body.dayOfWeek.value
                     && r.data.isAvailable == body.isAvailable.value
                     && r.data.timeSlots == body.timeSlots.value
                     && r.data.createdAt == now && r.data.updatedAt == now
    ensures var r := UpdateWorkingHours(body, now);
      r.Failure? ==>
        && r.status == 400
        && (r.error == RequiredError <==> body.dayOfWeek.None? || body.isAvailable.None? || body.timeSlots.None?)
  {
  }

  /** Sunday marked unavailable with no slots is a valid update, and so is
      any list of slots, however they overlap. */
  lemma FalsyValuesAccepted(slots: seq<TimeSlot>, now: int)
    ensures UpdateWorkingHours(UpdateWorkingHoursRequest(Some(0), Some(false), Some([])), now).Success?
    ensures UpdateWorkingHours(UpdateWorkingHoursRequest(Some(0), Some(false), Some(slots)), now).Success?
  {
  }
}
