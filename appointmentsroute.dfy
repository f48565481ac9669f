/** `POST /api/appointments` (app/api/appointments/route.ts): the required
    fields, then the start time strictly in the future, then the new
    appointment: one hour long whatever the service, pending, and paid only
    when the client pays by card. An end time a `Date` cannot hold makes the
    handler throw and answer 500. Parsing the start-time text is the date
    library's work: the instant it denotes comes in as `parsedStart`, `None`
    for an invalid date. "now" and the fresh id are parameters. */
module AppointmentsRoute {
  import opened Wrappers
  import opened Text
  import opened ApiTypes

  /** `CreateAppointmentRequest`, every field possibly missing. */
  datatype CreateAppointmentRequest = CreateAppointmentRequest(
    serviceId: Option<string>, clientEmail: Option<string>, clientName: Option<string>,
    clientPhone: Option<string>, startTime: Option<string>, notes: Option<string>,
    paymentMethod: Option<string>)

  const RequiredError := "Service ID, client email, client name, and start time are required"
  const PastError := "Appointment time must be in the future"
  const InternalError := "Internal server error"

  /** One hour, the length of every new appointment. */
  const AppointmentMs := 60 * 60 * 1000

  /** The largest time value a JavaScript `Date` holds, 8.64e15 ms after the
      epoch (section 21.4.1.1 of ECMA-262); past it a `Date` is invalid and
      `toISOString` throws. */
  const MaxTime := 8640000000000000

  /** The canned service attached to every new appointment, under the
      requested service id. */
  function MockService(serviceId: string, now: int): Service {
    Service(serviceId, "1", "Business Consultation", "Strategic business planning", 60, 15000, "USD",
            None, true, false, None, None, None, now, now)
  }

  /** `"card"` pays up front; anything else, or nothing, leaves it unpaid. */
  function PaymentStatusFor(paymentMethod: Option<string>): (s: PaymentStatus)
    ensures s == Paid <==> paymentMethod == Some("card")
    ensures s != Refunded
  {
    if paymentMethod == Some("card") then Paid else Unpaid
  }

  /** The appointment built once the guards pass. */
  function NewAppointment(body: CreateAppointmentRequest, start: int, now: nat): (a: Appointment)
    requires body.serviceId.Some? && body.clientEmail.Some? && body.clientName.Some? && body.startTime.Some?
    ensures a.id == NatToString(now) && a.serviceId == body.serviceId.value && a.service.id == body.serviceId.value
    ensures a.startTime == body.startTime.value && a.endTime - start == AppointmentMs
    ensures a.status == Pending && a.paymentStatus == PaymentStatusFor(body.paymentMethod) && !a.reminderSent
    ensures a.paymentMethod == body.paymentMethod && a.notes == body.notes
    ensures a.client.email == body.clientEmail.value && a.client.name == body.clientName.value
    ensures a.client.phone == body.clientPhone
    ensures a.createdAt == now && a.updatedAt == now
    ensures a.service.createdAt == now && a.service.updatedAt == now
    ensures a.client.createdAt == now && a.client.updatedAt == now
  {
    Appointment(NatToString(now), "1", body.serviceId.value, "1", body.startTime.value,
                start + AppointmentMs, Pending, PaymentStatusFor(body.paymentMethod),
                body.paymentMethod, body.notes, false, now, now, MockService(body.serviceId.value, now),
                Client("1", "1", body.clientEmail.value, body.clientName.value, body.clientPhone, 1, 0, now, now))
  }

  /** The POST handler. An invalid date compares as `NaN`, so it slips past
      the future check; rendering its end time then throws, and the handler's
      `catch` answers 500. The same happens to a start less than an hour
      before the last instant a `Date` can hold: the end is an invalid date. */
  function CreateAppointment(body: CreateAppointmentRequest, parsedStart: Option<int>, now: nat): Response<Appointment> {
    if !Given(body.serviceId) || !Given(body.clientEmail) || !Given(body.clientName) || !Given(body.startTime) then
      Failure(400, RequiredError)
    else if parsedStart.Some? && parsedStart.value <= now then
      Failure(400, PastError)
    else if parsedStart.None? || parsedStart.value + AppointmentMs > MaxTime then
      Failure(500, InternalError)
    else
      Success(201, NewAppointment(body, parsedStart.value, now), Some("Appointment created successfully"))
  }

  /** An appointment is created exactly when the four required fields are
      given and the start is a valid instant strictly after now whose end,
      an hour later, is still a valid instant. */
  lemma CreateAppointmentOutcome(body: CreateAppointmentRequest, parsedStart: Option<int>, now: nat)
    ensures CreateAppointment(body, parsedStart, now).Success? <==>
      Given(body.serviceId) && Given(body.clientEmail) && Given(body.clientName) && Given(body.startTime)
      && parsedStart.Some? && now < parsedStart.value <= MaxTime - AppointmentMs
    ensures CreateAppointment(body, parsedStart, now).Success? ==>
      CreateAppointment(body, parsedStart, now).status == 201
      && CreateAppointment(body, parsedStart, now).data == NewAppointment(body, parsedStart.value, now)
  {
  }

  /** The required-field check comes first: a missing field is reported even
      for a start in the past; a start at exactly "now" is already past. */
  lemma CreateAppointmentErrorOrder(body: CreateAppointmentRequest, parsedStart: Option<int>, now: nat)
    ensures !Given(body.serviceId) || !Given(body.clientEmail) || !Given(body.clientName) || !Given(body.startTime) ==>
      CreateAppointment(body, parsedStart, now) == Failure(400, RequiredError)
    ensures Given(body.serviceId) && Given(body.clientEmail) && Given(body.clientName) && Given(body.startTime)
            && parsedStart == Some(now as int) ==>
      CreateAppointment(body, parsedStart, now) == Failure(400, PastError)
  {
  }

  /** The last instant a `Date` holds is in the future, yet the handler
      answers 500 for it, and for any start within the hour before it; a
      start one hour before the limit is still accepted. */
  lemma StartNearDateLimit(body: CreateAppointmentRequest, now: nat, start: int)
    requires Given(body.serviceId) && Given(body.clientEmail) && Given(body.clientName) && Given(body.startTime)
    requires now < MaxTime - AppointmentMs
    ensures MaxTime - AppointmentMs < start <= MaxTime ==>
      CreateAppointment(body, Some(start), now) == Failure(500, InternalError)
    ensures CreateAppointment(body, Some(MaxTime - AppointmentMs), now).Success?
  {
  }

  /** The end lies one hour after the start, whichever service was asked
      for. */
  lemma EndIsOneHourLater(body: CreateAppointmentRequest, other: string, start: int, now: nat)
    requires body.serviceId.Some? && body.clientEmail.Some? && body.clientName.Some? && body.startTime.Some?
    ensures NewAppointment(body, start, now).endTime == start + 3600000
    ensures NewAppointment(body.(serviceId := Some(other)), start, now).endTime == NewAppointment(body, start, now).endTime
  {
  }
}
