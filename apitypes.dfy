/** The records the API routes exchange (lib/api-types.ts), the response
    envelope, and the JavaScript truthiness the routes' guards rely on.
    A request field the body may omit is an `Option`; timestamps are epoch
    milliseconds (their ISO-string rendering is not modelled). */
module ApiTypes {
  import opened Wrappers

  /** `ApiResponse`: a failure carries an error text, a success its data and
      perhaps a message; both carry the HTTP status. */
  datatype Response<T> =
    | Failure(status: nat, error: string)
    | Success(status: nat, data: T, message: Option<string>)

  /** `!value` is false for a string field: it is there and not "". */
  predicate Given(s: Option<string>) {
    s.Some? && s.value != ""
  }

  /** `!value` is false for a number field: it is there and not 0. */
  predicate GivenNumber(n: Option<int>) {
    n.Some? && n.value != 0
  }

  /** `value || fallback` for a string field. */
  function OrElse(s: Option<string>, fallback: string): (r: string)
    ensures Given(s) ==> r == s.value
    ensures !Given(s) ==> r == fallback
  {
    if Given(s) then s.value else fallback
  }

  /** `User.role`. */
  datatype Role = Professional | Admin

  /** `User.subscription.plan`. */
  datatype Plan = Basic | ProfessionalPlan | Complete

  /** `User.subscription.status`. */
  datatype PlanStatus = Active | Cancelled | PastDue

  datatype UserSubscription = UserSubscription(plan: Plan, status: PlanStatus, currentPeriodEnd: int)

  datatype User = User(id: string, email: string, firstName: string, lastName: string,
                       phone: Option<string>, timezone: string, role: Role,
                       subscription: UserSubscription, createdAt: int, updatedAt: int)

  datatype Service = Service(id: string, userId: string, name: string, description: string,
                             duration: int, price: int, currency: string, category: Option<string>,
                             isActive: bool, requiresPreparation: bool, preparationTime: Option<int>,
                             maxBookingsPerDay: Option<int>, bufferTime: Option<int>,
                             createdAt: int, updatedAt: int)

  datatype AppointmentStatus = Pending | Confirmed | Completed | CancelledAppointment | NoShow

  datatype PaymentStatus = Unpaid | Paid | Refunded

  datatype Client = Client(id: string, userId: string, email: string, name: string,
                           phone: Option<string>, totalBookings: nat, totalSpent: nat,
                           createdAt: int, updatedAt: int)

  datatype Appointment = Appointment(id: string, userId: string, serviceId: string, clientId: string,
                                     startTime: string, endTime: int, status: AppointmentStatus,
                                     paymentStatus: PaymentStatus, paymentMethod: Option<string>,
                                     notes: Option<string>, reminderSent: bool, createdAt: int, updatedAt: int,
                                     service: Service, client: Client)

  datatype TimeSlot = TimeSlot(startTime: string, endTime: string)

  datatype WorkingHours = WorkingHours(id: string, userId: string, dayOfWeek: int, isAvailable: bool,
                                       timeSlots: seq<TimeSlot>, createdAt: int, updatedAt: int)

  const DayMs := 24 * 60 * 60 * 1000

  /** The fixed token both auth routes hand out. */
  const MockToken := "mock-jwt-token"
}
