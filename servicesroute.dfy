/** `POST /api/services` (app/api/services/route.ts): three guards in order,
    then the new service built from the body. The id is `Date.now()`
    rendered in decimal; "now" is a parameter. */
module ServicesRoute {
  import opened Wrappers
  import opened Text
  import opened ApiTypes

  /** `CreateServiceRequest`, every field possibly missing from the body. */
  datatype CreateServiceRequest = CreateServiceRequest(
    name: Option<string>, description: Option<string>, duration: Option<int>, price: Option<int>,
    currency: Option<string>, category: Option<string>, requiresPreparation: Option<bool>,
    preparationTime: Option<int>, maxBookingsPerDay: Option<int>, bufferTime: Option<int>)

  const RequiredError := "Name, description, duration, and price are required"
  const DurationError := "Service duration must be at least 15 minutes"
  const PriceError := "Service price must be at least $1.00"

  /** The service the route builds once the guards pass. */
  function NewService(body: CreateServiceRequest, now: nat): (s: Service)
    requires body.name.Some? && body.description.Some? && body.duration.Some? && body.price.Some?
    ensures s.id == NatToString(now) && s.userId == "1" && s.createdAt == now && s.updatedAt == now
    ensures s.name == body.name.value && s.description == body.description.value
    ensures s.duration == body.duration.value && s.price == body.price.value
    ensures s.currency == OrElse(body.currency, "USD")
    ensures s.category == body.category
    ensures s.isActive
    ensures s.requiresPreparation == body.requiresPreparation.GetOr(false)
    ensures s.preparationTime == body.preparationTime && s.maxBookingsPerDay == body.maxBookingsPerDay
    ensures s.bufferTime == body.bufferTime
  {
    Service(NatToString(now), "1", body.name.value, body.description.value,
            body.duration.value, body.price.value, OrElse(body.currency, "USD"), body.category,
            true, body.requiresPreparation.GetOr(false), body.preparationTime,
            body.maxBookingsPerDay, body.bufferTime, now, now)
  }

  /** The POST handler. */
  function CreateService(body: CreateServiceRequest, now: nat): Response<Service> {
    if !Given(body.name) || !Given(body.description) || !GivenNumber(body.duration) || !GivenNumber(body.price) then
      Failure(400, RequiredError)
    else if body.duration.value < 15 then
      Failure(400, DurationError)
    else if body.price.value < 100 then
      Failure(400, PriceError)
    else
      Success(201, NewService(body, now), Some("Service created successfully"))
  }

  /** The rule the three guards amount to: a name and a description, a
      duration of at least 15 minutes and a price of at least 100 cents. */
  predicate Acceptable(body: CreateServiceRequest) {
    && Given(body.name) && Given(body.description)
    && body.duration.Some? && body.duration.value >= 15
    && body.price.Some? && body.price.value >= 100
  }

  /** The route creates the service exactly when the body is acceptable; it
      answers 201 with the service, or 400 with one of the three errors. */
  lemma CreateServiceOutcome(body: CreateServiceRequest, now: nat)
    ensures CreateService(body, now).Success? <==> Acceptable(body)
    ensures Acceptable(body) ==> CreateService(body, now) == Success(201, NewService(body, now), Some("Service created successfully"))
    ensures CreateService(body, now).Failure? ==>
      CreateService(body, now).status == 400
      && CreateService(body, now).error in {RequiredError, DurationError, PriceError}
  {
  }

  /** The first failing guard decides the error: a missing field is reported
      before a short duration, and a short duration before a low price. A
      zero duration or price counts as missing. */
  lemma CreateServiceErrorOrder(body: CreateServiceRequest, now: nat)
    ensures (body.duration == Some(0) || body.price == Some(0)) ==>
      CreateService(body, now) == Failure(400, RequiredError)
    ensures Given(body.name) && Given(body.description) && body.price.Some? && body.price.value != 0
            && body.duration.Some? && body.duration.value != 0 && body.duration.value < 15 ==>
      CreateService(body, now) == Failure(400, DurationError)
    ensures CreateService(body, now) == Failure(400, PriceError) <==>
      Given(body.name) && Given(body.description) && body.duration.Some? && body.duration.value >= 15
      && body.price.Some? && body.price.value != 0 && body.price.value < 100
  {
  }
}
