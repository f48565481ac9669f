/** `POST /api/auth/register` (app/api/auth/register/route.ts): required
    fields, then a password of six UTF-16 code units, then a new professional on the
    basic plan with a fourteen-day period. The id is `Date.now()` in
    decimal; "now" is a parameter. */
module RegisterRoute {
  import opened Wrappers
  import opened Text
  import opened ApiTypes

  /** `RegisterRequest`, every field possibly missing. */
  datatype RegisterRequest = RegisterRequest(email: Option<string>, password: Option<string>,
                                             firstName: Option<string>, lastName: Option<string>,
                                             phone: Option<string>, timezone: Option<string>)

  /** The created user together with the session token. */
  datatype Registered = Registered(user: User, token: string)

  const RequiredError := "Email, password, first name, and last name are required"
  const PasswordError := "Password must be at least 6 characters long"

  function NewUser(body: RegisterRequest, now: nat): (u: User)
    requires body.email.Some? && body.firstName.Some? && body.lastName.Some?
    ensures u.id == NatToString(now) && u.createdAt == now && u.updatedAt == now
    ensures u.email == body.email.value && u.firstName == body.firstName.value && u.lastName == body.lastName.value
    ensures u.phone == body.phone && u.timezone == OrElse(body.timezone, "UTC")
    ensures u.role == Professional
    ensures u.subscription == UserSubscription(Basic, Active, now + 14 * DayMs)
  {
    User(NatToString(now), body.email.value, body.firstName.value, body.lastName.value, body.phone,
         OrElse(body.timezone, "UTC"), Professional, UserSubscription(Basic, Active, now + 14 * DayMs), now, now)
  }

  /** The POST handler. */
  function Register(body: RegisterRequest, now: nat): Response<Registered> {
    if !Given(body.email) || !Given(body.password) || !Given(body.firstName) || !Given(body.lastName) then
      Failure(400, RequiredError)
    else if Utf16Length(body.password.value) < 6 then
      Failure(400, PasswordError)
    else
      Success(201, Registered(NewUser(body, now), MockToken), Some("Account created successfully"))
  }

  /** Registration succeeds exactly when the four fields are given and the
      password is six UTF-16 code units long or more; the answer is then 201 with the
      new user and the fixed token. */
  lemma RegisterOutcome(body: RegisterRequest, now: nat)
    ensures Register(body, now).Success? <==>
      Given(body.email) && Given(body.firstName) && Given(body.lastName)
      && body.password.Some? && Utf16Length(body.password.value) >= 6
    ensures Register(body, now).Success? ==>
      Register(body, now).status == 201 && Register(body, now).data == Registered(NewUser(body, now), "mock-jwt-token")
  {
  }

  /** The password's length is checked only after the required fields: a
      short password with a missing name is reported as missing fields. */
  lemma RegisterErrorOrder(body: RegisterRequest, now: nat)
    ensures !Given(body.email) || !Given(body.password) || !Given(body.firstName) || !Given(body.lastName) ==>
      Register(body, now) == Failure(400, RequiredError)
    ensures Register(body, now) == Failure(400, PasswordError) <==>
      Given(body.email) && Given(body.firstName) && Given(body.lastName)
      && Given(body.password) && Utf16Length(body.password.value) < 6
  {
  }

  /** `length` counts UTF-16 code units, so three emoji make a long enough
      password while three letters do not. */
  lemma PasswordLengthInCodeUnits(body: RegisterRequest, now: nat)
    requires Given(body.email) && Given(body.firstName) && Given(body.lastName)
    ensures body.password == Some("\U{1F600}\U{1F600}\U{1F600}") ==> Register(body, now).Success?
    ensures body.password == Some("abc") ==> Register(body, now) == Failure(400, PasswordError)
  {
    assert Utf16Length("\U{1F600}\U{1F600}\U{1F600}") == 6;
    assert Utf16Length("abc") == 3;
  }
}

/** `POST /api/auth/login` (app/api/auth/login/route.ts): the e-mail and the
    password must be given; any password is then accepted and the canned
    user comes back under the requested e-mail. */
module LoginRoute {
  import opened Wrappers
  import opened ApiTypes

  datatype LoginRequest = LoginRequest(email: Option<string>, password: Option<string>)

  datatype LoggedIn = LoggedIn(user: User, token: string)

  const RequiredError := "Email and password are required"

  /** The canned professional "John Doe" under the given e-mail. */
  function MockUser(email: string, now: int): (u: User)
    ensures u.email == email && u.id == "1" && u.role == Professional
    ensures u.createdAt == now && u.updatedAt == now
    ensures u.subscription == UserSubscription(ProfessionalPlan, Active, now + 30 * DayMs)
  {
    User("1", email, "John", "Doe", None, "America/New_York", Professional,
         UserSubscription(ProfessionalPlan, Active, now + 30 * DayMs), now, now)
  }

  /** The POST handler. */
  function Login(body: LoginRequest, now: int): Response<LoggedIn> {
    if !Given(body.email) || !Given(body.password) then
      Failure(400, RequiredError)
    else
      Success(200, LoggedIn(MockUser(body.email.value, now), MockToken), None)
  }

  /** Login succeeds exactly when both fields are given, whatever the
      password; the user returned carries the requested e-mail, and two
      logins differing only in the password get the same answer. */
  lemma LoginOutcome(body: LoginRequest, otherPassword: string, now: int)
    ensures Login(body, now).Success? <==> Given(body.email) && Given(body.password)
    ensures Login(body, now).Success? ==>
      && Login(body, now).status == 200
      && Login(body, now).data.user.email == body.email.value
      && Login(body, now).data.token == "mock-jwt-token"
    ensures Given(body.password) && otherPassword != "" ==>
      Login(body.(password := Some(otherPassword)), now) == Login(body, now)
  {
  }
}
