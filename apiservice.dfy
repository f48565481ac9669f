/** The client-side API layer (lib/api-service.ts): how `apiRequest` turns
    the outcome of a `fetch` into a value or an `ApiError`, how
    `apiUtils.handleError` turns a thrown error into a message (clearing
    the stored session on 401), and the query string `getBlockedTimes`
    builds. The network and the browser's storage are not modelled: the
    fetch outcome is a parameter and the storage is the two fields of
    `Session`. */
module ApiService {
  import opened Wrappers
  import opened Text
  import opened ApiTypes

  /** `ApiError`: a message, an HTTP status (0 when no response came back)
      and perhaps a code. */
  datatype ApiError = ApiError(message: string, status: int, code: Option<string>)

  /** What a `catch` receives: an `ApiError`, or any other error. */
  datatype Thrown = ApiErr(error: ApiError) | OtherError

  /** The JSON of an error response, as far as `apiRequest` reads it. */
  datatype ErrorBody = ErrorBody(message: Option<string>, code: Option<string>)

  /** What `fetch` gave: a response with an OK status and its JSON (`None`
      when the body is not JSON), a response with another status and its
      JSON (`None` likewise), or a rejected promise. */
  datatype FetchOutcome<T> =
    | Delivered(status: nat, json: Option<T>)
    | Refused(status: nat, errorJson: Option<ErrorBody>)
    | NetworkFailure

  datatype Outcome<T> = Ok(value: T) | Err(error: ApiError)

  const NetworkErrorMessage := "Network error occurred"

  /** `apiRequest`: an OK response gives its JSON; any other status gives an
      `ApiError` with the server's message, or "HTTP <status>", that status
      and the server's code. An unreadable OK body or a failed fetch is
      caught and replaced by `ApiError("Network error occurred", 0)`. */
  function ApiRequest<T>(outcome: FetchOutcome<T>): Outcome<T> {
    match outcome
    case Delivered(_, json) =>
      if json.Some? then Ok(json.value) else Err(ApiError(NetworkErrorMessage, 0, None))
    case Refused(status, errorJson) =>
      var body := errorJson.GetOr(ErrorBody(None, None));
      Err(ApiError(OrElse(body.message, "HTTP " + NatToString(status)), status, body.code))
    case NetworkFailure =>
      Err(ApiError(NetworkErrorMessage, 0, None))
  }

  /** A refused request keeps the response's status and code, and its message
      is never empty; every other failure has status 0. */
  lemma ApiRequestErrors<T>(outcome: FetchOutcome<T>)
    ensures ApiRequest(outcome).Ok? <==> outcome.Delivered? && outcome.json.Some?
    ensures outcome.Refused? ==>
      && ApiRequest(outcome).Err?
      && ApiRequest(outcome).error.status == outcome.status
      && ApiRequest(outcome).error.message != ""
      && ApiRequest(outcome).error.code == (if outcome.errorJson.Some? then outcome.errorJson.value.code else None)
    ensures !outcome.Refused? && ApiRequest(outcome).Err? ==>
      ApiRequest(outcome).error == ApiError(NetworkErrorMessage, 0, None)
  {
  }

  /** The server's message is used when it has one; otherwise the status is
      spelled out, and it reads back as the status. */
  lemma RefusedMessage(status: nat, errorJson: Option<ErrorBody>)
    ensures var e := ApiRequest<bool>(Refused(status, errorJson)).error;
      && (errorJson.Some? && Given(errorJson.value.message) ==> e.message == errorJson.value.message.value)
      && (!(errorJson.Some? && Given(errorJson.value.message)) ==>
            e.message[..5] == "HTTP " && ParseInt(e.message[5..]) == Some(status))
  {
    var e := ApiRequest<bool>(Refused(status, errorJson)).error;
    if !(errorJson.Some? && Given(errorJson.value.message)) {
      assert e.message == "HTTP " + NatToString(status);
      assert e.message[5..] == NatToString(status);
      ParseIntOfNatToString(status);
    }
  }

  const SessionExpired := "Session expired. Please log in again."
  const Forbidden := "You do not have permission to perform this action."
  const NotFound := "The requested resource was not found."
  const InvalidData := "Invalid data provided."
  const ServerError := "Server error. Please try again later."
  const Unexpected := "An unexpected error occurred."
  const CheckConnection := "Network error. Please check your connection."

  /** The message `handleError` gives for a thrown error. */
  function ErrorMessage(thrown: Thrown): string {
    match thrown
    case OtherError => CheckConnection
    case ApiErr(e) =>
      if e.status == 401 then SessionExpired
      else if e.status == 403 then Forbidden
      else if e.status == 404 then NotFound
      else if e.status == 422 then (if e.message != "" then e.message else InvalidData)
      else if e.status == 500 then ServerError
      else if e.message != "" then e.message
      else Unexpected
  }

  /** 401, 403, 404 and 500 have fixed messages whatever the error says; 422
      and every other status show the error's own message when it has one,
      with a different fallback each; an `ApiError` blames the connection
      only when its own message does. */
  lemma ErrorMessageCases(e: ApiError)
    ensures e.status in {401, 403, 404, 500} ==>
      ErrorMessage(ApiErr(e)) == ErrorMessage(ApiErr(e.(message := "")))
    ensures e.status !in {401, 403, 404, 500} && e.message != "" ==> ErrorMessage(ApiErr(e)) == e.message
    ensures e.status == 422 && e.message == "" ==> ErrorMessage(ApiErr(e)) == InvalidData
    ensures e.status !in {401, 403, 404, 422, 500} && e.message == "" ==> ErrorMessage(ApiErr(e)) == Unexpected
    ensures ErrorMessage(ApiErr(e)) == CheckConnection ==> e.message == CheckConnection
  {
  }

  /** Every failure `apiRequest` produces is an `ApiError`, so a failed
      fetch shows "Network error occurred", not the connection message, and
      a refused request without a server message shows "HTTP <status>"
      unless its status has a fixed message. */
  lemma RequestFailureMessages<T>(outcome: FetchOutcome<T>)
    requires ApiRequest(outcome).Err?
    ensures !outcome.Refused? ==> ErrorMessage(ApiErr(ApiRequest(outcome).error)) == NetworkErrorMessage
    ensures outcome.Refused? && outcome.status !in {401, 403, 404, 500} && outcome.errorJson == None ==>
      ErrorMessage(ApiErr(ApiRequest(outcome).error)) == "HTTP " + NatToString(outcome.status)
  {
    ErrorMessageCases(ApiRequest(outcome).error);
  }

  /** The two stored items, `auth_token` and `user`. */
  class Session {
    var authToken: Option<string>
    var user: Option<string>

    constructor (authToken: Option<string>, user: Option<string>)
      ensures this.authToken == authToken && this.user == user
    {
      this.authToken := authToken;
      this.user := user;
    }

    /** `authService.logout`: both items are removed. */
    method Logout()
      modifies this
      ensures authToken.None? && user.None?
    {
      authToken := None;
      user := None;
    }

    /** `apiUtils.handleError`: the message, and on a 401 the session
        cleared; any other error leaves the session alone. */
    method HandleError(thrown: Thrown) returns (message: string)
      modifies this
      ensures message == ErrorMessage(thrown)
      ensures thrown.ApiErr? && thrown.error.status == 401 ==> authToken.None? && user.None?
      ensures !(thrown.ApiErr? && thrown.error.status == 401) ==>
        authToken == old(authToken) && user == old(user)
    {
      if thrown.ApiErr? {
        var e := thrown.error;
        if e.status == 401 {
          Logout();
          return SessionExpired;
        } else if e.status == 403 {
          return Forbidden;
        } else if e.status == 404 {
          return NotFound;
        } else if e.status == 422 {
          return if e.message != "" then e.message else InvalidData;
        } else if e.status == 500 {
          return ServerError;
        }
        return if e.message != "" then e.message else Unexpected;
      }
      return CheckConnection;
    }
  }

  // ------------------------------------------------------- blocked-times query

  /** `URLSearchParams.toString()`: `name=value` pairs joined by "&". The
      percent-encoding of special characters is not modelled. */
  function Serialize(params: seq<(string, string)>): string {
    if params == [] then ""
    else if |params| == 1 then params[0].0 + "=" + params[0].1
    else params[0].0 + "=" + params[0].1 + "&" + Serialize(params[1..])
  }

  /** The query string `getBlockedTimes` appends: "?startDate=..." and
      "endDate=..." for the dates given, in that order, or nothing when
      neither is. */
  function BlockedTimesQueryText(startDate: Option<string>, endDate: Option<string>): (q: string)
    ensures q == "" <==> !Given(startDate) && !Given(endDate)
  {
    if Given(startDate) && Given(endDate) then "?startDate=" + startDate.value + "&endDate=" + endDate.value
    else if Given(startDate) then "?startDate=" + startDate.value
    else if Given(endDate) then "?endDate=" + endDate.value
    else ""
  }

  /** `getBlockedTimes`' query: the parameters appended one by one, then "?"
      and their serialisation when there is any. */
  method BlockedTimesQuery(startDate: Option<string>, endDate: Option<string>) returns (queryString: string)
    ensures queryString == BlockedTimesQueryText(startDate, endDate)
  {
    var params: seq<(string, string)> := [];
    if Given(startDate) {
      params := params + [("startDate", startDate.value)];
    }
    if Given(endDate) {
      params := params + [("endDate", endDate.value)];
    }
    var text := Serialize(params);
    if Given(startDate) && Given(endDate) {
      QueryOfTwo("startDate", startDate.value, "endDate", endDate.value);
      assert "?" + "startDate" + "=" == "?startDate=";
      assert "&" + "endDate" + "=" == "&endDate=";
    } else if Given(startDate) {
      QueryOfOne("startDate", startDate.value);
      assert "?" + "startDate" + "=" == "?startDate=";
    } else if Given(endDate) {
      QueryOfOne("endDate", endDate.value);
      assert "?" + "endDate" + "=" == "?endDate=";
    }
    if text != "" {
      queryString := "?" + text;
    } else {
      queryString := "";
    }
  }

  lemma QueryOfOne(name: string, value: string)
    ensures "?" + Serialize([(name, value)]) == ("?" + name + "=") + value
  {
  }

  lemma QueryOfTwo(name1: string, value1: string, name2: string, value2: string)
    ensures "?" + Serialize([(name1, value1), (name2, value2)])
         == ("?" + name1 + "=") + value1 + ("&" + name2 + "=") + value2
  {
    var params := [(name1, value1), (name2, value2)];
    assert params[1..] == [(name2, value2)];
    var second := name2 + "=" + value2;
    assert Serialize(params) == name1 + "=" + value1 + "&" + second;
    assert "?" + Serialize(params) == ("?" + name1 + "=") + value1 + ("&" + name2 + "=") + value2;
  }

  /** The endpoint `getBlockedTimes` requests. */
  method BlockedTimesEndpoint(startDate: Option<string>, endDate: Option<string>) returns (endpoint: string)
    ensures endpoint == "/availability/blocked-times" + BlockedTimesQueryText(startDate, endDate)
  {
    var queryString := BlockedTimesQuery(startDate, endDate);
    endpoint := "/availability/blocked-times" + queryString;
  }
}
