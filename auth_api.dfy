/** The authentication endpoints (src/services/authApi.ts) and the error
    reshaping that login and registration apply to a failed response. */
module AuthApi {
  import opened Wrappers
  import opened Http
  import Url

  const DEFAULT_ERROR_MESSAGE := "An unexpected error occurred"

  /** `credentials` is the login or registration form, passed through as the body. */
  datatype Call<C> =
    | Login(credentials: C)
    | Register(credentials: C)
    | GetMe

  function Encode<C>(c: Call<C>): Request<C> {
    match c
    case Login(credentials) => Request(POST, "/auth/local", Payload(credentials))
    case Register(credentials) => Request(POST, "/auth/local/register", Payload(credentials))
    case GetMe => Get("/users/me")
  }

  function Decode<C>(r: Request<C>): Option<Call<C>> {
    match r.body
    case Payload(credentials) =>
      if r.verb == POST && r.url == "/auth/local" then Some(Login(credentials))
      else if r.verb == POST && r.url == "/auth/local/register" then Some(Register(credentials))
      else None
    case NoBody => if r.verb == GET && r.url == "/users/me" then Some(GetMe) else None
    case DataEnvelope(_) => None
  }

  /** Every call is read back unchanged from its request. */
  lemma RoundTrip<C>(c: Call<C>)
    ensures Decode(Encode(c)) == Some(c)
  {
    assert |"/auth/local"| != |"/auth/local/register"|;
  }

  /** The parts of the backend's error body that are read: `data.error.message`,
      each level of which may be missing. */
  datatype ErrorDetail = ErrorDetail(message: Option<string>)
  datatype ErrorData = ErrorData(error: Option<ErrorDetail>)
  datatype ErrorResponse = ErrorResponse(status: int, data: Option<ErrorData>)

  /** The error the login and register mutations hand to their callers. */
  datatype AuthError = AuthError(status: int, message: string)

  /** `response.data?.error?.message`: absent as soon as one level is missing. */
  function ServerMessage(response: ErrorResponse): Option<string> {
    match response.data
    case None => None
    case Some(data) =>
      match data.error
      case None => None
      case Some(detail) => detail.message
  }

  /** `transformErrorResponse` of login and register: the status is kept, and the
      message is the server's when it is a non-empty string, the fixed fallback
      otherwise (an empty string is falsy, so `||` falls through). */
  function TransformErrorResponse(response: ErrorResponse): (e: AuthError)
    ensures e.status == response.status
    ensures e.message != ""
    ensures ServerMessage(response).Some? && ServerMessage(response).value != ""
      ==> e.message == ServerMessage(response).value
    ensures (ServerMessage(response).None? || ServerMessage(response).value == "")
      ==> e.message == DEFAULT_ERROR_MESSAGE
  {
    var m := ServerMessage(response);
    AuthError(response.status, if m.Some? && m.value != "" then m.value else DEFAULT_ERROR_MESSAGE)
  }
}
