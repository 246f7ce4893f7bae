/**
 * The login and registration form. The mode chooses the endpoint; a
 * successful response hands the issued token to the session, a failed one
 * shows an error.
 */
module Login {
  import opened Net
  import App

  const GenericError := "An error occurred."
  const ConnectError := "Failed to connect to the server."

  /** The endpoint a submission is posted to. */
  function Endpoint(isRegistering: bool): (e: string)
    ensures e == "/register" <==> isRegistering
    ensures e == "/register" || e == "/token"
  {
    if isRegistering then "/register" else "/token"
  }

  /** The error the form shows once a submission has completed, given the
      response (whose `Ok` payload is the `access_token` field). */
  function SubmitError(outcome: Response<JsValue>): (e: string)
    ensures e == "" <==> outcome.Ok?
    ensures outcome.HttpError? && Truthy(outcome.detail) ==> e == outcome.detail.s
    ensures outcome.HttpError? && !Truthy(outcome.detail) ==> e == GenericError
    ensures outcome.NetworkError? ==> e == ConnectError
  {
    match outcome
    case Ok(_) => ""
    case HttpError(detail) => OrElse(detail, GenericError)
    case NetworkError => ConnectError
  }

  /** The username and password a submission carries in its body. */
  datatype Credentials = Credentials(username: string, password: string)

  class LoginForm {
    var username: string
    var password: string
    var isRegistering: bool
    var error: string

    constructor ()
      ensures username == "" && password == "" && !isRegistering && error == ""
    {
      username, password, isRegistering, error := "", "", false, "";
    }

    /** The mode toggle button. */
    method Toggle()
      modifies this`isRegistering
      ensures isRegistering == !old(isRegistering)
    {
      isRegistering := !isRegistering;
    }

    /** The username input. */
    method EditUsername(value: string)
      modifies this`username
      ensures username == value
    {
      username := value;
    }

    /** The password input. */
    method EditPassword(value: string)
      modifies this`password
      ensures password == value
    {
      password := value;
    }

    /** Submits the credentials; returns the endpoint they were posted to
        and the credentials the body carried.
        The error is cleared first; on success the session receives the
        token, otherwise the session is left alone and the error is set. */
    method Submit(outcome: Response<JsValue>, session: App.Session) returns (endpoint: string, sent: Credentials)
      modifies this`error, session
      ensures endpoint == Endpoint(isRegistering)
      ensures sent == Credentials(username, password)
      ensures error == SubmitError(outcome)
      ensures outcome.Ok? ==>
        && session.token == outcome.payload
        && session.storage == old(session.storage)[App.TokenKey := App.Persisted(outcome.payload)]
      ensures !outcome.Ok? ==>
        session.token == old(session.token) && session.storage == old(session.storage)
    {
      error := "";
      endpoint := Endpoint(isRegistering);
      sent := Credentials(username, password);
      match outcome {
        case Ok(accessToken) => session.SetToken(accessToken);
        case HttpError(detail) => error := OrElse(detail, GenericError);
        case NetworkError => error := ConnectError;
      }
    }
  }
}
