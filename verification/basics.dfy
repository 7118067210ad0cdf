/** Values shared by every part of the portal client: optional values,
    results and the errors the client reports. */
module Basics {

  datatype Option<+T> = None | Some(value: T)

  /** The `(value, error)` pair a Go function returns, as one value. */
  datatype Result<+T> = Ok(value: T) | Err(error: Error)

  /** The credential arguments NewClient checks, in the order it checks them. */
  datatype Field = ConfigArg | TenantCode | OBCiD | Password

  datatype Error =
    | InvalidArgument(field: Field)  // NewClient refused its arguments
    | BadRequest(cause: string)      // http.NewRequest could not parse the URI
    | NetworkError(cause: string)    // http.Client.Do failed
    | StatusError(status: string)    // any status but 200; carries the status text
    | BodyError(cause: string)       // the body of a 200 reply could not be read as HTML
    | NoToken                        // the page has no anti-forgery token input
    | NoUserCode                     // the page has no #ApplicationRoot anchor
    | LoginRequired                  // a punch was asked for before a user code was known

  /** The text of the Go error value. */
  function Message(e: Error): (text: string)
    ensures e == InvalidArgument(ConfigArg) ==> text == "invalid argument: config required"
    ensures e == InvalidArgument(TenantCode) ==> text == "invalid argument: TenantCode required"
    ensures e == InvalidArgument(OBCiD) ==> text == "invalid argument: OBCiD required"
    ensures e == InvalidArgument(Password) ==> text == "invalid argument: Password required"
    ensures e.BadRequest? || e.NetworkError? || e.BodyError? ==> text == e.cause
    ensures e.StatusError? ==> text == e.status
    ensures e.NoToken? ==> text == "no token"
    ensures e.NoUserCode? ==> text == "no user code"
    ensures e.LoginRequired? ==> text == "login required"
  {
    match e
    case InvalidArgument(f) =>
      (match f
       case ConfigArg => "invalid argument: config required"
       case TenantCode => "invalid argument: TenantCode required"
       case OBCiD => "invalid argument: OBCiD required"
       case Password => "invalid argument: Password required")
    case BadRequest(cause) => cause
    case NetworkError(cause) => cause
    case StatusError(status) => status
    case BodyError(cause) => cause
    case NoToken => "no token"
    case NoUserCode => "no user code"
    case LoginRequired => "login required"
  }
}
