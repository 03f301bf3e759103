/**
 * The application-wide error type and the HTTP responses the core produces.
 */
module Base {
  import opened Values

  /**
   * `ASFQuartException(message, errorcode)` (default errorcode 500) and its
   * subclass `AuthenticationFailed` (default errorcode 403). Error handlers
   * registered for the base class also catch the subclass.
   */
  datatype Exception =
    | ASFQuartException(message: string, errorcode: int)
    | AuthenticationFailed(message: string, errorcode: int)

  const DefaultAuthErrorCode := 403

  /** `AuthenticationFailed(message)` with its default errorcode. */
  function AuthFailure(message: string): Exception
  {
    AuthenticationFailed(message, DefaultAuthErrorCode)
  }

  /** The responses the modelled endpoints return. */
  datatype Response =
    | Redirect(location: string)           // quart.redirect(location): 302
    | Text(status: int, body: string)      // quart.Response(status=..., response=...)
    | Welcome(uid: Value)                  // 200 "Successfully logged in! Welcome, {uid}\n"
    | SessionView(record: Record)          // 200, the session dict rendered as JSON
    | ServerError                          // an exception nobody handles: 500
  {
    function Status(): int {
      match this
      case Redirect(_) => 302
      case Text(status, _) => status
      case Welcome(_) => 200
      case SessionView(_) => 200
      case ServerError => 500
    }
  }

  /** The app-wide handler for `ASFQuartException`: answer with its code and message. */
  function HandleException(e: Exception): Response
  {
    Text(e.errorcode, e.message)
  }
}
