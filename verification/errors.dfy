/**
  The search function's error envelope (backend/lambda/searchFn/src/utils.ts):
  `ServerError` carries its own status and body, and `handleError` maps any
  thrown value to a `{statusCode, body}` pair, logging the server-side ones.
 */
module Errors {
  import opened Wrappers
  import opened Json

  /** `{message, error?}`; `error` is absent (undefined) unless a detail was given. */
  datatype ErrorBody = ErrorBody(message: string, error: Option<Json>)

  datatype ServerError = ServerError(statusCode: int, body: ErrorBody)

  /** Anything the handler can catch: a `ServerError` or some other thrown value. */
  datatype Thrown = Server(err: ServerError) | Other(detail: string)

  /** What `handleError` returns, plus whether it wrote the error to the log. */
  datatype Handled = Handled(statusCode: int, body: ErrorBody, logged: bool)

  /** `new ServerError(statusCode, message, error)`. */
  function NewServerError(statusCode: int, message: string, error: Option<Json>): (r: ServerError)
    ensures r.statusCode == statusCode
    ensures r.body.message == message && r.body.error == error
  {
    ServerError(statusCode, ErrorBody(message, error))
  }

  /** The statuses `handleError` writes to the server log. */
  predicate IsLoggedStatus(statusCode: int) {
    statusCode == 500 || statusCode == 502 || statusCode == 503
  }

  const InternalServerError := "Internal server error"

  function HandleError(t: Thrown): (r: Handled)
    // a ServerError is passed through with its own status and body
    ensures t.Server? ==> r.statusCode == t.err.statusCode && r.body == t.err.body
    // anything else becomes a generic 500 that leaks no detail
    ensures t.Other? ==> r.statusCode == 500 && r.body.message == InternalServerError && r.body.error.None?
    ensures r.logged <==> IsLoggedStatus(r.statusCode)
  {
    var (statusCode, body) :=
      match t
      case Server(e) => (e.statusCode, e.body)
      case Other(_) => (500, ErrorBody(InternalServerError, None));
    Handled(statusCode, body, IsLoggedStatus(statusCode))
  }

  /**
    Re-raising what `handleError` produced as a `ServerError` and handling it
    again changes nothing: the mapping is a fixed point after one step.
   */
  lemma HandleErrorStable(t: Thrown)
    ensures var r := HandleError(t);
      HandleError(Server(ServerError(r.statusCode, r.body))) == r
  {
  }

  /** The caller can never tell two non-ServerError failures apart. */
  lemma HandleErrorHidesDetail(d1: string, d2: string)
    ensures HandleError(Other(d1)) == HandleError(Other(d2))
    ensures HandleError(Other(d1)).logged
  {
  }
}
