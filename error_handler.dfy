/**
 * The Express error middleware `errorHandler` (my-express-api/src/middleware/errorHandler.ts):
 * turns an error thrown by a handler into the error envelope. Logging to the console is
 * left out.
 */
module ErrorHandler {

  import opened Wrappers

  /** `ApiError`: an `Error` with optional `status` and `code`. None models `undefined`. */
  datatype ApiError = ApiError(status: Option<int>, message: string, code: Option<string>, stack: Option<string>)

  /** The JSON body as serialised: `stack` is present only when it is a string. */
  datatype ErrorBody = ErrorBody(message: string, code: string, status: int, timestamp: string, stack: Option<string>)

  datatype ErrorReply = ErrorReply(httpStatus: int, body: ErrorBody)

  const DEFAULT_STATUS := 500
  const DEFAULT_MESSAGE := "Internal server error"
  const DEFAULT_CODE := "INTERNAL_SERVER_ERROR"

  /** `a || b` on an optional number: 0 and undefined are falsy. */
  function OrStatus(v: Option<int>, default: int): int {
    if v.Some? && v.value != 0 then v.value else default
  }

  /** `a || b` on a string: the empty string is falsy. */
  function OrString(v: string, default: string): string {
    if v != "" then v else default
  }

  /** `a || b` on an optional string. */
  function OrOptString(v: Option<string>, default: string): string {
    if v.Some? && v.value != "" then v.value else default
  }

  /** `errorHandler(err, …)` with `nodeEnv` = `process.env.NODE_ENV` and `now` the time stamp. */
  function HandleError(err: ApiError, nodeEnv: Option<string>, now: string): (r: ErrorReply)
    ensures r.httpStatus == r.body.status
    ensures r.body.status != 0
    ensures r.body.status == DEFAULT_STATUS <==> err.status.None? || err.status.value in {0, DEFAULT_STATUS}
    ensures err.status.Some? && err.status.value != 0 ==> r.body.status == err.status.value
    ensures r.body.message != "" && (err.message != "" ==> r.body.message == err.message)
    ensures err.message == "" ==> r.body.message == DEFAULT_MESSAGE
    ensures r.body.code != ""
    ensures err.code.Some? && err.code.value != "" ==> r.body.code == err.code.value
    ensures err.code.None? || err.code == Some("") ==> r.body.code == DEFAULT_CODE
    ensures r.body.timestamp == now
    ensures r.body.stack.Some? <==> nodeEnv == Some("development") && err.stack.Some?
    ensures r.body.stack.Some? ==> r.body.stack == err.stack
  {
    var status := OrStatus(err.status, DEFAULT_STATUS);
    var message := OrString(err.message, DEFAULT_MESSAGE);
    var code := OrOptString(err.code, DEFAULT_CODE);
    var stack := if nodeEnv == Some("development") then err.stack else None;
    ErrorReply(status, ErrorBody(message, code, status, now, stack))
  }

  /** Outside development no diagnostic detail reaches the caller, whatever the error. */
  lemma NoStackOutsideDevelopment(err: ApiError, nodeEnv: Option<string>, now: string)
    requires nodeEnv != Some("development")
    ensures HandleError(err, nodeEnv, now).body.stack.None?
    ensures HandleError(err, nodeEnv, now).body == HandleError(err.(stack := None), Some("development"), now).body
  {
  }
}
