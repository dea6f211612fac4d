/**
 * The ApiError record of src/utils/ApiError.js and its JSON projection.
 *
 * An ApiError is built once and never changed afterwards, so it is a value
 * here. An argument the caller leaves out is `None`, and its default applies.
 * The stack trace that Error.captureStackTrace would record is a parameter.
 */
module ApiErrors {
  import opened Wrappers

  /** JSON values; an object maps its keys to their values. */
  datatype Json =
    | JNull
    | JBool(b: bool)
    | JNumber(n: int)
    | JString(s: string)
    | JArray(items: seq<Json>)
    | JObject(members: map<string, Json>)

  const DefaultMessage: string := "Something went wrong"

  datatype ApiError = ApiError(
    statusCode: int,
    success: bool,
    errors: seq<Json>,
    message: string,
    data: Json,
    stack: string)

  /**
   * `new ApiError(statusCode, message, errors, stack)`: a non-empty stack
   * given by the caller is kept; otherwise the captured trace is used.
   */
  function Create(statusCode: int, message: Option<string>, errors: Option<seq<Json>>,
                  stack: Option<string>, capturedTrace: string): (e: ApiError)
    ensures !e.success && e.data == JNull
    ensures e.statusCode == statusCode
    ensures e.message == (if message.Some? then message.value else DefaultMessage)
    ensures e.errors == (if errors.Some? then errors.value else [])
    ensures e.stack == (if stack.Some? && stack.value != "" then stack.value else capturedTrace)
  {
    ApiError(
      statusCode,
      false,
      if errors.Some? then errors.value else [],
      if message.Some? then message.value else DefaultMessage,
      JNull,
      if stack.Some? && stack.value != "" then stack.value else capturedTrace)
  }

  /** `toJson()`: success, status, message and errors; neither data nor stack. */
  function ToJson(e: ApiError): (j: Json)
    ensures j.JObject?
    ensures j.members.Keys == {"success", "status", "message", "errors"}
    ensures "data" !in j.members && "stack" !in j.members
    ensures j.members["success"] == JBool(e.success)
    ensures j.members["status"] == JNumber(e.statusCode)
    ensures j.members["message"] == JString(e.message)
    ensures j.members["errors"] == JArray(e.errors)
  {
    JObject(map[
      "success" := JBool(e.success),
      "status" := JNumber(e.statusCode),
      "message" := JString(e.message),
      "errors" := JArray(e.errors)])
  }

  /**
   * The JSON of a freshly built error reports failure, the given status code,
   * and the message and errors or their defaults.
   */
  lemma CreatedToJson(statusCode: int, message: Option<string>, errors: Option<seq<Json>>,
                      stack: Option<string>, capturedTrace: string)
    ensures ToJson(Create(statusCode, message, errors, stack, capturedTrace)) == JObject(map[
      "success" := JBool(false),
      "status" := JNumber(statusCode),
      "message" := JString(if message.Some? then message.value else DefaultMessage),
      "errors" := JArray(if errors.Some? then errors.value else [])])
  {
  }

  /** The JSON tells apart any two errors that differ in status, message or errors. */
  lemma ToJsonInjective(e1: ApiError, e2: ApiError)
    requires ToJson(e1) == ToJson(e2)
    ensures e1.success == e2.success && e1.statusCode == e2.statusCode
    ensures e1.message == e2.message && e1.errors == e2.errors
  {
  }
}
