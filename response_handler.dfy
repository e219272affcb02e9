/**
 * The response envelope every handler answers with. `res.success` and
 * `res.error` set the HTTP status and send `{success, message, data?, error?}`;
 * `res.redirect` (from Express) answers with a 302 and a Location header.
 */
module ResponseHandler {
  import opened Wrappers
  import opened JsSemantics

  /** The `data` handed to `res.success`. */
  datatype Payload =
    | NoData  // JavaScript null, the default
    | ShortUrl(short_url: string)
    | Analytics(original_url: string, short_code: string, created_at: int,
                expires_at: Option<int>, click_count: nat)

  /** The JSON body; `None` is a field the object does not carry at all. */
  datatype Envelope = Envelope(success: bool, message: string, data: Option<Payload>, error: Option<JsValue>)

  /** What a handler sends back. */
  datatype Reply = Json(status: int, body: Envelope) | Redirect(status: int, location: string)

  /** Status Express uses for `res.redirect(url)`. */
  const RedirectStatus := 302

  /** A success envelope always carries `data` and never `error`; an error envelope never carries `data`. */
  predicate WellFormed(e: Envelope) {
    (e.success ==> e.data.Some? && e.error.None?) && (!e.success ==> e.data.None?)
  }

  /** `res.success(data = null, message = "Success", statusCode = 200)`. */
  function Success(data: Payload := NoData, message: string := "Success", statusCode: int := 200): (r: Reply)
    ensures r.Json? && r.status == statusCode
    ensures r.body.success && WellFormed(r.body)
    ensures r.body.message == message && r.body.data == Some(data)
  {
    Json(statusCode, Envelope(true, message, Some(data), None))
  }

  /** `res.error(message = "Internal Server Error", statusCode = 500, error = null)`. */
  function Error(message: string := "Internal Server Error", statusCode: int := 500, error: JsValue := Null): (r: Reply)
    ensures r.Json? && r.status == statusCode
    ensures !r.body.success && WellFormed(r.body)
    ensures r.body.message == message
    ensures r.body.error.Some? <==> Truthy(error)
    ensures r.body.error.Some? ==> r.body.error.value == error
  {
    var response := Envelope(false, message, None, None);
    if Truthy(error) then Json(statusCode, response.(error := Some(error)))
    else Json(statusCode, response)
  }

  /** The defaults of both helpers, and that an explicit null or empty `error` adds no field. */
  lemma HelperDefaults(message: string, statusCode: int)
    ensures Success() == Json(200, Envelope(true, "Success", Some(NoData), None))
    ensures Error() == Json(500, Envelope(false, "Internal Server Error", None, None))
    ensures Error(message, statusCode) == Error(message, statusCode, Str(""))
    ensures Error(message, statusCode) == Error(message, statusCode, Undefined)
  {
  }
}
