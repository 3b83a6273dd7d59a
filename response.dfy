/** `APIResponse`: the fixed (status, code) pairs the handlers answer with. */
module ApiResponse {
  import opened Values
  import opened Helpers

  /** `success`: body `{success: true, data}`, status 200 unless given. */
  function Success(data: Value, statusCode: int := 200, headers: Option<map<string, string>> := None): (r: Response)
    ensures r.statusCode == statusCode
    ensures r.body.Obj? && r.body.fields.Keys == {"success", "data"}
    ensures r.body.fields["success"] == Bool(true) && r.body.fields["data"] == data
    ensures headers.None? ==> r.headers == DefaultHeaders()
    ensures headers.Some? ==> r.headers.Keys == DefaultHeaders().Keys + headers.value.Keys
    ensures forall k :: k in r.headers ==>
      r.headers[k] == if headers.Some? && k in headers.value then headers.value[k] else DefaultHeaders()[k]
  {
    CreateResponse(statusCode, Obj(map["success" := Bool(true), "data" := data]), headers)
  }

  /** `error`: status 400 unless given; the code is passed through and the
      `headers` argument is accepted but never used. */
  function Error(message: string, now: string, statusCode: int := 400, errorCode: Option<string> := None,
                 headers: Option<map<string, string>> := None): (r: Response)
    ensures ErrorEnvelope(r, statusCode, message, errorCode, now)
  {
    CreateErrorResponse(statusCode, message, errorCode, now)
  }

  /** `not_found`: 404, code NOT_FOUND, "<resource> not found". */
  function NotFound(now: string, resource: string := "Resource"): (r: Response)
    ensures ErrorEnvelope(r, 404, resource + " not found", Some("NOT_FOUND"), now)
  {
    Error(resource + " not found", now, 404, Some("NOT_FOUND"))
  }

  /** `validation_error`: 400, code VALIDATION_ERROR. */
  function ValidationError(message: string, now: string): (r: Response)
    ensures ErrorEnvelope(r, 400, message, Some("VALIDATION_ERROR"), now)
  {
    Error(message, now, 400, Some("VALIDATION_ERROR"))
  }

  /** `internal_error`: 500, code INTERNAL_ERROR, a generic default message. */
  function InternalError(now: string, message: string := "Internal server error"): (r: Response)
    ensures ErrorEnvelope(r, 500, message, Some("INTERNAL_ERROR"), now)
  {
    Error(message, now, 500, Some("INTERNAL_ERROR"))
  }

  /** Every error helper carries its code in the body, so the `code` key is
      present; a plain `error` without a code leaves it out. */
  lemma ErrorCodePresence(message: string, now: string, statusCode: int, resource: string)
    ensures "code" in NotFound(now, resource).body.fields["error"].fields
    ensures "code" in ValidationError(message, now).body.fields["error"].fields
    ensures "code" in InternalError(now, message).body.fields["error"].fields
    ensures "code" !in Error(message, now, statusCode).body.fields["error"].fields
  {
  }

  /** The defaults: `not_found()` says "Resource not found" and
      `internal_error()` says "Internal server error". */
  lemma DefaultMessages(now: string)
    ensures NotFound(now).body.fields["error"].fields["message"] == Str("Resource not found")
    ensures InternalError(now).body.fields["error"].fields["message"] == Str("Internal server error")
    ensures Success(Null).statusCode == 200 && Error("m", now).statusCode == 400
  {
  }
}
