/** The response envelope helpers of the API: the HTTP response record, the
    default headers, the error body, the JSON fallback serialiser and the
    required-field check. */
module Helpers {
  import opened Values

  /** What `create_response` returns. `body` is the value handed to the JSON
      encoder; the encoded text itself is not modelled. */
  datatype Response = Response(statusCode: int, headers: map<string, string>, body: Value)

  const CONTENT_TYPE := "Content-Type"
  const ALLOW_ORIGIN := "Access-Control-Allow-Origin"
  const ALLOW_HEADERS := "Access-Control-Allow-Headers"
  const ALLOW_METHODS := "Access-Control-Allow-Methods"

  /** The four headers every response starts from. */
  function DefaultHeaders(): (h: map<string, string>)
    ensures h.Keys == {CONTENT_TYPE, ALLOW_ORIGIN, ALLOW_HEADERS, ALLOW_METHODS}
    ensures h[CONTENT_TYPE] == "application/json"
    ensures h[ALLOW_ORIGIN] == "*"
  {
    map[
      CONTENT_TYPE := "application/json",
      ALLOW_ORIGIN := "*",
      ALLOW_HEADERS := "Content-Type,X-Amz-Date,Authorization,X-Api-Key,X-Amz-Security-Token",
      ALLOW_METHODS := "GET,POST,PUT,DELETE,OPTIONS"
    ]
  }

  /** `create_response`: the caller's headers (absent or empty: none) are laid
      over the defaults, overriding a default of the same name. */
  function CreateResponse(statusCode: int, body: Value, headers: Option<map<string, string>> := None): (r: Response)
    ensures r.statusCode == statusCode && r.body == body
    ensures r.headers.Keys == DefaultHeaders().Keys + (if headers.Some? then headers.value.Keys else {})
    ensures forall k :: k in r.headers ==>
      r.headers[k] == if headers.Some? && k in headers.value then headers.value[k] else DefaultHeaders()[k]
  {
    var merged := if headers.Some? && headers.value != map[] then DefaultHeaders() + headers.value else DefaultHeaders();
    Response(statusCode, merged, body)
  }

  /** Python truthiness of an optional string: present and non-empty. */
  predicate Truthy(s: Option<string>) {
    s.Some? && s.value != ""
  }

  /** The fields of the `error` object of an error body with this message,
      code and timestamp: `code` appears exactly when the code is truthy. */
  ghost predicate ErrorFields(e: map<string, Value>, message: string, code: Option<string>, timestamp: string) {
    && e.Keys == {"message", "timestamp"} + (if Truthy(code) then {"code"} else {})
    && e["message"] == Str(message)
    && e["timestamp"] == Str(timestamp)
    && (Truthy(code) ==> e["code"] == Str(code.value))
  }

  /** The shape of every error response: the given status, the default
      headers, and a body holding only an `error` object. */
  ghost predicate ErrorEnvelope(r: Response, statusCode: int, message: string, code: Option<string>, timestamp: string) {
    && r.statusCode == statusCode
    && r.headers == DefaultHeaders()
    && r.body.Obj?
    && r.body.fields.Keys == {"error"}
    && r.body.fields["error"].Obj?
    && ErrorFields(r.body.fields["error"].fields, message, code, timestamp)
  }

  /** `create_error_response`, with the clock reading passed in as `now`. */
  function CreateErrorResponse(statusCode: int, errorMessage: string, errorCode: Option<string>, now: string): (r: Response)
    ensures ErrorEnvelope(r, statusCode, errorMessage, errorCode, now)
  {
    var error := map["message" := Str(errorMessage), "timestamp" := Str(now)];
    var error' := if Truthy(errorCode) then error["code" := Str(errorCode.value)] else error;
    CreateResponse(statusCode, Obj(map["error" := Obj(error')]))
  }

  /** An error envelope determines the whole response. */
  lemma ErrorEnvelopeUnique(r1: Response, r2: Response, statusCode: int, message: string, code: Option<string>, timestamp: string)
    requires ErrorEnvelope(r1, statusCode, message, code, timestamp)
    requires ErrorEnvelope(r2, statusCode, message, code, timestamp)
    ensures r1 == r2
  {
    var e1, e2 := r1.body.fields["error"].fields, r2.body.fields["error"].fields;
    assert e1 == e2 by {
      assert e1.Keys == e2.Keys;
      forall k | k in e1 ensures e1[k] == e2[k] {
        assert k == "message" || k == "timestamp" || k == "code";
      }
    }
    assert r1.body.fields == r2.body.fields by {
      assert r1.body.fields.Keys == r2.body.fields.Keys;
    }
  }

  /** The objects `decimal_serializer` is asked about: a Decimal, a datetime,
      a date, or an object of any other type (named by its type). */
  datatype PyObject = DecimalObj(d: real) | DateTimeObj(isoDateTime: string) | DateObj(isoDate: string) | OtherObj(typeName: string)

  datatype Serialized = Serialized(v: Value) | TypeError(message: string)

  /** `decimal_serializer`: Decimal becomes a number, datetime and date their
      ISO text; anything else is a TypeError naming its type. */
  function DecimalSerializer(o: PyObject): (r: Serialized)
    ensures r.Serialized? <==> !o.OtherObj?
    ensures o.DecimalObj? ==> r.v == Number(o.d)
    ensures o.DateTimeObj? ==> r.v == Str(o.isoDateTime)
    ensures o.DateObj? ==> r.v == Str(o.isoDate)
    ensures o.OtherObj? ==> r.message == "Object of type <class '" + o.typeName + "'> is not JSON serializable"
  {
    match o
    case DecimalObj(d) => Serialized(Number(d))
    case DateTimeObj(s) => Serialized(Str(s))
    case DateObj(s) => Serialized(Str(s))
    case OtherObj(t) => TypeError("Object of type <class '" + t + "'> is not JSON serializable")
  }

  /** A field counts as missing when the key is absent or holds `null`. */
  predicate IsMissing(data: map<string, Value>, field: string) {
    field !in data || data[field] == Null
  }

  /** The missing fields, in the order of `required`, duplicates kept. */
  function MissingFields(data: map<string, Value>, required: seq<string>): seq<string>
  {
    if required == [] then []
    else (if IsMissing(data, required[0]) then [required[0]] else []) + MissingFields(data, required[1..])
  }

  /** Python's `sep.join(names)`. */
  function Join(names: seq<string>, sep: string): string
  {
    if |names| == 0 then ""
    else if |names| == 1 then names[0]
    else names[0] + sep + Join(names[1..], sep)
  }

  /** A name is reported exactly when it is required and missing. */
  lemma {:induction false} MissingFieldsExactly(data: map<string, Value>, required: seq<string>, f: string)
    ensures f in MissingFields(data, required) <==> f in required && IsMissing(data, f)
  {
    if required != [] {
      MissingFieldsExactly(data, required[1..], f);
      assert f in required <==> f == required[0] || f in required[1..];
    }
  }

  /** Missing names keep the order of the required list: checking `a + b`
      reports the missing names of `a`, then those of `b`. */
  lemma {:induction false} MissingFieldsAppend(data: map<string, Value>, a: seq<string>, b: seq<string>)
    ensures MissingFields(data, a + b) == MissingFields(data, a) + MissingFields(data, b)
  {
    if a != [] {
      assert (a + b)[0] == a[0] && (a + b)[1..] == a[1..] + b;
      MissingFieldsAppend(data, a[1..], b);
      var head := if IsMissing(data, a[0]) then [a[0]] else [];
      assert MissingFields(data, a) == head + MissingFields(data, a[1..]);
      assert MissingFields(data, a + b) == head + MissingFields(data, a[1..] + b);
    } else {
      assert a + b == b;
    }
  }

  /** `validate_required_fields`: `None` when every required field is present
      with a non-null value, otherwise the message listing the missing ones
      in order. */
  method ValidateRequiredFields(data: map<string, Value>, requiredFields: seq<string>) returns (r: Option<string>)
    ensures r.None? <==> forall i :: 0 <= i < |requiredFields| ==> !IsMissing(data, requiredFields[i])
    ensures r.Some? ==> r.value == "Missing required fields: " + Join(MissingFields(data, requiredFields), ", ")
  {
    var missing: seq<string> := [];
    for i := 0 to |requiredFields|
      invariant missing == MissingFields(data, requiredFields[..i])
    {
      var field := requiredFields[i];
      assert requiredFields[..i + 1] == requiredFields[..i] + [field];
      MissingFieldsAppend(data, requiredFields[..i], [field]);
      if field !in data || data[field] == Null {
        missing := missing + [field];
      }
    }
    assert requiredFields[..|requiredFields|] == requiredFields;
    if missing != [] {
      r := Some("Missing required fields: " + Join(missing, ", "));
      var f := missing[0];
      MissingFieldsExactly(data, requiredFields, f);
    } else {
      r := None;
      forall i | 0 <= i < |requiredFields| ensures !IsMissing(data, requiredFields[i]) {
        MissingFieldsExactly(data, requiredFields, requiredFields[i]);
      }
    }
  }
}
