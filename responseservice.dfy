/** The response envelope: a JSON payload `{status, data}`, response headers and
    an HTTP status code, and the way a response is written to the client. */
module ResponseService {

  import opened Results
  import opened Http

  const ContentType: string := "Content-Type"
  const ApplicationJson: string := "application/json"

  /** The `Data` of a payload: Go's `interface{}`, which the service only ever
      fills with nil or a `map[string]string`. */
  datatype Data = Nil | Strings(entries: map<string, string>)

  datatype Payload = Payload(status: string, data: Data)

  /** The Go zero value `payload{}`. */
  const BlankPayload: Payload := Payload("", Nil)

  /** `NewPayload(s, d)`. */
  function NewPayload(s: string, d: Data): (p: Payload)
    ensures p.status == s && p.data == d
  {
    Payload(s, d)
  }

  datatype JSONResponse = JSONResponse(payload: Payload, headers: map<string, string>, statusCode: int)

  /** `NewEmptyResponse(code)`: the status code only. */
  function NewEmptyResponse(code: int): (r: JSONResponse)
    ensures r.statusCode == code && r.payload == BlankPayload && |r.headers| == 0
  {
    JSONResponse(BlankPayload, map[], code)
  }

  /** `NewEmptyResponse(code, key, value)`: the status code and one header. */
  function NewEmptyResponseWithHeader(code: int, key: string, value: string): (r: JSONResponse)
    ensures r.statusCode == code && r.payload == BlankPayload
    ensures |r.headers| == 1 && key in r.headers && r.headers[key] == value
  {
    JSONResponse(BlankPayload, map[key := value], code)
  }

  /** `NewOkResponse(d)`: status 200, payload status "ok" holding `d`, no headers. */
  function NewOkResponse(d: map<string, string>): (r: JSONResponse)
    ensures r.statusCode == StatusOK
    ensures r.payload.status == "ok" && r.payload.data == Strings(d)
    ensures |r.headers| == 0
  {
    JSONResponse(NewPayload("ok", Strings(d)), map[], StatusOK)
  }

  /** `NewErrResponse(message, code...)`: payload status "err" holding
      `{"message": message}`, no headers, and the supplied status code or 500
      when none is supplied. */
  function NewErrResponse(message: string, code: Option<int>): (r: JSONResponse)
    ensures r.statusCode == (if code.Some? then code.value else StatusInternalServerError)
    ensures r.payload.status == "err" && r.payload.data == Strings(map["message" := message])
    ensures |r.headers| == 0
  {
    var statusCode := if code.Some? then code.value else StatusInternalServerError;
    JSONResponse(NewPayload("err", Strings(map["message" := message])), map[], statusCode)
  }

  /** What reaches the client: status code, headers, and the payload as body
      (none for a blank payload, whose responses have an empty body). */
  datatype Emitted = Emitted(statusCode: int, headers: map<string, string>, body: Option<Payload>)

  /** `Write`: the response's own headers plus `Content-Type: application/json`,
      and its status code. */
  function Write(r: JSONResponse): (e: Emitted)
    ensures e.statusCode == r.statusCode
    ensures e.headers.Keys == r.headers.Keys + {ContentType}
    ensures e.headers[ContentType] == ApplicationJson
    ensures forall k :: k in r.headers && k != ContentType ==> e.headers[k] == r.headers[k]
    ensures e.body.None? <==> r.payload == BlankPayload
    ensures e.body.Some? ==> e.body.value == r.payload
  {
    Emitted(r.statusCode, r.headers[ContentType := ApplicationJson],
            if r.payload == BlankPayload then None else Some(r.payload))
  }

  /** Writing adds exactly one header to a response that had no Content-Type. */
  lemma WriteAddsOneHeader(r: JSONResponse)
    requires ContentType !in r.headers
    ensures |Write(r).headers| == |r.headers| + 1
  {
    var e := Write(r);
    assert e.headers.Keys == r.headers.Keys + {ContentType};
    assert |e.headers.Keys| == |r.headers.Keys| + 1;
  }
}
