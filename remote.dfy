/** The request helper of the replay-control client (`_make_request` in
    server/replay_controller.py). The HTTP exchange itself is not modelled: what the transport
    produced for a request is an input, and the model states what the caller gets back. */
module Remote {
  import opened Wrappers

  /** A decoded JSON value. */
  datatype Json =
    | JNull
    | JBool(b: bool)
    | JInt(i: int)
    | JNum(x: real)
    | JStr(s: string)
    | JList(items: seq<Json>)
    | JObject(fields: map<string, Json>)

  type JsonObject = map<string, Json>

  /** What the transport produced for one request: a response with its status code, its body
      decoded as a JSON object (None when the body is not JSON) and its raw text; or a
      `requests.RequestException` with its message. */
  datatype Transport =
    | Responded(status: int, decoded: Option<JsonObject>, text: string)
    | Raised(message: string)

  /** The `(success, data)` pair `_make_request` returns. */
  datatype Reply = Reply(success: bool, data: JsonObject)

  /** The status every operation of the controller expects. */
  const OK: int := 200

  /** The remote answered with the expected status 200: the success test every controller
      operation applies. */
  predicate Accepted(t: Transport) {
    t.Responded? && t.status == OK
  }

  /** `_make_request`: success exactly when the response status equals `expected`. A success
      carries the decoded body (or the raw text under "raw" when it is not JSON); a failure carries
      an "error" entry and, when there was a response, its status code; a transport exception is a
      failure. */
  function MakeRequest(t: Transport, expected: int): (r: Reply)
    ensures r.success <==> t.Responded? && t.status == expected
    ensures r.success && t.decoded.Some? ==> r.data == t.decoded.value
    ensures r.success && t.decoded.None? ==> "raw" in r.data && r.data["raw"] == JStr(t.text)
    ensures !r.success ==> "error" in r.data && r.data.Keys <= {"error", "status_code"}
    ensures !r.success && t.Responded? ==> "status_code" in r.data && r.data["status_code"] == JInt(t.status)
  {
    match t
    case Responded(status, decoded, text) =>
      if status == expected then
        match decoded
        case Some(body) => Reply(true, body)
        case None => Reply(true, map["raw" := JStr(text)])
      else
        Reply(false, map["error" := JStr(text), "status_code" := JInt(status)])
    case Raised(message) =>
      Reply(false, map["error" := JStr(message)])
  }
}
