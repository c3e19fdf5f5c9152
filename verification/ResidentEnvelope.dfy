/** The JSONL envelope between src/media_companion.rs and runtime/werk_media_companion.py. */
module ResidentEnvelope {
  import opened Common

  /** JSON values; `Frac` stands for every number that is not an integer. */
  datatype Json =
    | Null
    | Bool(b: bool)
    | Num(n: int)
    | Frac(r: real)
    | Str(s: string)
    | Arr(items: seq<Json>)
    | Obj(fields: map<string, Json>)

  /** One line on a worker's standard output. */
  datatype Line = NotJson | Parsed(value: Json)

  /* ---------- The Python side ---------- */

  /** What `dispatch` came to: the body of the operation, or a failure description. */
  datatype Dispatched = Body(body: Json) | Raised(error: Json)

  /** Python `dict.update`. */
  function Updated(fields: map<string, Json>, more: map<string, Json>): map<string, Json> {
    fields + more
  }

  /** `{"ok": true}` updated with the body; a body that is no object travels under `result`. */
  function OkResponse(body: Json): map<string, Json> {
    if body.Obj? then Updated(map["ok" := Bool(true)], body.fields)
    else map["ok" := Bool(true)]["result" := body]
  }

  /** `resident_response` for a well-formed request frame. */
  function ResidentResponse(id: Json, d: Dispatched): Json {
    match d
    case Body(body) =>
      Obj(Updated(OkResponse(body), map["transport_version" := Num(1), "request_id" := id, "ok" := Bool(true)]))
    case Raised(error) =>
      Obj(Updated(map["transport_version" := Num(1), "request_id" := id], map["ok" := Bool(false), "error" := error]))
  }

  /* ---------- The Rust side ---------- */

  datatype DecodeError =
    | InvalidJson | NotAnObject | OutsideEnvelopes | NoVersion | VersionMismatch | NoRequestId | RequestIdMismatch

  datatype Exchange = Response(value: Json) | LegacyResponse | Undecodable(error: DecodeError)

  /** `Value::as_u64` of a field. */
  function AsU64(fields: map<string, Json>, key: string): Option<u64> {
    if key in fields && fields[key].Num? && 0 <= fields[key].n < U64_LIMIT then Some(fields[key].n) else None
  }

  predicate EnvelopeLike(fields: map<string, Json>) {
    "transport_version" in fields || "request_id" in fields || "response" in fields
  }

  /** `decode_resident_response`. Ids are not wrapped at 2^64 here; one past it is never matched. */
  function Decode(line: Line, id: nat): Exchange {
    if line.NotJson? then Undecodable(InvalidJson)
    else if !line.value.Obj? then Undecodable(NotAnObject)
    else
      var fields := line.value.fields;
      var version, response := AsU64(fields, "transport_version"), AsU64(fields, "request_id");
      if !EnvelopeLike(fields) then
        if "ok" in fields && fields["ok"].Bool? then LegacyResponse else Undecodable(OutsideEnvelopes)
      else if version.None? then Undecodable(NoVersion)
      else if version.value != 1 then Undecodable(VersionMismatch)
      else if response.None? then Undecodable(NoRequestId)
      else if response.value != id then Undecodable(RequestIdMismatch)
      else if "response" in fields then Response(fields["response"])
      else Response(Obj(fields - {"transport_version", "request_id"}))
  }

  datatype Reply = Success(value: Json) | OperationFailed(error: Option<Json>) | NotAResponse

  /** `parse_companion_response`. */
  function ParseCompanionResponse(value: Json): Reply {
    if !value.Obj? || "ok" !in value.fields || !value.fields["ok"].Bool? then NotAResponse
    else if value.fields["ok"].b then Success(value)
    else OperationFailed(if "error" in value.fields then Some(value.fields["error"]) else None)
  }

  /* ---------- The two sides agree ---------- */

  /** The fields a caller of the resident worker should see for this body. */
  function Expected(body: Json): Json {
    Obj(OkResponse(body)["ok" := Bool(true)])
  }

  /** Decoding gives back the body with `ok` set exactly when the body uses none of the three envelope keys. */
  lemma EnvelopeRoundTrip(body: Json, id: u64)
    ensures Decode(Parsed(ResidentResponse(Num(id), Body(body))), id) == Response(Expected(body))
       <==> (body.Obj? ==> !EnvelopeLike(body.fields))
  {
    var fields := ResidentResponse(Num(id), Body(body)).fields;
    var expected := OkResponse(body)["ok" := Bool(true)];
    if body.Obj? && "response" in body.fields {
      // the decoded value is a proper part of what the caller should see
      assert expected["response"] == fields["response"];
      assert expected["response"] < Obj(expected);
    } else if body.Obj? && EnvelopeLike(body.fields) {
      var key := if "transport_version" in body.fields then "transport_version" else "request_id";
      assert key in expected && key !in fields - {"transport_version", "request_id"};
    } else {
      assert fields - {"transport_version", "request_id"} == expected;
    }
  }

  /** A caller receives a body of the worker as a success, and a raised failure as that failure. */
  lemma WorkerReplyReachesCaller(d: Dispatched, id: u64)
    requires d.Body? && d.body.Obj? ==> !EnvelopeLike(d.body.fields)
    ensures var decoded := Decode(Parsed(ResidentResponse(Num(id), d)), id);
      && decoded.Response?
      && ParseCompanionResponse(decoded.value)
         == (match d case Body(body) => Success(Expected(body)) case Raised(error) => OperationFailed(Some(error)))
  {
    if d.Body? {
      EnvelopeRoundTrip(d.body, id);
    } else {
      var fields := ResidentResponse(Num(id), d).fields;
      assert fields - {"transport_version", "request_id"} == map["ok" := Bool(false), "error" := d.error];
    }
  }

  /** A body's own envelope keys cannot redirect the reply: the id stays the transport's. */
  lemma ReplyKeepsItsId(d: Dispatched, sent: u64, id: nat)
    requires sent != id
    ensures Decode(Parsed(ResidentResponse(Num(sent), d)), id) == Undecodable(RequestIdMismatch)
  {
  }

  /** The line a worker prints when it cannot even start carries no id, and nobody accepts it. */
  lemma StartupFailureIsRejected(error: Json, id: nat)
    ensures Decode(Parsed(ResidentResponse(Null, Raised(error))), id) == Undecodable(NoRequestId)
  {
  }

  /** A body with a field called `response` does not arrive: the caller sees that field in its place. */
  lemma ResponseFieldReplacesBody(inner: Json, id: u64)
    ensures var body := Obj(map["response" := inner]);
      Decode(Parsed(ResidentResponse(Num(id), Body(body))), id) == Response(inner) != Response(Expected(body))
  {
    var body := Obj(map["response" := inner]);
    EnvelopeRoundTrip(body, id);
    assert EnvelopeLike(body.fields);
  }
}
