/**
 * The two JSON envelopes of packages/backend/src/utils/response.ts:
 * `sendSuccess` answers `{success: true, data}` (status 200 unless given) and
 * `sendError` answers `{success: false, error}` plus `errors` when an errors
 * array is passed (status 400 unless given).
 */
module Response {
  import opened Wrappers
  import opened Json

  /** What a handler hands to `res.status(status).json(body)`. */
  datatype Reply = Reply(status: int, body: Json)

  function SendSuccess(data: Json, statusCode: int := 200): (r: Reply)
    ensures r.status == statusCode && r.body.JObject?
    ensures Keys(r.body.members) == ["success", "data"]
    ensures Get(r.body, "success") == Some(JBool(true)) && Get(r.body, "data") == Some(data)
  {
    var members := [("success", JBool(true)), ("data", data)];
    assert members[1..] == [("data", data)] && members[0].0 != "data";
    assert Lookup(members[1..], "data") == Some(data);
    Reply(statusCode, JObject(members))
  }

  /**
   * `...(errors && { errors })`: an `errors` argument that is present is an
   * array and so truthy, even when empty, and is then included.
   */
  function SendError(error: string, statusCode: int := 400, errors: Option<seq<Json>> := None): (r: Reply)
    ensures r.status == statusCode && r.body.JObject?
    ensures Keys(r.body.members) == ["success", "error"] + (if errors.Some? then ["errors"] else [])
    ensures Get(r.body, "success") == Some(JBool(false)) && Get(r.body, "error") == Some(JString(error))
    ensures Get(r.body, "errors") == if errors.Some? then Some(JArray(errors.value)) else None
  {
    var tail: seq<(string, Json)> := if errors.Some? then [("errors", JArray(errors.value))] else [];
    var members := [("success", JBool(false)), ("error", JString(error))] + tail;
    assert members[0].0 != "error" && members[0].0 != "errors" && members[1].0 != "errors";
    assert members[1..] == [("error", JString(error))] + tail;
    assert members[1..][1..] == tail;
    assert Lookup(members[1..], "error") == Some(JString(error));
    assert Lookup(members[1..], "errors") == Lookup(tail, "errors");
    assert Lookup(tail, "errors") == if errors.Some? then Some(JArray(errors.value)) else None;
    Reply(statusCode, JObject(members))
  }

  /** `res.status(status).json({ error: message })`: the bare error body several handlers send instead of an envelope. */
  function ErrorJson(status: int, message: string): (r: Reply)
    ensures r.status == status && r.body.JObject? && Keys(r.body.members) == ["error"]
    ensures Get(r.body, "error") == Some(JString(message))
  {
    Reply(status, JObject([("error", JString(message))]))
  }

  /** What a client reads back from an envelope. */
  datatype Envelope = Succeeded(data: Json) | Failed(error: string, errors: Option<seq<Json>>)

  /** Reads an envelope: exactly the keys one of the two builders writes, and nothing else. */
  function ReadEnvelope(body: Json): Option<Envelope>
  {
    match body
    case JObject(ms) =>
      if |ms| == 2 && ms[0] == ("success", JBool(true)) && ms[1].0 == "data" then
        Some(Succeeded(ms[1].1))
      else if 2 <= |ms| <= 3 && ms[0] == ("success", JBool(false)) && ms[1].0 == "error" && ms[1].1.JString? then
        if |ms| == 2 then Some(Failed(ms[1].1.s, None))
        else if ms[2].0 == "errors" && ms[2].1.JArray? then Some(Failed(ms[1].1.s, Some(ms[2].1.items)))
        else None
      else None
    case _ => None
  }

  /** A success envelope reads back as its data. */
  lemma ReadSendSuccess(data: Json, statusCode: int)
    ensures ReadEnvelope(SendSuccess(data, statusCode).body) == Some(Succeeded(data))
  {
  }

  /** An error envelope reads back as its message and its optional errors. */
  lemma ReadSendError(error: string, statusCode: int, errors: Option<seq<Json>>)
    ensures ReadEnvelope(SendError(error, statusCode, errors).body) == Some(Failed(error, errors))
  {
  }

  /** The defaults: 200 for success, 400 for an error. */
  lemma DefaultStatuses(data: Json, error: string)
    ensures SendSuccess(data).status == 200 && SendError(error).status == 400
  {
  }

  /** No success envelope is an error envelope. */
  lemma EnvelopesDisjoint(data: Json, s1: int, error: string, s2: int, errors: Option<seq<Json>>)
    ensures SendSuccess(data, s1).body != SendError(error, s2, errors).body
  {
    ReadSendSuccess(data, s1);
    ReadSendError(error, s2, errors);
  }
}
