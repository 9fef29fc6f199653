/**
 * The Express error handler of packages/backend/src/middlewares/errorHandler.ts:
 * an ordered if/else-if classification of the thrown value into a status,
 * a message and an optional `errors` list, followed by the stack trace in
 * development. The reply body is `{success: false, message, errors?, stack?}`
 * with its keys in that order; logging is left out.
 */
module ErrorHandler {
  import opened Wrappers
  import opened Json
  import opened Response
  import opened Zod
  import opened CustomErrors

  /** What reached the handler: a ZodError, a CustomAPIError, or any other Error. */
  datatype Thrown =
    | ZodThrown(issues: seq<ZodIssue>, zodMessage: string, stack: Option<string>)
    | ApiThrown(error: CustomAPIError, stack: Option<string>)
    | OtherThrown(name: string, message: string, code: Option<int>, keyValue: Option<Json>, stack: Option<string>)

  /** `err.message`. */
  function MessageOf(err: Thrown): string
  {
    match err
    case ZodThrown(_, m, _) => m
    case ApiThrown(e, _) => e.message
    case OtherThrown(_, m, _, _, _) => m
  }

  predicate NamedNotFound(err: Thrown)
  {
    err.OtherThrown? && err.name == "NotFoundError"
  }

  /** A MongoDB duplicate-key error (and not named NotFoundError, which is checked first). */
  predicate DuplicateKey(err: Thrown)
  {
    err.OtherThrown? && err.name == "MongoServerError" && err.code == Some(11000)
  }

  /** Whether the body carries `errors`: a ZodError or a duplicate-key error. */
  predicate HasErrors(err: Thrown)
  {
    err.ZodThrown? || DuplicateKey(err)
  }

  /** `stack` is written only when NODE_ENV is 'development' (an undefined stack serialises to no key). */
  predicate ShowsStack(err: Thrown, nodeEnv: Option<string>)
  {
    nodeEnv == Some("development") && err.stack.Some?
  }

  /** `{success: false, message}`, then `errors` and `stack` when set, in the order they are assigned. */
  function ErrorResponseBody(message: string, errors: Option<seq<Json>>, stack: Option<string>): (body: Json)
    ensures body.JObject?
    ensures Keys(body.members) == ["success", "message"] + (if errors.Some? then ["errors"] else [])
                                   + (if stack.Some? then ["stack"] else [])
    ensures Get(body, "success") == Some(JBool(false)) && Get(body, "message") == Some(JString(message))
    ensures Get(body, "errors") == if errors.Some? then Some(JArray(errors.value)) else None
    ensures Get(body, "stack") == if stack.Some? then Some(JString(stack.value)) else None
  {
    var base := [("success", JBool(false)), ("message", JString(message))];
    assert base[1..] == [("message", JString(message))];
    assert Lookup(base, "message") == Some(JString(message));
    LookupAbsent(base, "errors");
    LookupAbsent(base, "stack");
    var withErrors := if errors.Some? then base + [("errors", JArray(errors.value))] else base;
    assert Lookup(withErrors, "success") == Some(JBool(false)) && Lookup(withErrors, "message") == Some(JString(message))
        && Lookup(withErrors, "errors") == (if errors.Some? then Some(JArray(errors.value)) else None)
        && Lookup(withErrors, "stack") == None by {
      if errors.Some? {
        LookupAppend(base, "errors", JArray(errors.value), "success");
        LookupAppend(base, "errors", JArray(errors.value), "message");
        LookupAppend(base, "errors", JArray(errors.value), "errors");
        LookupAppend(base, "errors", JArray(errors.value), "stack");
      }
    }
    var members := if stack.Some? then withErrors + [("stack", JString(stack.value))] else withErrors;
    assert Lookup(members, "success") == Some(JBool(false)) && Lookup(members, "message") == Some(JString(message))
        && Lookup(members, "errors") == (if errors.Some? then Some(JArray(errors.value)) else None)
        && Lookup(members, "stack") == (if stack.Some? then Some(JString(stack.value)) else None) by {
      if stack.Some? {
        LookupAppend(withErrors, "stack", JString(stack.value), "success");
        LookupAppend(withErrors, "stack", JString(stack.value), "message");
        LookupAppend(withErrors, "stack", JString(stack.value), "errors");
        LookupAppend(withErrors, "stack", JString(stack.value), "stack");
      }
    }
    JObject(members)
  }

  method HandleError(err: Thrown, nodeEnv: Option<string>) returns (reply: Reply)
    ensures reply.body.JObject?
    ensures Keys(reply.body.members) == ["success", "message"] + (if HasErrors(err) then ["errors"] else [])
                                         + (if ShowsStack(err, nodeEnv) then ["stack"] else [])
    ensures Get(reply.body, "success") == Some(JBool(false))
    // a ZodError: 400, 'Validation Error', its issues as `errors`
    ensures err.ZodThrown? ==>
      && reply.status == 400 && Get(reply.body, "message") == Some(JString("Validation Error"))
      && Get(reply.body, "errors") == Some(JArray(IssuesJson(err.issues)))
    // a CustomAPIError, any subclass included: its own status and message, whatever its name
    ensures err.ApiThrown? ==>
      && reply.status == err.error.statusCode && Get(reply.body, "message") == Some(JString(err.error.message))
    // another error named NotFoundError: 404, 'Resource not found'
    ensures NamedNotFound(err) ==>
      reply.status == 404 && Get(reply.body, "message") == Some(JString("Resource not found"))
    // a duplicate key: 409 and `errors` holding the key value (undefined serialises as null)
    ensures DuplicateKey(err) && !NamedNotFound(err) ==>
      && reply.status == 409 && Get(reply.body, "message") == Some(JString("Duplicate key error"))
      && Get(reply.body, "errors") == Some(JArray([if err.keyValue.Some? then err.keyValue.value else JNull]))
    // anything else: 500 and the error's message, or 'Something went wrong' when it is empty
    ensures err.OtherThrown? && !NamedNotFound(err) && !DuplicateKey(err) ==>
      && reply.status == 500
      && Get(reply.body, "message") == Some(JString(if err.message != "" then err.message else "Something went wrong"))
    ensures !HasErrors(err) ==> Get(reply.body, "errors") == None
    ensures Get(reply.body, "stack") == if ShowsStack(err, nodeEnv) then Some(JString(err.stack.value)) else None
  {
    var message := if MessageOf(err) != "" then MessageOf(err) else "Something went wrong";
    var errors: Option<seq<Json>> := None;
    var statusCode := 500;
    if err.ZodThrown? {
      statusCode := 400;
      message := "Validation Error";
      errors := Some(IssuesJson(err.issues));
    } else if err.ApiThrown? {
      statusCode := err.error.statusCode;
      message := err.error.message;
    } else if err.name == "NotFoundError" {
      statusCode := 404;
      message := "Resource not found";
    } else if err.name == "MongoServerError" && err.code == Some(11000) {
      statusCode := 409;
      message := "Duplicate key error";
      errors := Some([if err.keyValue.Some? then err.keyValue.value else JNull]);
    }
    assert errors.Some? <==> HasErrors(err);
    var stack := if nodeEnv == Some("development") then err.stack else None;
    reply := Reply(statusCode, ErrorResponseBody(message, errors, stack));
  }
}
