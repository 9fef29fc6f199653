/**
 * The `validateRequest(schema)` middleware of src/middlewares/validateRequest.ts:
 * a body that parses passes on with `next()`; a Zod failure is answered with
 * 400 and the issue messages; any other error is handed to `next(error)`.
 * The schema's parse is given as its outcome.
 */
module ValidateRequest {
  import opened Wrappers
  import opened Json
  import opened Response
  import opened Zod
  import opened UserValidator

  datatype ParseOutcome = Parsed | ZodFailure(issues: seq<ZodIssue>) | OtherFailure(error: string)

  /** What the middleware does: call `next()`, call `next(error)`, or answer. */
  datatype Continuation = Next | NextWithError(error: string) | Respond(reply: Reply)

  /** `` `Validation failed: ${err.details?.[0]?.message}` ``: "undefined" when there is no issue. */
  function FailureText(issues: seq<ZodIssue>): string
  {
    "Validation failed: " + if issues == [] then "undefined" else issues[0].message
  }

  function MessagesJson(issues: seq<ZodIssue>): seq<Json>
  {
    seq(|issues|, k requires 0 <= k < |issues| => JString(issues[k].message))
  }

  function Validate(outcome: ParseOutcome): (r: Continuation)
    ensures outcome.Parsed? <==> r == Next
    ensures outcome.OtherFailure? <==> r.NextWithError?
    ensures outcome.OtherFailure? ==> r.error == outcome.error
    ensures outcome.ZodFailure? ==>
      && r.Respond? && r.reply.status == 400
      && Get(r.reply.body, "success") == Some(JBool(false))
      && Get(r.reply.body, "error") == Some(JString(FailureText(outcome.issues)))
      && Get(r.reply.body, "errors") == Some(JArray(MessagesJson(outcome.issues)))
  {
    match outcome
    case Parsed => Next
    case OtherFailure(e) => NextWithError(e)
    case ZodFailure(issues) =>
      var reply := Reply(400, JObject([("success", JBool(false)), ("error", JString(FailureText(issues))),
                                       ("errors", JArray(MessagesJson(issues)))]));
      assert reply == SendError(FailureText(issues), 400, Some(MessagesJson(issues)));
      Respond(reply)
  }

  /**
   * A Zod failure's `errors` list holds each issue's message as a string, in
   * order and none left out, and its `error` text is the first of them behind
   * "Validation failed: ".
   */
  lemma ValidationErrorsAreMessages(issues: seq<ZodIssue>)
    ensures var body := Validate(ZodFailure(issues)).reply.body;
      var errors := Get(body, "errors");
      && errors.Some? && errors.value.JArray? && |errors.value.items| == |issues|
      && (forall k :: 0 <= k < |issues| ==> errors.value.items[k] == JString(issues[k].message))
      && (issues != [] ==> Get(body, "error") == Some(JString("Validation failed: " + errors.value.items[0].s)))
  {
  }

  /** The Zod failure reply has exactly the shape of the `sendError` envelope with an `errors` list. */
  lemma ZodReplyIsErrorEnvelope(issues: seq<ZodIssue>)
    ensures Validate(ZodFailure(issues)) == Respond(SendError(FailureText(issues), 400, Some(MessagesJson(issues))))
    ensures ReadEnvelope(Validate(ZodFailure(issues)).reply.body) == Some(Failed(FailureText(issues), Some(MessagesJson(issues))))
  {
    ReadSendError(FailureText(issues), 400, Some(MessagesJson(issues)));
  }

  /** `registerSchema.parseAsync(req.body)`. */
  function ParseRegister(b: RegisterBody, isEmail: string -> bool): ParseOutcome
  {
    var issues := RegisterIssues(b, isEmail);
    if issues == [] then Parsed else ZodFailure(issues)
  }

  /** A registration passes the middleware exactly when the body satisfies every rule of the schema. */
  lemma ValidateRegistration(b: RegisterBody, isEmail: string -> bool)
    ensures Validate(ParseRegister(b, isEmail)) == Next <==>
      && AllStrings(b) && isEmail(b.email.value)
      && 2 <= |b.firstName.value| <= 30 && 2 <= |b.lastName.value| <= 30
      && |b.password.value| >= 8
      && HasClass(b.password.value, Upper) && HasClass(b.password.value, Lower)
      && HasClass(b.password.value, Digit) && HasClass(b.password.value, NotAlphanumeric)
      && b.password.value == b.confirmPassword.value
    ensures Validate(ParseRegister(b, isEmail)).Respond? ==> Validate(ParseRegister(b, isEmail)).reply.status == 400
  {
    RegisterAccepts(b, isEmail);
  }

  /** A well-formed registration whose confirmation differs is answered with the refine's message alone. */
  lemma MismatchedConfirmation(email: string, isEmail: string -> bool)
    requires isEmail(email)
    ensures var b := RegisterBody(Some(email), Some("Ada"), Some("Lovelace"), Some("Secret#1x"), Some("Secret#2x"));
      Validate(ParseRegister(b, isEmail)) ==
        Respond(SendError("Validation failed: " + "Passwords don't match", 400, Some([JString("Passwords don't match")])))
  {
    var b := RegisterBody(Some(email), Some("Ada"), Some("Lovelace"), Some("Secret#1x"), Some("Secret#2x"));
    var p := "Secret#1x";
    assert p != "Secret#2x" by { assert p[7] != "Secret#2x"[7]; }
    assert InClass(p[0], Upper) && InClass(p[1], Lower) && InClass(p[7], Digit) && InClass(p[6], NotAlphanumeric);
    OnlyMismatch(b, isEmail);
    MismatchReply(b, isEmail);
  }

  /** A body whose only issue is the refine's is answered with that message alone. */
  lemma MismatchReply(b: RegisterBody, isEmail: string -> bool)
    requires RegisterIssues(b, isEmail) == [MismatchIssue]
    ensures Validate(ParseRegister(b, isEmail)) ==
      Respond(SendError("Validation failed: " + "Passwords don't match", 400, Some([JString("Passwords don't match")])))
  {
    assert FailureText([MismatchIssue]) == "Validation failed: " + "Passwords don't match";
    assert MessagesJson([MismatchIssue]) == [JString("Passwords don't match")];
  }
}
