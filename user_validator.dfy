/**
 * The Zod schemas of packages/backend/src/validators/userValidator.ts.
 * Zod checks every field of an object in declaration order and, for a
 * string, every check in order, collecting one issue per failed check; a
 * field that is not a string gives a single `invalid_type` issue. A
 * `refine` on the object runs only when every field parsed as a string.
 * Whether a string is an e-mail address is a parameter (`isEmail`).
 */
module UserValidator {
  import opened Wrappers
  import opened Zod

  /** The character classes of the password regexes. */
  datatype CharClass = Upper | Lower | Digit | NotAlphanumeric

  predicate InClass(c: char, cls: CharClass)
  {
    match cls
    case Upper => 'A' <= c <= 'Z'
    case Lower => 'a' <= c <= 'z'
    case Digit => '0' <= c <= '9'
    case NotAlphanumeric => !('A' <= c <= 'Z' || 'a' <= c <= 'z' || '0' <= c <= '9')
  }

  /** `/[...]/.test(s)`: some character of `s` is in the class. */
  predicate HasClass(s: string, cls: CharClass)
  {
    exists k :: 0 <= k < |s| && InClass(s[k], cls)
  }

  /** One check on a string field, with the message its issue carries. */
  datatype Check =
    | MinLength(min: nat, message: string)
    | MaxLength(max: nat, message: string)
    | Matches(cls: CharClass, message: string)
    | EmailFormat(message: string)

  predicate Passes(s: string, c: Check, isEmail: string -> bool)
  {
    match c
    case MinLength(n, _) => |s| >= n
    case MaxLength(n, _) => |s| <= n
    case Matches(cls, _) => HasClass(s, cls)
    case EmailFormat(_) => isEmail(s)
  }

  function IssueOf(field: string, c: Check): ZodIssue
  {
    var code := match c
      case MinLength(_, _) => "too_small"
      case MaxLength(_, _) => "too_big"
      case Matches(_, _) => "invalid_format"
      case EmailFormat(_) => "invalid_format";
    ZodIssue(code, [field], c.message)
  }

  /** The issues of the failed checks, in check order. */
  function RunChecks(s: string, field: string, checks: seq<Check>, isEmail: string -> bool): (r: seq<ZodIssue>)
    ensures |r| <= |checks|
    ensures forall i :: i in r ==> i.path == [field]
    ensures r == [] <==> forall k :: 0 <= k < |checks| ==> Passes(s, checks[k], isEmail)
  {
    if checks == [] then []
    else
      var rest := RunChecks(s, field, checks[1..], isEmail);
      assert forall k :: 1 <= k < |checks| ==> checks[k] == checks[1..][k - 1];
      (if Passes(s, checks[0], isEmail) then [] else [IssueOf(field, checks[0])]) + rest
  }

  /** The issues of `RunChecks` are exactly those of the failed checks. */
  lemma {:induction false} RunChecksMembers(s: string, field: string, checks: seq<Check>, isEmail: string -> bool)
    ensures forall i :: i in RunChecks(s, field, checks, isEmail) <==>
      exists k :: 0 <= k < |checks| && !Passes(s, checks[k], isEmail) && i == IssueOf(field, checks[k])
    decreases |checks|
  {
    if checks != [] {
      RunChecksMembers(s, field, checks[1..], isEmail);
      assert forall k :: 1 <= k < |checks| ==> checks[k] == checks[1..][k - 1];
      forall i | i in RunChecks(s, field, checks, isEmail)
        ensures exists k :: 0 <= k < |checks| && !Passes(s, checks[k], isEmail) && i == IssueOf(field, checks[k])
      {
        if i !in RunChecks(s, field, checks[1..], isEmail) {
          assert !Passes(s, checks[0], isEmail) && i == IssueOf(field, checks[0]);
        } else {
          var k :| 0 <= k < |checks[1..]| && !Passes(s, checks[1..][k], isEmail) && i == IssueOf(field, checks[1..][k]);
          assert checks[k + 1] == checks[1..][k];
        }
      }
    }
  }

  /**
   * A field of the parsed object: `None` when the body has no string there
   * (the issue then carries the schema's type message).
   */
  function FieldIssues(value: Option<string>, field: string, typeMessage: string, checks: seq<Check>,
                       isEmail: string -> bool): (r: seq<ZodIssue>)
    ensures forall i :: i in r ==> i.path == [field]
  {
    if value.None? then [ZodIssue("invalid_type", [field], typeMessage)]
    else RunChecks(value.value, field, checks, isEmail)
  }

  const InvalidEmail: string := "Invalid email address"
  /** Zod's default messages for a missing string and for `max(30)`. */
  const ExpectedString: string := "Invalid input: expected string, received undefined"
  const TooBig30: string := "Too big: expected string to have <=30 characters"

  const EmailChecks: seq<Check> := [EmailFormat(InvalidEmail)]
  const FirstNameChecks: seq<Check> := [MinLength(2, "First name must be at least 2 characters"), MaxLength(30, TooBig30)]
  const LastNameChecks: seq<Check> := [MinLength(2, "Last name must be at least 2 characters"), MaxLength(30, TooBig30)]
  const PasswordChecks: seq<Check> := [
    MinLength(8, "Password must be at least 8 characters"),
    Matches(Upper, "Password must contain at least one uppercase letter"),
    Matches(Lower, "Password must contain at least one lowercase letter"),
    Matches(Digit, "Password must contain at least one number"),
    Matches(NotAlphanumeric, "Password must contain at least one special character")]

  const MismatchIssue: ZodIssue := ZodIssue("custom", ["confirmPassword"], "Passwords don't match")

  datatype RegisterBody = RegisterBody(email: Option<string>, firstName: Option<string>, lastName: Option<string>,
                                       password: Option<string>, confirmPassword: Option<string>)

  predicate AllStrings(b: RegisterBody)
  {
    b.email.Some? && b.firstName.Some? && b.lastName.Some? && b.password.Some? && b.confirmPassword.Some?
  }

  /** `registerSchema.safeParse(body).error.issues`, or `[]` when it parses. */
  function RegisterIssues(b: RegisterBody, isEmail: string -> bool): seq<ZodIssue>
  {
    var fields :=
      FieldIssues(b.email, "email", InvalidEmail, EmailChecks, isEmail)
      + FieldIssues(b.firstName, "firstName", ExpectedString, FirstNameChecks, isEmail)
      + FieldIssues(b.lastName, "lastName", ExpectedString, LastNameChecks, isEmail)
      + FieldIssues(b.password, "password", ExpectedString, PasswordChecks, isEmail)
      + FieldIssues(b.confirmPassword, "confirmPassword", ExpectedString, [], isEmail);
    if AllStrings(b) && b.password.value != b.confirmPassword.value then fields + [MismatchIssue] else fields
  }

  /** The issues at one field's path come from that field's checks alone (and, at confirmPassword, the refine). */
  lemma RegisterIssuesAt(b: RegisterBody, isEmail: string -> bool, i: ZodIssue)
    ensures var issues := RegisterIssues(b, isEmail);
      && (i.path == ["email"] ==> (i in issues <==> i in FieldIssues(b.email, "email", InvalidEmail, EmailChecks, isEmail)))
      && (i.path == ["firstName"] ==>
            (i in issues <==> i in FieldIssues(b.firstName, "firstName", ExpectedString, FirstNameChecks, isEmail)))
      && (i.path == ["lastName"] ==>
            (i in issues <==> i in FieldIssues(b.lastName, "lastName", ExpectedString, LastNameChecks, isEmail)))
      && (i.path == ["password"] ==>
            (i in issues <==> i in FieldIssues(b.password, "password", ExpectedString, PasswordChecks, isEmail)))
      && (i.path == ["confirmPassword"] ==>
            (i in issues <==> i in FieldIssues(b.confirmPassword, "confirmPassword", ExpectedString, [], isEmail)
                              || (AllStrings(b) && b.password.value != b.confirmPassword.value && i == MismatchIssue)))
  {
  }

  /** Each password rule is judged on its own: its issue is raised exactly when that rule fails. */
  lemma PasswordRules(b: RegisterBody, isEmail: string -> bool)
    requires b.password.Some?
    ensures var p := b.password.value;
      var issues := RegisterIssues(b, isEmail);
      && (ZodIssue("too_small", ["password"], "Password must be at least 8 characters") in issues <==> |p| < 8)
      && (ZodIssue("invalid_format", ["password"], "Password must contain at least one uppercase letter") in issues
          <==> !HasClass(p, Upper))
      && (ZodIssue("invalid_format", ["password"], "Password must contain at least one lowercase letter") in issues
          <==> !HasClass(p, Lower))
      && (ZodIssue("invalid_format", ["password"], "Password must contain at least one number") in issues
          <==> !HasClass(p, Digit))
      && (ZodIssue("invalid_format", ["password"], "Password must contain at least one special character") in issues
          <==> !HasClass(p, NotAlphanumeric))
  {
    var p := b.password.value;
    RunChecksAt(p, "password", PasswordChecks, isEmail);
    forall k | 0 <= k < |PasswordChecks| {
      RegisterIssuesAt(b, isEmail, IssueOf("password", PasswordChecks[k]));
    }
    assert IssueOf("password", PasswordChecks[0]) == ZodIssue("too_small", ["password"], "Password must be at least 8 characters");
    assert IssueOf("password", PasswordChecks[1]) == ZodIssue("invalid_format", ["password"], "Password must contain at least one uppercase letter");
    assert IssueOf("password", PasswordChecks[2]) == ZodIssue("invalid_format", ["password"], "Password must contain at least one lowercase letter");
    assert IssueOf("password", PasswordChecks[3]) == ZodIssue("invalid_format", ["password"], "Password must contain at least one number");
    assert IssueOf("password", PasswordChecks[4]) == ZodIssue("invalid_format", ["password"], "Password must contain at least one special character");
  }

  /** Each name is between 2 and 30 characters; either bound is reported on its own. */
  lemma NameRules(b: RegisterBody, isEmail: string -> bool)
    ensures var issues := RegisterIssues(b, isEmail);
      && (b.firstName.Some? ==>
            && (ZodIssue("too_small", ["firstName"], "First name must be at least 2 characters") in issues
                <==> |b.firstName.value| < 2)
            && (ZodIssue("too_big", ["firstName"], TooBig30) in issues <==> |b.firstName.value| > 30))
      && (b.lastName.Some? ==>
            && (ZodIssue("too_small", ["lastName"], "Last name must be at least 2 characters") in issues
                <==> |b.lastName.value| < 2)
            && (ZodIssue("too_big", ["lastName"], TooBig30) in issues <==> |b.lastName.value| > 30))
  {
    RegisterIssuesAt(b, isEmail, ZodIssue("too_small", ["firstName"], "First name must be at least 2 characters"));
    RegisterIssuesAt(b, isEmail, ZodIssue("too_big", ["firstName"], TooBig30));
    RegisterIssuesAt(b, isEmail, ZodIssue("too_small", ["lastName"], "Last name must be at least 2 characters"));
    RegisterIssuesAt(b, isEmail, ZodIssue("too_big", ["lastName"], TooBig30));
    if b.firstName.Some? {
      RunChecksAt(b.firstName.value, "firstName", FirstNameChecks, isEmail);
      assert IssueOf("firstName", FirstNameChecks[0]) == ZodIssue("too_small", ["firstName"], "First name must be at least 2 characters");
      assert IssueOf("firstName", FirstNameChecks[1]) == ZodIssue("too_big", ["firstName"], TooBig30);
    }
    if b.lastName.Some? {
      RunChecksAt(b.lastName.value, "lastName", LastNameChecks, isEmail);
      assert IssueOf("lastName", LastNameChecks[0]) == ZodIssue("too_small", ["lastName"], "Last name must be at least 2 characters");
      assert IssueOf("lastName", LastNameChecks[1]) == ZodIssue("too_big", ["lastName"], TooBig30);
    }
  }

  /**
   * The refine: "Passwords don't match" at confirmPassword exactly when both
   * are strings and differ; it is not raised when some field is missing.
   */
  lemma PasswordsMatchRule(b: RegisterBody, isEmail: string -> bool)
    ensures MismatchIssue in RegisterIssues(b, isEmail) <==>
      AllStrings(b) && b.password.value != b.confirmPassword.value
  {
    RegisterIssuesAt(b, isEmail, MismatchIssue);
  }

  /** A register body parses exactly when every field is a string that passes all of its rules. */
  lemma RegisterAccepts(b: RegisterBody, isEmail: string -> bool)
    ensures RegisterIssues(b, isEmail) == [] <==>
      && AllStrings(b)
      && isEmail(b.email.value)
      && 2 <= |b.firstName.value| <= 30 && 2 <= |b.lastName.value| <= 30
      && |b.password.value| >= 8
      && HasClass(b.password.value, Upper) && HasClass(b.password.value, Lower)
      && HasClass(b.password.value, Digit) && HasClass(b.password.value, NotAlphanumeric)
      && b.password.value == b.confirmPassword.value
  {
    if AllStrings(b) {
      EmailPasses(b.email.value, isEmail);
      NamePasses(b.firstName.value, "firstName", FirstNameChecks, isEmail);
      NamePasses(b.lastName.value, "lastName", LastNameChecks, isEmail);
      PasswordPasses(b.password.value, isEmail);
    }
  }

  /** A body whose fields all pass but whose confirmation differs fails with the refine's issue alone. */
  lemma OnlyMismatch(b: RegisterBody, isEmail: string -> bool)
    requires AllStrings(b) && isEmail(b.email.value)
    requires 2 <= |b.firstName.value| <= 30 && 2 <= |b.lastName.value| <= 30
    requires |b.password.value| >= 8
    requires HasClass(b.password.value, Upper) && HasClass(b.password.value, Lower)
    requires HasClass(b.password.value, Digit) && HasClass(b.password.value, NotAlphanumeric)
    requires b.password.value != b.confirmPassword.value
    ensures RegisterIssues(b, isEmail) == [MismatchIssue]
  {
    EmailPasses(b.email.value, isEmail);
    NamePasses(b.firstName.value, "firstName", FirstNameChecks, isEmail);
    NamePasses(b.lastName.value, "lastName", LastNameChecks, isEmail);
    PasswordPasses(b.password.value, isEmail);
  }

  lemma EmailPasses(e: string, isEmail: string -> bool)
    ensures RunChecks(e, "email", EmailChecks, isEmail) == [] <==> isEmail(e)
  {
    assert Passes(e, EmailChecks[0], isEmail) <==> isEmail(e);
  }

  lemma NamePasses(n: string, field: string, checks: seq<Check>, isEmail: string -> bool)
    requires checks == FirstNameChecks || checks == LastNameChecks
    ensures RunChecks(n, field, checks, isEmail) == [] <==> 2 <= |n| <= 30
  {
    assert Passes(n, checks[0], isEmail) && Passes(n, checks[1], isEmail) <==> 2 <= |n| <= 30;
  }

  lemma PasswordPasses(p: string, isEmail: string -> bool)
    ensures RunChecks(p, "password", PasswordChecks, isEmail) == [] <==>
      |p| >= 8 && HasClass(p, Upper) && HasClass(p, Lower) && HasClass(p, Digit) && HasClass(p, NotAlphanumeric)
  {
    PasswordShape(p, PasswordChecks, isEmail);
  }

  /** The password rules hold for any five checks of the password's shape, whatever their messages. */
  lemma PasswordShape(p: string, checks: seq<Check>, isEmail: string -> bool)
    requires |checks| == 5
    requires checks[0].MinLength? && checks[0].min == 8
    requires checks[1].Matches? && checks[1].cls == Upper
    requires checks[2].Matches? && checks[2].cls == Lower
    requires checks[3].Matches? && checks[3].cls == Digit
    requires checks[4].Matches? && checks[4].cls == NotAlphanumeric
    ensures RunChecks(p, "password", checks, isEmail) == [] <==>
      |p| >= 8 && HasClass(p, Upper) && HasClass(p, Lower) && HasClass(p, Digit) && HasClass(p, NotAlphanumeric)
  {
    if |p| >= 8 && HasClass(p, Upper) && HasClass(p, Lower) && HasClass(p, Digit) && HasClass(p, NotAlphanumeric) {
      forall k | 0 <= k < |checks| ensures Passes(p, checks[k], isEmail) {
        if k == 0 {} else if k == 1 {} else if k == 2 {} else if k == 3 {} else {}
      }
    }
    if RunChecks(p, "password", checks, isEmail) == [] {
      assert Passes(p, checks[0], isEmail) && Passes(p, checks[1], isEmail) && Passes(p, checks[2], isEmail);
      assert Passes(p, checks[3], isEmail) && Passes(p, checks[4], isEmail);
    }
  }

  datatype LoginBody = LoginBody(email: Option<string>, password: Option<string>)

  const InvalidCredentials: string := "Invalid credentials"

  /** `loginSchema.safeParse(body).error.issues`, or `[]` when it parses. */
  function LoginIssues(b: LoginBody, isEmail: string -> bool): seq<ZodIssue>
  {
    FieldIssues(b.email, "email", InvalidEmail, EmailChecks, isEmail)
    + FieldIssues(b.password, "password", "Password is required", [MinLength(8, InvalidCredentials)], isEmail)
  }

  /**
   * Login: a missing password gives 'Password is required', one under 8
   * characters 'Invalid credentials'; the body parses exactly when the e-mail
   * is valid and the password has at least 8 characters.
   */
  lemma LoginRules(b: LoginBody, isEmail: string -> bool)
    ensures var issues := LoginIssues(b, isEmail);
      && (b.password.None? ==> ZodIssue("invalid_type", ["password"], "Password is required") in issues)
      && (b.password.Some? ==>
            (ZodIssue("too_small", ["password"], "Invalid credentials") in issues <==> |b.password.value| < 8))
      && (b.email.None? ==> ZodIssue("invalid_type", ["email"], "Invalid email address") in issues)
      && (issues == [] <==> b.email.Some? && isEmail(b.email.value) && b.password.Some? && |b.password.value| >= 8)
  {
    var i := ZodIssue("too_small", ["password"], "Invalid credentials");
    assert i.path != ["email"];
    if b.password.Some? {
      assert IssueOf("password", MinLength(8, InvalidCredentials)) == i;
      RunChecksAt(b.password.value, "password", [MinLength(8, InvalidCredentials)], isEmail);
    }
  }

  /** Reading the failed checks off `RunChecks`, one check at a time. */
  lemma RunChecksAt(s: string, field: string, checks: seq<Check>, isEmail: string -> bool)
    requires forall j, k :: 0 <= j < k < |checks| ==> checks[j].message != checks[k].message
    ensures forall k :: 0 <= k < |checks| ==>
      (IssueOf(field, checks[k]) in RunChecks(s, field, checks, isEmail) <==> !Passes(s, checks[k], isEmail))
  {
    RunChecksMembers(s, field, checks, isEmail);
    forall k | 0 <= k < |checks|
      ensures IssueOf(field, checks[k]) in RunChecks(s, field, checks, isEmail) ==> !Passes(s, checks[k], isEmail)
    {
      if IssueOf(field, checks[k]) in RunChecks(s, field, checks, isEmail) {
        var j :| 0 <= j < |checks| && !Passes(s, checks[j], isEmail) && IssueOf(field, checks[k]) == IssueOf(field, checks[j]);
        assert checks[j].message == checks[k].message;
      }
    }
  }
}
