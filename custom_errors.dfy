/**
 * The error classes of src/errors/customError.ts. Each instance is a
 * `CustomAPIError`: its class, message, HTTP status and optional details,
 * fixed at construction. Its `name` is the name of the class it was
 * constructed with.
 */
module CustomErrors {
  import opened Wrappers
  import opened Json

  /** The class whose constructor built an error (the word `class` is reserved). */
  datatype ErrorKind = CustomApi | NotFound | Validation | Unauthorized

  datatype CustomAPIError = CustomAPIError(kind: ErrorKind, message: string, statusCode: int, details: Option<Json>)

  /** `this.constructor.name`. */
  function Name(e: CustomAPIError): (r: string)
    ensures e.kind == CustomApi <==> r == "CustomAPIError"
    ensures e.kind == NotFound <==> r == "NotFoundError"
    ensures e.kind == Validation <==> r == "ValidationError"
    ensures e.kind == Unauthorized <==> r == "UnauthorizedError"
  {
    match e.kind
    case CustomApi => "CustomAPIError"
    case NotFound => "NotFoundError"
    case Validation => "ValidationError"
    case Unauthorized => "UnauthorizedError"
  }

  /** `instanceof`: every one of the three subclasses extends `CustomAPIError` directly. */
  predicate InstanceOf(e: CustomAPIError, k: ErrorKind)
  {
    k == CustomApi || k == e.kind
  }

  /** `new CustomAPIError(message, statusCode, details)` keeps its arguments as given. */
  function NewCustomAPIError(message: string, statusCode: int, details: Option<Json> := None): (e: CustomAPIError)
    ensures e.message == message && e.statusCode == statusCode && e.details == details
    ensures Name(e) == "CustomAPIError"
  {
    CustomAPIError(CustomApi, message, statusCode, details)
  }

  /** `new NotFoundError(resource)`: 404, "<resource> not found", no details. */
  function NewNotFoundError(resource: string): (e: CustomAPIError)
    ensures e.statusCode == 404 && e.details == None && Name(e) == "NotFoundError"
    ensures |e.message| == |resource| + 10 && e.message[..|resource|] == resource
    ensures e.message[|resource|..] == " not found"
  {
    CustomAPIError(NotFound, resource + " not found", 404, None)
  }

  /** `new ValidationError(message, details)`: 400, details passed through. */
  function NewValidationError(message: string, details: Option<Json> := None): (e: CustomAPIError)
    ensures e.statusCode == 400 && e.message == message && e.details == details && Name(e) == "ValidationError"
  {
    CustomAPIError(Validation, message, 400, details)
  }

  /** `new UnauthorizedError(message = 'Unauthorized')`: 401, no details. */
  function NewUnauthorizedError(message: string := "Unauthorized"): (e: CustomAPIError)
    ensures e.statusCode == 401 && e.message == message && e.details == None && Name(e) == "UnauthorizedError"
  {
    CustomAPIError(Unauthorized, message, 401, None)
  }

  /** All three subclasses are `CustomAPIError`s, each an instance of its own class and of no sibling. */
  lemma SubclassesAreCustomAPIErrors(resource: string, message: string, details: Option<Json>)
    ensures var errors := [NewNotFoundError(resource), NewValidationError(message, details), NewUnauthorizedError(message)];
      && (forall k :: 0 <= k < 3 ==> InstanceOf(errors[k], CustomApi))
      && InstanceOf(errors[0], NotFound) && !InstanceOf(errors[0], Validation) && !InstanceOf(errors[0], Unauthorized)
      && InstanceOf(errors[1], Validation) && !InstanceOf(errors[1], NotFound) && !InstanceOf(errors[1], Unauthorized)
      && InstanceOf(errors[2], Unauthorized) && !InstanceOf(errors[2], NotFound) && !InstanceOf(errors[2], Validation)
  {
  }

  /** The resource can be read back from a NotFoundError's message, so distinct resources give distinct messages. */
  lemma NotFoundMessageInjective(r1: string, r2: string)
    ensures NewNotFoundError(r1).message == NewNotFoundError(r2).message <==> r1 == r2
  {
    var m1, m2 := NewNotFoundError(r1).message, NewNotFoundError(r2).message;
    if m1 == m2 {
      assert |r1| == |r2|;
      assert r1 == m1[..|r1|] == m2[..|r2|] == r2;
    }
  }

  /** The default message of an UnauthorizedError. */
  lemma UnauthorizedDefault()
    ensures NewUnauthorizedError() == CustomAPIError(Unauthorized, "Unauthorized", 401, None)
  {
  }
}
