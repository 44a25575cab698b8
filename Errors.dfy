/**
  The application error taxonomy. `AppError` is the base exception class, which
  a caller may instantiate with any code and status; the five subclasses pin the
  code and the HTTP status and take only the human-readable texts (and, for two
  of them, diagnostic fields that never reach a response).
 */
module Errors {
  import opened Wrappers

  const AuthenticationMessage := "Authentication required"
  const AuthenticationDescription := "Valid authentication credentials are required to access this resource"
  const AuthorizationMessage := "Insufficient permissions"
  const AuthorizationDescription := "You do not have sufficient permissions to access this resource"

  /** One constructor per exception class; the parameter defaults are the Python keyword defaults. */
  datatype AppError =
    | AppError(customCode: string, customStatus: int, message: string, description: string := "")
    | ValidationError(message: string, description: string := "", field: Option<string> := None)
    | NotFoundError(message: string, description: string := "",
                    resourceType: Option<string> := None, resourceId: Option<string> := None)
    | ConflictError(message: string, description: string := "")
    | AuthenticationError(message: string := AuthenticationMessage,
                          description: string := AuthenticationDescription)
    | AuthorizationError(message: string := AuthorizationMessage,
                         description: string := AuthorizationDescription)
  {
    /** The machine-readable `code` attribute: as given to the base class, else the subclass's fixed code. */
    function Code(): (c: string)
      ensures AppError? ==> c == customCode
      ensures IsSubclass() ==> exists row :: row in Taxonomy && row.1 == c
    {
      match this
      case AppError(c, _, _, _) => c
      case ValidationError(_, _, _) => "VALIDATION_ERROR"
      case NotFoundError(_, _, _, _) => "NOT_FOUND"
      case ConflictError(_, _) => "CONFLICT"
      case AuthenticationError(_, _) => "AUTHENTICATION_REQUIRED"
      case AuthorizationError(_, _) => "INSUFFICIENT_PERMISSIONS"
    }

    /** The `status_code` attribute: as given to the base class, else the subclass's fixed 4xx status. */
    function StatusCode(): (s: int)
      ensures AppError? ==> s == customStatus
      ensures IsSubclass() ==> 400 <= s < 500 && exists row :: row in Taxonomy && row.2 == s
    {
      match this
      case AppError(_, s, _, _) => s
      case ValidationError(_, _, _) => 422
      case NotFoundError(_, _, _, _) => 404
      case ConflictError(_, _) => 409
      case AuthenticationError(_, _) => 401
      case AuthorizationError(_, _) => 403
    }

    /** The name of the exception's class, `exc.__class__.__name__`; a subclass's name, code and
        status form its row of the taxonomy table. */
    function ClassName(): (n: string)
      ensures AppError? <==> n == "AppError"
      ensures IsSubclass() ==> (n, Code(), StatusCode()) in Taxonomy
    {
      match this
      case AppError(_, _, _, _) => "AppError"
      case ValidationError(_, _, _) => "ValidationError"
      case NotFoundError(_, _, _, _) => "NotFoundError"
      case ConflictError(_, _) => "ConflictError"
      case AuthenticationError(_, _) => "AuthenticationError"
      case AuthorizationError(_, _) => "AuthorizationError"
    }

    /** True of the five subclasses, whose code and status are fixed. */
    predicate IsSubclass() {
      !AppError?
    }
  }

  /** The taxonomy as a table of (class name, code, status), written independently of `AppError`. */
  const Taxonomy: seq<(string, string, int)> := [
    ("ValidationError", "VALIDATION_ERROR", 422),
    ("NotFoundError", "NOT_FOUND", 404),
    ("ConflictError", "CONFLICT", 409),
    ("AuthenticationError", "AUTHENTICATION_REQUIRED", 401),
    ("AuthorizationError", "INSUFFICIENT_PERMISSIONS", 403)
  ]

  /** The base class stores code, status, message and description exactly as given. */
  lemma {:induction false} BaseStoresFields(code: string, status: int, message: string, description: string)
    ensures var e := AppError(code, status, message, description);
      e.Code() == code && e.StatusCode() == status && e.message == message && e.description == description
    ensures AppError(code, status, message).description == ""
  {
  }

  /** `ValidationError` has code VALIDATION_ERROR and status 422 whatever its arguments. */
  lemma {:induction false} ValidationErrorFixed(message: string, description: string, field: Option<string>)
    ensures var e := ValidationError(message, description, field);
      e.Code() == "VALIDATION_ERROR" && e.StatusCode() == 422
      && e.message == message && e.description == description && e.field == field
    ensures ValidationError(message).description == "" && ValidationError(message).field == None
  {
  }

  /** `NotFoundError` has code NOT_FOUND and status 404; the resource fields change neither. */
  lemma {:induction false} NotFoundErrorFixed(message: string, description: string,
                                              resourceType: Option<string>, resourceId: Option<string>)
    ensures var e := NotFoundError(message, description, resourceType, resourceId);
      e.Code() == "NOT_FOUND" && e.StatusCode() == 404
      && e.message == message && e.description == description
      && e.Code() == NotFoundError(message).Code() && e.StatusCode() == NotFoundError(message).StatusCode()
    ensures NotFoundError(message).description == ""
  {
  }

  /** `ConflictError` has code CONFLICT and status 409. */
  lemma {:induction false} ConflictErrorFixed(message: string, description: string)
    ensures var e := ConflictError(message, description);
      e.Code() == "CONFLICT" && e.StatusCode() == 409 && e.message == message && e.description == description
    ensures ConflictError(message).description == ""
  {
  }

  /** `AuthenticationError` has code AUTHENTICATION_REQUIRED and status 401, and fixed default texts. */
  lemma {:induction false} AuthenticationErrorFixed(message: string, description: string)
    ensures var e := AuthenticationError(message, description);
      e.Code() == "AUTHENTICATION_REQUIRED" && e.StatusCode() == 401
      && e.message == message && e.description == description
    ensures AuthenticationError().message == "Authentication required"
    ensures AuthenticationError().description
         == "Valid authentication credentials are required to access this resource"
  {
  }

  /** `AuthorizationError` has code INSUFFICIENT_PERMISSIONS and status 403, and fixed default texts. */
  lemma {:induction false} AuthorizationErrorFixed(message: string, description: string)
    ensures var e := AuthorizationError(message, description);
      e.Code() == "INSUFFICIENT_PERMISSIONS" && e.StatusCode() == 403
      && e.message == message && e.description == description
    ensures AuthorizationError().message == "Insufficient permissions"
    ensures AuthorizationError().description
         == "You do not have sufficient permissions to access this resource"
  {
  }

  /** Every subclass instance agrees with its row of the taxonomy table. */
  lemma {:induction false} SubclassMatchesTaxonomy(e: AppError)
    requires e.IsSubclass()
    ensures (e.ClassName(), e.Code(), e.StatusCode()) in Taxonomy
  {
  }

  /** The five subclasses have pairwise distinct codes and pairwise distinct statuses:
      either one identifies the class. */
  lemma {:induction false} SubclassCodesDistinct(a: AppError, b: AppError)
    requires a.IsSubclass() && b.IsSubclass()
    ensures a.Code() == b.Code() <==> a.ClassName() == b.ClassName()
    ensures a.StatusCode() == b.StatusCode() <==> a.ClassName() == b.ClassName()
  {
  }
}
