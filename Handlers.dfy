/**
  The error translator: the two exception handlers that turn a raised exception
  into an HTTP status and a JSON body. Logging is not modelled; what remains is a
  total function of the exception value.
 */
module Handlers {
  import opened Errors

  /** The JSON values an error body holds. */
  datatype JsonValue = JInt(i: int) | JString(s: string)

  type JsonObject = map<string, JsonValue>

  /** A raised exception: an application error, or any other exception with its type and text. */
  datatype Exception = App(err: AppError) | Other(typeName: string, detail: string)

  datatype Response = Response(statusCode: int, content: JsonObject)

  /** The five keys of every error body. */
  const EnvelopeKeys: set<string> := {"status_code", "code", "error", "message", "description"}

  const InternalServerErrorStatus := 500
  const InternalErrorCode := "INTERNAL_SERVER_ERROR"
  const InternalErrorName := "InternalServerError"
  const InternalErrorMessage := "An unexpected error occurred"
  const InternalErrorDescription := "Please contact support if this error persists"

  /** The error body both handlers emit, built from its five field values. */
  function Envelope(status: int, code: string, error: string, message: string, description: string): (body: JsonObject)
    ensures body.Keys == EnvelopeKeys
    ensures body["status_code"] == JInt(status) && body["code"] == JString(code) && body["error"] == JString(error)
    ensures body["message"] == JString(message) && body["description"] == JString(description)
  {
    map["status_code" := JInt(status), "code" := JString(code), "error" := JString(error),
        "message" := JString(message), "description" := JString(description)]
  }

  /** The handler for unexpected exceptions: a fixed 500 response that never carries the exception. */
  function GeneralExceptionHandler(exc: Exception): (r: Response)
    ensures r.statusCode == 500 && r.content.Keys == EnvelopeKeys
    ensures r.content["status_code"] == JInt(500)
    ensures r.content["code"] == JString("INTERNAL_SERVER_ERROR")
    ensures r.content["error"] == JString("InternalServerError")
    ensures r.content["message"] == JString("An unexpected error occurred")
    ensures r.content["description"] == JString("Please contact support if this error persists")
  {
    Response(InternalServerErrorStatus,
             Envelope(InternalServerErrorStatus, InternalErrorCode, InternalErrorName,
                      InternalErrorMessage, InternalErrorDescription))
  }

  /** The handler for application errors. Any other exception is passed on to the general handler. */
  function AppExceptionHandler(exc: Exception): (r: Response)
    ensures r.content.Keys == EnvelopeKeys
    ensures exc.Other? ==> r == GeneralExceptionHandler(exc)
    ensures exc.App? ==> r.statusCode == exc.err.StatusCode() && r.content["status_code"] == JInt(r.statusCode)
    ensures exc.App? ==> (r.content["code"] == JString(exc.err.Code())
                          && r.content["error"] == JString(exc.err.ClassName())
                          && r.content["message"] == JString(exc.err.message))
    ensures exc.App? && exc.err.description != "" ==> r.content["description"] == JString(exc.err.description)
    ensures exc.App? && exc.err.description == "" ==> r.content["description"] == JString(exc.err.message)
  {
    match exc
    case Other(_, _) => GeneralExceptionHandler(exc)
    case App(e) =>
      Response(e.StatusCode(),
               Envelope(e.StatusCode(), e.Code(), e.ClassName(), e.message,
                        if e.description != "" then e.description else e.message))
  }

  /** The general handler's response is the same for every exception, so no exception text leaks. */
  lemma {:induction false} GeneralResponseIsConstant(a: Exception, b: Exception)
    ensures GeneralExceptionHandler(a) == GeneralExceptionHandler(b)
  {
  }

  /** The response to an application error depends only on the five public attributes:
      the diagnostic fields (`field`, `resource_type`, `resource_id`) never reach it. */
  lemma {:induction false} ResponseDependsOnPublicFields(a: AppError, b: AppError)
    requires a.Code() == b.Code() && a.StatusCode() == b.StatusCode() && a.ClassName() == b.ClassName()
    requires a.message == b.message && a.description == b.description
    ensures AppExceptionHandler(App(a)) == AppExceptionHandler(App(b))
  {
  }

  /** A subclass instance is answered with the status and code of its row in the taxonomy. */
  lemma {:induction false} SubclassResponseFollowsTaxonomy(e: AppError)
    requires e.IsSubclass()
    ensures var r := AppExceptionHandler(App(e));
      exists row :: row in Taxonomy && r.content["error"] == JString(row.0)
                  && r.content["code"] == JString(row.1) && r.statusCode == row.2
  {
  }

  /** The body's `status_code` always equals the response status, and no subclass is answered with 500. */
  lemma {:induction false} StatusAgreesWithBody(exc: Exception)
    ensures AppExceptionHandler(exc).content["status_code"] == JInt(AppExceptionHandler(exc).statusCode)
    ensures exc.App? && exc.err.IsSubclass() ==> AppExceptionHandler(exc).statusCode != 500
  {
  }

  /** The description falls back to the message: `ValidationError("x")` is answered with description "x". */
  lemma {:induction false} DescriptionFallbackExample()
    ensures var r := AppExceptionHandler(App(ValidationError("x")));
      r.statusCode == 422 && r.content["description"] == JString("x")
      && r.content["code"] == JString("VALIDATION_ERROR")
  {
  }
}
