/** server/utils/error-handler.ts: the central handler that turns whatever an API
    route caught into the HTTP error it throws, and the two response envelopes. */
module ErrorHandler {
  import opened Common
  import opened Strings
  import opened JsValues

  /** The object built by `createError`. */
  datatype HttpError = HttpError(statusCode: int, statusMessage: Value)

  /** What handleApiError throws; it never returns normally, so there is no other case. */
  datatype Thrown =
    | Created(httpError: HttpError)   // a fresh `createError(...)`
    | Rethrown(original: Value)       // the caught error itself
    | TypeErrorThrown                 // reading `.code`, or calling `.startsWith`, failed

  const DuplicateMessage := "Une ressource avec ces données existe déjà"
  const NotFoundMessage := "Ressource non trouvée"
  const DatabaseMessage := "Erreur de base de données"
  const InternalMessage := "Erreur interne du serveur"

  /** `error.code`, with undefined when the access itself throws (that case is
      handled before this is consulted). */
  function CodeOf(error: Value): Value {
    match Prop(error, "code")
    case Got(v) => v
    case TypeError => Undefined
  }

  /** `error.code && error.code.startsWith('P')` holds. */
  predicate IsPrismaError(error: Value) {
    var code := CodeOf(error);
    code.Str? && StartsWith(code.s, "P")
  }

  /** The `&&` reaches `.startsWith` on a truthy value that is not a string, which has
      no such method. */
  predicate StartsWithFails(error: Value) {
    var code := CodeOf(error);
    Truthy(code) && !code.Str?
  }

  function StatusCodeOf(error: Value): Value {
    match Prop(error, "statusCode")
    case Got(v) => v
    case TypeError => Undefined
  }

  function MessageOf(error: Value): Value {
    match Prop(error, "message")
    case Got(v) => v
    case TypeError => Undefined
  }

  /** The Prisma branch: the switch on the error code. */
  function PrismaError(code: string): (r: HttpError)
    ensures code == "P2002" <==> r.statusCode == 409
    ensures code == "P2025" <==> r.statusCode == 404
    ensures code != "P2002" && code != "P2025" <==> r == HttpError(500, Str(DatabaseMessage))
  {
    if code == "P2002" then HttpError(409, Str(DuplicateMessage))
    else if code == "P2025" then HttpError(404, Str(NotFoundMessage))
    else HttpError(500, Str(DatabaseMessage))
  }

  /** handleApiError; the `context` argument only labels the console line. */
  function HandleApiError(error: Value): (r: Thrown)
    ensures r.TypeErrorThrown? <==> error.Undefined? || error.Null? || StartsWithFails(error)
    ensures r.Rethrown? ==> r.original == error
  {
    if error.Undefined? || error.Null? then TypeErrorThrown
    else if StartsWithFails(error) then TypeErrorThrown
    else if IsPrismaError(error) then Created(PrismaError(CodeOf(error).s))
    else if Truthy(StatusCodeOf(error)) then Rethrown(error)
    else
      var message := MessageOf(error);
      Created(HttpError(500, if Truthy(message) then message else Str(InternalMessage)))
  }

  /** A Prisma code decides the error even when the error already carries a status
      code; the three Prisma outcomes are 409, 404 and 500. */
  lemma PrismaTakesPrecedence(error: Value)
    requires IsPrismaError(error)
    ensures HandleApiError(error) == Created(PrismaError(CodeOf(error).s))
    ensures CodeOf(error) == Str("P2002") <==> HandleApiError(error) == Created(HttpError(409, Str(DuplicateMessage)))
    ensures CodeOf(error) == Str("P2025") <==> HandleApiError(error) == Created(HttpError(404, Str(NotFoundMessage)))
  {
  }

  /** An error that is not a Prisma error and has a status code is thrown unchanged;
      one with neither becomes a 500 carrying its own message, or the generic one. */
  lemma NonPrismaErrors(error: Value)
    requires !error.Undefined? && !error.Null? && !StartsWithFails(error) && !IsPrismaError(error)
    ensures HandleApiError(error).Rethrown? <==> Truthy(StatusCodeOf(error))
    ensures !Truthy(StatusCodeOf(error)) ==>
              HandleApiError(error).Created? && HandleApiError(error).httpError.statusCode == 500
    ensures !Truthy(StatusCodeOf(error)) && !Truthy(MessageOf(error)) ==>
              HandleApiError(error) == Created(HttpError(500, Str(InternalMessage)))
    ensures !Truthy(StatusCodeOf(error)) && Truthy(MessageOf(error)) ==>
              HandleApiError(error) == Created(HttpError(500, MessageOf(error)))
  {
  }

  /** Every error the handler creates has a status code of 409, 404 or 500 and a
      non-empty message. */
  lemma CreatedErrorsAreWellFormed(error: Value)
    requires HandleApiError(error).Created?
    ensures var e := HandleApiError(error).httpError;
            (e.statusCode == 409 || e.statusCode == 404 || e.statusCode == 500) && Truthy(e.statusMessage)
  {
  }

  /** The ApiResponse envelope; `Undefined` and `None` stand for the absent properties. */
  datatype ApiResponse = ApiResponse(success: bool, data: Value, message: Option<string>,
                                     errors: Option<seq<string>>, timestamp: string)

  /** formatSuccessResponse; `timestamp` is the ISO form of the current date. */
  function FormatSuccessResponse(data: Value, message: Option<string>, timestamp: string): (r: ApiResponse)
    ensures r.success && r.data == data && r.message == message && r.errors.None? && r.timestamp == timestamp
  {
    ApiResponse(true, data, message, None, timestamp)
  }

  /** formatErrorResponse. */
  function FormatErrorResponse(message: string, errors: Option<seq<string>>, timestamp: string): (r: ApiResponse)
    ensures !r.success && r.data.Undefined? && r.message == Some(message) && r.errors == errors
    ensures r.timestamp == timestamp
  {
    ApiResponse(false, Undefined, Some(message), errors, timestamp)
  }
}
