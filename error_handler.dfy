/**
 * The backend's error type and its central error handler
 * (backend/src/middlewares/errorHandler.ts): the ordered chain of checks
 * that turns a thrown error into an HTTP status and a JSON body.
 */
module ErrorHandler {
  import opened Wrappers
  import Strings

  /** `class HttpError extends Error`: a message and the status it responds with. */
  datatype HttpError = HttpError(message: string, statusCode: int)

  /** Which class the thrown object is an instance of. */
  datatype ErrorKind =
    | HttpKind(statusCode: int)
    | PrismaKnownKind(code: string, target: seq<string>)
    | PlainKind

  /** A thrown error: its class, `err.name`, `err.message` and `err.stack` (possibly undefined). */
  datatype Error = Error(kind: ErrorKind, name: string, message: string, stack: Option<string>)

  /** The `stack` member of a fallback body: left out when undefined, `null` in production. */
  datatype StackField = Omitted | NullStack | StackTrace(text: string)

  /**
   * The response: status and JSON body. `errors` is only set for validation
   * errors and `stack` only for the fallback.
   */
  datatype ErrorResponse = ErrorResponse(
    status: int, success: bool, message: string, errors: Option<string>, stack: StackField)

  /** An `HttpError` as thrown; its class name stays `Error`. */
  function Thrown(e: HttpError): Error {
    Error(HttpKind(e.statusCode), "Error", e.message, None)
  }

  const GenericMessage := "Something went wrong on the server"

  /**
   * `errorHandler(err, req, res, next)`, given the response's current status
   * (`res.statusCode`) and whether `NODE_ENV` is `production`.
   */
  function HandleError(err: Error, currentStatus: int, production: bool): (r: ErrorResponse)
    ensures !r.success
    ensures err.kind.HttpKind? ==> r.status == err.kind.statusCode && r.message == err.message
    ensures r.stack != Omitted && production ==> r.stack == NullStack
    ensures production && r.stack.NullStack? ==> r.message == GenericMessage
  {
    if err.kind.HttpKind? then
      ErrorResponse(err.kind.statusCode, false, err.message, None, Omitted)
    else if err.kind.PrismaKnownKind? && err.kind.code == "P2002" then
      ErrorResponse(409, false,
        "A record with this " + Strings.Join(err.kind.target, ", ") + " already exists.", None, Omitted)
    else if err.kind.PrismaKnownKind? && err.kind.code == "P2025" then
      ErrorResponse(404, false, "Record not found.", None, Omitted)
    else if err.name == "ValidationError" then
      ErrorResponse(400, false, "Validation Error", Some(err.message), Omitted)
    else if err.name == "JsonWebTokenError" || err.name == "TokenExpiredError" then
      ErrorResponse(401, false, "Invalid or expired token, please login again", None, Omitted)
    else
      var statusCode := if currentStatus == 200 then 500 else currentStatus;
      if production then
        ErrorResponse(statusCode, false, GenericMessage, None, NullStack)
      else
        ErrorResponse(statusCode, false, err.message, None,
          if err.stack.Some? then StackTrace(err.stack.value) else Omitted)
  }

  /** An `HttpError` responds with its own status and message, whatever else holds. */
  lemma HttpErrorResponds(e: HttpError, currentStatus: int, production: bool)
    ensures HandleError(Thrown(e), currentStatus, production)
      == ErrorResponse(e.statusCode, false, e.message, None, Omitted)
  {
  }

  /** Prisma's unique-constraint error P2002 is a 409 naming the target fields. */
  lemma UniqueViolation(target: seq<string>, name: string, message: string, stack: Option<string>,
                        currentStatus: int, production: bool)
    ensures var r := HandleError(Error(PrismaKnownKind("P2002", target), name, message, stack), currentStatus, production);
      r.status == 409 && r.message == "A record with this " + Strings.Join(target, ", ") + " already exists."
  {
  }

  /** Prisma's record-not-found error P2025 is a 404. */
  lemma RecordNotFound(target: seq<string>, name: string, message: string, stack: Option<string>,
                       currentStatus: int, production: bool)
    ensures var r := HandleError(Error(PrismaKnownKind("P2025", target), name, message, stack), currentStatus, production);
      r.status == 404 && r.message == "Record not found."
  {
  }

  /** Any other Prisma code is handled exactly as a plain error with the same name and message. */
  lemma OtherPrismaCodesFallThrough(code: string, target: seq<string>, name: string, message: string,
                                    stack: Option<string>, currentStatus: int, production: bool)
    requires code != "P2002" && code != "P2025"
    ensures HandleError(Error(PrismaKnownKind(code, target), name, message, stack), currentStatus, production)
      == HandleError(Error(PlainKind, name, message, stack), currentStatus, production)
  {
  }

  /** The status a non-HTTP, non-Prisma error gets, from its name and the current status. */
  function PlainStatus(name: string, currentStatus: int): int {
    if name == "ValidationError" then 400
    else if name == "JsonWebTokenError" || name == "TokenExpiredError" then 401
    else if currentStatus == 200 then 500
    else currentStatus
  }

  /**
   * For a plain error: a `ValidationError` is 400, a token error is 401, and
   * anything else keeps the current status unless it is 200, which becomes 500.
   */
  lemma PlainErrorStatus(name: string, message: string, stack: Option<string>, currentStatus: int, production: bool)
    ensures HandleError(Error(PlainKind, name, message, stack), currentStatus, production).status
      == PlainStatus(name, currentStatus)
  {
  }

  /**
   * The bodies for an error that is neither an `HttpError` nor a handled
   * Prisma error: a `ValidationError` carries its message under `errors`, a
   * token error has a fixed message, and outside production the fallback
   * shows the error's own message and its stack (left out when undefined).
   */
  lemma PlainErrorBodies(name: string, message: string, stack: Option<string>, currentStatus: int, production: bool)
    ensures var r := HandleError(Error(PlainKind, name, message, stack), currentStatus, production);
      && (name == "ValidationError" ==>
            r == ErrorResponse(400, false, "Validation Error", Some(message), Omitted))
      && (name != "ValidationError" && (name == "JsonWebTokenError" || name == "TokenExpiredError") ==>
            r == ErrorResponse(401, false, "Invalid or expired token, please login again", None, Omitted))
      && (name != "ValidationError" && name != "JsonWebTokenError" && name != "TokenExpiredError" && !production ==>
            r == ErrorResponse(PlainStatus(name, currentStatus), false, message, None,
                               if stack.Some? then StackTrace(stack.value) else Omitted))
  {
  }

  /** In production the fallback shows neither the error's message nor its stack. */
  lemma ProductionHidesDetails(err: Error, currentStatus: int)
    requires err.kind.PlainKind?
    requires err.name != "ValidationError" && err.name != "JsonWebTokenError" && err.name != "TokenExpiredError"
    ensures var r := HandleError(err, currentStatus, true);
      r.message == GenericMessage && r.stack == NullStack && r.errors == None
  {
  }
}
