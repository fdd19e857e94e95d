/** The API's error handling: the application error type, the global handler that turns any
    thrown error into a JSON error response, and the handler for unknown routes. */
module ErrorHandler {
  import opened Common

  /** A thrown error: an application error with its status and operational flag, or any
      other error. Both carry a message and the captured stack text. */
  datatype ThrownError =
    | AppError(message: string, stack: string, statusCode: int, isOperational: bool)
    | PlainError(message: string, stack: string)

  const InternalServerError: string := "Internal server error"

  /** `new AppError(message, statusCode = 500, isOperational = true)`; an omitted argument
      takes its default. */
  function NewAppError(message: string, stack: string, statusCode: Option<int>, isOperational: Option<bool>)
    : (e: ThrownError)
    ensures e.AppError? && e.message == message && e.stack == stack
    ensures e.statusCode == (if statusCode.Some? then statusCode.value else 500)
    ensures e.isOperational == (if isOperational.Some? then isOperational.value else true)
  {
    AppError(message, stack,
      match statusCode case Some(s) => s case None => 500,
      match isOperational case Some(b) => b case None => true)
  }

  /** The JSON body sent, with the HTTP status. `stack` and `error` appear only in the
      development environment. */
  datatype ErrorResponse = ErrorResponse(
    status: int, success: bool, message: string, stack: Option<string>, error: Option<ThrownError>)

  /** errorHandler. Only an application error chooses the status and the message; any other
      error is a 500 whose own message is withheld. */
  method HandleError(err: ThrownError, nodeEnv: string) returns (res: ErrorResponse)
    ensures !res.success
    ensures err.AppError? ==> res.status == err.statusCode && res.message == err.message
    ensures err.PlainError? ==> res.status == 500 && res.message == InternalServerError
    ensures nodeEnv == "development" <==> res.stack.Some?
    ensures nodeEnv == "development" <==> res.error.Some?
    ensures res.stack.Some? ==> res.stack.value == err.stack && res.error == Some(err)
  {
    var statusCode := 500;
    var message := InternalServerError;
    var isOperational := false;
    if err.AppError? {
      statusCode := err.statusCode;
      message := err.message;
      isOperational := err.isOperational;
    }
    res := ErrorResponse(statusCode, false, message, None, None);
    if nodeEnv == "development" {
      res := res.(stack := Some(err.stack), error := Some(err));
    }
  }

  /** notFoundHandler: the error it passes on for an unknown route. */
  function NotFound(originalUrl: string, stack: string): (e: ThrownError)
    ensures e.AppError? && e.statusCode == 404 && e.isOperational
    ensures e.message == "Route not found: " + originalUrl
    ensures e.message[|"Route not found: "|..] == originalUrl
  {
    NewAppError("Route not found: " + originalUrl, stack, Some(404), None)
  }
}
