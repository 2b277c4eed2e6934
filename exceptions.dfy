/**
 * The exception taxonomy of the server: the base class `HttpException` and
 * its subclasses.  Every subclass constructor only fixes some of the base
 * constructor's arguments, so the whole hierarchy is one datatype and each
 * subclass is a function that builds a value of it.  Because the base
 * constructor resets the prototype to the base class, every instance of a
 * subclass is observably just an `HttpException`, which the single datatype
 * captures directly.
 */
module Exceptions {
  import opened Wrappers

  /** The message that replaces whatever a non-operational or unrecognised error said. */
  const GenericMessage: string := "Something went wrong!"

  /**
   * The `errors` payload of an exception.  The source types it as `any`; the
   * values it ever takes are `undefined` (argument omitted), `null` (internal
   * errors) and the object `{ validationErrors }` built by validation.
   */
  datatype Errors = Undefined | Null | FieldErrors(validationErrors: map<string, string>)

  datatype HttpException = HttpException(
    message: string,
    statusCode: int,
    errors: Errors,
    isOperational: bool)

  /**
   * The base constructor.  `errors` is `Undefined` when the caller omits it;
   * `isOperational` is an optional argument whose default is `true`.
   */
  function NewHttpException(message: string, statusCode: int, errors: Errors, isOperational: Option<bool>): (e: HttpException)
    ensures e.message == message && e.statusCode == statusCode && e.errors == errors
    ensures e.isOperational <==> isOperational != Some(false)
  {
    HttpException(message, statusCode, errors, isOperational.GetOr(true))
  }

  /** `new HttpException(message, statusCode)`: both optional arguments omitted. */
  function Root(message: string, statusCode: int): (e: HttpException)
    ensures e.message == message && e.statusCode == statusCode
    ensures e.errors == Undefined && e.isOperational
  {
    NewHttpException(message, statusCode, Undefined, None)
  }

  /** InternalException: status 500, `errors` null, and not operational. */
  function Internal(message: string): (e: HttpException)
    ensures e.message == message && e.statusCode == 500
    ensures e.errors == Null && !e.isOperational
  {
    NewHttpException(message, 500, Null, Some(false))
  }

  /** ValidationException: status and errors are supplied by the caller. */
  function Validation(message: string, statusCode: int, errors: Errors): (e: HttpException)
    ensures e.message == message && e.statusCode == statusCode
    ensures e.errors == errors && e.isOperational
  {
    NewHttpException(message, statusCode, errors, None)
  }

  function BadRequest(message: string): (e: HttpException)
    ensures e == HttpException(message, 400, Undefined, true)
  {
    Root(message, 400)
  }

  function Unauthorized(message: string): (e: HttpException)
    ensures e == HttpException(message, 401, Undefined, true)
  {
    Root(message, 401)
  }

  function Forbidden(message: string): (e: HttpException)
    ensures e == HttpException(message, 403, Undefined, true)
  {
    Root(message, 403)
  }

  function NotFound(message: string): (e: HttpException)
    ensures e == HttpException(message, 404, Undefined, true)
  {
    Root(message, 404)
  }

  function AlreadyExist(message: string): (e: HttpException)
    ensures e == HttpException(message, 409, Undefined, true)
  {
    Root(message, 409)
  }

  function TooManyRequests(message: string): (e: HttpException)
    ensures e == HttpException(message, 429, Undefined, true)
  {
    Root(message, 429)
  }
}
