/**
 * The Express error middleware: turns an `HttpException` into the status code
 * and JSON body of the response.  Logging is left out.  The stack trace is a
 * property the JavaScript runtime captures when the exception is built; it is
 * a parameter here.
 */
module ErrorMiddleware {
  import opened Wrappers
  import opened Exceptions

  const DevelopmentEnv: string := "development"

  /** The response body; `errors` and `stack` are omitted from the JSON when they are `Undefined` and `None`. */
  datatype ErrorBody = ErrorBody(success: bool, message: string, errors: Errors, stack: Option<string>)

  datatype ErrorReply = ErrorReply(status: int, body: ErrorBody)

  /** JavaScript truthiness of the `errors` payload: only the object form is truthy. */
  predicate Truthy(errors: Errors) {
    errors.FieldErrors?
  }

  /**
   * The reply for `error` when `NODE_ENV` is `nodeEnv` and the exception's
   * captured trace is `stack`.  A status code of 0 is falsy and becomes 500.
   */
  function Respond(error: HttpException, nodeEnv: Option<string>, stack: string): (r: ErrorReply)
    ensures r.status == (if error.statusCode != 0 then error.statusCode else 500)
    ensures !r.body.success
    ensures error.isOperational ==> r.body.message == error.message
    ensures !error.isOperational ==> r.body.message == GenericMessage
    ensures r.body.stack.Some? <==> nodeEnv == Some(DevelopmentEnv) && error.isOperational
    ensures r.body.stack.Some? ==> r.body.stack.value == stack
    ensures Truthy(error.errors) ==> r.body.errors == error.errors
    ensures !Truthy(error.errors) ==> r.body.errors == Undefined
  {
    var statusCode := if error.statusCode != 0 then error.statusCode else 500;
    var body := ErrorBody(
      false,
      if error.isOperational then error.message else GenericMessage,
      if Truthy(error.errors) then error.errors else Undefined,
      None);
    var body := if nodeEnv == Some(DevelopmentEnv) && error.isOperational then body.(stack := Some(stack)) else body;
    ErrorReply(statusCode, body)
  }

  /**
   * An internal exception never shows its own message or its stack, in any
   * environment: the reply is always 500 with the generic message.
   */
  lemma {:induction false} InternalNeverLeaks(message: string, nodeEnv: Option<string>, stack: string)
    ensures Respond(Internal(message), nodeEnv, stack)
         == ErrorReply(500, ErrorBody(false, GenericMessage, Undefined, None))
  {
  }

  /**
   * Every subclass with a fixed status code reaches the client with that code
   * and with its own message.
   */
  lemma {:induction false} SubclassReplies(message: string, nodeEnv: Option<string>, stack: string)
    ensures Respond(BadRequest(message), nodeEnv, stack).status == 400
    ensures Respond(Unauthorized(message), nodeEnv, stack).status == 401
    ensures Respond(Forbidden(message), nodeEnv, stack).status == 403
    ensures Respond(NotFound(message), nodeEnv, stack).status == 404
    ensures Respond(AlreadyExist(message), nodeEnv, stack).status == 409
    ensures Respond(TooManyRequests(message), nodeEnv, stack).status == 429
    ensures Respond(BadRequest(message), nodeEnv, stack).body.message == message
    ensures Respond(Unauthorized(message), nodeEnv, stack).body.message == message
    ensures Respond(Forbidden(message), nodeEnv, stack).body.message == message
    ensures Respond(NotFound(message), nodeEnv, stack).body.message == message
    ensures Respond(AlreadyExist(message), nodeEnv, stack).body.message == message
    ensures Respond(TooManyRequests(message), nodeEnv, stack).body.message == message
  {
  }

  /**
   * A validation exception carries its field map to the client unchanged,
   * under status 400 and the message the exception was built with.
   */
  lemma {:induction false} ValidationReply(message: string, fields: map<string, string>, nodeEnv: Option<string>, stack: string)
    ensures Respond(Validation(message, 400, FieldErrors(fields)), nodeEnv, stack).status == 400
    ensures Respond(Validation(message, 400, FieldErrors(fields)), nodeEnv, stack).body.message == message
    ensures Respond(Validation(message, 400, FieldErrors(fields)), nodeEnv, stack).body.errors == FieldErrors(fields)
  {
  }
}
