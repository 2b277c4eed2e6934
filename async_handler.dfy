/**
 * The wrapper every controller is built with: it runs the asynchronous
 * controller and, if the returned promise rejects, hands one `HttpException`
 * to Express's `next`.  What the wrapped controller itself does with `next`
 * is outside the wrapper and not modelled here.
 */
module AsyncHandler {
  import opened Exceptions

  /** A value a controller can reject with: one of the taxonomy, or anything else (a TypeError, a driver error, ...). */
  datatype Thrown = Raised(exception: HttpException) | Fault(description: string)

  /** The settled state of a controller's promise. */
  datatype Settled<+T> = Resolved(value: T) | Rejected(reason: Thrown)

  /**
   * The `catch` branch: an `HttpException` is passed on as it is, anything
   * else is replaced by an internal exception with the generic message.
   */
  function Normalize(reason: Thrown): (e: HttpException)
    ensures reason.Raised? ==> e == reason.exception
    ensures reason.Fault? ==> e == Internal(GenericMessage)
  {
    match reason
    case Raised(exception) => exception
    case Fault(_) => Internal(GenericMessage)
  }

  /** The calls the wrapper makes to `next`, in order. */
  function NextCalls<T>(outcome: Settled<T>): (calls: seq<HttpException>)
    ensures outcome.Resolved? ==> calls == []
    ensures outcome.Rejected? ==> |calls| == 1 && calls[0] == Normalize(outcome.reason)
  {
    match outcome
    case Resolved(_) => []
    case Rejected(reason) => [Normalize(reason)]
  }

  /**
   * A rejection that is not an `HttpException` always reaches `next` as a
   * non-operational 500, so its own description is never reused.
   */
  lemma {:induction false} FaultBecomesInternal<T>(outcome: Settled<T>)
    requires outcome.Rejected? && outcome.reason.Fault?
    ensures NextCalls(outcome)[0].statusCode == 500
    ensures !NextCalls(outcome)[0].isOperational
    ensures NextCalls(outcome)[0].message == GenericMessage
  {
  }
}
