/**
 * The entities that one attempt of the retry loop produces: the captured
 * exception, the outcome of calling the unit of work, the `Attempt` record
 * that tags it with its number, and the `RetryError` raised on giving up.
 */
module Outcomes {

  /**
   * A Python exception reduced to what the retry engine can observe: the name
   * of its class, the names of the classes that class inherits from, and its
   * message. The traceback is not modelled.
   */
  datatype PyException = PyException(typeName: string, bases: set<string>, message: string) {

    /** `isinstance(exception, types)` for a tuple of exception classes given by name. */
    predicate IsInstanceOf(types: set<string>) {
      typeName in types || bases * types != {}
    }
  }

  /** What one call of the unit of work did: returned a value or raised an exception. */
  datatype Outcome<V> = Value(value: V) | Failure(exception: PyException)

  /**
   * An `Attempt`: the outcome of one call together with its 1-based attempt
   * number. Holding exactly one of a returned value and an exception is built
   * into `Outcome`; Python's `value` property is the `outcome` field.
   */
  datatype Attempt<V> = Attempt(outcome: Outcome<V>, attemptNumber: int) {

    /** The `has_exception` property. */
    predicate HasException() {
      outcome.Failure?
    }

    /**
     * `Attempt.get`: hand back the returned value, or raise the captured
     * exception, or, when `wrapException` is set, raise a `RetryError` that
     * carries this attempt.
     */
    function Get(wrapException: bool): (r: CallResult<V>)
      ensures r.Returned? <==> !HasException()
      ensures r.Returned? ==> outcome == Value(r.value)
      ensures r.Raised? <==> HasException() && !wrapException
      ensures r.Raised? ==> outcome == Failure(r.exception)
      ensures r.RetryErrorRaised? <==> HasException() && wrapException
      ensures r.RetryErrorRaised? ==> r.error.lastAttempt == this
    {
      match outcome
      case Failure(e) => if wrapException then RetryErrorRaised(RetryError(this)) else Raised(e)
      case Value(v) => Returned(v)
    }
  }

  /** The error raised when the retry loop gives up; it carries the last attempt. */
  datatype RetryError<V> = RetryError(lastAttempt: Attempt<V>)

  /**
   * How a call through the retry engine ends, as its caller observes it:
   * a returned value, a raised exception, or a raised `RetryError`.
   */
  datatype CallResult<V> =
    | Returned(value: V)
    | Raised(exception: PyException)
    | RetryErrorRaised(error: RetryError<V>)
}
