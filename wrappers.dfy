/** Option and the outcome of a Python computation that may raise. */
module Wrappers {

  datatype Option<+T> = None | Some(value: T)

  /** `Raised` stands for any Python exception (KeyError, TypeError, ValueError,
      ZeroDivisionError, AttributeError) that propagates out of the computation;
      the web framework answers such a request with HTTP 500. */
  datatype Result<+T> = Ok(value: T) | Raised {
    predicate IsFailure() { Raised? }
    function PropagateFailure<U>(): Result<U>
      requires Raised?
    {
      Raised
    }
    function Extract(): T
      requires Ok?
    {
      value
    }
  }
}
