/** The three small sum types the model threads through its functions. */
module Wrappers {

  /** A value that may be absent: a settings field missing from saved data, or a reader
      that found no match. The three members below let `:-` stop at the first absent
      value and hand the present one on. */
  datatype Option<+T> = None | Some(value: T) {
    predicate IsFailure() { None? }

    function PropagateFailure<U>(): Option<U>
      requires None?
    {
      None
    }

    function Extract(): T
      requires Some?
    {
      value
    }

    /** The held value, falling back to `fallback` when absent: the `??`-style defaulting
        that laying saved settings over the defaults performs field by field. */
    function ValueOr(fallback: T): T {
      match this
      case Some(v) => v
      case None => fallback
    }
  }

  /** A promise that settled: `Success` with the value it resolved to, or `Failure` with
      the `err.message` of its rejection. */
  datatype Result<+T, +E> = Success(value: T) | Failure(error: E)

  /** A promise that settles with no value of interest: it resolved, or it rejected with an
      error message. */
  datatype Outcome<+E> = Pass | Fail(error: E)
}
