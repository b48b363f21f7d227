/**
 * Values shared by every module of the model: JavaScript's optional values
 * (`undefined`/`null` versus a present value), thrown errors as a failure
 * value carrying the error's message, and JavaScript numbers seen as a
 * real value or one of the non-finite IEEE values.
 */
module Common {

  /** A value that may be absent (`undefined` or `null` in the source). */
  datatype Option<+T> = None | Some(value: T) {

    /** The `??` operator: the value when present, else the fallback. */
    function OrElse(fallback: T): T {
      match this
      case Some(v) => v
      case None => fallback
    }
  }

  /**
   * The outcome of a step that may throw: `Ok` with its value, or `Err` with
   * the `message` of the thrown `Error`. Failure-compatible, so `:-` stops at
   * the first thrown error exactly as `await` inside a `try` does.
   */
  datatype Result<+T> = Ok(value: T) | Err(message: string) {

    predicate IsFailure() {
      Err?
    }

    function PropagateFailure<U>(): Result<U>
      requires Err?
    {
      Err(message)
    }

    function Extract(): T
      requires Ok?
    {
      value
    }
  }

  /**
   * A JavaScript number. Finite values are modelled as reals; the model does
   * not round them to doubles.
   */
  datatype JsNumber = Finite(value: real) | NaN | PositiveInfinity | NegativeInfinity

  /** `Number.isFinite`. */
  predicate IsFinite(n: JsNumber) {
    n.Finite?
  }
}
