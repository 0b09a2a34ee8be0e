/** Option and Result values used for lookups that may miss and decoders that may fail. */
module Wrappers {

  datatype Option<+T> = None | Some(value: T)

  /** A success value or an error; usable with `:-`. */
  datatype Result<+T, +E> = Ok(value: T) | Err(error: E) {
    predicate IsFailure() {
      Err?
    }

    function PropagateFailure<U>(): Result<U, E>
      requires Err?
    {
      Err(error)
    }

    function Extract(): T
      requires Ok?
    {
      value
    }
  }
}
