/** Option and Result, the two wrapper types the model uses for absent values and error paths. */
module Wrappers {

  datatype Option<T> = None | Some(value: T)

  /** A success value or an error, usable with `:-`. */
  datatype Result<T, E> = Ok(value: T) | Err(error: E)
  {
    predicate IsFailure() { Err? }

    function PropagateFailure<U>(): Result<U, E>
      requires Err?
    {
      Err(error)
    }

    function Extract(): T
      requires Ok?
    {
      value
    }
  }
}
