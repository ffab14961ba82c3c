// The two result shapes the model uses for std::optional and for thrown exceptions.
module Wrappers {

  datatype Option<+T> = None | Some(value: T) {
    predicate IsFailure() {
      None?
    }

    function PropagateFailure<U>(): Option<U>
      requires None?
    {
      None
    }

    function Extract(): T
      requires Some?
    {
      value
    }
  }

  /** A call either returns a value or throws an error of type E. */
  datatype Result<+T, +E> = Ok(value: T) | Err(error: E)
}
