/** Option and Result, the two sum types the engine returns everywhere.
    `Result` supports `:-`, which plays the part of Rust's `?` operator. */
module Results {

  datatype Option<+T> = None | Some(value: T)

  datatype Result<+T, +E> = Ok(value: T) | Err(error: E) {

    predicate IsFailure() {
      Err?
    }

    /** Re-types an error so that it can be returned from a caller with a different success type. */
    function PropagateFailure<U>(): Result<U, E>
      requires Err?
    {
      Err(error)
    }

    function Extract(): T
      requires Ok?
    {
      value
    }
  }
}
