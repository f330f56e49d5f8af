/** The outcome types of the pipeline: a value that may be absent from a JSON
    body, and the result of a step that either succeeds or reports the fault
    that ends the run, propagated by `:-`. */
module Results {

  datatype Option<+T> = None | Some(value: T)

  /** Either the value an operation produced or the fault that ended the run. */
  datatype Result<+T, +E> = Ok(value: T) | Err(error: E) {

    predicate IsFailure() {
      Err?
    }

    function PropagateFailure<U>(): Result<U, E>
      requires Err?
    {
      Err(error)
    }

    function Extract(): T
      requires Ok?
    {
      value
    }
  }
}
