/** Values that may be missing, and calls that may fail with a message. */
module Results {
  datatype Option<+T> = None | Some(value: T)

  datatype Result<+T> = Ok(value: T) | Err(message: string) {
    predicate IsFailure() {
      Err?
    }

    function PropagateFailure<U>(): Result<U>
      requires IsFailure()
    {
      Err(message)
    }

    function Extract(): T
      requires !IsFailure()
    {
      value
    }
  }
}
