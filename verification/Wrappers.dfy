/** The two outcome types every operation here uses: a value that may be missing, and an
    operation that may fail. */
module Wrappers {

  datatype Option<+T> = None | Some(value: T)

  /** Why an operation of Xmip Storage fails. */
  datatype Error =
    | Malformed        // a record that cannot be read as what its place keeps
    | PublishedBefore  // the Message was published before as another Publication

  datatype Result<+T> = Ok(value: T) | Err(error: Error) {
    predicate IsFailure() {
      Err?
    }

    function PropagateFailure<U>(): Result<U>
      requires Err?
    {
      Err(error)
    }

    function Extract(): T
      requires Ok?
    {
      value
    }
  }
}
