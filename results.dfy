/** Outcomes of computations that, in the JavaScript engine, may abort with an
    exception: reading `pieceColor` of the `undefined` that `Array.find` returns for
    a square id that is not on the board, or calling a function that is not defined. */
module Results {

  /** `Ok(v)` when the computation finishes with `v`; `Throws` when the event handler
      running it aborts. */
  datatype Result<+T> = Ok(value: T) | Throws {

    predicate IsFailure() {
      Throws?
    }

    function PropagateFailure<U>(): Result<U>
      requires Throws?
    {
      Throws
    }

    function Extract(): T
      requires Ok?
    {
      value
    }
  }

  /** What `Array.find` returns: an element, or `undefined`. */
  datatype Option<+T> = None | Some(value: T)
}
