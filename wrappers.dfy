/** Option and Result, specialised to the error values the certificate core can
    produce or pass through. `Result` is failure-compatible, so `:-` gives the
    early-return style of Go's `if err != nil { return nil, err }`. */
module Wrappers {

  /** Go `error` values seen by the core. A library collaborator (key
      generation, signing, parsing, marshalling) may fail with any `Error`;
      `LibraryError`, an uninterpreted code, is the value meant for its errors,
      and CA.LibraryErrorsOnly states that a collaborator keeps to it. */
  datatype Error =
    | InvalidUnit(unit: string)
    | LibraryError(code: int)

  datatype Option<+T> = None | Some(value: T)

  datatype Result<+T> = Success(value: T) | Failure(error: Error) {

    predicate IsFailure() {
      Failure?
    }

    function PropagateFailure<U>(): Result<U>
      requires Failure?
    {
      Failure(error)
    }

    function Extract(): T
      requires Success?
    {
      value
    }
  }
}
