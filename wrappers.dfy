/** Option and Result values, and the exceptions the command-line tool can raise
    before it reaches the external store. */
module Wrappers {

  datatype Option<T> = None | Some(value: T)

  datatype Result<T, E> = Ok(value: T) | Err(error: E)

  /** The failures of main.py that the model captures; each one ends the process
      with an uncaught exception. */
  datatype Error =
    | IndexError(index: nat, length: nat)    // a list indexed past its end
    | UnpackError(expected: nat, got: nat)   // `a, b, c = chunk` with a short chunk
    | FileNotFound(path: string)             // `open(path)` of a file that is not there
}
