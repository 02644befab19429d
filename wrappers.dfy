/** Failure-carrying values used where the Python code raises or produces a
    non-finite number instead of returning a value. */
module Wrappers {

  datatype Option<+T> = None | Some(value: T)

  /** The exceptions the modelled code raises. */
  datatype Error =
    | KeyError(key: string)          // a dictionary lookup of a missing key
    | NotImplemented(message: string) // `raise NotImplementedError(...)`
    | ShapeError                     // arrays whose shapes do not broadcast
    | ZeroDivision                   // Python float division by zero
    | NameError(name: string)        // a name used without being defined or imported

  datatype Result<+T> = Ok(value: T) | Err(error: Error)
}
