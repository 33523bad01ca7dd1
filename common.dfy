/** Values shared by the planner and the alert-sound models. */
module Common {

  /** The Python exceptions the modelled code can raise. */
  datatype PyError =
    | ValueError          // `min` of an empty list
    | AttributeError      // reading an attribute that was never assigned
    | KeyError            // a dictionary lookup with a missing key
    | ZeroDivisionError   // `%` or `//` by zero

  /** Either the value a Python call returns or the exception it raises. */
  datatype Result<+T> = Success(value: T) | Failure(error: PyError)

  /** A value that may be absent, such as an attribute not yet assigned. */
  datatype Option<+T> = None | Some(value: T)

  function Max(a: real, b: real): real { if a >= b then a else b }

  function Min(a: real, b: real): real { if a <= b then a else b }
}
