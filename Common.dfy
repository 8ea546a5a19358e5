/** Values shared by the two query-composition objects: the nullable-reference
    stand-in, the outcome of an operation that may throw, and the exceptions
    the core raises or lets through. */
module Common {

  /** A C# reference that may be null. */
  datatype Option<+T> = None | Some(value: T)

  /** The exceptions that can leave the two objects. */
  datatype Error =
    | ArgumentNull(paramName: string)          // Error.ArgumentNull: ArgumentNullException
    | ArgumentNullOrEmpty(paramName: string)   // Error.ArgumentNullOrEmpty: ArgumentException
    | ODataError(message: string)              // ODataException thrown by the $apply parser
    | MissingService(serviceType: string)      // InvalidOperationException from GetRequiredService

  /** Either the value an operation returns or the exception it throws. */
  datatype Result<+T> = Ok(value: T) | Failure(error: Error)

  /** String.IsNullOrEmpty. */
  predicate IsNullOrEmpty(s: Option<string>) {
    s.None? || s.value == ""
  }
}
