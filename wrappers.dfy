/** Small value types shared by every extraction class. */
module Wrappers {

  /** A field that Python initialises to None, or a value that may be absent. */
  datatype Option<T> = None | Some(value: T)

  /** The message that the exception-catching calcParameters methods return. */
  const CalcError: string := "error: could not calculate parameters"

  /** Return value of a calcParameters that catches every exception:
      the integer 0 on success, the error string otherwise. */
  datatype CalcStatus = ReturnedZero | ReturnedError(message: string)

  /** How a call without an exception handler ends: normally, or with an
      exception that propagates to the caller. */
  datatype Completion = Completed | Raised
}
