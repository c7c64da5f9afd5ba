/** Failure-carrying results, used wherever the Python code raises or exits. */
module Wrappers {

  datatype Option<+T> = None | Some(value: T)

  /** Why a Python step would stop: the exception or exit status it raises. */
  datatype Error =
    | KeyError(key: string)          // a missing dict / HDF5 key
    | IndexError                     // a list index or split field out of range
    | ValueError(text: string)       // float() or int() of text that is not a number
    | Exit(status: int)              // an explicit exit(status)
    | NameError(name: string)        // a name used but never bound
    | ZeroDivision                   // division by zero
    | Numpy(what: string)            // a numpy shape or truth-value error
    | OSError(path: string)          // a file that cannot be opened
    | TypeError(what: string)        // a value of the wrong type

  datatype Result<+T> = Ok(value: T) | Err(error: Error)
}
