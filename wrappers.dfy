/** Option and Result, the failure-carrying values the rest of the model uses
    where the Python code raises or returns None. */
module Wrappers {

  datatype Option<+T> = None | Some(value: T)

  /** Ok carries the value; Err names the Python exception that would be raised. */
  datatype Result<+T> = Ok(value: T) | Err(error: string)
}
