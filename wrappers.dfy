/** Option and Result, standing for Python's "maybe absent" values and raised exceptions. */
module Wrappers {

  datatype Option<+T> = None | Some(value: T)

  /** `Err` is an exception the Python code raises; `Ok` is a normal return. */
  datatype Result<+R, +E> = Ok(value: R) | Err(error: E)

}
