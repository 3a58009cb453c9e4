/** Option and Result: absent values and the exceptions or error returns of the service. */
module Wrappers {
  datatype Option<T> = None | Some(value: T)

  /** `Err` carries the text the service puts in its exception or error message. */
  datatype Result<T> = Ok(value: T) | Err(msg: string)
}
