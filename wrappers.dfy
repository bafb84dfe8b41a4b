/** Option and Result values used where the renderer returns "nothing found" or throws. */
module Wrappers {

  datatype Option<+T> = None | Some(value: T)

  /** `Err` carries the message of the `std::runtime_error` the source throws. */
  datatype Result<+T> = Ok(value: T) | Err(error: string)
}
