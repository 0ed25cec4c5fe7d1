/** Option and Result, the shapes every other module uses for "maybe absent" and "may throw". */
module Wrappers {

  datatype Option<+T> = None | Some(value: T)

  /** `Err` stands for a thrown exception or a rejected promise in the modelled code. */
  datatype Result<+T, +E> = Ok(value: T) | Err(error: E)
}
