/** Option and Result, used where the Kotlin code returns null or throws. */
module Wrappers {

  datatype Option<+T> = None | Some(value: T)

  /** `Err` stands for an exception thrown by the source, with its message. */
  datatype Result<+T> = Ok(value: T) | Err(message: string)
}
