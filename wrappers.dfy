/** Java's nullable references and thrown exceptions, as values. */
module Wrappers {

  /** `None` stands for Java's `null`. */
  datatype Option<+T> = None | Some(value: T)

  /** `Err` stands for an exception the source throws to its caller. */
  datatype Result<+T, +E> = Ok(value: T) | Err(error: E)
}
