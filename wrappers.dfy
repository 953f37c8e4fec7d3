/** Failure-carrying values shared by the pattern model. */
module Wrappers {

  /** A nullable reference: `None` stands for Java's `null`. */
  datatype Option<+T> = None | Some(value: T)

  /** The exceptions that escape the pattern code, with the messages it throws them with. */
  datatype Exception =
    | IllegalArgument(message: string)
    | IllegalState(message: string)
    | IndexOutOfBounds(index: int, size: int)
    | NullPointer

  /** The value a Java call returns, or the exception it throws. */
  datatype Result<+T> = Ok(value: T) | Err(error: Exception)
}
