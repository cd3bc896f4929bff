/** Option and Result, used where the Java code returns null or throws. */
module Wrappers {

  datatype Option<+T> = None | Some(value: T)

  /** The exceptions the modelled Java code throws or catches, by class name. */
  datatype Exception =
    | ArrayIndexOutOfBounds
    | NumberFormat(text: string)
    | IllegalArgument(message: string)
    | IllegalState(message: string)
    | UnsupportedOperation(message: string)
    | NullPointer
    | JsonParse(message: string)
    | PatternSyntax(pattern: string)
    | IO(message: string)
    | Thrown(message: string)

  datatype Result<+T> = Ok(value: T) | Err(error: Exception)
}
