/** Nullable references and the exceptions the weaving context throws, as values. */
module Exceptions {

  /** A reference that may be null: `None` stands for `null`. */
  datatype Option<+T> = None | Some(value: T)

  /** The .NET exceptions raised by the weaving context, each with the text it carries. */
  datatype Exception =
    | ArgumentNullException(paramName: string)
    | ArgumentOutOfRangeException(paramName: string)
    | ArgumentException(message: string)

  /** Either the value an operation returns, or the exception it throws. */
  datatype Result<+T> = Ok(value: T) | Throw(exception: Exception)
}
