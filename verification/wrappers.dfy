/** Option and exception-carrying result types shared by every module of the model. */
module Wrappers {

  datatype Option<+T> = None | Some(value: T) {
    function GetOr(default: T): T {
      match this
      case Some(v) => v
      case None => default
    }
  }

  /** The .NET exceptions the quoter and its interpreter can throw. */
  datatype Exception =
    | NotSupported(message: string)          // NotSupportedException
    | NotImplemented(message: string)        // NotImplementedException
    | NullReference                          // a member access through a null reference
    | IndexOutOfRange                        // an array or list index past its end
    | ArgumentOutOfRange                     // string.Substring with a negative length
    | InvalidOperation                       // Enumerable.Min over an empty sequence
    | ArgumentError(message: string)         // Enum.Parse of an unknown name
    | ArgumentNull                           // Enumerable.Select over a null list
    | InvalidCast                            // a cast to ApiCall of something that is not one
    | Failure(message: string)               // a plain System.Exception

  datatype Result<+T> = Ok(value: T) | Err(error: Exception) {
    predicate IsFailure() { Err? }
    function PropagateFailure<U>(): Result<U>
      requires Err?
    {
      Err(error)
    }
    function Extract(): T
      requires Ok?
    {
      value
    }
  }
}
