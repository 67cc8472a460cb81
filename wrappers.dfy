/** Small failure-compatible wrappers shared by every module of the model. */
module Wrappers {

  /** A value that may be absent (PHP's `null` or `false` sentinel results). */
  datatype Option<T> = None | Some(value: T) {
    function GetOr(default: T): T {
      match this
      case Some(v) => v
      case None => default
    }
  }

  /** The throwables the core can raise, as the source names them. */
  datatype Failure =
    | Exception(message: string)                // _3xAPI\Exceptions\Exception and PHP's \Exception
    | ModelException(message: string)           // _3xAPI\Exceptions\ModelException
    | NetworkException(message: string, code: int)
    | UndefinedMethod(name: string)             // PHP Error: call to an undefined method
    | ValueError(message: string)               // PHP ValueError raised by a library function
    | PhpError(message: string)                 // PHP Error or TypeError raised by the engine

  /** The outcome of an operation that may throw. */
  datatype Result<T> = Ok(value: T) | Err(error: Failure)
}
