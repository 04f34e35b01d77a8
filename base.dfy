/** Shared vocabulary: optional values, results, raw bytes and the exception
    kinds the image proxy lets escape to the HTTP layer. */
module Base {

  /** One octet of an object's payload (PHP strings are byte strings). */
  newtype byte = b: int | 0 <= b < 256

  type Bytes = seq<byte>

  datatype Option<+T> = None | Some(value: T) {
    /** PHP's `$x ?? $default`. */
    function GetOr(default: T): T {
      if Some? then value else default
    }
  }

  datatype Result<+T, +E> = Ok(value: T) | Err(error: E) {
    predicate IsFailure() { Err? }

    function PropagateFailure<U>(): Result<U, E>
      requires Err?
    {
      Err(error)
    }

    function Extract(): T
      requires Ok?
    {
      value
    }
  }

  /** The exceptions that leave the controller actions, each with its message. */
  datatype HttpFailure =
    | InvalidArgument(message: string)   // \InvalidArgumentException
    | NotFoundHttp(message: string)      // NotFoundHttpException (HTTP 404)
    | Runtime(message: string)           // \RuntimeException
}
