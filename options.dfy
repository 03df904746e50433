/** Optional values and results with an error message, shared by the modules of the model. */
module Options {

  /** A value that may be absent: a JavaScript `null` or an omitted optional property. */
  datatype Option<T> = None | Some(value: T)
  {
    /** The value, or `default` when absent (JavaScript's `??`). */
    function GetOr(default: T): T
    {
      match this
      case Some(v) => v
      case None => default
    }
  }

  /** The outcome of an operation that may throw: its value, or the thrown error's message. */
  datatype Result<T> = Success(value: T) | Failure(error: string)
}
