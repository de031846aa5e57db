/** Small value types shared by every module of the chat model. */
module Base {

  /** A value that may be absent: JavaScript's `null` / `undefined`. */
  datatype Option<+T> = None | Some(value: T)

  /** The outcome of an operation that can throw: the thrown message on failure. */
  datatype Result<+T> = Success(value: T) | Failure(error: string)

  /** An HTTP handler's answer: its status code and either a payload or an error text. */
  datatype Reply<+T> = Ok(status: int, value: T) | Error(status: int, message: string)

  /** Instants, as the number of milliseconds that `new Date()` would carry. */
  type Time = int

  /** JavaScript truthiness of an optional string: `null`, `undefined` and `""` are falsy. */
  predicate Present(s: Option<string>)
  {
    s.Some? && s.value != ""
  }
}
