/** Shared vocabulary of the shop backend model: document ids, optional values,
    results, and the HTTP-style replies every controller answers with. */
module Common {

  /** A MongoDB ObjectId, abstracted to a natural number handed out by the store. */
  type Id = nat

  datatype Option<T> = None | Some(value: T)

  datatype Result<T, E> = Success(value: T) | Failure(error: E)

  /** What a controller sends back: a success status with its message and body,
      or an error status with its message. */
  datatype Reply<T> =
    | Ok(status: int, message: string, body: T)
    | Fail(status: int, message: string)

  /** The `x || ''` idiom of the controllers, for an optional request string. */
  function OrEmpty(s: Option<string>): string
  {
    if s.Some? then s.value else ""
  }
}
