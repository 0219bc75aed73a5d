/** How the pages see the REST backend: every call either returns a body or fails. */
module Api {

  datatype Option<+T> = None | Some(value: T)

  /** The outcome of one awaited request. A failure carries the HTTP status
      (0 when no response arrived) and the `message` field of the error body,
      when the server sent one. */
  datatype Reply<+T> = Ok(value: T) | Fail(status: int, message: Option<string>)

  /** The `error.response?.status === 404` test the pages use as control flow. */
  predicate IsNotFound<T>(r: Reply<T>) {
    r.Fail? && r.status == 404
  }

  /** `data || []` for a list the server may send as null. */
  function OrEmpty<T>(data: Option<seq<T>>): seq<T> {
    match data
    case Some(l) => l
    case None => []
  }

  /** JavaScript truthiness of an optional string: null, undefined and "" are falsy. */
  predicate Truthy(s: Option<string>) {
    s.Some? && s.value != ""
  }
}
