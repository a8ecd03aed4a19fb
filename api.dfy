/** Optional values and the outcomes of the awaited calls the components make.
    The network itself is not modelled: each handler receives what its
    awaited call produced as a parameter. */
module Optional {
  /** A value that may be absent (`undefined`, `null` or a missing key). */
  datatype Option<+T> = None | Some(value: T)
}

module Api {
  /** What an awaited call threw: an `Error` carries a message; anything else does not. */
  datatype Thrown = ErrorObject(message: string) | OtherValue

  /** The outcome of an awaited call: the value it resolved to, or what it threw. */
  datatype Response<+T> = Resolved(value: T) | Threw(thrown: Thrown)

  /** The outcome a hook operation reports to its caller: the record it returns,
      or the message of the `Error` it (re)throws. */
  datatype Result<+T> = Ok(value: T) | Err(message: string)

  /** `err instanceof Error ? err.message : fallback`. */
  function MessageOr(t: Thrown, fallback: string): string
  {
    match t
    case ErrorObject(m) => m
    case OtherValue => fallback
  }

  /** `throw err instanceof Error ? err : new Error(fallback)`, as the caller
      sees it: the thrown error's own message, or the fallback. */
  function Rethrown<T>(t: Thrown, fallback: string): (r: Result<T>)
    ensures r.Err?
    ensures t.ErrorObject? ==> r.message == t.message
    ensures t.OtherValue? ==> r.message == fallback
  {
    Err(MessageOr(t, fallback))
  }
}
