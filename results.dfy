/** The two failure-carrying types the adapter's code returns: `Option` and `Result`. */
module Results {

  /** `Option<T>`: `None` stands for an absent value. */
  datatype Option<+T> = None | Some(value: T)

  /** `Result<T, E>`: `Err` carries the error that `?` propagates. */
  datatype Result<+T, +E> = Ok(value: T) | Err(error: E)

  /** The `Result` with its error dropped (what `ResultExt::log_err` returns, minus the log line). */
  function LogErr<T, E>(r: Result<T, E>): (o: Option<T>)
    ensures o.Some? <==> r.Ok?
    ensures o.Some? ==> o.value == r.value
  {
    match r
    case Ok(v) => Some(v)
    case Err(_) => None
  }
}
