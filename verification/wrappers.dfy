/** Rust's `Option` and `Result`, as used by the modelled code. */
module Wrappers {

  /** `Option<T>`: an optional value. */
  datatype Option<+T> = None | Some(value: T)

  /** `Result<T, E>`: a value or an error. */
  datatype Result<+T, +E> = Success(value: T) | Failure(error: E)

  /** `Option::ok_or`: a present value succeeds, an absent one fails with `error`. */
  function OkOr<T, E>(o: Option<T>, error: E): (r: Result<T, E>)
    ensures r.Success? <==> o.Some?
    ensures o.Some? ==> r.value == o.value
    ensures o.None? ==> r.error == error
  {
    match o
    case Some(v) => Success(v)
    case None => Failure(error)
  }
}
