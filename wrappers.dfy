/** Option and Result values, used where the Go code returns a nil pointer or an error. */
module Wrappers {

  datatype Option<+T> = None | Some(value: T)

  /** A Go `(value, error)` pair: either a value or an error message. */
  datatype Result<+T> = Ok(value: T) | Err(msg: string)

  /** The value, or `d` when there is none (Go's "zero value on error"). */
  function Or<T>(o: Option<T>, d: T): (r: T)
    ensures o.Some? ==> r == o.value
    ensures o.None? ==> r == d
  {
    if o.Some? then o.value else d
  }

  function MapOption<A, B>(f: A -> B, o: Option<A>): Option<B>
  {
    match o
    case None => None
    case Some(v) => Some(f(v))
  }
}
