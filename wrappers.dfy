/** Option and Result, the two failure-carrying shapes every module of the model uses
    (Rust's `Option` and `Result`). */
module Wrappers {

  datatype Option<+T> = None | Some(value: T) {
    function GetOr(default: T): T {
      match this
      case Some(v) => v
      case None => default
    }
  }

  datatype Result<+T, +E> = Success(value: T) | Failure(error: E)

  /** The value of an option as a sequence of at most one element. */
  function OptionSeq<T>(o: Option<T>): (s: seq<T>)
    ensures o.Some? ==> s == [o.value]
    ensures o.None? ==> s == []
  {
    if o.Some? then [o.value] else []
  }
}
