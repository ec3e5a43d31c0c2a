/** Optional values and results with an error, used by every provider model. */
module Wrappers {

  datatype Option<+T> = None | Some(value: T) {
    function GetOr(default: T): T {
      match this
      case Some(v) => v
      case None => default
    }
  }

  datatype Result<+T, +E> = Ok(value: T) | Err(error: E) {
    predicate IsFailure() {
      Err?
    }

    function PropagateFailure<U>(): Result<U, E>
      requires Err?
    {
      Err(error)
    }

    function Extract(): T
      requires Ok?
    {
      value
    }
  }

  /** A result with its value transformed and its error kept. */
  function MapOk<T, U, E>(r: Result<T, E>, f: T -> U): (m: Result<U, E>)
    ensures m.Ok? <==> r.Ok?
    ensures r.Err? ==> m == Err(r.error)
    ensures r.Ok? ==> m.value == f(r.value)
  {
    match r
    case Ok(v) => Ok(f(v))
    case Err(e) => Err(e)
  }
}
