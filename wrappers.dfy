/** Optional values and results, the shapes Go expresses with nil and (value, error) pairs. */
module Wrappers {

  datatype Option<+T> = None | Some(value: T)

  datatype Result<+T, +E> = Ok(value: T) | Fail(error: E)

  /** The error half of a result, as a Go caller sees it after `v, err := f()`. */
  function ErrorOf<T, E>(r: Result<T, E>): (e: Option<E>)
    ensures e.None? <==> r.Ok?
    ensures r.Fail? ==> e == Some(r.error)
  {
    if r.Ok? then None else Some(r.error)
  }
}
