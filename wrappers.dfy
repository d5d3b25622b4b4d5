/** Rust's `Option` and `Result`, as the layer code uses them. */
module Wrappers {

  /** `Option<T>`: `Vec::get` answers `None` for an index past the end. */
  datatype Option<+T> = None | Some(value: T)

  /** `Result<T, E>`: a success value or an error value. */
  datatype Result<+T, +E> = Ok(value: T) | Err(error: E)

  /** `Vec::get`: the element at `i`, or `None` when `i` is out of range. */
  function Get<T>(s: seq<T>, i: nat): (r: Option<T>)
    ensures r.None? <==> i >= |s|
    ensures r.Some? ==> i < |s| && r.value == s[i]
  {
    if i < |s| then Some(s[i]) else None
  }
}
