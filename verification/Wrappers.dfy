/** Optional values and typed failures, standing for `None` and raised exceptions. */
module Wrappers {

  datatype Option<+T> = None | Some(value: T)

  datatype Result<+T, +E> = Ok(value: T) | Err(error: E)

  /** The members of a sequence. */
  function Elements<T(==)>(s: seq<T>): set<T> { set x | x in s }

  /** The last member that goes by `wanted`, as a dictionary built from the sequence would have it. */
  function LastNamed<T>(s: seq<T>, name: T -> string, wanted: string): (r: Option<T>)
    ensures r.Some? ==> r.value in s && name(r.value) == wanted
    ensures r.None? <==> forall x :: x in s ==> name(x) != wanted
  {
    if s == [] then None
    else if name(s[|s| - 1]) == wanted then Some(s[|s| - 1])
    else LastNamed(s[..|s| - 1], name, wanted)
  }
}
