/** Failure-carrying values shared by every module of the model. */
module Wrappers {

  /** A value that may be absent (a Go map miss, a failed parse). */
  datatype Option<+T> = None | Some(value: T)

  /** A value or an error message; Go's `(T, error)` pairs and thrown
      JavaScript exceptions both become this. */
  datatype Result<+T, +E> = Success(value: T) | Failure(error: E)

  /** Go's `m[k]` on a `map[string]string`: the zero value "" on a miss. */
  function Lookup(m: map<string, string>, k: string): (v: string)
    ensures k in m ==> v == m[k]
    ensures k !in m ==> v == ""
  {
    if k in m then m[k] else ""
  }
}
