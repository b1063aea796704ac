/** Option and Result values standing for Python's `None` and raised exceptions. */
module Wrappers {

  datatype Option<T> = None | Some(value: T)

  datatype Result<T, E> = Ok(value: T) | Err(error: E)

  /** The exception classes the modelled code raises. */
  datatype Exception =
    | KeyError
    | ValueError
    | TypeError
    | ZeroDivisionError   // a division by `n`, `lamb` or `self.n` equal to 0
    | IndexError          // `elite_indices[-1]` with no elites

  /** No element occurs twice (the keys of a Python dict, listed in insertion order). */
  predicate Distinct<T(==)>(s: seq<T>) {
    forall i, j :: 0 <= i < j < |s| ==> s[i] != s[j]
  }
}
