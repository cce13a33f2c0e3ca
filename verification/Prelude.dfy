/** Small value types shared by the models. */
module Prelude {

  datatype Option<+T> = None | Some(value: T)

  /** A sequence in which no value occurs twice. */
  predicate Distinct<T(==)>(s: seq<T>) {
    forall i, j :: 0 <= i < j < |s| ==> s[i] != s[j]
  }
}
