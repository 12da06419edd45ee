/**
 * Optional values: JavaScript's `undefined` / `null` results and absent object keys;
 * and lists without repeated elements.
 */
module Wrappers {

  datatype Option<+T> = None | Some(value: T)

  /** No element of `s` occurs twice. */
  predicate Distinct<T(==)>(s: seq<T>) {
    forall i, j :: 0 <= i < j < |s| ==> s[i] != s[j]
  }
}
