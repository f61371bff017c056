/** Small shared vocabulary: optional values and the sequence functions several modules need. */
module Util {
  datatype Option<+T> = None | Some(value: T)

  function Max(a: int, b: int): int {
    if a >= b then a else b
  }

  function Min(a: int, b: int): int {
    if a <= b then a else b
  }

  ghost predicate NoDuplicates<T>(s: seq<T>) {
    forall i, j :: 0 <= i < j < |s| ==> s[i] != s[j]
  }

  function NonNeg(x: int): nat {
    if x < 0 then 0 else x
  }
}
