/** Small shared vocabulary. */
module Prelude {

  datatype Option<+T> = None | Some(value: T)

  function Max(a: int, b: int): int { if a >= b then a else b }

  function Min(a: int, b: int): int { if a <= b then a else b }

  /** A strictly increasing sequence of numbers. */
  ghost predicate Increasing(s: seq<nat>) {
    forall i, j :: 0 <= i < j < |s| ==> s[i] < s[j]
  }
}
