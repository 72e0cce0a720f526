/** Distinct elements, rising values, and times that are apart. */
module Sequences {
  predicate Distinct<T(==)>(s: seq<T>) {
    forall i, j :: 0 <= i < j < |s| ==> s[i] != s[j]
  }

  predicate Rising(s: seq<nat>) {
    forall i, j :: 0 <= i < j < |s| ==> s[i] <= s[j]
  }

  /** What `count` more always take. */
  predicate SpacedBy(times: seq<int>, count: nat, gap: int) {
    forall i :: 0 <= i < |times| - count ==> times[i] + gap <= times[i + count]
  }

  /** The same of real times. */
  predicate SpacedByReal(times: seq<real>, count: nat, gap: real) {
    forall i :: 0 <= i < |times| - count ==> times[i] + gap <= times[i + count]
  }
}
