/** Finite sets of naturals in ascending order: how the source iterates over sorted names and track numbers. */
module Ordering {
  lemma {:induction false} LeastBelow(ids: set<nat>, m: nat)
    requires m in ids
    ensures exists n <- ids :: forall x <- ids :: n <= x
    decreases m
  {
    if y :| y in ids && y < m {
      LeastBelow(ids, y);
    } else {
      assert forall x <- ids :: m <= x;
    }
  }

  function Least(ids: set<nat>): (m: nat)
    requires ids != {}
    ensures m in ids && forall x <- ids :: m <= x
  {
    assert exists m <- ids :: forall x <- ids :: m <= x by {
      var n :| n in ids;
      LeastBelow(ids, n);
    }
    var m :| m in ids && forall x <- ids :: m <= x;
    m
  }

  predicate Ascending(ids: seq<nat>) {
    forall i, j :: 0 <= i < j < |ids| ==> ids[i] < ids[j]
  }

  function Sorted(ids: set<nat>): (sorted: seq<nat>)
    ensures forall x :: x in sorted <==> x in ids
    ensures |sorted| == |ids| && Ascending(sorted)
  {
    if ids == {} then [] else [Least(ids)] + Sorted(ids - {Least(ids)})
  }
}
