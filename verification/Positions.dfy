/** Filtered lists by the positions they keep: each in order, none twice and none left out. */
module Positions {

  predicate Ascending(positions: seq<nat>) {
    forall i, j :: 0 <= i < j < |positions| ==> positions[i] < positions[j]
  }

  /** The members of a set of positions, in order. */
  ghost predicate Lists(positions: seq<nat>, kept: set<nat>) {
    Ascending(positions) && forall i :: i in positions <==> i in kept
  }

  lemma ListsSnoc(positions: seq<nat>, kept: set<nat>, n: nat)
    requires Lists(positions, kept) && forall i :: i in kept ==> i < n
    ensures Lists(positions + [n], kept + {n})
  {
    assert forall i :: 0 <= i < |positions| ==> positions[i] in positions;
  }

  lemma {:induction false} ListsUnique(a: seq<nat>, b: seq<nat>, kept: set<nat>)
    requires Lists(a, kept) && Lists(b, kept)
    ensures a == b
    decreases |a|
  {
    if b != [] {
      assert b[0] in b && b[0] in a;
    }
    if a != [] {
      assert a[0] in a && a[0] in b;
      var i :| 0 <= i < |b| && b[i] == a[0];
      var j :| 0 <= j < |a| && a[j] == b[0];
      var rest := kept - {a[0]};
      forall k ensures k in a[1..] <==> k in rest {
        assert k in a[1..] ==> k in a;
      }
      forall k ensures k in b[1..] <==> k in rest {
        assert k in b[1..] ==> k in b;
      }
      ListsUnique(a[1..], b[1..], rest);
    }
  }
}
