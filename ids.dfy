/** Ordering a finite set of ids, as Python's `sorted` does for the keys of
    the merged mapping. */
module Ids {
  lemma {:induction false} Member(s: set<int>)
    requires s != {}
    ensures exists x :: x in s
  {
    assert |s| > 0;
    if forall x :: x !in s {
      assert false;
    }
  }

  lemma {:induction false} MinExists(s: set<int>)
    requires s != {}
    ensures exists m :: m in s && forall k :: k in s ==> m <= k
    decreases |s|
  {
    Member(s);
    var x :| x in s;
    var rest := s - {x};
    var lo := x;
    if rest != {} {
      MinExists(rest);
      var m :| m in rest && forall k :: k in rest ==> m <= k;
      if m < x {
        lo := m;
      }
    }
    assert forall k :: k in rest ==> lo <= k;
    forall k | k in s ensures lo <= k {
      if k in rest {
      }
    }
  }

  /** The least id of a non-empty set. */
  function MinOf(s: set<int>): (m: int)
    requires s != {}
    ensures m in s && forall k :: k in s ==> m <= k
  {
    MinExists(s);
    var m :| m in s && forall k :: k in s ==> m <= k;
    m
  }

  predicate Increasing(r: seq<int>) {
    forall i, j :: 0 <= i < j < |r| ==> r[i] < r[j]
  }

  /** Putting an id below all of a sorted sequence in front keeps it
      sorted. */
  lemma {:induction false} ConsIncreasing(m: int, rest: seq<int>)
    requires Increasing(rest)
    requires forall k :: k in rest ==> m < k
    ensures Increasing([m] + rest)
    ensures forall k :: k in [m] + rest <==> k == m || k in rest
  {
    var r := [m] + rest;
    assert forall i :: 1 <= i < |r| ==> r[i] == rest[i - 1];
    forall i, j | 0 <= i < j < |r| ensures r[i] < r[j] {
      if i == 0 {
        assert r[j] in rest;
      } else {
        assert r[i] == rest[i - 1] && r[j] == rest[j - 1];
      }
    }
  }

  /** `sorted(keys)`: the ids in strictly increasing order, each once. */
  function SortedIds(s: set<int>): (r: seq<int>)
    ensures forall k :: k in s <==> k in r
    ensures Increasing(r)
    decreases |s|
  {
    if s == {} then []
    else
      var m := MinOf(s);
      var rest := SortedIds(s - {m});
      ConsIncreasing(m, rest);
      [m] + rest
  }
}
