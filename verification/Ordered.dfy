/** Iterating a map in key order, as a `BTreeMap` does. */
module Ordered {
  import opened Common

  lemma {:induction false} FindMinimum(s: set<nat>) returns (m: nat)
    requires s != {}
    ensures m in s && forall x :: x in s ==> m <= x
  {
    m :| m in s;
    var rest := s - {m};
    if rest != {} {
      var n := FindMinimum(rest);
      assert forall x :: x in s ==> x == m || x in rest;
      m := if n < m then n else m;
    } else {
      assert s == {m};
    }
  }

  function Minimum(s: set<nat>): (m: nat)
    requires s != {}
    ensures m in s && forall x :: x in s ==> m <= x
  {
    assert exists m :: m in s && forall x :: x in s ==> m <= x by { var m := FindMinimum(s); }
    var m :| m in s && forall x :: x in s ==> m <= x;
    m
  }

  predicate Ascending(q: seq<nat>) {
    forall i, j :: 0 <= i < j < |q| ==> q[i] < q[j]
  }

  /** The elements of a set in increasing order. */
  function Sorted(s: set<nat>): (q: seq<nat>)
    ensures Ascending(q)
    ensures forall x :: x in q <==> x in s
    ensures |q| == |s|
  {
    if s == {} then []
    else
      var m := Minimum(s);
      var rest := Sorted(s - {m});
      assert forall i :: 0 <= i < |rest| ==> rest[i] in rest;
      [m] + rest
  }

  /** The least element of a set, if there is one. */
  function First(s: set<nat>): Option<nat> {
    if s == {} then None else Some(Minimum(s))
  }
}
