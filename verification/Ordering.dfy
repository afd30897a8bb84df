/** Sets of numbers listed in increasing order. */
module Ordering {

  ghost function Least(s: set<nat>): (m: nat)
    requires s != {}
    ensures m in s && forall x <- s :: m <= x
  {
    var x :| x in s;
    var rest := s - {x};
    if rest == {} then
      assert s == {x};
      x
    else
      var y := Least(rest);
      assert forall z <- s :: z == x || z in rest;
      if x <= y then x else y
  }

  /** The members of a set in increasing order. */
  ghost function Ascending(s: set<nat>): (r: seq<nat>)
    ensures forall x :: x in r <==> x in s
  {
    if s == {} then [] else [Least(s)] + Ascending(s - {Least(s)})
  }

  lemma LeastComesFirst(r: seq<nat>, s: set<nat>, x: nat)
    requires x in s && forall y <- s :: x <= y
    ensures r + Ascending(s) == r + [x] + Ascending(s - {x})
  {
    assert x == Least(s);
    var rest := Ascending(s - {x});
    assert r + ([x] + rest) == r + [x] + rest;
  }

  method SortedNumbers(s: set<nat>) returns (r: seq<nat>)
    ensures r == Ascending(s)
  {
    r := [];
    var rest := s;
    while rest != {}
      invariant Ascending(s) == r + Ascending(rest)
    {
      ghost var least := Least(rest);
      var x :| x in rest && forall y <- rest :: x <= y;
      LeastComesFirst(r, rest, x);
      r, rest := r + [x], rest - {x};
    }
  }

  lemma {:induction false} AscendingSize(s: set<nat>)
    ensures |Ascending(s)| == |s|
  {
    if s != {} {
      var rest := s - {Least(s)};
      AscendingSize(rest);
      assert |s| == |rest| + 1;
    }
  }

  predicate Increasing(r: seq<nat>) {
    forall i, j :: 0 <= i < j < |r| ==> r[i] < r[j]
  }

  lemma IncreasingTail(r: seq<nat>)
    requires Increasing(r) && r != []
    ensures Increasing(r[1..]) && forall x <- r[1..] :: r[0] < x && x in r
  {
    var rest := r[1..];
    forall i, j | 0 <= i < j < |rest| ensures rest[i] < rest[j] {
      assert rest[i] == r[i + 1] && rest[j] == r[j + 1];
    }
    forall x | x in rest ensures r[0] < x && x in r {
      var k :| 0 <= k < |rest| && rest[k] == x;
      assert r[k + 1] == x;
    }
  }

  lemma SnocIncreases(r: seq<nat>, x: nat)
    requires Increasing(r) && forall y <- r :: y < x
    ensures Increasing(r + [x])
  {
    forall i | 0 <= i < |r| ensures r[i] < x {
      assert r[i] in r;
    }
  }

  lemma {:induction false} AscendingIncreases(s: set<nat>)
    ensures Increasing(Ascending(s))
  {
    if s != {} {
      var least := Least(s);
      var rest := s - {least};
      AscendingIncreases(rest);
      forall x | x in Ascending(rest) ensures least < x {
        assert x in rest;
      }
      PrependSorted(least, Ascending(rest));
    }
  }

  lemma AscendingIsSorted(s: set<nat>)
    ensures |Ascending(s)| == |s| && Increasing(Ascending(s))
  {
    AscendingSize(s);
    AscendingIncreases(s);
  }

  lemma PrependSorted(least: nat, tail: seq<nat>)
    requires forall x <- tail :: least < x
    requires Increasing(tail)
    ensures Increasing([least] + tail)
  {
    var r := [least] + tail;
    forall i, j | 0 <= i < j < |r| ensures r[i] < r[j] {
      assert r[j] == tail[j - 1] && tail[j - 1] in tail;
      assert i == 0 || r[i] == tail[i - 1];
    }
  }
}
