/** Iteration in ascending order over finite sets of ids, as BTreeSet and BTreeMap give it. */
module Ordered {

  datatype Option<+T> = None | Some(value: T)

  function Min(a: nat, b: nat): nat {
    if a < b then a else b
  }

  ghost predicate IsLeast(m: nat, s: set<nat>) {
    m in s && forall x :: x in s ==> m <= x
  }

  lemma LeastExists(s: set<nat>)
    requires s != {}
    ensures exists m :: IsLeast(m, s)
  {
    var x :| x in s;
    if s - {x} == {} {
      assert s == {x};
      assert IsLeast(x, s);
    } else {
      LeastExists(s - {x});
      var m :| IsLeast(m, s - {x});
      var least := if x < m then x else m;
      forall y | y in s ensures least <= y {
        assert y == x || y in s - {x};
      }
      assert IsLeast(least, s);
    }
  }

  function Least(s: set<nat>): (m: nat)
    requires s != {}
    ensures m in s && forall x :: x in s ==> m <= x
  {
    LeastExists(s);
    assert exists m :: m in s && forall x :: x in s ==> m <= x by {
      var m :| IsLeast(m, s);
    }
    var m :| m in s && forall x :: x in s ==> m <= x;
    m
  }

  ghost predicate Increasing(xs: seq<nat>) {
    forall i, j :: 0 <= i < j < |xs| ==> xs[i] < xs[j]
  }

  /** The members of s, smallest first. */
  function Ascending(s: set<nat>): (xs: seq<nat>)
    ensures Increasing(xs)
    ensures forall x :: x in xs <==> x in s
    ensures |xs| == |s|
  {
    if s == {} then [] else
      var m := Least(s);
      [m] + Ascending(s - {m})
  }

  ghost predicate ListsExactly(xs: seq<nat>, s: set<nat>) {
    forall x :: x in xs <==> x in s
  }

  lemma FirstIsLeast(xs: seq<nat>, s: set<nat>)
    requires xs != [] && Increasing(xs) && ListsExactly(xs, s)
    ensures s != {} && xs[0] == Least(s)
  {
    assert xs[0] in s;
    var m := Least(s);
    assert m in xs;
    var i :| 0 <= i < |xs| && xs[i] == m;
  }

  lemma TailListsTheRest(xs: seq<nat>, s: set<nat>)
    requires xs != [] && Increasing(xs) && ListsExactly(xs, s)
    ensures Increasing(xs[1..]) && ListsExactly(xs[1..], s - {xs[0]})
  {
    forall x ensures x in xs[1..] <==> x in s - {xs[0]} {
      if x in s - {xs[0]} {
        assert x in xs;
        var i :| 0 <= i < |xs| && xs[i] == x;
        assert xs[1..][i - 1] == x;
      }
    }
  }

  /** An increasing sequence is determined by its members. */
  lemma {:induction false} AscendingUnique(xs: seq<nat>, s: set<nat>)
    requires Increasing(xs) && ListsExactly(xs, s)
    ensures xs == Ascending(s)
  {
    if xs == [] {
      assert forall x :: x !in s;
      assert s == {};
    } else {
      hide Increasing, ListsExactly, Least, Ascending;
      TailListsTheRest(xs, s);
      AscendingUnique(xs[1..], s - {xs[0]});
      AscendingStep(xs, s);
    }
  }

  lemma AscendingStep(xs: seq<nat>, s: set<nat>)
    requires xs != [] && Increasing(xs) && ListsExactly(xs, s) && xs[1..] == Ascending(s - {xs[0]})
    ensures xs == Ascending(s)
  {
    FirstIsLeast(xs, s);
    hide Increasing, ListsExactly, Least;
    assert xs == [xs[0]] + xs[1..];
  }

  lemma {:induction false} SubsetIsSmaller<T>(a: set<T>, b: set<T>)
    requires a <= b
    ensures |a| <= |b|
  {
    assert b == a + (b - a);
  }
}
