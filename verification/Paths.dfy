/** Paths as component sequences, in the order a BTreeMap keeps them: component by component, each
    compared character by character. */
module Paths {

  type Path = seq<string>

  predicate StringLess(a: string, b: string) {
    b != "" && (a == "" || a[0] < b[0] || (a[0] == b[0] && StringLess(a[1..], b[1..])))
  }

  predicate PathLess(a: Path, b: Path) {
    b != [] && (a == [] || StringLess(a[0], b[0]) || (a[0] == b[0] && PathLess(a[1..], b[1..])))
  }

  lemma {:induction false} StringOrder(a: string, b: string)
    ensures StringLess(a, b) || a == b || StringLess(b, a)
    ensures !(StringLess(a, b) && StringLess(b, a)) && (a == b ==> !StringLess(a, b))
  {
    if a == "" || b == "" {
    } else {
      StringOrder(a[1..], b[1..]);
      if a[0] == b[0] && a[1..] == b[1..] {
        assert a == [a[0]] + a[1..] && b == [b[0]] + b[1..];
      }
    }
  }

  lemma {:induction false} StringTransitive(a: string, b: string, c: string)
    requires StringLess(a, b) && StringLess(b, c)
    ensures StringLess(a, c)
  {
    if a != "" && a[0] == b[0] && b[0] == c[0] {
      StringTransitive(a[1..], b[1..], c[1..]);
    }
  }

  lemma {:induction false} PathOrder(a: Path, b: Path)
    ensures PathLess(a, b) || a == b || PathLess(b, a)
    ensures !(PathLess(a, b) && PathLess(b, a)) && (a == b ==> !PathLess(a, b))
  {
    if a == [] || b == [] {
    } else {
      StringOrder(a[0], b[0]);
      PathOrder(a[1..], b[1..]);
      if a[0] == b[0] && a[1..] == b[1..] {
        assert a == [a[0]] + a[1..] && b == [b[0]] + b[1..];
      }
    }
  }

  lemma {:induction false} PathTransitive(a: Path, b: Path, c: Path)
    requires PathLess(a, b) && PathLess(b, c)
    ensures PathLess(a, c)
  {
    if a == [] {
    } else {
      if a[0] == b[0] && b[0] == c[0] {
        StringOrder(a[0], a[0]);
        PathTransitive(a[1..], b[1..], c[1..]);
      } else if StringLess(a[0], b[0]) && StringLess(b[0], c[0]) {
        StringTransitive(a[0], b[0], c[0]);
      }
    }
  }

  /** The texts agree before position k; there b goes on with the larger character, or a has ended. */
  ghost predicate StringsPart(a: string, b: string, k: nat) {
    k <= |a| && k < |b| && a[..k] == b[..k] && (k == |a| || a[k] < b[k])
  }

  lemma {:induction false} StringLessMeans(a: string, b: string)
    ensures StringLess(a, b) <==> exists k: nat :: StringsPart(a, b, k)
  {
    if a == "" || b == "" {
      assert b != "" ==> StringsPart(a, b, 0);
    } else if a[0] != b[0] {
      assert a[0] < b[0] ==> StringsPart(a, b, 0);
      forall k: nat | StringsPart(a, b, k) ensures a[0] < b[0] {
        assert k > 0 ==> a[..k][0] == b[..k][0];
      }
    } else {
      StringLessMeans(a[1..], b[1..]);
      if k: nat :| StringsPart(a[1..], b[1..], k) {
        assert a[..k + 1] == [a[0]] + a[1..][..k] && b[..k + 1] == [b[0]] + b[1..][..k];
        assert StringsPart(a, b, k + 1);
      }
      if k: nat :| StringsPart(a, b, k) {
        assert a[1..][..k - 1] == a[..k][1..] && b[1..][..k - 1] == b[..k][1..];
        assert StringsPart(a[1..], b[1..], k - 1);
      }
    }
  }

  /** The paths agree before component k; there b goes on with the larger name, or a has ended. */
  ghost predicate PathsPart(a: Path, b: Path, k: nat) {
    k <= |a| && k < |b| && a[..k] == b[..k] && (k == |a| || StringLess(a[k], b[k]))
  }

  lemma {:induction false} PathLessMeans(a: Path, b: Path)
    ensures PathLess(a, b) <==> exists k: nat :: PathsPart(a, b, k)
  {
    if a == [] || b == [] {
      assert b != [] ==> PathsPart(a, b, 0);
    } else if a[0] != b[0] {
      assert StringLess(a[0], b[0]) ==> PathsPart(a, b, 0);
      forall k: nat | PathsPart(a, b, k) ensures StringLess(a[0], b[0]) {
        assert k > 0 ==> a[..k][0] == b[..k][0];
      }
    } else {
      StringOrder(a[0], b[0]);
      PathLessMeans(a[1..], b[1..]);
      if k: nat :| PathsPart(a[1..], b[1..], k) {
        assert a[..k + 1] == [a[0]] + a[1..][..k] && b[..k + 1] == [b[0]] + b[1..][..k];
        assert PathsPart(a, b, k + 1);
      }
      if k: nat :| PathsPart(a, b, k) {
        assert a[1..][..k - 1] == a[..k][1..] && b[1..][..k - 1] == b[..k][1..];
        assert PathsPart(a[1..], b[1..], k - 1);
      }
    }
  }

  /** A folder comes before everything in it. */
  lemma {:induction false} AncestorIsLess(path: Path, k: nat)
    requires k < |path|
    ensures PathLess(path[..k], path)
  {
    if k == 0 {
    } else {
      AncestorIsLess(path[1..], k - 1);
      assert path[..k][1..] == path[1..][..k - 1];
    }
  }

  predicate IsFirst(path: Path, paths: set<Path>) {
    path in paths && forall other :: other in paths ==> other == path || PathLess(path, other)
  }

  lemma {:induction false} FirstExists(paths: set<Path>)
    requires paths != {}
    ensures exists path :: IsFirst(path, paths)
  {
    var x :| x in paths;
    if paths - {x} == {} {
      assert paths == {x};
      assert IsFirst(x, paths);
    } else {
      FirstExists(paths - {x});
      var y :| IsFirst(y, paths - {x});
      PathOrder(x, y);
      var first := if PathLess(x, y) then x else y;
      forall other | other in paths ensures other == first || PathLess(first, other) {
        if other != x && other != y && first == x {
          PathTransitive(x, y, other);
        }
      }
      assert IsFirst(first, paths);
    }
  }

  lemma FirstIsUnique(a: Path, b: Path, paths: set<Path>)
    requires IsFirst(a, paths) && IsFirst(b, paths)
    ensures a == b
  {
    PathOrder(a, b);
  }

  function First(paths: set<Path>): (path: Path)
    requires paths != {}
    ensures IsFirst(path, paths)
  {
    FirstExists(paths);
    assert forall a, b :: IsFirst(a, paths) && IsFirst(b, paths) ==> a == b by {
      forall a, b | IsFirst(a, paths) && IsFirst(b, paths) ensures a == b {
        FirstIsUnique(a, b, paths);
      }
    }
    var path :| IsFirst(path, paths);
    path
  }

  ghost predicate IsSorted(paths: seq<Path>) {
    forall i, j :: 0 <= i < j < |paths| ==> PathLess(paths[i], paths[j])
  }

  ghost predicate Lists(paths: seq<Path>, members: set<Path>) {
    forall path :: path in paths <==> path in members
  }

  function Sorted(paths: set<Path>): (sorted: seq<Path>)
    ensures IsSorted(sorted) && Lists(sorted, paths)
  {
    if paths == {} then [] else
      var first := First(paths);
      var rest := Sorted(paths - {first});
      SortedPush(first, rest, paths);
      [first] + rest
  }

  lemma SortedPush(first: Path, rest: seq<Path>, paths: set<Path>)
    requires IsFirst(first, paths) && IsSorted(rest) && Lists(rest, paths - {first})
    ensures IsSorted([first] + rest) && Lists([first] + rest, paths)
  {
    forall i | 0 <= i < |rest| ensures PathLess(first, rest[i]) {
      assert rest[i] in rest;
    }
  }

  lemma SortedHead(xs: seq<Path>, paths: set<Path>)
    requires xs != [] && IsSorted(xs) && Lists(xs, paths)
    ensures IsFirst(xs[0], paths)
  {
    assert xs[0] in xs;
    forall other | other in paths ensures other == xs[0] || PathLess(xs[0], other) {
      assert other in xs;
      var i :| 0 <= i < |xs| && xs[i] == other;
    }
  }

  lemma SortedTail(xs: seq<Path>, paths: set<Path>)
    requires xs != [] && IsSorted(xs) && Lists(xs, paths)
    ensures IsSorted(xs[1..]) && Lists(xs[1..], paths - {xs[0]})
  {
    forall path | path in xs[1..] ensures path in paths - {xs[0]} {
      var i :| 0 <= i < |xs[1..]| && xs[1..][i] == path;
      assert xs[i + 1] == path && PathLess(xs[0], xs[i + 1]);
      PathOrder(xs[0], path);
      assert path in xs;
    }
    forall path | path in paths - {xs[0]} ensures path in xs[1..] {
      assert path in xs;
      var i :| 0 <= i < |xs| && xs[i] == path;
      assert xs[1..][i - 1] == path;
    }
  }

  /** A sorted list is determined by its members. */
  lemma {:induction false} SortedIsUnique(xs: seq<Path>, paths: set<Path>)
    requires IsSorted(xs) && Lists(xs, paths)
    ensures xs == Sorted(paths)
  {
    if xs == [] {
      assert forall path :: path !in paths;
      assert paths == {};
    } else {
      SortedHead(xs, paths);
      assert xs[0] in paths;
      FirstIsUnique(xs[0], First(paths), paths);
      SortedTail(xs, paths);
      SortedIsUnique(xs[1..], paths - {xs[0]});
      assert xs == [xs[0]] + xs[1..];
    }
  }
}
