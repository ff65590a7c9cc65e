/** Planning a folder synchronisation (porthmos-core/src/sync/mod.rs). */
module Sync {
  import opened Ordered
  import opened Paths

  datatype SyncDirection = LocalToRemote | RemoteToLocal | Both

  datatype SyncBy = Time | Size

  datatype SyncOptions = SyncOptions(direction: SyncDirection, compareBy: SyncBy) {
    predicate IsValid() {
      !(direction.Both? && compareBy.Size?)
    }
  }

  datatype SyncAction = Upload | Download | Skip

  datatype SyncReason =
    | OnlyLocal | OnlyRemote | LocalNewer | RemoteNewer | TargetNewer | SameTimeDifferentSize | SizeDiffers
    | SizeDiffersTimeUnknown | KindMismatch

  datatype SyncFacts = SyncFacts(size: nat, modified: Option<nat>)

  datatype SyncItem = SyncItem(
    id: nat,
    path: Path,
    local: Option<SyncFacts>,
    remote: Option<SyncFacts>,
    action: SyncAction,
    reason: SyncReason,
    ticked: bool,
    flippable: bool)

  datatype TreeKind = File | Dir | Symlink

  datatype TreeEntry = TreeEntry(kind: TreeKind, size: nat, modified: Option<nat>)

  type Tree = map<Path, TreeEntry>

  datatype Verdict = Verdict(action: SyncAction, reason: SyncReason, ticked: bool)

  function Copy(action: SyncAction, reason: SyncReason): Option<Verdict> {
    Some(Verdict(action, reason, true))
  }

  function Ask(reason: SyncReason): Option<Verdict> {
    Some(Verdict(Skip, reason, false))
  }

  function OnlyOneSide(onLocal: bool, direction: SyncDirection): Option<Verdict> {
    if onLocal && !direction.RemoteToLocal? then Copy(Upload, OnlyLocal)
    else if !onLocal && !direction.LocalToRemote? then Copy(Download, OnlyRemote)
    else None
  }

  function NewerSide(localIsNewer: bool, direction: SyncDirection): Option<Verdict> {
    if localIsNewer && !direction.RemoteToLocal? then Copy(Upload, LocalNewer)
    else if !localIsNewer && !direction.LocalToRemote? then Copy(Download, RemoteNewer)
    else Ask(TargetNewer)
  }

  function InDirection(direction: SyncDirection, reason: SyncReason): Option<Verdict> {
    match direction
    case LocalToRemote => Copy(Upload, reason)
    case RemoteToLocal => Copy(Download, reason)
    case Both => Ask(reason)
  }

  function BySize(local: TreeEntry, remote: TreeEntry, direction: SyncDirection): Option<Verdict> {
    if local.size == remote.size then None else InDirection(direction, SizeDiffers)
  }

  function ByTime(
    local: TreeEntry, remote: TreeEntry, direction: SyncDirection, tolerance: nat, keepsTimes: bool): Option<Verdict>
  {
    var sizesEqual := local.size == remote.size;
    if local.modified.None? || remote.modified.None? then
      if sizesEqual then None else InDirection(direction, SizeDiffersTimeUnknown)
    else
      var localTime, remoteTime := local.modified.value, remote.modified.value;
      if localTime <= remoteTime + tolerance && remoteTime <= localTime + tolerance then
        if sizesEqual then None else Ask(SameTimeDifferentSize)
      else
        var verdict := NewerSide(localTime > remoteTime + tolerance, direction);
        if verdict.value.reason.TargetNewer? && sizesEqual && !keepsTimes then None else verdict
  }

  predicate IsFlippable(verdict: Verdict) {
    verdict.action.Skip?
    && (verdict.reason.TargetNewer? || verdict.reason.SameTimeDifferentSize? || verdict.reason.SizeDiffersTimeUnknown?)
  }

  /** One comparison: the trees and the settings. */
  datatype Sides = Sides(local: Tree, remote: Tree, options: SyncOptions, tolerance: nat, keepsTimes: bool)

  function At(tree: Tree, path: Path): Option<TreeEntry> {
    if path in tree then Some(tree[path]) else None
  }

  predicate IsMismatch(s: Sides, path: Path) {
    path in s.local && path in s.remote && s.local[path].kind != s.remote[path].kind
  }

  function VerdictAt(s: Sides, path: Path): Option<Verdict> {
    match (At(s.local, path), At(s.remote, path))
    case (Some(local), Some(remote)) =>
      if local.kind != remote.kind then Ask(KindMismatch)
      else if !local.kind.File? then None
      else if s.options.compareBy.Size? then BySize(local, remote, s.options.direction)
      else ByTime(local, remote, s.options.direction, s.tolerance, s.keepsTimes)
    case (Some(entry), None) => if entry.kind.File? then OnlyOneSide(true, s.options.direction) else None
    case (None, Some(entry)) => if entry.kind.File? then OnlyOneSide(false, s.options.direction) else None
    case (None, None) => None
  }

  function FactsAt(tree: Tree, path: Path): Option<SyncFacts> {
    if path in tree then Some(SyncFacts(tree[path].size, tree[path].modified)) else None
  }

  function ItemAt(s: Sides, path: Path, id: nat): SyncItem
    requires VerdictAt(s, path).Some?
  {
    var verdict := VerdictAt(s, path).value;
    SyncItem(
      id, path, FactsAt(s.local, path), FactsAt(s.remote, path), verdict.action, verdict.reason, verdict.ticked,
      IsFlippable(verdict))
  }

  // ----- what a comparison lists -----

  /** Somewhere above the path the two sides disagree about what a name is. */
  ghost predicate IsHidden(s: Sides, path: Path) {
    exists k :: 0 <= k < |path| && IsMismatch(s, path[..k])
  }

  ghost predicate IsListed(s: Sides, path: Path) {
    s.options.IsValid() && !IsHidden(s, path) && VerdictAt(s, path).Some?
  }

  ghost function ListedPaths(s: Sides): set<Path> {
    set path | path in s.local.Keys + s.remote.Keys && IsListed(s, path)
  }

  /** Exactly the listed paths, in path order, numbered from zero. */
  ghost function Comparison(s: Sides): seq<SyncItem> {
    var paths := Sorted(ListedPaths(s));
    seq(|paths|, i requires 0 <= i < |paths| && paths[i] in ListedPaths(s) => ItemAt(s, paths[i], i))
  }

  /** The nearest disagreement to the root is itself visible, so remembering visible ones is enough. */
  lemma {:induction false} HiddenByVisible(s: Sides, path: Path, k: nat) returns (j: nat)
    requires k < |path| && IsMismatch(s, path[..k])
    ensures j <= k && IsMismatch(s, path[..j]) && !IsHidden(s, path[..j])
    decreases k
  {
    if IsHidden(s, path[..k]) {
      var i :| 0 <= i < |path[..k]| && IsMismatch(s, path[..k][..i]);
      assert path[..k][..i] == path[..i];
      j := HiddenByVisible(s, path, i);
    } else {
      j := k;
    }
  }

  ghost predicate Remembers(s: Sides, mismatched: set<Path>, seen: set<Path>) {
    forall path :: path in mismatched <==> path in seen && IsMismatch(s, path) && !IsHidden(s, path)
  }

  lemma RememberedHides(s: Sides, mismatched: set<Path>, seen: set<Path>, path: Path)
    requires Remembers(s, mismatched, seen)
    requires forall other :: other in s.local.Keys + s.remote.Keys && PathLess(other, path) ==> other in seen
    ensures IsHidden(s, path) <==> exists k :: 0 <= k < |path| && path[..k] in mismatched
  {
    if IsHidden(s, path) {
      var k :| 0 <= k < |path| && IsMismatch(s, path[..k]);
      var j := HiddenByVisible(s, path, k);
      AncestorIsLess(path, j);
      assert path[..j] in mismatched;
    }
  }

  ghost predicate ShowsSeen(s: Sides, shown: seq<Path>, seen: set<Path>) {
    IsSorted(shown) && forall path :: path in shown <==> path in seen && IsListed(s, path)
  }

  ghost predicate ItemsShow(s: Sides, items: seq<SyncItem>, shown: seq<Path>) {
    && |items| == |shown|
    && forall k :: 0 <= k < |items| ==> VerdictAt(s, shown[k]).Some? && items[k] == ItemAt(s, shown[k], k)
  }

  lemma ItemsPush(s: Sides, items: seq<SyncItem>, shown: seq<Path>, path: Path)
    requires ItemsShow(s, items, shown) && VerdictAt(s, path).Some?
    ensures ItemsShow(s, items + [ItemAt(s, path, |items|)], shown + [path])
  {
    hide VerdictAt, ItemAt;
  }

  lemma ItemsAreTheComparison(s: Sides, items: seq<SyncItem>, shown: seq<Path>, seen: set<Path>)
    requires ItemsShow(s, items, shown) && ShowsSeen(s, shown, seen) && seen == s.local.Keys + s.remote.Keys
    ensures items == Comparison(s)
  {
    assert Lists(shown, ListedPaths(s));
    SortedIsUnique(shown, ListedPaths(s));
    hide VerdictAt, ItemAt, IsHidden, ListedPaths, ShowsSeen;
  }

  method Compare(s: Sides) returns (items: seq<SyncItem>)
    ensures items == Comparison(s)
  {
    items := [];
    if !s.options.IsValid() {
      assert ListedPaths(s) == {};
      return;
    }
    var paths := Sorted(s.local.Keys + s.remote.Keys);
    var mismatched: set<Path> := {};
    ghost var shown: seq<Path> := [];
    ghost var seen: set<Path> := {};
    hide VerdictAt, ItemAt, IsHidden, IsListed, IsMismatch, IsSorted, Lists, ShowsSeen, ItemsShow, Remembers, Comparison,
      SeenUpTo;
    NothingShown(s, paths);
    for i := 0 to |paths|
      invariant SeenUpTo(paths, i, seen)
      invariant Remembers(s, mismatched, seen) && ShowsSeen(s, shown, seen) && ItemsShow(s, items, shown)
    {
      var path := paths[i];
      Looked(s, mismatched, paths, i, seen);
      RememberStep(s, mismatched, seen, path);
      ShownPush(s, paths, i, seen, shown);
      var hidden := exists k :: 0 <= k < |path| && path[..k] in mismatched;
      if !hidden {
        var verdict := VerdictAt(s, path);
        if IsMismatch(s, path) {
          mismatched := mismatched + {path};
        }
        if verdict.Some? {
          ItemsPush(s, items, shown, path);
          items := items + [ItemAt(s, path, |items|)];
          shown := shown + [path];
        }
      }
      seen := seen + {path};
    }
    AllSeen(paths, s.local.Keys + s.remote.Keys, seen);
    ItemsAreTheComparison(s, items, shown, seen);
  }

  ghost predicate SeenUpTo(paths: seq<Path>, i: nat, seen: set<Path>) {
    i <= |paths| && forall path :: path in seen <==> path in paths[..i]
  }

  lemma AllSeen(paths: seq<Path>, all: set<Path>, seen: set<Path>)
    requires Lists(paths, all) && SeenUpTo(paths, |paths|, seen)
    ensures seen == all
  {
    assert paths[..|paths|] == paths;
  }

  lemma Looked(s: Sides, mismatched: set<Path>, paths: seq<Path>, i: nat, seen: set<Path>)
    requires s.options.IsValid() && IsSorted(paths) && Lists(paths, s.local.Keys + s.remote.Keys) && i < |paths|
    requires SeenUpTo(paths, i, seen) && Remembers(s, mismatched, seen)
    ensures var path := paths[i];
      var hidden := exists k :: 0 <= k < |path| && path[..k] in mismatched;
      IsHidden(s, path) == hidden && (IsListed(s, path) <==> !hidden && VerdictAt(s, path).Some?)
    ensures SeenUpTo(paths, i + 1, seen + {paths[i]})
  {
    hide VerdictAt, Remembers, IsMismatch, IsHidden;
    SeenSoFar(s, paths, i, seen);
    RememberedHides(s, mismatched, seen, paths[i]);
    SeenStep(paths, i);
  }

  lemma NothingShown(s: Sides, paths: seq<Path>)
    ensures SeenUpTo(paths, 0, {}) && Remembers(s, {}, {}) && ShowsSeen(s, [], {}) && ItemsShow(s, [], [])
  {
  }

  lemma SeenSoFar(s: Sides, paths: seq<Path>, i: nat, seen: set<Path>)
    requires IsSorted(paths) && Lists(paths, s.local.Keys + s.remote.Keys) && i < |paths|
    requires forall path :: path in seen <==> path in paths[..i]
    ensures forall other :: other in s.local.Keys + s.remote.Keys && PathLess(other, paths[i]) ==> other in seen
    ensures paths[i] !in seen && paths[i] in s.local.Keys + s.remote.Keys
  {
    assert paths[i] in paths;
    forall other | other in s.local.Keys + s.remote.Keys && PathLess(other, paths[i]) ensures other in seen {
      assert other in paths;
      var k :| 0 <= k < |paths| && paths[k] == other;
      PathOrder(paths[i], other);
      assert k < i ==> paths[..i][k] == other;
    }
    if paths[i] in seen {
      var k :| 0 <= k < i && paths[..i][k] == paths[i];
      PathOrder(paths[i], paths[i]);
    }
  }

  lemma SeenStep(paths: seq<Path>, i: nat)
    requires i < |paths|
    ensures forall path :: path in paths[..i + 1] <==> path in paths[..i] || path == paths[i]
  {
    assert paths[..i + 1] == paths[..i] + [paths[i]];
  }

  lemma RememberStep(s: Sides, mismatched: set<Path>, seen: set<Path>, path: Path)
    requires Remembers(s, mismatched, seen)
    ensures Remembers(
      s, if !IsHidden(s, path) && IsMismatch(s, path) then mismatched + {path} else mismatched, seen + {path})
  {
  }

  lemma ShownPush(s: Sides, paths: seq<Path>, i: nat, seen: set<Path>, shown: seq<Path>)
    requires IsSorted(paths) && i < |paths| && ShowsSeen(s, shown, seen) && SeenUpTo(paths, i, seen)
    ensures ShowsSeen(s, if IsListed(s, paths[i]) then shown + [paths[i]] else shown, seen + {paths[i]})
  {
    hide IsListed;
    forall k | 0 <= k < |shown| ensures PathLess(shown[k], paths[i]) {
      assert shown[k] in shown;
      assert shown[k] in paths[..i];
    }
    if !IsListed(s, paths[i]) {
      assert paths[i] !in shown;
    }
  }
}
