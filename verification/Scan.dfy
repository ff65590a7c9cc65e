/** Turning a discovered listing into a tree (porthmos-core/src/sync/scan/mod.rs), and that a plan over
    such trees can be carried out. */
module Scan {
  import opened Ordered
  import opened Paths
  import opened Sync
  import opened SyncLaws

  /** One part of a path as the file system names it. */
  datatype Component = RootDir | CurDir | ParentDir | Normal(name: string)

  type RawPath = seq<Component>

  datatype DiscoveredTree = DiscoveredTree(
    directories: seq<RawPath>, files: seq<(RawPath, nat, Option<nat>)>, symlinks: seq<RawPath>)

  datatype ScanError =
    | LeadsOutside(raw: RawPath) | ListedTwice(path: Path) | NestedPath(path: Path) | FolderMissing(path: Path)

  datatype ScanResult = Scanned(tree: Tree) | Refused(error: ScanError)

  predicate IsPlain(raw: RawPath) {
    raw != [] && forall i :: 0 <= i < |raw| ==> raw[i].Normal?
  }

  function Plain(raw: RawPath): (path: Path)
    requires IsPlain(raw)
    ensures |path| == |raw|
  {
    seq(|raw|, i requires 0 <= i < |raw| => raw[i].name)
  }

  datatype Listed = Listed(raw: RawPath, entry: TreeEntry)

  /** The listing in the order it is read: folders, files, symbolic links. */
  ghost function Entries(found: DiscoveredTree): seq<Listed> {
    seq(|found.directories|, i requires 0 <= i < |found.directories| =>
      Listed(found.directories[i], TreeEntry(Dir, 0, None)))
    + seq(|found.files|, i requires 0 <= i < |found.files| =>
      Listed(found.files[i].0, TreeEntry(File, found.files[i].1, found.files[i].2)))
    + seq(|found.symlinks|, i requires 0 <= i < |found.symlinks| =>
      Listed(found.symlinks[i], TreeEntry(Symlink, 0, None)))
  }

  ghost predicate AllPlain(entries: seq<Listed>) {
    forall i :: 0 <= i < |entries| ==> IsPlain(entries[i].raw)
  }

  ghost predicate NoneTwice(entries: seq<Listed>) {
    forall i, j :: 0 <= i < j < |entries| ==> entries[i].raw != entries[j].raw
  }

  /** The tree holds each entry at its path and nothing else. */
  ghost predicate IsTreeOf(entries: seq<Listed>, tree: Tree) {
    && AllPlain(entries)
    && (forall i :: 0 <= i < |entries| ==> Plain(entries[i].raw) in tree && tree[Plain(entries[i].raw)] == entries[i].entry)
    && forall path :: path in tree ==> exists i :: 0 <= i < |entries| && IsPlain(entries[i].raw) && Plain(entries[i].raw) == path
  }

  ghost predicate ParentIsAFolder(tree: Tree, path: Path) {
    |path| <= 1 || (path[..|path| - 1] in tree && tree[path[..|path| - 1]].kind.Dir?)
  }

  ghost predicate DepthFits(path: Path, subfolders: bool) {
    subfolders || |path| <= 1
  }

  lemma PlainIsInjective(a: RawPath, b: RawPath)
    requires IsPlain(a) && IsPlain(b) && Plain(a) == Plain(b)
    ensures a == b
  {
    forall i | 0 <= i < |a| ensures a[i] == b[i] {
      assert Plain(a)[i] == Plain(b)[i];
    }
  }

  /** Read one part of the listing into the tree. */
  method AddAll(ghost before: seq<Listed>, more: seq<Listed>, tree: Tree) returns (result: ScanResult)
    requires IsTreeOf(before, tree) && NoneTwice(before)
    ensures result.Scanned? <==> AllPlain(before + more) && NoneTwice(before + more)
    ensures result.Scanned? ==> IsTreeOf(before + more, result.tree)
    ensures result.Refused? ==> result.error.LeadsOutside? || result.error.ListedTwice?
  {
    hide IsTreeOf, NoneTwice, AllPlain;
    var grown := tree;
    assert before + more[..0] == before;
    for i := 0 to |more|
      invariant IsTreeOf(before + more[..i], grown) && NoneTwice(before + more[..i])
    {
      var raw := more[i].raw;
      ghost var entries := before + more[..i];
      assert before + more[..i + 1] == entries + [more[i]];
      Refusals(before, more, i);
      if !IsPlain(raw) {
        return Refused(LeadsOutside(raw));
      }
      var path := Plain(raw);
      if path in grown {
        FoundTwice(entries, grown, raw);
        return Refused(ListedTwice(path));
      }
      TreeGrows(entries, grown, more[i]);
      grown := grown[path := more[i].entry];
    }
    assert more[..|more|] == more;
    TreeIsPlain(before + more, grown);
    return Scanned(grown);
  }

  lemma Refusals(before: seq<Listed>, more: seq<Listed>, i: nat)
    requires i < |more|
    ensures !IsPlain(more[i].raw) ==> !AllPlain(before + more)
    ensures (exists k :: 0 <= k < |before + more[..i]| && (before + more[..i])[k].raw == more[i].raw) ==>
      !NoneTwice(before + more)
  {
    var all, entries := before + more, before + more[..i];
    assert all[|entries|] == more[i];
    if k :| 0 <= k < |entries| && entries[k].raw == more[i].raw {
      assert all[k] == entries[k];
    }
  }

  lemma TreeIsPlain(entries: seq<Listed>, tree: Tree)
    requires IsTreeOf(entries, tree)
    ensures AllPlain(entries)
  {
  }

  lemma FoundTwice(entries: seq<Listed>, tree: Tree, raw: RawPath)
    requires IsTreeOf(entries, tree) && IsPlain(raw) && Plain(raw) in tree
    ensures exists i :: 0 <= i < |entries| && entries[i].raw == raw
  {
    var i :| 0 <= i < |entries| && IsPlain(entries[i].raw) && Plain(entries[i].raw) == Plain(raw);
    PlainIsInjective(entries[i].raw, raw);
  }

  lemma TreeGrows(entries: seq<Listed>, tree: Tree, entry: Listed)
    requires IsTreeOf(entries, tree) && NoneTwice(entries) && IsPlain(entry.raw) && Plain(entry.raw) !in tree
    ensures IsTreeOf(entries + [entry], tree[Plain(entry.raw) := entry.entry]) && NoneTwice(entries + [entry])
  {
    var more, tree' := entries + [entry], tree[Plain(entry.raw) := entry.entry];
    forall path | path in tree'
      ensures exists i :: 0 <= i < |more| && IsPlain(more[i].raw) && Plain(more[i].raw) == path
    {
      if path in tree {
        var i :| 0 <= i < |entries| && IsPlain(entries[i].raw) && Plain(entries[i].raw) == path;
        assert more[i] == entries[i];
      } else {
        assert more[|entries|] == entry;
      }
    }
  }

  /** The folder of a path is itself listed as a folder. */
  ghost predicate ParentListed(entries: seq<Listed>, path: Path) {
    |path| <= 1 || ListsFolder(entries, path[..|path| - 1])
  }

  ghost predicate ListsFolder(entries: seq<Listed>, path: Path) {
    exists i :: 0 <= i < |entries| && IsPlain(entries[i].raw) && Plain(entries[i].raw) == path
                && entries[i].entry.kind.Dir?
  }

  ghost predicate Acceptable(entries: seq<Listed>, subfolders: bool) {
    && AllPlain(entries) && NoneTwice(entries)
    && forall i :: 0 <= i < |entries| ==> IsPlain(entries[i].raw) && Fits(entries, Plain(entries[i].raw), subfolders)
  }

  ghost predicate Fits(entries: seq<Listed>, path: Path, subfolders: bool) {
    DepthFits(path, subfolders) && ParentListed(entries, path)
  }

  lemma ParentListedIsInTree(entries: seq<Listed>, tree: Tree, path: Path)
    requires IsTreeOf(entries, tree)
    ensures ParentListed(entries, path) <==> ParentIsAFolder(tree, path)
  {
  }

  /** A listing is accepted exactly when no path leads outside or comes twice, none is too deep, and
      every path's folder is listed as a folder. */
  method BuildTree(found: DiscoveredTree, subfolders: bool) returns (result: ScanResult)
    ensures result.Scanned? <==> Acceptable(Entries(found), subfolders)
    ensures result.Scanned? ==> IsTreeOf(Entries(found), result.tree)
    ensures result.Scanned? ==>
      forall path :: path in result.tree ==> DepthFits(path, subfolders) && ParentIsAFolder(result.tree, path)
  {
    hide IsTreeOf, NoneTwice, AllPlain, DepthFits, ParentIsAFolder, Fits;
    var directories := seq(|found.directories|, i requires 0 <= i < |found.directories| =>
      Listed(found.directories[i], TreeEntry(Dir, 0, None)));
    var files := seq(|found.files|, i requires 0 <= i < |found.files| =>
      Listed(found.files[i].0, TreeEntry(File, found.files[i].1, found.files[i].2)));
    var symlinks := seq(|found.symlinks|, i requires 0 <= i < |found.symlinks| =>
      Listed(found.symlinks[i], TreeEntry(Symlink, 0, None)));
    EmptyTree();
    assert [] + directories == directories;
    assert Entries(found) == directories + files + symlinks;
    PartsOfAcceptable(directories, files, symlinks);
    result := AddAll([], directories, map[]);
    if result.Refused? {
      return;
    }
    result := AddAll(directories, files, result.tree);
    if result.Refused? {
      return;
    }
    result := AddAll(directories + files, symlinks, result.tree);
    if result.Refused? {
      return;
    }
    EachEntryFits(Entries(found), result.tree, subfolders);
    result := CheckPaths(Entries(found), result.tree, subfolders);
  }

  lemma EmptyTree()
    ensures IsTreeOf([], map[]) && NoneTwice([])
  {
  }

  lemma PartsOfAcceptable(a: seq<Listed>, b: seq<Listed>, c: seq<Listed>)
    ensures AllPlain(a + b + c) && NoneTwice(a + b + c) ==>
      AllPlain(a) && NoneTwice(a) && AllPlain(a + b) && NoneTwice(a + b)
  {
    var all := a + b + c;
    if AllPlain(all) && NoneTwice(all) {
      assert forall i :: 0 <= i < |a + b| ==> (a + b)[i] == all[i];
      assert forall i :: 0 <= i < |a| ==> a[i] == (a + b)[i];
    }
  }

  lemma EachEntryFits(entries: seq<Listed>, tree: Tree, subfolders: bool)
    requires IsTreeOf(entries, tree) && NoneTwice(entries)
    ensures Acceptable(entries, subfolders) <==> forall path :: path in tree ==> Fits(entries, path, subfolders)
  {
    hide Fits;
  }

  /** The two checks on one path, in their order. */
  function CheckPath(tree: Tree, path: Path, subfolders: bool): (error: Option<ScanError>)
    ensures error.None? <==> DepthFits(path, subfolders) && ParentIsAFolder(tree, path)
  {
    if !subfolders && |path| > 1 then Some(NestedPath(path))
    else if |path| > 1 && (path[..|path| - 1] !in tree || !tree[path[..|path| - 1]].kind.Dir?) then
      Some(FolderMissing(path))
    else None
  }

  method CheckPaths(ghost entries: seq<Listed>, tree: Tree, subfolders: bool) returns (result: ScanResult)
    requires IsTreeOf(entries, tree)
    ensures result.Scanned? <==> forall path :: path in tree ==> Fits(entries, path, subfolders)
    ensures result.Scanned? ==> result.tree == tree
    ensures result.Scanned? ==>
      forall path :: path in tree ==> DepthFits(path, subfolders) && ParentIsAFolder(tree, path)
  {
    hide IsTreeOf, ParentListed, ParentIsAFolder, DepthFits, CheckPath;
    forall path ensures ParentListed(entries, path) <==> ParentIsAFolder(tree, path) {
      ParentListedIsInTree(entries, tree, path);
    }
    var paths := Sorted(tree.Keys);
    for i := 0 to |paths|
      invariant forall k :: 0 <= k < i ==> DepthFits(paths[k], subfolders) && ParentIsAFolder(tree, paths[k])
    {
      assert paths[i] in paths;
      var error := CheckPath(tree, paths[i], subfolders);
      if error.Some? {
        return Refused(error.value);
      }
    }
    forall path | path in tree ensures DepthFits(path, subfolders) && ParentIsAFolder(tree, path) {
      assert path in paths;
      var k :| 0 <= k < |paths| && paths[k] == path;
    }
    return Scanned(tree);
  }

  // ----- what accepted trees are good for -----

  ghost predicate IsAccepted(tree: Tree) {
    forall path :: path in tree ==> ParentIsAFolder(tree, path)
  }

  /** Every folder above an entry of an accepted tree is in the tree as a folder. */
  lemma {:induction false} AncestorsAreFolders(tree: Tree, path: Path, k: nat)
    requires IsAccepted(tree) && path in tree && 0 < k < |path|
    ensures path[..k] in tree && tree[path[..k]].kind.Dir?
    decreases |path| - k
  {
    if k < |path| - 1 {
      AncestorsAreFolders(tree, path, k + 1);
      assert path[..k + 1][..k] == path[..k];
      assert ParentIsAFolder(tree, path[..k + 1]);
    } else {
      assert ParentIsAFolder(tree, path);
    }
  }

  /** The folders above the given paths. */
  ghost predicate IsAbove(folder: Path, paths: set<Path>) {
    exists path, k :: path in paths && 0 < k < |path| && path[..k] == folder
  }

  ghost function TickedFor(s: Sides, action: SyncAction): set<Path> {
    set path | path in ListedPaths(s) && IsTicked(s, path, action)
  }

  /** Copying: make the missing folders, then put every file of `copied` in place, with the time that
      `times` says it got. */
  ghost function AfterCopies(from: Tree, to: Tree, copied: set<Path>, times: Path -> Option<nat>): Tree
    requires copied <= from.Keys
  {
    (map path | path in from.Keys && path !in to && IsAbove(path, copied) :: TreeEntry(Dir, 0, None))
    + to
    + (map path | path in copied :: TreeEntry(File, from[path].size, times(path)))
  }

  /** Nothing stands in the way: wherever a file is to be copied, each folder above it is a folder on
      the target too, or missing there. */
  lemma CopiesAreNotBlocked(s: Sides, path: Path, k: nat)
    requires IsAccepted(s.local) && IsAccepted(s.remote)
    requires IsTicked(s, path, Upload) || IsTicked(s, path, Download)
    requires 0 < k < |path|
    ensures IsTicked(s, path, Upload) ==>
      path[..k] in s.local && s.local[path[..k]].kind.Dir?
      && (path[..k] in s.remote ==> s.remote[path[..k]].kind.Dir?)
    ensures IsTicked(s, path, Download) ==>
      path[..k] in s.remote && s.remote[path[..k]].kind.Dir?
      && (path[..k] in s.local ==> s.local[path[..k]].kind.Dir?)
  {
    TickedIsPlain(s, path);
    assert !IsMismatch(s, path[..k]);
    if IsTicked(s, path, Upload) {
      AncestorsAreFolders(s.local, path, k);
    } else {
      AncestorsAreFolders(s.remote, path, k);
    }
  }

  lemma ReceivedAfterCopies(
    s: Sides, from: Tree, to: Tree, action: SyncAction, times: Path -> Option<nat>)
    requires TickedFor(s, action) <= from.Keys
    requires forall path, k :: path in TickedFor(s, action) && 0 < k < |path| && path[..k] in from ==>
      from[path[..k]].kind.Dir?
    ensures Received(s, from, to, AfterCopies(from, to, TickedFor(s, action), times), action)
  {
    hide TimeSettled, ListedPaths, VerdictAt;
    var copied := TickedFor(s, action);
    var to' := AfterCopies(from, to, copied, times);
    forall path | path in to'
      ensures if IsTicked(s, path, action) then path in from && IsCopy(from[path], to'[path])
              else if path in to then to'[path] == to[path]
              else to'[path].kind == Dir && path in from && from[path].kind == Dir
    {
      assert IsTicked(s, path, action) <==> path in copied;
      if path !in copied && path !in to {
        var p, k :| p in copied && 0 < k < |p| && p[..k] == path;
      }
    }
  }

  /** For accepted trees, making folders and copying every ticked item carries the plan out, so what a
      second comparison lists is what was left unticked, if and only if the copies got times that do not make
      them differ again. */
  lemma PlanCanBeCarriedOut(s: Sides, uploaded: Path -> Option<nat>, downloaded: Path -> Option<nat>)
    requires IsAccepted(s.local) && IsAccepted(s.remote)
    ensures TickedFor(s, Upload) <= s.local.Keys && TickedFor(s, Download) <= s.remote.Keys
    ensures var s' := CarriedOut(s, uploaded, downloaded);
      && Executed(s, s')
      && (Comparison(s') == Unticked(Comparison(s)) <==>
            (forall path :: path in TickedFor(s, Upload) ==>
               TimeSettled(s, s.local[path].modified, uploaded(path))) &&
            forall path :: path in TickedFor(s, Download) ==>
              TimeSettled(s, s.remote[path].modified, downloaded(path)))
  {
    hide TimeSettled, ListedPaths, VerdictAt, Received, IsAccepted, IsMismatch, AfterCopies, Executed;
    TickedAreThere(s);
    var s' := CarriedOut(s, uploaded, downloaded);
    CarryingOutExecutes(s, uploaded, downloaded);
    RecomparingLeavesTheUntickedIff(s, s');
    TimesOfCopies(s, uploaded, downloaded);
  }

  lemma TickedAreThere(s: Sides)
    ensures TickedFor(s, Upload) <= s.local.Keys && TickedFor(s, Download) <= s.remote.Keys
    ensures forall path, action :: path in TickedFor(s, action) <==> IsTicked(s, path, action)
  {
    hide VerdictAt, ListedPaths;
    forall path | path in TickedFor(s, Upload) ensures path in s.local {
      TickedIsPlain(s, path);
    }
    forall path | path in TickedFor(s, Download) ensures path in s.remote {
      TickedIsPlain(s, path);
    }
  }

  /** Both sides after all ticked copies, which got these times. */
  ghost function CarriedOut(s: Sides, uploaded: Path -> Option<nat>, downloaded: Path -> Option<nat>): Sides
    requires TickedFor(s, Upload) <= s.local.Keys && TickedFor(s, Download) <= s.remote.Keys
  {
    s.(
      remote := AfterCopies(s.local, s.remote, TickedFor(s, Upload), uploaded),
      local := AfterCopies(s.remote, s.local, TickedFor(s, Download), downloaded))
  }

  lemma CarryingOutExecutes(s: Sides, uploaded: Path -> Option<nat>, downloaded: Path -> Option<nat>)
    requires IsAccepted(s.local) && IsAccepted(s.remote)
    requires TickedFor(s, Upload) <= s.local.Keys && TickedFor(s, Download) <= s.remote.Keys
    ensures Executed(s, CarriedOut(s, uploaded, downloaded))
  {
    hide ListedPaths, VerdictAt, Received, IsAccepted, IsMismatch, AfterCopies;
    TickedAreThere(s);
    forall path, k | path in TickedFor(s, Upload) && 0 < k < |path| && path[..k] in s.local
      ensures s.local[path[..k]].kind.Dir?
    {
      CopiesAreNotBlocked(s, path, k);
    }
    forall path, k | path in TickedFor(s, Download) && 0 < k < |path| && path[..k] in s.remote
      ensures s.remote[path[..k]].kind.Dir?
    {
      CopiesAreNotBlocked(s, path, k);
    }
    ReceivedAfterCopies(s, s.local, s.remote, Upload, uploaded);
    ReceivedAfterCopies(s, s.remote, s.local, Download, downloaded);
    CopiesArrive(s.local, s.remote, TickedFor(s, Upload), uploaded);
    CopiesArrive(s.remote, s.local, TickedFor(s, Download), downloaded);
  }

  lemma TimesOfCopies(s: Sides, uploaded: Path -> Option<nat>, downloaded: Path -> Option<nat>)
    requires TickedFor(s, Upload) <= s.local.Keys && TickedFor(s, Download) <= s.remote.Keys
    ensures TimesSettled(s, CarriedOut(s, uploaded, downloaded)) <==>
      (forall path :: path in TickedFor(s, Upload) ==>
         TimeSettled(s, s.local[path].modified, uploaded(path))) &&
      forall path :: path in TickedFor(s, Download) ==>
        TimeSettled(s, s.remote[path].modified, downloaded(path))
  {
    hide TimeSettled, ListedPaths, VerdictAt, IsTicked, AfterCopies;
    TickedAreThere(s);
    var s' := CarriedOut(s, uploaded, downloaded);
    CopiesArrive(s.local, s.remote, TickedFor(s, Upload), uploaded);
    CopiesArrive(s.remote, s.local, TickedFor(s, Download), downloaded);
    forall path | path in TickedFor(s, Upload)
      ensures UnsettledUpload(s, s', path) <==> !TimeSettled(s, s.local[path].modified, uploaded(path))
    {
      assert s'.remote[path].modified == uploaded(path);
    }
    forall path | path in TickedFor(s, Download)
      ensures UnsettledDownload(s, s', path) <==> !TimeSettled(s, s.remote[path].modified, downloaded(path))
    {
      assert s'.local[path].modified == downloaded(path);
    }
  }

  lemma CopiesArrive(from: Tree, to: Tree, copied: set<Path>, times: Path -> Option<nat>)
    requires copied <= from.Keys
    ensures copied <= AfterCopies(from, to, copied, times).Keys
    ensures forall path :: path in copied ==> AfterCopies(from, to, copied, times)[path].modified == times(path)
  {
  }
}
