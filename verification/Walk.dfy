/** The recursive search (porthmos-vfs/src/search/mod.rs, walk_search). */
module Walk {
  import opened Ordered
  import opened Glob

  datatype FileKind = File | Dir | Symlink

  datatype DirItem = DirItem(name: string, path: string, kind: FileKind, size: nat)

  datatype Entry = Entry(name: string, path: string, isDir: bool, size: nat)

  datatype SearchEvent = Found(entry: Entry) | Done(truncated: bool) | Failed

  datatype SearchQuery = SearchQuery(root: string, pattern: string, maxDepth: nat, maxResults: nat)

  /** Reading a folder: its items, or None when it cannot be read. */
  type Disk = string -> Option<seq<DirItem>>

  type Folding = string -> string

  ghost predicate IsHit(query: SearchQuery, fold: Folding, item: DirItem) {
    Greedy(fold(query.pattern), fold(item.name))
  }

  function EntryOf(item: DirItem): Entry {
    Entry(item.name, item.path, item.kind.Dir?, item.size)
  }

  /** The matching entries of one listing. */
  ghost function Hits(query: SearchQuery, fold: Folding, items: seq<DirItem>): seq<Entry> {
    if items == [] then []
    else (if IsHit(query, fold, items[0]) then [EntryOf(items[0])] else []) + Hits(query, fold, items[1..])
  }

  /** The folders of one listing, to be visited at `depth`. */
  function Folders(items: seq<DirItem>, depth: nat): seq<(string, nat)> {
    if items == [] then []
    else (if items[0].kind.Dir? then [(items[0].path, depth)] else []) + Folders(items[1..], depth)
  }

  // ----- the walk always ends: the depth limit makes the tree below a folder finite -----

  ghost function Weight(disk: Disk, maxDepth: nat, dir: string, depth: nat): nat
    decreases maxDepth + 1 - depth, 0, 0
  {
    if depth > maxDepth || disk(dir).None? then 1
    else 1 + ItemsWeight(disk, maxDepth, disk(dir).value, depth + 1)
  }

  ghost function ItemsWeight(disk: Disk, maxDepth: nat, items: seq<DirItem>, depth: nat): nat
    requires depth <= maxDepth + 1
    decreases maxDepth + 1 - depth, 1, |items|
  {
    if items == [] then 0
    else (if items[0].kind.Dir? then Weight(disk, maxDepth, items[0].path, depth) else 0)
         + ItemsWeight(disk, maxDepth, items[1..], depth)
  }

  ghost function StackWeight(disk: Disk, maxDepth: nat, stack: seq<(string, nat)>): nat {
    if stack == [] then 0
    else Weight(disk, maxDepth, stack[|stack| - 1].0, stack[|stack| - 1].1)
         + StackWeight(disk, maxDepth, stack[..|stack| - 1])
  }

  lemma {:induction false} StackWeightAppend(disk: Disk, maxDepth: nat, stack: seq<(string, nat)>, more: seq<(string, nat)>)
    ensures StackWeight(disk, maxDepth, stack + more) ==
      StackWeight(disk, maxDepth, stack) + StackWeight(disk, maxDepth, more)
  {
    if more == [] {
      assert stack + more == stack;
    } else {
      assert (stack + more)[..|stack + more| - 1] == stack + more[..|more| - 1];
      StackWeightAppend(disk, maxDepth, stack, more[..|more| - 1]);
    }
  }

  lemma {:induction false} FoldersWeight(disk: Disk, maxDepth: nat, items: seq<DirItem>, depth: nat)
    requires depth <= maxDepth + 1
    ensures StackWeight(disk, maxDepth, Folders(items, depth)) == ItemsWeight(disk, maxDepth, items, depth)
  {
    if items == [] {
    } else {
      FoldersWeight(disk, maxDepth, items[1..], depth);
      if items[0].kind.Dir? {
        var top := [(items[0].path, depth)];
        StackWeightAppend(disk, maxDepth, top, Folders(items[1..], depth));
        assert top[..0] == [];
        assert StackWeight(disk, maxDepth, top) == Weight(disk, maxDepth, items[0].path, depth);
      } else {
        assert [] + Folders(items[1..], depth) == Folders(items[1..], depth);
      }
    }
  }

  lemma PopShrinks(disk: Disk, maxDepth: nat, stack: seq<(string, nat)>)
    requires stack != []
    ensures
      var rest := stack[..|stack| - 1];
      var (dir, depth) := stack[|stack| - 1];
      && StackWeight(disk, maxDepth, rest) < StackWeight(disk, maxDepth, stack)
      && (depth <= maxDepth && disk(dir).Some? ==>
            StackWeight(disk, maxDepth, rest + Folders(disk(dir).value, depth + 1))
              < StackWeight(disk, maxDepth, stack))
  {
    var rest := stack[..|stack| - 1];
    var (dir, depth) := stack[|stack| - 1];
    if depth <= maxDepth && disk(dir).Some? {
      StackWeightAppend(disk, maxDepth, rest, Folders(disk(dir).value, depth + 1));
      FoldersWeight(disk, maxDepth, disk(dir).value, depth + 1);
    }
  }

  // ----- everything an unlimited walk would report, in its order -----

  ghost function Visit(disk: Disk, query: SearchQuery, fold: Folding, stack: seq<(string, nat)>): seq<Entry>
    decreases StackWeight(disk, query.maxDepth, stack)
  {
    if stack == [] then [] else
      PopShrinks(disk, query.maxDepth, stack);
      var rest, top := stack[..|stack| - 1], stack[|stack| - 1];
      if top.1 > query.maxDepth || disk(top.0).None? then Visit(disk, query, fold, rest)
      else
        var items := disk(top.0).value;
        Hits(query, fold, items) + Visit(disk, query, fold, rest + Folders(items, top.1 + 1))
  }

  ghost function FullReport(disk: Disk, query: SearchQuery, fold: Folding): seq<Entry> {
    Visit(disk, query, fold, [(query.root, 0)])
  }

  // ----- the same by plain recursion over the tree -----

  /** The matches of a folder and of every folder below it, as often as each is listed. */
  ghost function AllMatches(disk: Disk, query: SearchQuery, fold: Folding, dir: string, depth: nat): multiset<Entry>
    decreases query.maxDepth + 1 - depth, 0, 0
  {
    if depth > query.maxDepth || disk(dir).None? then multiset{}
    else multiset(Hits(query, fold, disk(dir).value)) + MatchesBelow(disk, query, fold, disk(dir).value, depth + 1)
  }

  ghost function MatchesBelow(
    disk: Disk, query: SearchQuery, fold: Folding, items: seq<DirItem>, depth: nat): multiset<Entry>
    requires depth <= query.maxDepth + 1
    decreases query.maxDepth + 1 - depth, 1, |items|
  {
    if items == [] then multiset{}
    else (if items[0].kind.Dir? then AllMatches(disk, query, fold, items[0].path, depth) else multiset{})
         + MatchesBelow(disk, query, fold, items[1..], depth)
  }

  ghost function StackMatches(disk: Disk, query: SearchQuery, fold: Folding, stack: seq<(string, nat)>): multiset<Entry> {
    if stack == [] then multiset{}
    else AllMatches(disk, query, fold, stack[|stack| - 1].0, stack[|stack| - 1].1)
         + StackMatches(disk, query, fold, stack[..|stack| - 1])
  }

  lemma {:induction false} StackMatchesAppend(
    disk: Disk, query: SearchQuery, fold: Folding, stack: seq<(string, nat)>, more: seq<(string, nat)>)
    ensures StackMatches(disk, query, fold, stack + more) ==
      StackMatches(disk, query, fold, stack) + StackMatches(disk, query, fold, more)
  {
    if more == [] {
      assert stack + more == stack;
    } else {
      assert (stack + more)[..|stack + more| - 1] == stack + more[..|more| - 1];
      StackMatchesAppend(disk, query, fold, stack, more[..|more| - 1]);
    }
  }

  lemma {:induction false} FoldersMatches(
    disk: Disk, query: SearchQuery, fold: Folding, items: seq<DirItem>, depth: nat)
    requires depth <= query.maxDepth + 1
    ensures StackMatches(disk, query, fold, Folders(items, depth)) == MatchesBelow(disk, query, fold, items, depth)
  {
    if items == [] {
    } else {
      FoldersMatches(disk, query, fold, items[1..], depth);
      if items[0].kind.Dir? {
        var top := [(items[0].path, depth)];
        StackMatchesAppend(disk, query, fold, top, Folders(items[1..], depth));
        assert top[..0] == [];
        assert StackMatches(disk, query, fold, top) == AllMatches(disk, query, fold, items[0].path, depth);
      } else {
        assert [] + Folders(items[1..], depth) == Folders(items[1..], depth);
      }
    }
  }

  lemma {:induction false} VisitFindsAll(disk: Disk, query: SearchQuery, fold: Folding, stack: seq<(string, nat)>)
    ensures multiset(Visit(disk, query, fold, stack)) == StackMatches(disk, query, fold, stack)
    decreases StackWeight(disk, query.maxDepth, stack)
  {
    hide Hits, Folders, AllMatches, MatchesBelow, StackWeight;
    if stack == [] {
    } else {
      PopShrinks(disk, query.maxDepth, stack);
      var rest, top := stack[..|stack| - 1], stack[|stack| - 1];
      NothingThere(disk, query, fold, top.0, top.1);
      if top.1 > query.maxDepth || disk(top.0).None? {
        VisitFindsAll(disk, query, fold, rest);
      } else {
        var items := disk(top.0).value;
        var next := rest + Folders(items, top.1 + 1);
        VisitFindsAll(disk, query, fold, next);
        FolderOpened(disk, query, fold, rest, top.0, top.1);
        MultisetOfConcat(Hits(query, fold, items), Visit(disk, query, fold, next));
      }
    }
  }

  lemma NothingThere(disk: Disk, query: SearchQuery, fold: Folding, dir: string, depth: nat)
    ensures depth > query.maxDepth || disk(dir).None? ==> AllMatches(disk, query, fold, dir, depth) == multiset{}
  {
  }

  lemma MultisetOfConcat(a: seq<Entry>, b: seq<Entry>)
    ensures multiset(a + b) == multiset(a) + multiset(b)
  {
  }

  lemma FolderOpened(
    disk: Disk, query: SearchQuery, fold: Folding, rest: seq<(string, nat)>, dir: string, depth: nat)
    requires depth <= query.maxDepth && disk(dir).Some?
    ensures var items := disk(dir).value;
      multiset(Hits(query, fold, items)) + StackMatches(disk, query, fold, rest + Folders(items, depth + 1)) ==
      AllMatches(disk, query, fold, dir, depth) + StackMatches(disk, query, fold, rest)
  {
    var items := disk(dir).value;
    StackMatchesAppend(disk, query, fold, rest, Folders(items, depth + 1));
    FoldersMatches(disk, query, fold, items, depth + 1);
    FolderMatches(disk, query, fold, dir, depth);
    hide StackMatches, MatchesBelow, AllMatches, Hits, Folders;
  }

  lemma FolderMatches(disk: Disk, query: SearchQuery, fold: Folding, dir: string, depth: nat)
    requires depth <= query.maxDepth && disk(dir).Some?
    ensures AllMatches(disk, query, fold, dir, depth) ==
      multiset(Hits(query, fold, disk(dir).value)) + MatchesBelow(disk, query, fold, disk(dir).value, depth + 1)
  {
  }

  /** An unlimited walk reports every match of the tree, each exactly as often as it is listed. */
  lemma FullReportIsComplete(disk: Disk, query: SearchQuery, fold: Folding)
    ensures multiset(FullReport(disk, query, fold)) == AllMatches(disk, query, fold, query.root, 0)
  {
    var stack := [(query.root, 0)];
    VisitFindsAll(disk, query, fold, stack);
    assert stack[..0] == [];
  }

  /** A chain of readable folders, each listed as a folder in the one before. */
  ghost predicate Chain(disk: Disk, dirs: seq<string>) {
    && dirs != []
    && (forall i :: 0 <= i < |dirs| ==> disk(dirs[i]).Some?)
    && forall i :: 0 <= i < |dirs| - 1 ==> Lists(disk(dirs[i]), dirs[i + 1])
  }

  ghost predicate Lists(listing: Option<seq<DirItem>>, dir: string) {
    listing.Some? && exists item :: item in listing.value && item.kind.Dir? && item.path == dir
  }

  /** One of the items matches, and is shown as this entry. */
  ghost predicate ListsHit(query: SearchQuery, fold: Folding, items: seq<DirItem>, entry: Entry) {
    exists item :: item in items && IsHit(query, fold, item) && EntryOf(item) == entry
  }

  lemma {:induction false} HitsAre(query: SearchQuery, fold: Folding, items: seq<DirItem>, entry: Entry)
    ensures entry in Hits(query, fold, items) <==> ListsHit(query, fold, items, entry)
  {
    if items == [] {
    } else {
      HitsAre(query, fold, items[1..], entry);
      assert items == [items[0]] + items[1..];
    }
  }

  ghost predicate IsBelow(
    disk: Disk, query: SearchQuery, fold: Folding, items: seq<DirItem>, depth: nat, entry: Entry)
  {
    exists item :: item in items && item.kind.Dir? && entry in AllMatches(disk, query, fold, item.path, depth)
  }

  lemma {:induction false} BelowAre(
    disk: Disk, query: SearchQuery, fold: Folding, items: seq<DirItem>, depth: nat, entry: Entry)
    requires depth <= query.maxDepth + 1
    ensures entry in MatchesBelow(disk, query, fold, items, depth) <==> IsBelow(disk, query, fold, items, depth, entry)
    decreases |items|
  {
    if items == [] {
    } else {
      BelowAre(disk, query, fold, items[1..], depth, entry);
      assert items == [items[0]] + items[1..];
    }
  }

  ghost predicate FoundVia(disk: Disk, query: SearchQuery, fold: Folding, dirs: seq<string>, entry: Entry) {
    && Chain(disk, dirs)
    && ListsHit(query, fold, disk(dirs[|dirs| - 1]).value, entry)
  }

  lemma MatchIsHereOrBelow(disk: Disk, query: SearchQuery, fold: Folding, dir: string, depth: nat, entry: Entry)
    ensures entry in AllMatches(disk, query, fold, dir, depth) <==>
      && depth <= query.maxDepth && disk(dir).Some?
      && (|| ListsHit(query, fold, disk(dir).value, entry)
          || IsBelow(disk, query, fold, disk(dir).value, depth + 1, entry))
  {
    NothingThere(disk, query, fold, dir, depth);
    if depth <= query.maxDepth && disk(dir).Some? {
      FolderMatches(disk, query, fold, dir, depth);
      BelowAre(disk, query, fold, disk(dir).value, depth + 1, entry);
      HitsAre(query, fold, disk(dir).value, entry);
    }
    hide AllMatches, MatchesBelow, Hits, ListsHit, IsBelow;
  }

  lemma {:induction false} MatchHasChain(
    disk: Disk, query: SearchQuery, fold: Folding, dir: string, depth: nat, entry: Entry)
    returns (dirs: seq<string>)
    requires entry in AllMatches(disk, query, fold, dir, depth)
    ensures FoundVia(disk, query, fold, dirs, entry) && dirs[0] == dir && depth + |dirs| <= query.maxDepth + 1
    decreases query.maxDepth + 1 - depth
  {
    hide AllMatches, ListsHit;
    MatchIsHereOrBelow(disk, query, fold, dir, depth, entry);
    if ListsHit(query, fold, disk(dir).value, entry) {
      dirs := [dir];
    } else {
      var item :| item in disk(dir).value && item.kind.Dir?
        && entry in AllMatches(disk, query, fold, item.path, depth + 1);
      var rest := MatchHasChain(disk, query, fold, item.path, depth + 1, entry);
      dirs := [dir] + rest;
      LongerChain(disk, dir, rest);
    }
  }

  lemma LongerChain(disk: Disk, dir: string, rest: seq<string>)
    requires Chain(disk, rest) && Lists(disk(dir), rest[0])
    ensures Chain(disk, [dir] + rest)
  {
    var dirs := [dir] + rest;
    forall i | 0 <= i < |dirs| - 1 ensures Lists(disk(dirs[i]), dirs[i + 1]) {
      if i > 0 {
        assert dirs[i] == rest[i - 1] && dirs[i + 1] == rest[i - 1 + 1];
      }
    }
  }

  lemma {:induction false} ChainIsMatched(
    disk: Disk, query: SearchQuery, fold: Folding, dirs: seq<string>, depth: nat, entry: Entry)
    requires FoundVia(disk, query, fold, dirs, entry) && depth + |dirs| <= query.maxDepth + 1
    ensures entry in AllMatches(disk, query, fold, dirs[0], depth)
    decreases |dirs|
  {
    hide AllMatches, ListsHit;
    MatchIsHereOrBelow(disk, query, fold, dirs[0], depth, entry);
    if |dirs| == 1 {
    } else {
      var rest := dirs[1..];
      assert forall i :: 0 <= i < |rest| ==> rest[i] == dirs[i + 1];
      assert Lists(disk(dirs[0]), dirs[0 + 1]);
      ChainIsMatched(disk, query, fold, rest, depth + 1, entry);
    }
  }

  /** What it reports is what some chain of readable folders from the root, no deeper than the limit,
      leads to. */
  lemma ReportedMeansReachable(disk: Disk, query: SearchQuery, fold: Folding, entry: Entry)
    ensures entry in FullReport(disk, query, fold) <==>
      exists dirs :: FoundVia(disk, query, fold, dirs, entry) && dirs[0] == query.root && |dirs| <= query.maxDepth + 1
  {
    FullReportIsComplete(disk, query, fold);
    assert entry in FullReport(disk, query, fold) <==> entry in AllMatches(disk, query, fold, query.root, 0) by {
      assert entry in FullReport(disk, query, fold) <==> entry in multiset(FullReport(disk, query, fold));
    }
    if entry in FullReport(disk, query, fold) {
      var dirs := MatchHasChain(disk, query, fold, query.root, 0, entry);
    }
    if dirs :| FoundVia(disk, query, fold, dirs, entry) && dirs[0] == query.root && |dirs| <= query.maxDepth + 1 {
      ChainIsMatched(disk, query, fold, dirs, 0, entry);
    }
  }

  /** Some readable folder on a chain from the root, no deeper than the limit, lists this item. */
  ghost predicate IsInReach(disk: Disk, query: SearchQuery, item: DirItem) {
    exists dirs: seq<string> ::
      && Chain(disk, dirs) && dirs[0] == query.root && |dirs| <= query.maxDepth + 1
      && item in disk(dirs[|dirs| - 1]).value
  }

  /** Whatever is reported shows an item in reach whose folded name the folded pattern matches, with its
      name, path and size, and marked as a folder exactly if it is one; and each such item is reported if its
      folded name has no star. */
  lemma ReportedPlainly(disk: Disk, query: SearchQuery, fold: Folding, entry: Entry)
    ensures entry in FullReport(disk, query, fold) ==>
      exists item :: IsInReach(disk, query, item) && IsShownAs(query, fold, item, entry)
    ensures (exists item ::
      IsInReach(disk, query, item) && StarFree(fold(item.name)) && IsShownAs(query, fold, item, entry))
      ==> entry in FullReport(disk, query, fold)
  {
    ReportedMeansReachable(disk, query, fold, entry);
    hide FullReport, Matches, Greedy;
    if entry in FullReport(disk, query, fold) {
      var dirs :| FoundVia(disk, query, fold, dirs, entry) && dirs[0] == query.root && |dirs| <= query.maxDepth + 1;
      var item :| item in disk(dirs[|dirs| - 1]).value && IsHit(query, fold, item) && EntryOf(item) == entry;
      GreedyIsSound(fold(query.pattern), fold(item.name));
      assert IsInReach(disk, query, item) && IsShownAs(query, fold, item, entry);
    }
    if item :| IsInReach(disk, query, item) && StarFree(fold(item.name)) && IsShownAs(query, fold, item, entry) {
      GreedyIsComplete(fold(query.pattern), fold(item.name));
      var dirs: seq<string> :| Chain(disk, dirs) && dirs[0] == query.root && |dirs| <= query.maxDepth + 1
        && item in disk(dirs[|dirs| - 1]).value;
      assert ListsHit(query, fold, disk(dirs[|dirs| - 1]).value, entry);
      assert FoundVia(disk, query, fold, dirs, entry);
    }
  }

  ghost predicate IsShownAs(query: SearchQuery, fold: Folding, item: DirItem, entry: Entry) {
    && Matches(fold(query.pattern), fold(item.name))
    && entry.name == item.name && entry.path == item.path && entry.size == item.size
    && entry.isDir == (item.kind == Dir)
  }

  // ----- the walk itself -----

  function Reports(entries: seq<Entry>): seq<SearchEvent> {
    if entries == [] then [] else [Found(entries[0])] + Reports(entries[1..])
  }

  lemma {:induction false} ReportsAppend(entries: seq<Entry>, more: seq<Entry>)
    ensures Reports(entries + more) == Reports(entries) + Reports(more)
  {
    if entries == [] {
      assert entries + more == more;
    } else {
      assert (entries + more)[1..] == entries[1..] + more;
      ReportsAppend(entries[1..], more);
    }
  }

  lemma VisitPop(disk: Disk, query: SearchQuery, fold: Folding, stack: seq<(string, nat)>)
    requires stack != []
    ensures
      var rest := stack[..|stack| - 1];
      var (dir, depth) := stack[|stack| - 1];
      Visit(disk, query, fold, stack) ==
        if depth > query.maxDepth || disk(dir).None? then Visit(disk, query, fold, rest)
        else Hits(query, fold, disk(dir).value)
             + Visit(disk, query, fold, rest + Folders(disk(dir).value, depth + 1))
  {
  }

  lemma NextItem(query: SearchQuery, fold: Folding, items: seq<DirItem>, i: nat, depth: nat)
    requires i < |items|
    ensures Hits(query, fold, items[i..]) ==
      (if IsHit(query, fold, items[i]) then [EntryOf(items[i])] else []) + Hits(query, fold, items[i + 1..])
    ensures Folders(items[i..], depth) ==
      (if items[i].kind.Dir? then [(items[i].path, depth)] else []) + Folders(items[i + 1..], depth)
  {
    assert items[i..] == [items[i]] + items[i + 1..];
  }

  /** `cancelled(i)` is what the cancel flag says at its i-th reading. A walk that was not cancelled
      reports the first `maxResults` entries of the full report and says whether it has that many; a
      cancelled one reports some beginning of them and no end. */
  method WalkSearch(disk: Disk, query: SearchQuery, fold: Folding, cancelled: nat -> bool)
    returns (events: seq<SearchEvent>, ended: bool)
    ensures var full := FullReport(disk, query, fold);
      if !ended then
        (exists i :: cancelled(i)) &&
        exists k :: 0 <= k <= Min(|full|, query.maxResults) && events == Reports(full[..k])
      else if disk(query.root).None? then events == [Failed]
      else events == Reports(full[..Min(|full|, query.maxResults)]) + [Done(|full| >= query.maxResults)]
  {
    hide Visit, StackWeight, Hits, Folders, Reports, Greedy;
    ghost var full := FullReport(disk, query, fold);
    events := [];
    ghost var reported: seq<Entry> := [];
    NothingReported();
    VisitNothing(disk, query, fold);
    var found, truncated, looks := 0, false, 0;
    var stack: seq<(string, nat)> := [(query.root, 0)];
    var isRoot := true;
    while stack != []
      invariant reported + Visit(disk, query, fold, stack) == full
      invariant events == Reports(reported) && found == |reported|
      invariant !truncated
      invariant isRoot ==> stack == [(query.root, 0)] && reported == []
      invariant !isRoot ==> found < query.maxResults && disk(query.root).Some?
      decreases StackWeight(disk, query.maxDepth, stack)
    {
      PopShrinks(disk, query.maxDepth, stack);
      VisitPop(disk, query, fold, stack);
      var (dir, depth) := stack[|stack| - 1];
      stack := stack[..|stack| - 1];
      if cancelled(looks) {
        assert full[..|reported|] == reported;
        return events, false;
      }
      looks := looks + 1;
      if depth > query.maxDepth {
        continue;
      }
      var listing := disk(dir);
      if listing.None? {
        if isRoot {
          return [Failed], true;
        }
        continue;
      }
      isRoot := false;
      var items := listing.value;
      ghost var later := Visit(disk, query, fold, stack + Folders(items, depth + 1));
      var more, folders, stopped;
      more, folders, looks, stopped := ReportItems(query, fold, cancelled, items, depth + 1, found, looks);
      ReportsAppend(reported, more);
      events := events + Reports(more);
      reported := reported + more;
      found := found + |more|;
      assert more == Hits(query, fold, items)[..|more|];
      assert full[..|reported|] == reported;
      stack := stack + folders;
      if stopped == Cancelled {
        return events, false;
      }
      truncated := stopped == LimitReached;
      if found >= query.maxResults {
        truncated := true;
        break;
      }
      assert more == Hits(query, fold, items);
      assert full == reported + later;
    }
    assert !truncated ==> full == reported;
    events := events + [Done(truncated)];
    ended := true;
  }

  datatype Stop = Listed | LimitReached | Cancelled

  /** The inner loop over one listing. */
  method ReportItems(
    query: SearchQuery, fold: Folding, cancelled: nat -> bool, items: seq<DirItem>, depth: nat, before: nat, looks: nat)
    returns (more: seq<Entry>, folders: seq<(string, nat)>, looks': nat, stopped: Stop)
    requires before < query.maxResults || before == 0
    ensures more <= Hits(query, fold, items) && before + |more| <= query.maxResults
    ensures stopped.Listed? ==> more == Hits(query, fold, items) && folders == Folders(items, depth)
    ensures stopped.LimitReached? ==> before + |more| == query.maxResults
    ensures stopped.Cancelled? ==> exists i :: cancelled(i)
  {
    hide Hits, Folders, Greedy, Matches, StarFree;
    more, folders, looks' := [], [], looks;
    assert items[0..] == items;
    for i := 0 to |items|
      invariant more + Hits(query, fold, items[i..]) == Hits(query, fold, items)
      invariant folders + Folders(items[i..], depth) == Folders(items, depth)
      invariant before + |more| <= query.maxResults
    {
      NextItem(query, fold, items, i, depth);
      if cancelled(looks') {
        return more, folders, looks', Cancelled;
      }
      looks' := looks' + 1;
      if before + |more| >= query.maxResults {
        return more, folders, looks', LimitReached;
      }
      var item := items[i];
      var hit, _ := MatchFrom(fold(query.pattern), fold(item.name));
      if hit {
        more := more + [EntryOf(item)];
      }
      if item.kind.Dir? {
        folders := folders + [(item.path, depth)];
      }
    }
    NothingListed(query, fold, items, depth);
    stopped := Listed;
  }

  lemma NothingListed(query: SearchQuery, fold: Folding, items: seq<DirItem>, depth: nat)
    ensures Hits(query, fold, items[|items|..]) == [] && Folders(items[|items|..], depth) == []
  {
  }

  lemma NothingReported()
    ensures Reports([]) == []
  {
  }

  lemma VisitNothing(disk: Disk, query: SearchQuery, fold: Folding)
    ensures Visit(disk, query, fold, []) == []
  {
  }
}
