/** What a synchronisation plan promises: only allowed actions, symmetry, and that carrying it out
    leaves nothing but what it left unticked. */
module SyncLaws {
  import opened Ordered
  import opened Paths
  import opened Sync

  // ----- the actions -----

  /** The actions a user may choose for an item. */
  function AllowedActions(item: SyncItem, direction: SyncDirection): seq<SyncAction> {
    if item.reason.KindMismatch? then [Skip]
    else
      [Skip]
      + (if item.local.Some? && !direction.RemoteToLocal? then [Upload] else [])
      + (if item.remote.Some? && !direction.LocalToRemote? then [Download] else [])
  }

  function ActionAfter(item: SyncItem, current: SyncAction, direction: SyncDirection): SyncAction {
    var allowed := AllowedActions(item, direction);
    var at := PositionOf(allowed, current);
    if at < |allowed| then allowed[(at + 1) % |allowed|] else Skip
  }

  function PositionOf(actions: seq<SyncAction>, action: SyncAction): (at: nat)
    ensures at <= |actions| && (at < |actions| ==> actions[at] == action)
    ensures at == |actions| ==> action !in actions
  {
    if actions == [] then 0 else if actions[0] == action then 0 else 1 + PositionOf(actions[1..], action)
  }

  /** Every listed item proposes an allowed action; it is ticked exactly when it proposes a copy, and
      only unticked questions can be flipped. */
  lemma ListedActionsAreAllowed(s: Sides, i: nat)
    requires i < |Comparison(s)|
    ensures var item := Comparison(s)[i];
      && item.id == i
      && item.action in AllowedActions(item, s.options.direction)
      && (item.ticked <==> !item.action.Skip?)
      && (item.flippable ==> !item.ticked && !item.reason.KindMismatch? && item.local.Some? && item.remote.Some?)
      && (item.reason.KindMismatch? <==> IsMismatch(s, item.path))
  {
    hide ListedPaths, IsHidden, VerdictAt, IsMismatch, Comparison;
    ComparisonAscends(s);
    var path := Comparison(s)[i].path;
    assert VerdictAt(s, path).Some? by {
      ListedHasVerdict(s, path);
    }
    VerdictIsAllowed(s, path);
  }

  lemma ListedHasVerdict(s: Sides, path: Path)
    requires path in ListedPaths(s)
    ensures VerdictAt(s, path).Some? && s.options.IsValid()
  {
  }

  lemma VerdictIsAllowed(s: Sides, path: Path)
    requires VerdictAt(s, path).Some?
    ensures var item := ItemAt(s, path, 0);
      && item.action in AllowedActions(item, s.options.direction)
      && (item.ticked <==> !item.action.Skip?)
      && (item.flippable ==> !item.ticked && !item.reason.KindMismatch? && item.local.Some? && item.remote.Some?)
      && (item.reason.KindMismatch? <==> IsMismatch(s, path))
  {
  }

  /** By time, of two files with known times the newer is copied over the older exactly when it is newer
      by more than the tolerance and the direction permits; nothing newer is ever to be overwritten. */
  lemma OnlyTheNewerIsCopied(s: Sides, i: nat)
    requires i < |Comparison(s)| && s.options.compareBy.Time?
    requires Comparison(s)[i].local.Some? && Comparison(s)[i].local.value.modified.Some?
    requires Comparison(s)[i].remote.Some? && Comparison(s)[i].remote.value.modified.Some?
    requires !Comparison(s)[i].reason.KindMismatch?
    ensures var item := Comparison(s)[i];
      var localTime, remoteTime := item.local.value.modified.value, item.remote.value.modified.value;
      && (item.action.Upload? <==> localTime > remoteTime + s.tolerance && !s.options.direction.RemoteToLocal?)
      && (item.action.Download? <==> remoteTime > localTime + s.tolerance && !s.options.direction.LocalToRemote?)
  {
    hide ListedPaths, IsHidden, Comparison;
    ComparisonAscends(s);
    ItemShows(s, i);
    VerdictByTime(s, Comparison(s)[i].path);
  }

  lemma VerdictByTime(s: Sides, path: Path)
    requires path in s.local && path in s.remote && s.options.compareBy.Time?
    requires s.local[path].modified.Some? && s.remote[path].modified.Some?
    requires VerdictAt(s, path).Some? && !VerdictAt(s, path).value.reason.KindMismatch?
    ensures var localTime, remoteTime := s.local[path].modified.value, s.remote[path].modified.value;
      var action := VerdictAt(s, path).value.action;
      && (action.Upload? <==> localTime > remoteTime + s.tolerance && !s.options.direction.RemoteToLocal?)
      && (action.Download? <==> remoteTime > localTime + s.tolerance && !s.options.direction.LocalToRemote?)
  {
    assert At(s.local, path) == Some(s.local[path]) && At(s.remote, path) == Some(s.remote[path]);
    assert VerdictAt(s, path) == ByTime(s.local[path], s.remote[path], s.options.direction, s.tolerance, s.keepsTimes);
  }

  lemma ItemShows(s: Sides, i: nat)
    requires i < |Comparison(s)| && Comparison(s)[i].path in ListedPaths(s)
    ensures VerdictAt(s, Comparison(s)[i].path).Some?
    ensures Comparison(s)[i] == ItemAt(s, Comparison(s)[i].path, i)
  {
    hide IsHidden, VerdictAt;
    ListedHasVerdict(s, Comparison(s)[i].path);
  }

  /** What n steps through the actions lead to. */
  ghost function Cycled(item: SyncItem, from: SyncAction, direction: SyncDirection, n: nat): SyncAction {
    if n == 0 then from else ActionAfter(item, Cycled(item, from, direction, n - 1), direction)
  }

  lemma NextInOrder(item: SyncItem, direction: SyncDirection, i: nat)
    requires i < |AllowedActions(item, direction)|
    ensures var allowed := AllowedActions(item, direction);
      ActionAfter(item, allowed[i], direction) == if i + 1 < |allowed| then allowed[i + 1] else allowed[0]
  {
    AllowedDiffer(item, direction);
    hide AllowedActions;
    var allowed := AllowedActions(item, direction);
    assert PositionOf(allowed, allowed[i]) == i;
    assert i + 1 < |allowed| ==> (i + 1) % |allowed| == i + 1;
  }

  lemma AllowedDiffer(item: SyncItem, direction: SyncDirection)
    ensures var allowed := AllowedActions(item, direction);
      allowed != [] && forall i, j :: 0 <= i < j < |allowed| ==> allowed[i] != allowed[j]
  {
  }

  lemma {:induction false} CycledInOrder(item: SyncItem, direction: SyncDirection, i: nat, n: nat)
    requires i < |AllowedActions(item, direction)| && n < |AllowedActions(item, direction)|
    ensures var allowed := AllowedActions(item, direction);
      Cycled(item, allowed[i], direction, n) == allowed[if i + n < |allowed| then i + n else i + n - |allowed|]
  {
    if n == 0 {
    } else {
      hide AllowedActions;
      CycledInOrder(item, direction, i, n - 1);
      var at := i + n - 1;
      NextInOrder(item, direction, if at < |AllowedActions(item, direction)| then at
        else at - |AllowedActions(item, direction)|);
    }
  }

  /** From an allowed action, cycling leads to every allowed one in fewer steps than there are, and to
      allowed ones only. */
  lemma CyclingReachesTheAllowed(item: SyncItem, from: SyncAction, to: SyncAction, direction: SyncDirection)
    requires from in AllowedActions(item, direction)
    ensures ActionAfter(item, from, direction) in AllowedActions(item, direction)
    ensures to in AllowedActions(item, direction) <==>
      exists n: nat :: n < |AllowedActions(item, direction)| && Cycled(item, from, direction, n) == to
  {
    hide AllowedActions;
    var allowed := AllowedActions(item, direction);
    var i :| 0 <= i < |allowed| && allowed[i] == from;
    NextInOrder(item, direction, i);
    if to in allowed {
      var j :| 0 <= j < |allowed| && allowed[j] == to;
      var n := if i <= j then j - i else j - i + |allowed|;
      CycledInOrder(item, direction, i, n);
    }
    forall n: nat | n < |allowed| ensures Cycled(item, from, direction, n) in allowed {
      CycledInOrder(item, direction, i, n);
    }
  }

  // ----- symmetry -----

  function FlipDirection(direction: SyncDirection): SyncDirection {
    match direction
    case LocalToRemote => RemoteToLocal
    case RemoteToLocal => LocalToRemote
    case Both => Both
  }

  function FlipAction(action: SyncAction): SyncAction {
    match action
    case Upload => Download
    case Download => Upload
    case Skip => Skip
  }

  function FlipReason(reason: SyncReason): SyncReason {
    match reason
    case OnlyLocal => OnlyRemote
    case OnlyRemote => OnlyLocal
    case LocalNewer => RemoteNewer
    case RemoteNewer => LocalNewer
    case other => other
  }

  function FlipItem(item: SyncItem): SyncItem {
    item.(local := item.remote, remote := item.local, action := FlipAction(item.action),
      reason := FlipReason(item.reason))
  }

  function FlipSides(s: Sides): Sides {
    s.(local := s.remote, remote := s.local,
      options := s.options.(direction := FlipDirection(s.options.direction)))
  }

  lemma VerdictFlips(s: Sides, path: Path)
    ensures IsMismatch(FlipSides(s), path) == IsMismatch(s, path)
    ensures var here, there := VerdictAt(s, path), VerdictAt(FlipSides(s), path);
      && here.Some? == there.Some?
      && (here.Some? ==>
            there.value == Verdict(FlipAction(here.value.action), FlipReason(here.value.reason), here.value.ticked))
  {
  }

  lemma HiddenFlips(s: Sides, path: Path)
    ensures IsHidden(FlipSides(s), path) == IsHidden(s, path)
  {
    forall k | 0 <= k < |path| ensures IsMismatch(FlipSides(s), path[..k]) == IsMismatch(s, path[..k]) {
      VerdictFlips(s, path[..k]);
    }
  }

  /** Swapping the two sides and the direction mirrors every item of the plan. */
  lemma ComparisonMirrors(s: Sides)
    ensures |Comparison(FlipSides(s))| == |Comparison(s)|
    ensures forall i :: 0 <= i < |Comparison(s)| ==> Comparison(FlipSides(s))[i] == FlipItem(Comparison(s)[i])
  {
    forall path ensures path in ListedPaths(FlipSides(s)) <==> path in ListedPaths(s) {
      VerdictFlips(s, path);
      HiddenFlips(s, path);
    }
    assert ListedPaths(FlipSides(s)) == ListedPaths(s);
    var paths := Sorted(ListedPaths(s));
    forall i | 0 <= i < |paths| ensures Comparison(FlipSides(s))[i] == FlipItem(Comparison(s)[i]) {
      assert paths[i] in ListedPaths(s);
      VerdictFlips(s, paths[i]);
    }
  }

  // ----- carrying a plan out -----

  /** The path's item proposes this copy. */
  ghost predicate IsTicked(s: Sides, path: Path, action: SyncAction) {
    path in ListedPaths(s) && VerdictAt(s, path).value.action == action && VerdictAt(s, path).value.ticked
  }

  /** A copied file's time does not make it differ from its source again: sizes only are compared, either
      side's time is unknown, the two lie within the tolerance, or the target cannot keep times and in a
      one-way plan was merely stamped later. */
  ghost predicate TimeSettled(s: Sides, source: Option<nat>, target: Option<nat>) {
    || s.options.compareBy.Size?
    || source.None? || target.None?
    || (source.value <= target.value + s.tolerance && target.value <= source.value + s.tolerance)
    || (!s.keepsTimes && !s.options.direction.Both? && source.value <= target.value)
  }

  ghost predicate IsCopy(source: TreeEntry, target: TreeEntry) {
    target.kind == File && target.size == source.size
  }

  /** `to` became `to'`: the files copied to it are there, everything else is as before, except for new
      folders that the other side has too. */
  ghost predicate Received(s: Sides, from: Tree, to: Tree, to': Tree, action: SyncAction) {
    && to.Keys <= to'.Keys
    && forall path :: path in to' ==>
         if IsTicked(s, path, action) then path in from && IsCopy(from[path], to'[path])
         else if path in to then to'[path] == to[path]
         else to'[path].kind == Dir && path in from && from[path].kind == Dir
  }

  ghost predicate Executed(s: Sides, s': Sides) {
    && s' == s.(local := s'.local, remote := s'.remote)
    && Received(s, s.local, s.remote, s'.remote, Upload)
    && Received(s, s.remote, s.local, s'.local, Download)
    && (forall path :: IsTicked(s, path, Upload) ==> path in s'.remote)
    && forall path :: IsTicked(s, path, Download) ==> path in s'.local
  }

  ghost predicate UnsettledUpload(s: Sides, s': Sides, path: Path) {
    IsTicked(s, path, Upload) && path in s.local && path in s'.remote
    && !TimeSettled(s, s.local[path].modified, s'.remote[path].modified)
  }

  ghost predicate UnsettledDownload(s: Sides, s': Sides, path: Path) {
    IsTicked(s, path, Download) && path in s.remote && path in s'.local
    && !TimeSettled(s, s.remote[path].modified, s'.local[path].modified)
  }

  /** Every copy got a time that does not make it differ again. */
  ghost predicate TimesSettled(s: Sides, s': Sides) {
    forall path :: !UnsettledUpload(s, s', path) && !UnsettledDownload(s, s', path)
  }

  lemma TickedIsPlain(s: Sides, path: Path)
    requires IsTicked(s, path, Upload) || IsTicked(s, path, Download)
    ensures !IsMismatch(s, path)
    ensures IsTicked(s, path, Upload) ==>
      path in s.local && s.local[path].kind == File && !s.options.direction.RemoteToLocal?
    ensures IsTicked(s, path, Download) ==>
      path in s.remote && s.remote[path].kind == File && !s.options.direction.LocalToRemote?
    ensures !(IsTicked(s, path, Upload) && IsTicked(s, path, Download))
  {
  }

  lemma UntouchedPath(s: Sides, s': Sides, path: Path)
    requires Executed(s, s')
    requires !IsTicked(s, path, Upload) && !IsTicked(s, path, Download)
    ensures VerdictAt(s', path) == VerdictAt(s, path)
    ensures IsMismatch(s', path) == IsMismatch(s, path)
    ensures VerdictAt(s, path).Some? ==>
      FactsAt(s'.local, path) == FactsAt(s.local, path) && FactsAt(s'.remote, path) == FactsAt(s.remote, path)
  {
    assert path in s'.remote ==> if path in s.remote then s'.remote[path] == s.remote[path]
                                 else s'.remote[path].kind == Dir && path in s.local && s.local[path].kind == Dir;
    assert path in s'.local ==> if path in s.local then s'.local[path] == s.local[path]
                                else s'.local[path].kind == Dir && path in s.remote && s.remote[path].kind == Dir;
  }

  lemma UploadedPath(s: Sides, s': Sides, path: Path)
    requires Executed(s, s') && IsTicked(s, path, Upload)
    ensures path in s.local && path in s'.remote && !IsMismatch(s', path) && !IsMismatch(s, path)
    ensures VerdictAt(s', path) == None <==> TimeSettled(s, s.local[path].modified, s'.remote[path].modified)
  {
    TickedIsPlain(s, path);
    assert path in s'.remote && IsCopy(s.local[path], s'.remote[path]);
    assert path in s'.local && s'.local[path] == s.local[path];
  }

  lemma DownloadedPath(s: Sides, s': Sides, path: Path)
    requires Executed(s, s') && IsTicked(s, path, Download)
    ensures path in s.remote && path in s'.local && !IsMismatch(s', path) && !IsMismatch(s, path)
    ensures VerdictAt(s', path) == None <==> TimeSettled(s, s.remote[path].modified, s'.local[path].modified)
  {
    TickedIsPlain(s, path);
    assert path in s'.local && IsCopy(s.remote[path], s'.local[path]);
    assert path in s'.remote && s'.remote[path] == s.remote[path];
  }

  ghost predicate IsLeft(s: Sides, path: Path) {
    path in ListedPaths(s) && !VerdictAt(s, path).value.ticked
  }

  lemma MismatchesStay(s: Sides, s': Sides, path: Path)
    requires Executed(s, s')
    ensures IsMismatch(s', path) == IsMismatch(s, path)
    ensures !IsTicked(s, path, Upload) && !IsTicked(s, path, Download) ==> VerdictAt(s', path) == VerdictAt(s, path)
    ensures TimesSettled(s, s') && (IsTicked(s, path, Upload) || IsTicked(s, path, Download)) ==>
      VerdictAt(s', path) == None
  {
    hide VerdictAt, IsMismatch, Executed, ListedPaths, TimeSettled;
    assert TimesSettled(s, s') ==> !UnsettledUpload(s, s', path) && !UnsettledDownload(s, s', path);
    if IsTicked(s, path, Upload) {
      UploadedPath(s, s', path);
    } else if IsTicked(s, path, Download) {
      DownloadedPath(s, s', path);
    } else {
      UntouchedPath(s, s', path);
    }
  }

  lemma HidingStays(s: Sides, s': Sides, path: Path)
    requires Executed(s, s')
    ensures IsHidden(s', path) == IsHidden(s, path)
  {
    hide VerdictAt, IsMismatch, Executed, IsTicked, TimesSettled;
    forall k | 0 <= k < |path| ensures IsMismatch(s', path[..k]) == IsMismatch(s, path[..k]) {
      MismatchesStay(s, s', path[..k]);
    }
  }

  lemma ListedIsListed(s: Sides, path: Path)
    ensures path in ListedPaths(s) <==> IsListed(s, path)
  {
    hide IsHidden;
  }

  lemma LeftIsListedAgain(s: Sides, s': Sides, path: Path)
    requires Executed(s, s') && TimesSettled(s, s')
    ensures path in ListedPaths(s') <==> IsLeft(s, path)
  {
    MismatchesStay(s, s', path);
    HidingStays(s, s', path);
    ListedIsListed(s, path);
    ListedIsListed(s', path);
    hide IsHidden, IsMismatch, Executed, VerdictAt, TimesSettled;
    assert s'.options == s.options by {
      SameOptions(s, s');
    }
  }

  lemma SameOptions(s: Sides, s': Sides)
    requires Executed(s, s')
    ensures s'.options == s.options
  {
  }

  /** The unticked items, in order, numbered afresh. */
  ghost function Unticked(items: seq<SyncItem>): seq<SyncItem> {
    if items == [] then []
    else
      var n := |items| - 1;
      var before := Unticked(items[..n]);
      before + if items[n].ticked then [] else [items[n].(id := |before|)]
  }

  /** Each remaining item is an earlier unticked one with a new number. */
  lemma {:induction false} UntickedFrom(items: seq<SyncItem>, i: nat) returns (j: nat)
    requires i < |Unticked(items)|
    ensures j < |items| && !items[j].ticked && Unticked(items)[i] == items[j].(id := i)
  {
    var n := |items| - 1;
    if i < |Unticked(items[..n])| {
      j := UntickedFrom(items[..n], i);
    } else {
      j := n;
    }
  }

  /** Each unticked item remains. */
  lemma {:induction false} UntickedHas(items: seq<SyncItem>, j: nat) returns (i: nat)
    requires j < |items| && !items[j].ticked
    ensures i < |Unticked(items)| && Unticked(items)[i].path == items[j].path
  {
    var n := |items| - 1;
    if j < n {
      i := UntickedHas(items[..n], j);
    } else {
      i := |Unticked(items[..n])|;
    }
  }

  ghost predicate PathsAscend(items: seq<SyncItem>) {
    forall i, j :: 0 <= i < j < |items| ==> PathLess(items[i].path, items[j].path)
  }

  lemma {:induction false} UntickedAscends(items: seq<SyncItem>)
    requires PathsAscend(items)
    ensures PathsAscend(Unticked(items))
  {
    if items == [] {
    } else {
      var n := |items| - 1;
      UntickedAscends(items[..n]);
      var before := Unticked(items[..n]);
      forall i | 0 <= i < |before| ensures PathLess(before[i].path, items[n].path) {
        var j := UntickedFrom(items[..n], i);
      }
    }
  }

  ghost function PathsOf(items: seq<SyncItem>): seq<Path> {
    seq(|items|, i requires 0 <= i < |items| => items[i].path)
  }

  /** The paths that remain are the ones the second comparison lists. */
  lemma SamePathsRemain(s: Sides, s': Sides)
    requires Executed(s, s') && TimesSettled(s, s')
    ensures PathsOf(Unticked(Comparison(s))) == Sorted(ListedPaths(s'))
  {
    hide Executed, TimesSettled, IsHidden, IsMismatch, VerdictAt, ListedPaths, IsLeft, Unticked, Comparison;
    var left := Unticked(Comparison(s));
    ComparisonAscends(s);
    UntickedAscends(Comparison(s));
    var paths := PathsOf(left);
    forall path | path in paths ensures path in ListedPaths(s') {
      var i :| 0 <= i < |paths| && paths[i] == path;
      var j := UntickedFrom(Comparison(s), i);
      UntickedItemIsLeft(s, j);
      LeftIsListedAgain(s, s', path);
    }
    forall path | path in ListedPaths(s') ensures path in paths {
      LeftIsListedAgain(s, s', path);
      var j := LeftHasItem(s, path);
      var i := UntickedHas(Comparison(s), j);
      assert paths[i] == path;
    }
    SortedIsUnique(paths, ListedPaths(s'));
  }

  lemma SettledLeavesTheUnticked(s: Sides, s': Sides)
    requires Executed(s, s') && TimesSettled(s, s')
    ensures Comparison(s') == Unticked(Comparison(s))
  {
    hide Executed, TimesSettled, IsHidden, IsMismatch, VerdictAt, ListedPaths, IsLeft, Unticked, Comparison;
    var left := Unticked(Comparison(s));
    SamePathsRemain(s, s');
    ComparisonAscends(s');
    assert |PathsOf(left)| == |left|;
    forall i | 0 <= i < |left| ensures Comparison(s')[i] == left[i] {
      assert PathsOf(left)[i] == left[i].path;
      SameItem(s, s', left, i);
    }
  }

  /** A copy whose time makes it differ again is listed again. */
  lemma UnsettledIsListedAgain(s: Sides, s': Sides, path: Path)
    requires Executed(s, s') && (IsTicked(s, path, Upload) || IsTicked(s, path, Download))
    requires VerdictAt(s', path).Some?
    ensures path in ListedPaths(s')
  {
    HidingStays(s, s', path);
    ListedIsListed(s, path);
    ListedIsListed(s', path);
    hide IsHidden, VerdictAt, ListedPaths;
    SameOptions(s, s');
  }

  lemma TickedDoesNotRemain(s: Sides, path: Path)
    requires IsTicked(s, path, Upload) || IsTicked(s, path, Download)
    ensures path !in PathsOf(Unticked(Comparison(s)))
  {
    hide VerdictAt, ListedPaths, Comparison, Unticked;
    var paths := PathsOf(Unticked(Comparison(s)));
    if path in paths {
      var i :| 0 <= i < |paths| && paths[i] == path;
      var j := UntickedFrom(Comparison(s), i);
      UntickedItemIsLeft(s, j);
      hide IsTicked;
      assert IsLeft(s, path);
      LeftIsNotTicked(s, path);
    }
  }

  lemma LeftIsNotTicked(s: Sides, path: Path)
    requires IsLeft(s, path)
    ensures !IsTicked(s, path, Upload) && !IsTicked(s, path, Download)
  {
  }

  lemma ListedHasItem(s: Sides, path: Path)
    requires path in ListedPaths(s)
    ensures path in PathsOf(Comparison(s))
  {
    hide VerdictAt, ListedPaths, Comparison;
    ComparisonAscends(s);
    assert path in Sorted(ListedPaths(s));
    var j :| 0 <= j < |Sorted(ListedPaths(s))| && Sorted(ListedPaths(s))[j] == path;
    assert PathsOf(Comparison(s))[j] == path;
  }

  /** Carrying out every ticked item and comparing again lists exactly the items that were not ticked,
      renumbered, if and only if the copies got times that do not make them differ again. */
  lemma RecomparingLeavesTheUntickedIff(s: Sides, s': Sides)
    requires Executed(s, s')
    ensures Comparison(s') == Unticked(Comparison(s)) <==> TimesSettled(s, s')
  {
    hide Executed, TimeSettled, IsTicked, VerdictAt, ListedPaths, Unticked, Comparison;
    if TimesSettled(s, s') {
      SettledLeavesTheUnticked(s, s');
    } else {
      var path :| UnsettledUpload(s, s', path) || UnsettledDownload(s, s', path);
      if UnsettledUpload(s, s', path) {
        UploadedPath(s, s', path);
      } else {
        DownloadedPath(s, s', path);
      }
      ListedAgainDiffers(s, s', path);
    }
  }

  lemma ListedAgainDiffers(s: Sides, s': Sides, path: Path)
    requires Executed(s, s') && (IsTicked(s, path, Upload) || IsTicked(s, path, Download))
    requires VerdictAt(s', path) != None
    ensures Comparison(s') != Unticked(Comparison(s))
  {
    hide Executed, IsTicked, VerdictAt, ListedPaths, Unticked, Comparison;
    UnsettledIsListedAgain(s, s', path);
    ListedHasItem(s', path);
    TickedDoesNotRemain(s, path);
  }

  lemma ComparisonAscends(s: Sides)
    ensures PathsAscend(Comparison(s))
    ensures |Comparison(s)| == |Sorted(ListedPaths(s))|
    ensures forall i :: 0 <= i < |Comparison(s)| ==>
      && Comparison(s)[i].path == Sorted(ListedPaths(s))[i] && Comparison(s)[i].path in ListedPaths(s)
      && Comparison(s)[i] == ItemAt(s, Comparison(s)[i].path, i)
  {
    var paths := Sorted(ListedPaths(s));
    forall i | 0 <= i < |paths| ensures paths[i] in ListedPaths(s) {
      assert paths[i] in paths;
    }
  }

  lemma UntickedItemIsLeft(s: Sides, j: nat)
    requires j < |Comparison(s)| && !Comparison(s)[j].ticked
    ensures IsLeft(s, Comparison(s)[j].path)
  {
    hide VerdictAt, ListedPaths, Comparison;
    ComparisonAscends(s);
  }

  lemma LeftHasItem(s: Sides, path: Path) returns (j: nat)
    requires IsLeft(s, path)
    ensures j < |Comparison(s)| && Comparison(s)[j].path == path && !Comparison(s)[j].ticked
  {
    hide VerdictAt, ListedPaths, Comparison;
    ComparisonAscends(s);
    assert path in Sorted(ListedPaths(s));
    j :| 0 <= j < |Sorted(ListedPaths(s))| && Sorted(ListedPaths(s))[j] == path;
  }

  lemma SameItem(s: Sides, s': Sides, left: seq<SyncItem>, i: nat)
    requires Executed(s, s') && left == Unticked(Comparison(s)) && i < |left|
    requires i < |Sorted(ListedPaths(s'))| && Sorted(ListedPaths(s'))[i] == left[i].path
    ensures i < |Comparison(s')| && Comparison(s')[i] == left[i]
  {
    hide Executed, IsHidden, IsMismatch, VerdictAt, ListedPaths, Unticked, Comparison;
    ComparisonAscends(s);
    ComparisonAscends(s');
    var j := UntickedFrom(Comparison(s), i);
    UntickedItemIsLeft(s, j);
    ListedHasVerdict(s, left[i].path);
    UntouchedPath(s, s', left[i].path);
  }
}
