/** What a comparison lists, case by case, in terms of the two trees and the settings alone. */
module SyncTable {
  import opened Ordered
  import opened Paths
  import opened Sync
  import opened SyncLaws

  /** The settings go together, and everything above the path is of one kind where both sides have it. */
  ghost predicate IsInSight(s: Sides, path: Path) {
    && !(s.options.direction.Both? && s.options.compareBy.Size?)
    && forall k :: 0 <= k < |path| && path[..k] in s.local && path[..k] in s.remote ==>
         s.local[path[..k]].kind == s.remote[path[..k]].kind
  }

  ghost predicate Shows(item: SyncItem, s: Sides, path: Path, action: SyncAction, reason: SyncReason) {
    && item.path == path && item.action == action && item.reason == reason
    && (item.ticked <==> action.Upload? || action.Download?)
    && (item.flippable <==> action.Skip? && IsOpenQuestion(reason))
    && item.local == (if path in s.local then Some(SyncFacts(s.local[path].size, s.local[path].modified)) else None)
    && item.remote == (if path in s.remote then Some(SyncFacts(s.remote[path].size, s.remote[path].modified)) else None)
  }

  /** Both sides have the file, and the user may decide. */
  ghost predicate IsOpenQuestion(reason: SyncReason) {
    reason.TargetNewer? || reason.SameTimeDifferentSize? || reason.SizeDiffersTimeUnknown?
  }

  /** The comparison has an item for the path, with this action for this reason, ticked if it is a copy. */
  ghost predicate ListedAs(s: Sides, path: Path, action: SyncAction, reason: SyncReason) {
    exists i :: 0 <= i < |Comparison(s)| && Shows(Comparison(s)[i], s, path, action, reason)
  }

  ghost predicate Unlisted(s: Sides, path: Path) {
    forall i :: 0 <= i < |Comparison(s)| ==> Comparison(s)[i].path != path
  }

  lemma InSightIsVisible(s: Sides, path: Path)
    ensures IsInSight(s, path) <==> s.options.IsValid() && !IsHidden(s, path)
  {
  }

  lemma OnlyListedHaveItems(s: Sides, path: Path)
    requires path !in ListedPaths(s)
    ensures Unlisted(s, path)
  {
    hide ListedPaths, Comparison, VerdictAt;
    ComparisonAscends(s);
  }

  /** Nothing out of sight is listed. */
  lemma OutOfSightIsUnlisted(s: Sides, path: Path)
    requires !IsInSight(s, path)
    ensures Unlisted(s, path)
  {
    InSightIsVisible(s, path);
    hide IsHidden, VerdictAt;
    OnlyListedHaveItems(s, path);
  }

  lemma NoVerdictIsUnlisted(s: Sides, path: Path)
    requires VerdictAt(s, path).None?
    ensures Unlisted(s, path)
  {
    hide IsHidden, VerdictAt;
    OnlyListedHaveItems(s, path);
  }

  lemma VerdictIsShown(s: Sides, path: Path, action: SyncAction, reason: SyncReason)
    requires IsInSight(s, path) && VerdictAt(s, path) == Some(Verdict(action, reason, !action.Skip?))
    ensures ListedAs(s, path, action, reason)
  {
    InSightIsVisible(s, path);
    ListedIsListed(s, path);
    ListedHasItem(s, path);
    ComparisonAscends(s);
    hide Comparison, ListedPaths, VerdictAt, IsHidden, IsInSight;
    var i :| 0 <= i < |PathsOf(Comparison(s))| && PathsOf(Comparison(s))[i] == path;
    assert Shows(Comparison(s)[i], s, path, action, reason);
  }

  // ----- a path on one side only -----

  /** A new local file is uploaded unless only downloads are wanted. */
  lemma NewLocalFile(s: Sides, path: Path)
    requires IsInSight(s, path) && path in s.local && path !in s.remote && s.local[path].kind.File?
    ensures if s.options.direction.RemoteToLocal? then Unlisted(s, path) else ListedAs(s, path, Upload, OnlyLocal)
  {
    hide IsInSight, Unlisted, ListedAs;
    if s.options.direction.RemoteToLocal? {
      NoVerdictIsUnlisted(s, path);
    } else {
      VerdictIsShown(s, path, Upload, OnlyLocal);
    }
  }

  /** A new remote file is downloaded unless only uploads are wanted. */
  lemma NewRemoteFile(s: Sides, path: Path)
    requires IsInSight(s, path) && path in s.remote && path !in s.local && s.remote[path].kind.File?
    ensures if s.options.direction.LocalToRemote? then Unlisted(s, path) else ListedAs(s, path, Download, OnlyRemote)
  {
    hide IsInSight, Unlisted, ListedAs;
    if s.options.direction.LocalToRemote? {
      NoVerdictIsUnlisted(s, path);
    } else {
      VerdictIsShown(s, path, Download, OnlyRemote);
    }
  }

  /** Folders and links on one side, and paths on neither, are not listed. */
  lemma NothingToCopy(s: Sides, path: Path)
    requires path in s.local ==> path !in s.remote && !s.local[path].kind.File?
    requires path in s.remote ==> path !in s.local && !s.remote[path].kind.File?
    ensures Unlisted(s, path)
  {
    NoVerdictIsUnlisted(s, path);
  }

  // ----- a path on both sides -----

  /** Things of different kinds are shown, never copied. */
  lemma DifferentKinds(s: Sides, path: Path)
    requires IsInSight(s, path) && path in s.local && path in s.remote && s.local[path].kind != s.remote[path].kind
    ensures ListedAs(s, path, Skip, KindMismatch)
  {
    hide IsInSight, ListedAs;
    VerdictIsShown(s, path, Skip, KindMismatch);
  }

  lemma SameFoldersOrLinks(s: Sides, path: Path)
    requires path in s.local && path in s.remote && s.local[path].kind == s.remote[path].kind && !s.local[path].kind.File?
    ensures Unlisted(s, path)
  {
    NoVerdictIsUnlisted(s, path);
  }

  ghost predicate AreFiles(s: Sides, path: Path) {
    path in s.local && path in s.remote && s.local[path].kind.File? && s.remote[path].kind.File?
  }

  /** By size, files are copied in the direction of the plan exactly if their sizes differ. */
  lemma FilesBySize(s: Sides, path: Path)
    requires IsInSight(s, path) && AreFiles(s, path) && s.options.compareBy.Size?
    ensures s.local[path].size == s.remote[path].size ==> Unlisted(s, path)
    ensures s.local[path].size != s.remote[path].size ==>
      ListedAs(s, path, if s.options.direction.LocalToRemote? then Upload else Download, SizeDiffers)
  {
    assert !s.options.direction.Both?;
    hide IsInSight, Unlisted, ListedAs;
    if s.local[path].size == s.remote[path].size {
      NoVerdictIsUnlisted(s, path);
    } else {
      VerdictIsShown(s, path, if s.options.direction.LocalToRemote? then Upload else Download, SizeDiffers);
    }
  }

  /** By time, with a time unknown, files of different size are copied in the direction of the plan, or left
      as a question where it has none. */
  lemma FilesOfUnknownTime(s: Sides, path: Path)
    requires IsInSight(s, path) && AreFiles(s, path) && s.options.compareBy.Time?
    requires s.local[path].modified.None? || s.remote[path].modified.None?
    ensures s.local[path].size == s.remote[path].size ==> Unlisted(s, path)
    ensures s.local[path].size != s.remote[path].size && s.options.direction.LocalToRemote? ==>
      ListedAs(s, path, Upload, SizeDiffersTimeUnknown)
    ensures s.local[path].size != s.remote[path].size && s.options.direction.RemoteToLocal? ==>
      ListedAs(s, path, Download, SizeDiffersTimeUnknown)
    ensures s.local[path].size != s.remote[path].size && s.options.direction.Both? ==>
      ListedAs(s, path, Skip, SizeDiffersTimeUnknown)
  {
    hide IsInSight, Unlisted, ListedAs;
    if s.local[path].size == s.remote[path].size {
      NoVerdictIsUnlisted(s, path);
    } else if s.options.direction.LocalToRemote? {
      VerdictIsShown(s, path, Upload, SizeDiffersTimeUnknown);
    } else if s.options.direction.RemoteToLocal? {
      VerdictIsShown(s, path, Download, SizeDiffersTimeUnknown);
    } else {
      VerdictIsShown(s, path, Skip, SizeDiffersTimeUnknown);
    }
  }

  ghost predicate TimesKnown(s: Sides, path: Path) {
    AreFiles(s, path) && s.options.compareBy.Time? && s.local[path].modified.Some? && s.remote[path].modified.Some?
  }

  /** By time, files whose times lie within the tolerance are a question if their sizes differ. */
  lemma FilesOfTheSameTime(s: Sides, path: Path)
    requires IsInSight(s, path) && TimesKnown(s, path)
    requires s.local[path].modified.value <= s.remote[path].modified.value + s.tolerance
    requires s.remote[path].modified.value <= s.local[path].modified.value + s.tolerance
    ensures s.local[path].size == s.remote[path].size ==> Unlisted(s, path)
    ensures s.local[path].size != s.remote[path].size ==> ListedAs(s, path, Skip, SameTimeDifferentSize)
  {
    hide IsInSight, Unlisted, ListedAs;
    if s.local[path].size == s.remote[path].size {
      NoVerdictIsUnlisted(s, path);
    } else {
      VerdictIsShown(s, path, Skip, SameTimeDifferentSize);
    }
  }

  /** By time, a local file that is newer beyond the tolerance is uploaded. Where only downloads are wanted it
      is a question, unless the sizes agree and the local side cannot keep times. */
  lemma NewerLocalFile(s: Sides, path: Path)
    requires IsInSight(s, path) && TimesKnown(s, path)
    requires s.local[path].modified.value > s.remote[path].modified.value + s.tolerance
    ensures !s.options.direction.RemoteToLocal? ==> ListedAs(s, path, Upload, LocalNewer)
    ensures s.options.direction.RemoteToLocal? && s.local[path].size == s.remote[path].size && !s.keepsTimes ==>
      Unlisted(s, path)
    ensures s.options.direction.RemoteToLocal? && (s.local[path].size != s.remote[path].size || s.keepsTimes) ==>
      ListedAs(s, path, Skip, TargetNewer)
  {
    hide IsInSight, Unlisted, ListedAs;
    if !s.options.direction.RemoteToLocal? {
      VerdictIsShown(s, path, Upload, LocalNewer);
    } else if s.local[path].size == s.remote[path].size && !s.keepsTimes {
      NoVerdictIsUnlisted(s, path);
    } else {
      VerdictIsShown(s, path, Skip, TargetNewer);
    }
  }

  /** And so for a newer remote file. */
  lemma NewerRemoteFile(s: Sides, path: Path)
    requires IsInSight(s, path) && TimesKnown(s, path)
    requires s.remote[path].modified.value > s.local[path].modified.value + s.tolerance
    ensures !s.options.direction.LocalToRemote? ==> ListedAs(s, path, Download, RemoteNewer)
    ensures s.options.direction.LocalToRemote? && s.local[path].size == s.remote[path].size && !s.keepsTimes ==>
      Unlisted(s, path)
    ensures s.options.direction.LocalToRemote? && (s.local[path].size != s.remote[path].size || s.keepsTimes) ==>
      ListedAs(s, path, Skip, TargetNewer)
  {
    hide IsInSight, Unlisted, ListedAs;
    if !s.options.direction.LocalToRemote? {
      VerdictIsShown(s, path, Download, RemoteNewer);
    } else if s.local[path].size == s.remote[path].size && !s.keepsTimes {
      NoVerdictIsUnlisted(s, path);
    } else {
      VerdictIsShown(s, path, Skip, TargetNewer);
    }
  }

  // ----- the actions a user may choose -----

  lemma AllowedExactly(item: SyncItem, direction: SyncDirection)
    ensures |AllowedActions(item, direction)| <= 3
    ensures Skip in AllowedActions(item, direction)
    ensures Upload in AllowedActions(item, direction) <==>
      item.local.Some? && direction != RemoteToLocal && item.reason != KindMismatch
    ensures Download in AllowedActions(item, direction) <==>
      item.remote.Some? && direction != LocalToRemote && item.reason != KindMismatch
  {
  }

  lemma {:induction false} CyclingStaysAllowed(item: SyncItem, from: SyncAction, direction: SyncDirection, n: nat)
    requires from in AllowedActions(item, direction)
    ensures Cycled(item, from, direction, n) in AllowedActions(item, direction)
  {
    hide AllowedActions;
    if n > 0 {
      CyclingStaysAllowed(item, from, direction, n - 1);
      var last := Cycled(item, from, direction, n - 1);
      CyclingReachesTheAllowed(item, last, last, direction);
    }
  }

  /** From what is proposed for a path, cycling at most twice leads to exactly these: skipping, and each copy
      whose source is there, which the direction permits, of a path that is not of different kinds. */
  lemma ChosenByCycling(s: Sides, i: nat, to: SyncAction)
    requires i < |Comparison(s)|
    ensures var item, direction := Comparison(s)[i], s.options.direction;
      (exists n: nat :: n < 3 && Cycled(item, item.action, direction, n) == to) <==>
        match to
        case Skip => true
        case Upload => direction != RemoteToLocal && item.path in s.local && AgreeInKind(s, item.path)
        case Download => direction != LocalToRemote && item.path in s.remote && AgreeInKind(s, item.path)
  {
    var item, direction := Comparison(s)[i], s.options.direction;
    ListedActionsAreAllowed(s, i);
    CyclingReachesTheAllowed(item, item.action, to, direction);
    AllowedExactly(item, direction);
    ComparisonAscends(s);
    hide Comparison, AllowedActions, Cycled;
    forall n: nat | n < 3 ensures Cycled(item, item.action, direction, n) in AllowedActions(item, direction) {
      CyclingStaysAllowed(item, item.action, direction, n);
    }
  }

  ghost predicate AgreeInKind(s: Sides, path: Path) {
    path in s.local && path in s.remote ==> s.local[path].kind == s.remote[path].kind
  }
}
