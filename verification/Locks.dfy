/** The per-path lock table of versioned file writes (porthmos-core/src/persist/mod.rs): any number of
    threads take a path's lock from a shared table, write under it, and prune the table while others
    use it. */
module Locks {
  import opened Ordered

  type Path = string
  type ThreadId = nat
  type LockId = nat

  /** A lock keeps the version last written under it; `holder` is the thread that has it locked. */
  datatype Lock = Lock(version: nat, holder: Option<ThreadId>)

  /** Where a thread stands in write_locked: it has the lock's reference (Waiting), has it locked and
      may be writing (Writing), has decided the write but still has it locked (Decided), has unlocked it
      (Unlocked), has dropped its reference (Leaving). */
  datatype Stage = Waiting | Writing | Decided | Unlocked | Leaving

  datatype Thread = Thread(stage: Stage, path: Path, lock: LockId, version: Option<nat>, contents: string)

  datatype OnDisk = OnDisk(version: nat, contents: string)

  datatype State = State(
    table: map<Path, LockId>,
    locks: map<LockId, Lock>,
    threads: map<ThreadId, Thread>,
    disk: map<Path, OnDisk>,
    nextLock: LockId)

  datatype Step =
    | Begin(t: ThreadId, path: Path, version: Option<nat>, contents: string)
    | Acquire(t: ThreadId)
    | Decide(t: ThreadId, succeeds: bool)
    | Unlock(t: ThreadId)
    | DropReference(t: ThreadId)
    | Prune(t: ThreadId)

  const START := State(map[], map[], map[], map[], 0)

  /** The version on disk; 0 for a path never written with a version. */
  function VersionOf(disk: map<Path, OnDisk>, path: Path): nat {
    if path in disk then disk[path].version else 0
  }

  predicate HasReference(thread: Thread) {
    !thread.stage.Leaving?
  }

  predicate HasLocked(thread: Thread) {
    thread.stage.Writing? || thread.stage.Decided?
  }

  /** References to a lock outside the table. */
  predicate IsReferenced(s: State, lock: LockId) {
    exists t :: t in s.threads && HasReference(s.threads[t]) && s.threads[t].lock == lock
  }

  /** The entries pruning keeps: referenced elsewhere, locked right now, or with a version to remember. */
  predicate IsKept(s: State, path: Path)
    requires path in s.table && s.table[path] in s.locks
  {
    var lock := s.locks[s.table[path]];
    IsReferenced(s, s.table[path]) || lock.holder.Some? || lock.version != 0
  }

  /** What an atomic versioned write does to the disk: an older or equal version is dropped, a write
      without a version changes the contents only. */
  function WriteVersioned(
    disk: map<Path, OnDisk>, path: Path, version: Option<nat>, contents: string, succeeds: bool): map<Path, OnDisk>
  {
    if version.Some? && version.value <= VersionOf(disk, path) then disk
    else if !succeeds then disk
    else disk[path := OnDisk(if version.Some? then version.value else VersionOf(disk, path), contents)]
  }

  predicate IsEnabled(s: State, step: Step) {
    match step
    case Begin(t, _, _, _) => t !in s.threads
    case Acquire(t) =>
      t in s.threads && s.threads[t].stage.Waiting? && s.threads[t].lock in s.locks
      && s.locks[s.threads[t].lock].holder.None?
    case Decide(t, _) => t in s.threads && s.threads[t].stage.Writing? && s.threads[t].lock in s.locks
    case Unlock(t) => t in s.threads && s.threads[t].stage.Decided? && s.threads[t].lock in s.locks
    case DropReference(t) => t in s.threads && s.threads[t].stage.Unlocked?
    case Prune(t) =>
      t in s.threads && s.threads[t].stage.Leaving? && forall path :: path in s.table ==> s.table[path] in s.locks
  }

  function WithStage(s: State, t: ThreadId, stage: Stage): State
    requires t in s.threads
  {
    s.(threads := s.threads[t := s.threads[t].(stage := stage)])
  }

  function Apply(s: State, step: Step): State
    requires IsEnabled(s, step)
  {
    match step
    case Begin(t, path, version, contents) =>
      if path in s.table then
        s.(threads := s.threads[t := Thread(Waiting, path, s.table[path], version, contents)])
      else
        s.(table := s.table[path := s.nextLock],
          locks := s.locks[s.nextLock := Lock(0, None)],
          threads := s.threads[t := Thread(Waiting, path, s.nextLock, version, contents)],
          nextLock := s.nextLock + 1)
    case Acquire(t) =>
      var id := s.threads[t].lock;
      WithStage(s, t, Writing).(locks := s.locks[id := s.locks[id].(holder := Some(t))])
    case Decide(t, succeeds) =>
      // write_locked compares with the version kept in the lock, not with the disk.
      var me := s.threads[t];
      var lock := s.locks[me.lock];
      var done := WithStage(s, t, Decided);
      if me.version.Some? && me.version.value <= lock.version then done
      else if !succeeds then done
      else
        done.(
          disk := s.disk[me.path := OnDisk(
            if me.version.Some? then me.version.value else VersionOf(s.disk, me.path), me.contents)],
          locks :=
            if me.version.Some? then s.locks[me.lock := lock.(version := me.version.value)] else s.locks)
    case Unlock(t) =>
      var id := s.threads[t].lock;
      WithStage(s, t, Unlocked).(locks := s.locks[id := s.locks[id].(holder := None)])
    case DropReference(t) => WithStage(s, t, Leaving)
    case Prune(t) =>
      s.(table := map path | path in s.table && IsKept(s, path) :: s.table[path], threads := s.threads - {t})
  }

  // ----- what every step keeps -----

  ghost predicate TableOk(s: State) {
    && (forall id :: id in s.locks ==> id < s.nextLock)
    && (forall path :: path in s.table ==> s.table[path] in s.locks)
    && forall a, b :: a in s.table && b in s.table && s.table[a] == s.table[b] ==> a == b
  }

  /** A thread that has a reference has the one that is in the table. */
  ghost predicate ReferencesOk(s: State) {
    forall t :: t in s.threads && HasReference(s.threads[t]) ==>
      s.threads[t].path in s.table && s.table[s.threads[t].path] == s.threads[t].lock
  }

  ghost predicate HoldersOk(s: State) {
    && (forall t :: t in s.threads && HasLocked(s.threads[t]) ==>
          s.threads[t].lock in s.locks && s.locks[s.threads[t].lock].holder == Some(t))
    && forall id :: id in s.locks && s.locks[id].holder.Some? ==>
         s.locks[id].holder.value in s.threads && HasLocked(s.threads[s.locks[id].holder.value])
         && s.threads[s.locks[id].holder.value].lock == id
  }

  /** A path's lock knows the version on disk; a path without a lock has none to know. */
  ghost predicate VersionsOk(s: State) {
    && (forall path :: path in s.table && s.table[path] in s.locks ==>
          s.locks[s.table[path]].version == VersionOf(s.disk, path))
    && forall path :: path !in s.table ==> VersionOf(s.disk, path) == 0
  }

  ghost predicate Inv(s: State) {
    TableOk(s) && ReferencesOk(s) && HoldersOk(s) && VersionsOk(s)
  }

  lemma BeginKeeps(s: State, step: Step)
    requires Inv(s) && step.Begin? && IsEnabled(s, step)
    ensures Inv(Apply(s, step))
  {
    hide Inv, Apply, IsEnabled;
    BeginKeepsTable(s, step);
    BeginKeepsReferences(s, step);
    BeginKeepsHolders(s, step);
    BeginKeepsVersions(s, step);
    InvParts(Apply(s, step));
  }

  lemma InvParts(s: State)
    requires TableOk(s) && ReferencesOk(s) && HoldersOk(s) && VersionsOk(s)
    ensures Inv(s)
  {
  }

  lemma BeginKeepsTable(s: State, step: Step)
    requires Inv(s) && step.Begin? && IsEnabled(s, step)
    ensures TableOk(Apply(s, step))
  {
    hide ReferencesOk, HoldersOk, VersionsOk;
  }

  lemma BeginKeepsReferences(s: State, step: Step)
    requires Inv(s) && step.Begin? && IsEnabled(s, step)
    ensures ReferencesOk(Apply(s, step))
  {
    hide TableOk, HoldersOk, VersionsOk;
  }

  lemma BeginKeepsHolders(s: State, step: Step)
    requires Inv(s) && step.Begin? && IsEnabled(s, step)
    ensures HoldersOk(Apply(s, step))
  {
    hide ReferencesOk, VersionsOk;
  }

  lemma BeginKeepsVersions(s: State, step: Step)
    requires Inv(s) && step.Begin? && IsEnabled(s, step)
    ensures VersionsOk(Apply(s, step))
  {
    hide ReferencesOk, HoldersOk;
  }

  lemma AcquireKeeps(s: State, step: Step)
    requires Inv(s) && step.Acquire? && IsEnabled(s, step)
    ensures Inv(Apply(s, step))
  {
  }

  lemma DecideKeeps(s: State, step: Step)
    requires Inv(s) && step.Decide? && IsEnabled(s, step)
    ensures Inv(Apply(s, step))
  {
    hide Inv, Apply, IsEnabled;
    DecideKeepsReferences(s, step);
    DecideKeepsHolders(s, step);
    DecideKeepsVersions(s, step);
    InvParts(Apply(s, step));
  }

  lemma DecideKeepsReferences(s: State, step: Step)
    requires Inv(s) && step.Decide? && IsEnabled(s, step)
    ensures TableOk(Apply(s, step)) && ReferencesOk(Apply(s, step))
  {
    hide HoldersOk, VersionsOk;
  }

  lemma DecideKeepsHolders(s: State, step: Step)
    requires Inv(s) && step.Decide? && IsEnabled(s, step)
    ensures HoldersOk(Apply(s, step))
  {
    hide TableOk, ReferencesOk, VersionsOk;
  }

  lemma DecideKeepsVersions(s: State, step: Step)
    requires Inv(s) && step.Decide? && IsEnabled(s, step)
    ensures VersionsOk(Apply(s, step))
  {
    hide HoldersOk;
  }

  lemma UnlockKeeps(s: State, step: Step)
    requires Inv(s) && step.Unlock? && IsEnabled(s, step)
    ensures Inv(Apply(s, step))
  {
  }

  lemma PruneKeeps(s: State, step: Step)
    requires Inv(s) && step.Prune? && IsEnabled(s, step)
    ensures Inv(Apply(s, step))
  {
    var s' := Apply(s, step);
    forall t | t in s'.threads && HasReference(s'.threads[t])
      ensures s'.threads[t].path in s'.table && s'.table[s'.threads[t].path] == s'.threads[t].lock
    {
      assert IsReferenced(s, s.threads[t].lock);
    }
  }

  lemma StepKeepsInv(s: State, step: Step)
    requires Inv(s) && IsEnabled(s, step)
    ensures Inv(Apply(s, step))
  {
    match step {
      case Begin(_, _, _, _) => BeginKeeps(s, step);
      case Acquire(_) => AcquireKeeps(s, step);
      case Decide(_, _) => DecideKeeps(s, step);
      case Unlock(_) => UnlockKeeps(s, step);
      case DropReference(_) =>
      case Prune(_) => PruneKeeps(s, step);
    }
  }

  ghost predicate IsRun(run: seq<State>, steps: seq<Step>) {
    && |run| == |steps| + 1 && run[0] == START
    && forall i :: 0 <= i < |steps| ==> IsEnabled(run[i], steps[i]) && run[i + 1] == Apply(run[i], steps[i])
  }

  lemma {:induction false} RunKeepsInv(run: seq<State>, steps: seq<Step>, i: nat)
    requires IsRun(run, steps) && i < |run|
    ensures Inv(run[i])
  {
    if i == 0 {
    } else {
      RunKeepsInv(run, steps, i - 1);
      assert IsEnabled(run[i - 1], steps[i - 1]) && run[i - 1 + 1] == Apply(run[i - 1], steps[i - 1]);
      StepKeepsInv(run[i - 1], steps[i - 1]);
    }
  }

  /** In every state of every run, two threads at work on one path have the same lock, and only one of
      them can be writing: the shared temporary file has one user at a time. */
  lemma OneWriterPerPath(run: seq<State>, steps: seq<Step>, i: nat, a: ThreadId, b: ThreadId)
    requires IsRun(run, steps) && i < |run|
    requires a in run[i].threads && b in run[i].threads && run[i].threads[a].path == run[i].threads[b].path
    ensures HasReference(run[i].threads[a]) && HasReference(run[i].threads[b]) ==>
      run[i].threads[a].lock == run[i].threads[b].lock
    ensures HasLocked(run[i].threads[a]) && HasLocked(run[i].threads[b]) ==> a == b
  {
    RunKeepsInv(run, steps, i);
  }

  /** Each step acts on the disk as nothing at all or, when a write is decided, as one atomic versioned
      write: the version kept in the lock is always the one on disk. */
  lemma StepsAreAtomicWrites(s: State, step: Step)
    requires Inv(s) && IsEnabled(s, step)
    ensures Apply(s, step).disk ==
      if step.Decide? then
        var me := s.threads[step.t];
        WriteVersioned(s.disk, me.path, me.version, me.contents, step.succeeds)
      else s.disk
  {
  }

  /** A write that succeeds and is not outdated is what the disk then holds of its path, under its version if
      it has one; one that fails or is outdated leaves the path alone; other paths stay as they are. */
  lemma WritesTakeEffect(s: State, step: Step)
    requires Inv(s) && step.Decide? && IsEnabled(s, step)
    ensures var me, disk, disk' := s.threads[step.t], s.disk, Apply(s, step).disk;
      && (step.succeeds && (me.version.Some? ==> me.version.value > VersionOf(disk, me.path)) ==>
            && me.path in disk' && disk'[me.path].contents == me.contents
            && VersionOf(disk', me.path) == (if me.version.Some? then me.version.value else VersionOf(disk, me.path)))
      && (!step.succeeds || (me.version.Some? && me.version.value <= VersionOf(disk, me.path)) ==> disk' == disk)
      && disk' - {me.path} == disk - {me.path}
  {
    StepsAreAtomicWrites(s, step);
    hide Inv, Apply;
  }

  /** Pruning never forgets: along every run, a path's version on disk never decreases. */
  lemma {:induction false} VersionsNeverDecrease(run: seq<State>, steps: seq<Step>, i: nat, j: nat, path: Path)
    requires IsRun(run, steps) && i <= j < |run|
    ensures VersionOf(run[i].disk, path) <= VersionOf(run[j].disk, path)
    decreases j
  {
    if i == j {
    } else {
      VersionsNeverDecrease(run, steps, i, j - 1, path);
      RunKeepsInv(run, steps, j - 1);
      assert IsEnabled(run[j - 1], steps[j - 1]) && run[j - 1 + 1] == Apply(run[j - 1], steps[j - 1]);
      StepsAreAtomicWrites(run[j - 1], steps[j - 1]);
    }
  }

  /** A path with a version on disk is never without its lock in the table. */
  lemma VersionIsRemembered(run: seq<State>, steps: seq<Step>, i: nat, path: Path)
    requires IsRun(run, steps) && i < |run| && VersionOf(run[i].disk, path) != 0
    ensures path in run[i].table && run[i].table[path] in run[i].locks
    ensures run[i].locks[run[i].table[path]].version == VersionOf(run[i].disk, path)
  {
    RunKeepsInv(run, steps, i);
  }

  /** A path written without versions only is not kept once nobody uses it. */
  lemma UnversionedIsPruned(s: State, step: Step, path: Path)
    requires Inv(s) && step.Prune? && IsEnabled(s, step)
    requires path in s.table && VersionOf(s.disk, path) == 0
    requires forall t :: t in s.threads && HasReference(s.threads[t]) ==> s.threads[t].path != path
    ensures path !in Apply(s, step).table
  {
    assert !IsReferenced(s, s.table[path]);
  }
}
