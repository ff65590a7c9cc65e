/** When a whole flush call is a barrier, from its first step to its return. */
module WriterBarrier {
  import opened Writer
  import opened WriterFlush
  import opened WriterSafety
  import opened WriterSteps

  /** What is pending, by version. */
  ghost function PendingVersions(s: State): map<Path, nat> {
    map path | path in s.pending :: s.pending[path].version
  }

  /** All of it has left the queue: it has been executed or somebody is executing it, or something newer. */
  ghost predicate OutOfQueue(s: State, wanted: map<Path, nat>) {
    CoversAll(AllPlaces(s).(pending := map[]), wanted)
  }

  /** The call of f has not returned yet. */
  ghost predicate InCall(s: State, f: Id) {
    f in s.flushers || f in s.workers
  }

  /** How far the call has come: it waits to be answered, is about to take what pends, or is past that. */
  ghost predicate CallOk(s: State, f: Id, wanted: map<Path, nat>) {
    if f in s.flushers then s.flushers[f].wanted == wanted
    else if f in s.workers && s.workers[f].Entering? then CoversAll(AllPlaces(s), wanted)
    else OutOfQueue(s, wanted)
  }

  /** The call returns although its flush was dropped, because it finds another task running. */
  ghost predicate ReturnsEarly(s: State, step: Step, f: Id) {
    step == FlushEnd(f) && f in s.flushers && s.flushers[f].reply.Dropped? && s.running
  }

  lemma FlushCallBegins(s: State, f: Id)
    requires IsEnabled(s, FlushBegin(f), true)
    ensures CallOk(Apply(s, FlushBegin(f)), f, PendingVersions(s))
  {
    hide Reaches, IsSettled, SomeHolds;
    if s.running {
    } else {
      var at := AllPlaces(Apply(s, FlushBegin(f)));
      assert at.pending == s.pending;
      PendingIsCovered(at);
      assert CoversAll(at, PendingVersions(s));
    }
  }

  lemma PendingIsCovered(at: Places)
    ensures forall path :: path in at.pending ==> Covers(at, path, at.pending[path].version)
  {
  }

  // ----- nobody else moves the caller -----

  lemma CallsLeaveOthers(s: State, step: Step, f: Id)
    requires IsEnabled(s, step, true) && f in s.workers
    requires step.Draw? || step.Spawn? || step.Notify? || step.CloseNotify? || step.CloseBegin? || step.DrainBegin?
      || step.Take? || step.Leave?
    ensures step.w != f ==> f in Apply(s, step).workers && Apply(s, step).workers[f] == s.workers[f]
    ensures s.workers[f].Entering? && step.w == f ==> step.Take?
    ensures Apply(s, step).flushers == s.flushers
  {
  }

  lemma EnterLeavesOthers(s: State, step: Step, f: Id)
    requires IsEnabled(s, step, true) && f in s.workers && !s.workers[f].Drawn? && step.Enter?
    ensures f in Apply(s, step).workers && Apply(s, step).workers[f] == s.workers[f]
    ensures Apply(s, step).flushers == s.flushers
  {
    hide EnterInline, EnterQueue;
    InlineLeavesOthers(s, step.w, s.workers[step.w].job, f);
    QueueingLeavesOthers(s, step.w, s.workers[step.w].job, f);
  }

  lemma InlineLeavesOthers(s: State, w: Id, job: Job, f: Id)
    requires f in s.workers && w != f
    ensures f in EnterInline(s, w, job).workers && EnterInline(s, w, job).workers[f] == s.workers[f]
    ensures EnterInline(s, w, job).flushers == s.flushers
  {
  }

  lemma QueueingLeavesOthers(s: State, w: Id, job: Job, f: Id)
    requires f in s.workers && w != f
    ensures f in EnterQueue(s, w, job).workers && EnterQueue(s, w, job).workers[f] == s.workers[f]
    ensures EnterQueue(s, w, job).flushers == s.flushers
  {
  }

  lemma FlushesLeaveOthers(s: State, step: Step, f: Id)
    requires IsEnabled(s, step, true) && f in s.workers && f !in s.flushers
    requires step.FlushBegin? || step.FlushNotify? || step.FlushEnd? || step.TaskExit? || step.TaskAbort?
    ensures f in Apply(s, step).workers && Apply(s, step).workers[f] == s.workers[f]
    ensures f !in Apply(s, step).flushers
  {
  }

  lemma TaskLeavesOthers(s: State, step: Step, f: Id)
    requires IsEnabled(s, step, true) && f in s.workers && f !in s.flushers
    requires step.Tick? || step.TaskBegin? || step.TaskLook? || step.TaskTakeAll? || step.TaskDueDone? || step.TaskWake?
      || step.TaskTimer? || step.TaskTakeDue? || step.TaskAnswer?
    ensures f in Apply(s, step).workers && Apply(s, step).workers[f] == s.workers[f]
    ensures f !in Apply(s, step).flushers
  {
    hide NextDue, DueJobs;
  }

  lemma WritesLeaveOthers(s: State, step: Step, f: Id)
    requires IsEnabled(s, step, true) && f in s.workers && f !in s.flushers
    requires step.TaskWrite? || (step.Write? && step.w != f)
    ensures f in Apply(s, step).workers && Apply(s, step).workers[f] == s.workers[f]
    ensures f !in Apply(s, step).flushers
  {
    hide DiskAfter, FailuresAfter, SettledAfter;
  }

  /** A caller about to take what pends stays so until it takes it. */
  lemma EnteringStaysPut(s: State, step: Step, f: Id)
    requires IsEnabled(s, step, true) && f in s.workers && s.workers[f].Entering? && f !in s.flushers && step != Take(f)
    ensures f in Apply(s, step).workers && Apply(s, step).workers[f] == s.workers[f]
    ensures f !in Apply(s, step).flushers
  {
    hide Apply;
    match step {
      case Enter(_, _) => EnterLeavesOthers(s, step, f);
      case FlushBegin(_) | FlushNotify(_) | FlushEnd(_) | TaskExit(_) | TaskAbort(_) => FlushesLeaveOthers(s, step, f);
      case TaskWrite(_, _) | Write(_, _, _) => WritesLeaveOthers(s, step, f);
      case Tick | TaskBegin | TaskLook | TaskTakeAll | TaskDueDone | TaskWake | TaskTimer | TaskTakeDue | TaskAnswer =>
        TaskLeavesOthers(s, step, f);
      case _ => CallsLeaveOthers(s, step, f);
    }
  }

  lemma CallStaysWorker(s: State, step: Step, f: Id)
    requires IsEnabled(s, step, true) && f in s.workers && f !in s.flushers
    ensures f !in Apply(s, step).flushers
  {
    hide Apply;
    match step {
      case Enter(_, _) => EnteringExecutesNothing(s, step);
      case FlushBegin(_) | FlushNotify(_) | FlushEnd(_) | TaskExit(_) | TaskAbort(_) => FlushesLeaveOthers(s, step, f);
      case Write(_, _, _) => CallsKeepFlushers(s, step);
      case TaskWrite(_, _) => WritesLeaveOthers(s, step, f);
      case Tick | TaskBegin | TaskLook | TaskTakeAll | TaskDueDone | TaskWake | TaskTimer | TaskTakeDue | TaskAnswer =>
        TaskLeavesOthers(s, step, f);
      case _ => CallsLeaveOthers(s, step, f);
    }
  }

  // ----- every step keeps what the call relies on -----

  lemma PlacesKept(s: State, step: Step)
    requires IsSafe(s) && IsEnabled(s, step, true)
    ensures KeepsAll(AllPlaces(s), AllPlaces(Apply(s, step)))
  {
    if step.Spawn? {
      SpawnFindsNoTask(s, step);
    }
    FlushesKept(s, step);
  }

  lemma StaysOutOfQueue(s: State, s': State, wanted: map<Path, nat>)
    requires KeepsAll(AllPlaces(s), AllPlaces(s')) && OutOfQueue(s, wanted)
    ensures OutOfQueue(s', wanted)
  {
    hide Keeps, CoversAll;
    KeptCoversAll(AllPlaces(s).(pending := map[]), AllPlaces(s').(pending := map[]), wanted);
  }

  lemma StaysCovered(s: State, s': State, wanted: map<Path, nat>)
    requires KeepsAll(AllPlaces(s), AllPlaces(s')) && CoversAll(AllPlaces(s), wanted)
    ensures CoversAll(AllPlaces(s'), wanted)
    ensures s'.pending == map[] ==> OutOfQueue(s', wanted)
  {
    hide Keeps, CoversAll;
    KeptCoversAll(AllPlaces(s), AllPlaces(s'), wanted);
  }

  lemma FewerPlacesCover(at: Places, wanted: map<Path, nat>)
    ensures CoversAll(at.(pending := map[], hands := map[]), wanted) ==> CoversAll(at.(pending := map[]), wanted)
    ensures CoversAll(at.(pending := map[]), wanted) ==> CoversAll(at, wanted)
  {
    hide SomeHolds, IsSettled;
  }

  /** A flush that was answered, or finds no task, goes on with what it wants covered. */
  lemma FlushCallEnds(s: State, f: Id, wanted: map<Path, nat>)
    requires FlushesOk(s) && IsEnabled(s, FlushEnd(f), true) && s.flushers[f].wanted == wanted
    requires !ReturnsEarly(s, FlushEnd(f), f)
    requires KeepsAll(AllPlaces(s), AllPlaces(Apply(s, FlushEnd(f))))
    ensures CallOk(Apply(s, FlushEnd(f)), f, wanted)
  {
    var s' := Apply(s, FlushEnd(f));
    ServedIsCovered(s, f);
    hide CoversAll, KeepsAll, OutOfQueue, FlushesOk;
    StaysCovered(s, s', wanted);
    if s.flushers[f].reply.Answered? {
      StaysOutOfQueue(s, s', wanted);
    }
  }

  lemma ServedIsCovered(s: State, f: Id)
    requires FlushesOk(s) && f in s.flushers
    ensures CoversAll(AllPlaces(s), s.flushers[f].wanted)
    ensures s.flushers[f].reply.Answered? ==> OutOfQueue(s, s.flushers[f].wanted)
  {
    assert IsServed(s.flushers[f], IsTaken(s.task, f), AllPlaces(s));
    hide CoversAll, IsTaken;
    FewerPlacesCover(AllPlaces(s), s.flushers[f].wanted);
  }

  lemma FlusherCallKept(s: State, step: Step, f: Id, wanted: map<Path, nat>)
    requires IsSafe(s) && IsEnabled(s, step, true) && f in s.flushers && CallOk(s, f, wanted)
    requires !ReturnsEarly(s, step, f) && KeepsAll(AllPlaces(s), AllPlaces(Apply(s, step)))
    ensures CallOk(Apply(s, step), f, wanted)
  {
    hide Apply, KeepsAll, OutOfQueue, CoversAll, ReturnsEarly;
    if step == FlushEnd(f) {
      FlushCallEnds(s, f, wanted);
    } else {
      WantingStays(s, step, f, wanted);
    }
  }

  lemma EnteringCallKept(s: State, step: Step, f: Id, wanted: map<Path, nat>)
    requires IsEnabled(s, step, true) && f !in s.flushers && CallOk(s, f, wanted)
    requires f in s.workers && s.workers[f].Entering? && KeepsAll(AllPlaces(s), AllPlaces(Apply(s, step)))
    ensures CallOk(Apply(s, step), f, wanted)
  {
    var s' := Apply(s, step);
    hide Apply, KeepsAll, OutOfQueue, CoversAll, IsEnabled;
    StaysCovered(s, s', wanted);
    if step == Take(f) {
      TakingEmptiesTheQueue(s, f);
    } else {
      EnteringStaysPut(s, step, f);
    }
  }

  lemma HoldingCallKept(s: State, step: Step, f: Id, wanted: map<Path, nat>)
    requires IsEnabled(s, step, true) && f !in s.flushers && CallOk(s, f, wanted)
    requires f in s.workers && !s.workers[f].Entering? && KeepsAll(AllPlaces(s), AllPlaces(Apply(s, step)))
    ensures CallOk(Apply(s, step), f, wanted)
  {
    var s' := Apply(s, step);
    hide Apply, KeepsAll, OutOfQueue, CoversAll, IsEnabled;
    StaysOutOfQueue(s, s', wanted);
    CallStaysWorker(s, step, f);
    OutIsCovered(s', wanted);
  }

  lemma CallKept(s: State, step: Step, f: Id, wanted: map<Path, nat>)
    requires IsSafe(s) && IsEnabled(s, step, true) && InCall(s, f) && CallOk(s, f, wanted)
    requires !ReturnsEarly(s, step, f)
    ensures CallOk(Apply(s, step), f, wanted)
  {
    hide Apply, KeepsAll, CallOk, ReturnsEarly, IsEnabled, IsSafe;
    PlacesKept(s, step);
    if f in s.flushers {
      FlusherCallKept(s, step, f, wanted);
    } else if s.workers[f].Entering? {
      EnteringCallKept(s, step, f, wanted);
    } else {
      HoldingCallKept(s, step, f, wanted);
    }
  }

  lemma OutIsCovered(s: State, wanted: map<Path, nat>)
    requires OutOfQueue(s, wanted)
    ensures CoversAll(AllPlaces(s), wanted)
  {
    hide CoversAll;
    FewerPlacesCover(AllPlaces(s), wanted);
  }

  lemma TakingEmptiesTheQueue(s: State, f: Id)
    requires IsEnabled(s, Take(f), true)
    ensures var s' := Apply(s, Take(f));
      s'.pending == map[] && s'.flushers == s.flushers && f in s'.workers && s'.workers[f].Holding?
  {
  }

  // ----- over a whole call -----

  lemma {:induction false} CallLasts(run: seq<State>, steps: seq<Step>, interval: nat, i: nat, j: nat, f: Id)
    requires IsRun(run, steps, interval) && i < |steps| && i < j < |run| && steps[i] == FlushBegin(f)
    requires forall k :: i < k < j ==> InCall(run[k], f) && !ReturnsEarly(run[k], steps[k], f)
    ensures CallOk(run[j], f, PendingVersions(run[i]))
    decreases j
  {
    hide Apply, IsEnabled, CallOk, InCall, ReturnsEarly, IsSafe, PendingVersions;
    assert IsStep(run[j - 1], steps[j - 1], run[j]);
    if j == i + 1 {
      FlushCallBegins(run[i], f);
    } else {
      CallLasts(run, steps, interval, i, j - 1, f);
      RunsAreSafe(run, steps, interval, j - 1);
      CallKept(run[j - 1], steps[j - 1], f, PendingVersions(run[i]));
    }
  }

  /** When a flush call returns, other than early, everything that was pending when it was called has left
      the queue, whether the call was answered, was dropped or found no task. */
  lemma FlushCallIsABarrier(run: seq<State>, steps: seq<Step>, interval: nat, i: nat, j: nat, f: Id)
    requires IsRun(run, steps, interval) && i < |steps| && i < j < |run| && steps[i] == FlushBegin(f)
    requires forall k :: i < k < j ==> InCall(run[k], f) && !ReturnsEarly(run[k], steps[k], f)
    requires !InCall(run[j], f)
    ensures OutOfQueue(run[j], PendingVersions(run[i]))
  {
    CallLasts(run, steps, interval, i, j, f);
  }

  /** So, if nobody is writing any more when it returns, it is on disk or its write failed, or something
      newer is or did. */
  lemma FlushCallWrites(run: seq<State>, steps: seq<Step>, interval: nat, i: nat, j: nat, f: Id, path: Path)
    requires IsRun(run, steps, interval) && i < |steps| && i < j < |run| && steps[i] == FlushBegin(f)
    requires forall k :: i < k < j ==> InCall(run[k], f) && !ReturnsEarly(run[k], steps[k], f)
    requires !InCall(run[j], f) && path in run[i].pending && path !in Hands(run[j].task)
    requires forall w :: w in run[j].workers && run[j].workers[w].Holding? ==> path !in run[j].workers[w].jobs
    ensures var version := run[i].pending[path].version;
      || version <= VersionOf(run[j].disk, path)
      || exists failed: nat :: version <= failed && HasFailed(run[j].failures, path, failed)
  {
    FlushCallIsABarrier(run, steps, interval, i, j, f);
    RunsAreSafe(run, steps, interval, j);
    var version := run[i].pending[path].version;
    assert PendingVersions(run[i])[path] == version;
    assert Covers(AllPlaces(run[j]).(pending := map[]), path, version);
    SettledIsOnDisk(run[j], path, version);
  }

  // ----- when it is not -----

  lemma NothingOut(s: State, path: Path, version: nat, wanted: map<Path, nat>)
    requires path in wanted && path !in s.settled && Hands(s.task) == map[]
    requires forall w :: w in s.workers ==> !s.workers[w].Holding?
    ensures !OutOfQueue(s, wanted)
  {
    hide IsSettled;
    var at := AllPlaces(s).(pending := map[]);
    assert !SomeHolds(at.workers, path, wanted[path]);
    assert !IsSettled(at.settled, path, wanted[path]) by { NotSettled(at.settled, path, wanted[path]); }
    assert !Covers(at, path, wanted[path]);
  }

  lemma NotSettled(settled: map<Path, nat>, path: Path, version: nat)
    requires path !in settled
    ensures !IsSettled(settled, path, version)
  {
  }

  /** A job is queued and its task started. */
  ghost function WithTask(job: Job, interval: nat): State {
    Start(interval).(nextVersion := 2, running := true, task := Starting, pending := map[job.path := job],
      submitted := map[job.path := job], workers := map[0 := MustNotify])
  }

  lemma TaskStarts(path: Path, interval: nat) returns (run: seq<State>, steps: seq<Step>)
    ensures IsRun(run, steps, interval) && |steps| == 3
    ensures run[3] == WithTask(Job(path, 1, 0, ""), interval)
  {
    hide Apply, IsEnabled;
    var job := Job(path, 1, 0, "");
    var s0 := Start(interval);
    Draws(s0, 0, path, 0, "");
    var s1 := s0.(nextVersion := 2, workers := map[0 := Drawn(job)]);
    Enters(s1, 0, job, true);
    var s2 := EnterQueue(s1, 0, job);
    Spawns(s2, 0);
    run := [s0, s1, s2, s2.(task := Starting, workers := s2.workers[0 := MustNotify])];
    steps := [Draw(0, path, 0, ""), Enter(0, true), Spawn(0)];
    hide IsStep;
    assert run[3].workers == map[0 := MustNotify];
  }

  /** Nobody in the call of 1 but its flusher, which was dropped with its task. */
  ghost predicate IsDropped(s: State, wanted: map<Path, nat>) {
    && !s.running && !s.closed && s.task == NoTask && s.flushers == map[1 := Flusher(wanted, false, Dropped)]
    && s.workers == map[0 := MustNotify, 2 := Entering(false)] && InCall(s, 1)
  }

  lemma FlushIsDropped(s: State) returns (waits: State, dropped: State)
    requires s.running && s.task.Starting? && s.flushers == map[] && s.flushing == {} && !s.closed
    requires s.workers == map[0 := MustNotify]
    ensures IsStep(s, FlushBegin(1), waits) && InCall(waits, 1) && IsStep(waits, TaskAbort(2), dropped)
    ensures IsDropped(dropped, PendingVersions(s)) && dropped.settled == s.settled
  {
    hide Apply, IsEnabled, MarkDropped, PendingVersions;
    waits := FlushWaits(s);
    Aborts(waits, 2);
    dropped := MarkDropped(waits, 2);
    WaitingIsDropped(waits, PendingVersions(s));
  }

  lemma FlushWaits(s: State) returns (waits: State)
    requires s.running && 1 !in s.workers && s.flushers == map[] && s.flushing == {}
    ensures IsStep(s, FlushBegin(1), waits)
    ensures waits == s.(flushing := {1}, flushers := map[1 := Flusher(PendingVersions(s), false, Waiting)])
  {
    hide Apply, IsEnabled;
    FlushBegins(s, 1);
    waits := s.(flushing := {1}, flushers := map[1 := Flusher(PendingVersions(s), false, Waiting)]);
  }

  lemma WaitingIsDropped(s: State, wanted: map<Path, nat>)
    requires s.flushing == {1} && s.flushers == map[1 := Flusher(wanted, false, Waiting)] && !s.closed
    requires s.workers == map[0 := MustNotify]
    ensures IsDropped(MarkDropped(s, 2), wanted) && MarkDropped(s, 2).settled == s.settled
  {
    assert MarkDropped(s, 2).flushers == map[1 := Flusher(wanted, false, Dropped)];
  }

  /** Another caller starts another task before the flush looks. */
  lemma AnotherTaskStarts(s: State, other: Path, wanted: map<Path, nat>) returns (drawn: State, queued: State)
    requires IsDropped(s, wanted)
    ensures IsStep(s, Draw(3, other, 0, ""), drawn) && IsStep(drawn, Enter(3, true), queued)
    ensures InCall(drawn, 1) && InCall(queued, 1)
    ensures queued.running && queued.flushers == s.flushers && queued.settled == s.settled && queued.task == s.task
    ensures queued.workers == map[0 := MustNotify, 2 := Entering(false), 3 := MustStart]
  {
    hide Apply, IsEnabled, EnterQueue;
    var job := Job(other, s.nextVersion, 0, "");
    Draws(s, 3, other, 0, "");
    drawn := s.(nextVersion := s.nextVersion + 1, workers := s.workers[3 := Drawn(job)]);
    Enters(drawn, 3, job, true);
    queued := EnterQueue(drawn, 3, job);
    QueuedByNewTask(drawn, 3, job);
  }

  lemma DroppedFlushLooks(s: State, wanted: map<Path, nat>) returns (notified: State, last: State)
    requires s.running && s.flushers == map[1 := Flusher(wanted, false, Dropped)]
    requires s.workers == map[0 := MustNotify, 2 := Entering(false), 3 := MustStart]
    ensures IsStep(s, FlushNotify(1), notified) && IsStep(notified, FlushEnd(1), last)
    ensures InCall(notified, 1) && !InCall(last, 1) && ReturnsEarly(notified, FlushEnd(1), 1)
    ensures last.settled == s.settled && last.task == s.task && last.workers == s.workers
  {
    hide Apply, IsEnabled;
    FlushNotifies(s, 1);
    notified := s.(permit := true, flushers := map[1 := Flusher(wanted, true, Dropped)]);
    FlushReturns(notified, 1);
    last := notified.(flushers := map[]);
    assert notified.flushers - {1} == map[];
  }

  lemma QueuedByNewTask(s: State, w: Id, job: Job)
    requires !s.running
    ensures EnterQueue(s, w, job) == s.(submitted := s.submitted[job.path := job],
      pending := s.pending[job.path := job], running := true, workers := s.workers[w := MustStart])
  {
  }

  /** A flush that is dropped with its task, and by the time it looks finds another task running, returns
      although nothing was done about what was pending. */
  lemma DroppedFlushReturnsEarly(path: Path, interval: nat) returns (run: seq<State>, steps: seq<Step>)
    ensures IsRun(run, steps, interval) && |steps| == 9
    ensures steps[3] == FlushBegin(1) && forall k :: 3 < k < 9 ==> InCall(run[k], 1)
    ensures ReturnsEarly(run[8], steps[8], 1) && !InCall(run[9], 1)
    ensures path in run[3].pending && !OutOfQueue(run[9], PendingVersions(run[3]))
  {
    var before, first := TaskStarts(path, interval);
    var s := before[3];
    assert s.pending == map[path := Job(path, 1, 0, "")];
    var tail, more := DroppedCall(s, path + "'");
    NothingOut(tail[6], path, 1, PendingVersions(s));
    hide IsStep, OutOfQueue, ReturnsEarly, PendingVersions, WithTask, InCall;
    Joined(Start(interval), before, first, tail, more);
    run, steps := before[..3] + tail, first + more;
    assert forall k :: 0 <= k < 7 ==> run[3 + k] == tail[k];
    assert forall k :: 0 <= k < 6 ==> steps[3 + k] == more[k];
    forall k | 3 < k < 9 ensures InCall(run[k], 1) {
      assert run[k] == tail[k - 3];
    }
    assert run[8] == tail[5] && steps[8] == more[5] && run[9] == tail[6];
  }

  lemma DroppedCall(s: State, other: Path) returns (tail: seq<State>, more: seq<Step>)
    requires s.running && s.task.Starting? && s.flushers == map[] && s.flushing == {} && !s.closed
    requires s.workers == map[0 := MustNotify]
    ensures Continues(s, tail, more) && |more| == 6 && more[0] == FlushBegin(1)
    ensures (forall k :: 0 < k < 6 ==> InCall(tail[k], 1)) && !InCall(tail[6], 1)
    ensures ReturnsEarly(tail[5], more[5], 1)
    ensures tail[6].settled == s.settled && tail[6].task == NoTask
    ensures forall w :: w in tail[6].workers ==> !tail[6].workers[w].Holding?
  {
    hide IsStep, ReturnsEarly, InCall, PendingVersions, Continues;
    var waits, dropped := FlushIsDropped(s);
    var drawn, queued := AnotherTaskStarts(dropped, other, PendingVersions(s));
    var notified, last := DroppedFlushLooks(queued, PendingVersions(s));
    tail, more := Listed6(s, waits, dropped, drawn, queued, notified, last,
      FlushBegin(1), TaskAbort(2), Draw(3, other, 0, ""), Enter(3, true), FlushNotify(1), FlushEnd(1));
  }

  lemma Listed6(
    s0: State, s1: State, s2: State, s3: State, s4: State, s5: State, s6: State, a: Step, b: Step, c: Step, d: Step,
    e: Step, f: Step)
    returns (tail: seq<State>, more: seq<Step>)
    requires IsStep(s0, a, s1) && IsStep(s1, b, s2) && IsStep(s2, c, s3)
    requires IsStep(s3, d, s4) && IsStep(s4, e, s5) && IsStep(s5, f, s6)
    ensures tail == [s0, s1, s2, s3, s4, s5, s6] && more == [a, b, c, d, e, f] && Continues(s0, tail, more)
  {
    hide IsStep;
    tail, more := [s0, s1, s2, s3, s4, s5, s6], [a, b, c, d, e, f];
  }

  // ----- exactly when -----

  /** No id is used by a flush and by another caller. */
  ghost predicate IdsApart(s: State) {
    s.workers.Keys !! s.flushers.Keys
  }

  lemma CallsKeepIdsApart(s: State, step: Step)
    requires IdsApart(s) && IsEnabled(s, step, true)
    requires step.Draw? || step.Spawn? || step.Notify? || step.CloseNotify? || step.CloseBegin? || step.DrainBegin?
      || step.Take? || step.Leave? || step.FlushBegin? || step.FlushNotify? || step.FlushEnd?
    ensures IdsApart(Apply(s, step))
  {
  }

  lemma EnterKeepsIdsApart(s: State, step: Step)
    requires IdsApart(s) && IsEnabled(s, step, true) && step.Enter?
    ensures IdsApart(Apply(s, step))
  {
  }

  lemma WritesKeepIdsApart(s: State, step: Step)
    requires IdsApart(s) && IsEnabled(s, step, true) && (step.Write? || step.TaskWrite?)
    ensures IdsApart(Apply(s, step))
  {
    hide DiskAfter, FailuresAfter, SettledAfter;
  }

  lemma TaskStepsKeepIdsApart(s: State, step: Step)
    requires IdsApart(s) && IsEnabled(s, step, true)
    requires step.Tick? || step.TaskBegin? || step.TaskLook? || step.TaskTakeAll? || step.TaskAnswer? || step.TaskDueDone?
      || step.TaskWake? || step.TaskTimer? || step.TaskTakeDue? || step.TaskExit? || step.TaskAbort?
    ensures IdsApart(Apply(s, step))
  {
    hide NextDue, DueJobs;
  }

  lemma IdsStayApart(s: State, step: Step)
    requires IdsApart(s) && IsEnabled(s, step, true)
    ensures IdsApart(Apply(s, step))
  {
    hide IdsApart, Apply;
    match step {
      case Enter(_, _) => EnterKeepsIdsApart(s, step);
      case Write(_, _, _) | TaskWrite(_, _) => WritesKeepIdsApart(s, step);
      case Tick | TaskBegin | TaskLook | TaskTakeAll | TaskAnswer | TaskDueDone | TaskWake | TaskTimer | TaskTakeDue
        | TaskExit(_) | TaskAbort(_) => TaskStepsKeepIdsApart(s, step);
      case _ => CallsKeepIdsApart(s, step);
    }
  }

  lemma {:induction false} RunsKeepIdsApart(run: seq<State>, steps: seq<Step>, interval: nat, i: nat)
    requires IsRun(run, steps, interval) && i < |run|
    ensures IdsApart(run[i])
  {
    hide Apply, IsEnabled;
    if i == 0 {
    } else {
      RunsKeepIdsApart(run, steps, interval, i - 1);
      assert IsStep(run[i - 1], steps[i - 1], run[i]);
      IdsStayApart(run[i - 1], steps[i - 1]);
    }
  }

  /** No task will ever be started again. */
  ghost predicate IsStopped(s: State) {
    s.closed && !s.running
  }

  lemma CallsKeepStopped(s: State, step: Step)
    requires IsStopped(s) && IsEnabled(s, step, true)
    requires step.Draw? || step.Enter? || step.Spawn? || step.Notify? || step.CloseNotify? || step.CloseBegin?
      || step.DrainBegin? || step.Take? || step.Leave? || step.FlushBegin? || step.FlushNotify? || step.FlushEnd?
    ensures IsStopped(Apply(s, step))
  {
  }

  lemma TaskStepsKeepStopped(s: State, step: Step)
    requires IsStopped(s) && IsEnabled(s, step, true)
    requires step.Tick? || step.TaskBegin? || step.TaskLook? || step.TaskTakeAll? || step.TaskAnswer? || step.TaskDueDone?
      || step.TaskWake? || step.TaskTimer? || step.TaskTakeDue? || step.TaskExit? || step.TaskAbort? || step.Write?
      || step.TaskWrite?
    ensures IsStopped(Apply(s, step))
  {
    hide NextDue, DueJobs, DiskAfter, FailuresAfter, SettledAfter;
  }

  lemma StoppedStays(s: State, step: Step)
    requires IsStopped(s) && IsEnabled(s, step, true)
    ensures IsStopped(Apply(s, step))
  {
    hide IsStopped, Apply;
    match step {
      case Tick | TaskBegin | TaskLook | TaskTakeAll | TaskAnswer | TaskDueDone | TaskWake | TaskTimer | TaskTakeDue
        | TaskExit(_) | TaskAbort(_) | Write(_, _, _) | TaskWrite(_, _) => TaskStepsKeepStopped(s, step);
      case _ => CallsKeepStopped(s, step);
    }
  }

  /** The call of f goes on from s and returns early in the last of these steps, with something it wanted
      still in the queue. */
  ghost predicate EndsEarly(s: State, tail: seq<State>, more: seq<Step>, f: Id, wanted: map<Path, nat>) {
    && Continues(s, tail, more) && more != []
    && (forall k :: 0 <= k < |more| - 1 ==> more[k] != FlushEnd(f))
    && ReturnsEarly(tail[|more| - 1], more[|more| - 1], f) && !OutOfQueue(tail[|more|], wanted)
  }

  lemma {:induction false} OutStaysOut(s: State, tail: seq<State>, more: seq<Step>, k: nat, wanted: map<Path, nat>)
    requires IsSafe(s) && Continues(s, tail, more) && k < |tail|
    ensures IsSafe(tail[k])
    ensures OutOfQueue(s, wanted) ==> OutOfQueue(tail[k], wanted)
    ensures IsStopped(s) ==> IsStopped(tail[k])
  {
    hide IsSafe, Apply, IsEnabled, OutOfQueue, IsStopped, KeepsAll;
    if k == 0 {
    } else {
      OutStaysOut(s, tail, more, k - 1, wanted);
      assert IsStep(tail[k - 1], more[k - 1], tail[k]);
      StepIsSafe(tail[k - 1], more[k - 1]);
      PlacesKept(tail[k - 1], more[k - 1]);
      if OutOfQueue(s, wanted) {
        StaysOutOfQueue(tail[k - 1], tail[k], wanted);
      }
      if IsStopped(s) {
        StoppedStays(tail[k - 1], more[k - 1]);
      }
    }
  }

  /** A caller that writes nothing does not take anything out of the queue. */
  lemma NothingMoreOut(s: State, s': State, w: Id, worker: Worker, wanted: map<Path, nat>)
    requires s'.settled == s.settled && Hands(s'.task) == Hands(s.task) && !worker.Holding?
    requires s'.workers == s.workers || s'.workers == s.workers[w := worker]
    ensures OutOfQueue(s', wanted) ==> OutOfQueue(s, wanted)
  {
    forall path, version | SomeHolds(s'.workers, path, version) ensures SomeHolds(s.workers, path, version) {
      var v :| v in s'.workers && s'.workers[v].Holding? && Reaches(s'.workers[v].jobs, path, version);
      assert v in s.workers && s.workers[v].Holding? && Reaches(s.workers[v].jobs, path, version);
    }
    hide SomeHolds, IsSettled, Reaches, Hands;
    if OutOfQueue(s', wanted) {
      forall path | path in wanted ensures Covers(AllPlaces(s).(pending := map[]), path, wanted[path]) {
        assert Covers(AllPlaces(s').(pending := map[]), path, wanted[path]);
      }
    }
  }

  lemma {:induction false} SomePathIsFree(taken: set<Path>) returns (path: Path)
    ensures forall other :: other in taken ==> |other| < |path|
  {
    if taken == {} {
      path := "";
    } else {
      var other :| other in taken;
      var longer := SomePathIsFree(taken - {other});
      path := if |other| < |longer| then longer else other + "+";
      assert forall x :: x in taken ==> x == other || x in taken - {other};
    }
  }

  lemma MayDrawSome(s: State) returns (path: Path)
    ensures MayDraw(s, path)
  {
    var taken := set w | w in s.workers && s.workers[w].Drawn? :: s.workers[w].job.path;
    path := SomePathIsFree(taken);
    assert forall w :: w in s.workers && s.workers[w].Drawn? ==> s.workers[w].job.path in taken;
  }

  /** While a task runs, a dropped flush may look at once. */
  lemma LooksAtOnce(s: State, run: seq<State>, steps: seq<Step>, f: Id, wanted: map<Path, nat>)
    returns (tail: seq<State>, more: seq<Step>)
    requires Continues(s, run, steps) && forall k :: 0 <= k < |steps| ==> steps[k] != FlushEnd(f)
    requires var last := run[|steps|];
      last.running && f in last.flushers && last.flushers[f].reply.Dropped? && f !in last.workers && !OutOfQueue(last, wanted)
    ensures EndsEarly(s, tail, more, f, wanted)
  {
    hide Apply, IsEnabled, OutOfQueue, Hands;
    var last := run[|steps|];
    var run1, steps1, last1 := run, steps, last;
    if !last.flushers[f].notified {
      FlushNotifies(last, f);
      last1 := last.(permit := true, flushers := last.flushers[f := last.flushers[f].(notified := true)]);
      OneMore(s, run, steps, FlushNotify(f), last1);
      run1, steps1 := run + [last1], steps + [FlushNotify(f)];
      NothingMoreOut(last, last1, f, MustNotify, wanted);
    }
    FlushReturns(last1, f);
    var last2 := last1.(flushers := last1.flushers - {f});
    OneMore(s, run1, steps1, FlushEnd(f), last2);
    NothingMoreOut(last1, last2, f, MustNotify, wanted);
    tail, more := run1 + [last2], steps1 + [FlushEnd(f)];
    hide Continues, IsStep;
    assert ReturnsEarly(last1, FlushEnd(f), f);
  }

  /** While the writer is open, a caller may start a task before a dropped flush looks. */
  lemma LooksAfterAnotherStart(s: State, f: Id, wanted: map<Path, nat>) returns (tail: seq<State>, more: seq<Step>)
    requires !s.running && !s.closed && f in s.flushers && s.flushers[f].reply.Dropped? && f !in s.workers
    requires !OutOfQueue(s, wanted)
    ensures EndsEarly(s, tail, more, f, wanted)
  {
    hide Apply, IsEnabled, OutOfQueue, EnterQueue, EndsEarly, Hands;
    var path := MayDrawSome(s);
    var w := IdsAreBounded(s.workers.Keys + s.flushers.Keys);
    var job := Job(path, s.nextVersion, 0, "");
    Draws(s, w, path, 0, "");
    var drawn := s.(nextVersion := s.nextVersion + 1, workers := s.workers[w := Drawn(job)]);
    Enters(drawn, w, job, true);
    var queued := EnterQueue(drawn, w, job);
    QueuedByNewTask(drawn, w, job);
    NothingMoreOut(s, queued, w, MustStart, wanted);
    var run, steps := [s, drawn, queued], [Draw(w, path, 0, ""), Enter(w, true)];
    assert Continues(s, run, steps);
    tail, more := LooksAtOnce(s, run, steps, f, wanted);
  }

  /** In every state of every run, a dropped flush can return early, leaving something it wanted in the
      queue, if and only if something it wanted is in the queue and a task runs or can still be started. */
  lemma DroppedFlushMayReturnEarlyIff(run: seq<State>, steps: seq<Step>, interval: nat, i: nat, f: Id)
    requires IsRun(run, steps, interval) && i < |run|
    requires f in run[i].flushers && run[i].flushers[f].reply.Dropped?
    ensures var s := run[i];
      (s.running || !s.closed) && !OutOfQueue(s, s.flushers[f].wanted) <==>
      exists tail, more :: EndsEarly(s, tail, more, f, s.flushers[f].wanted)
  {
    var s := run[i];
    var wanted := s.flushers[f].wanted;
    RunsAreSafe(run, steps, interval, i);
    RunsKeepIdsApart(run, steps, interval, i);
    assert f !in s.workers;
    hide IsRun, IsSafe, OutOfQueue, Apply, IsEnabled;
    if (s.running || !s.closed) && !OutOfQueue(s, wanted) {
      if s.running {
        assert Continues(s, [s], []);
        var tail, more := LooksAtOnce(s, [s], [], f, wanted);
      } else {
        var tail, more := LooksAfterAnotherStart(s, f, wanted);
      }
    }
    forall tail, more | EndsEarly(s, tail, more, f, wanted)
      ensures (s.running || !s.closed) && !OutOfQueue(s, wanted)
    {
      OutStaysOut(s, tail, more, |more|, wanted);
      OutStaysOut(s, tail, more, |more| - 1, wanted);
    }
  }
}
