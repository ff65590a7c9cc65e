/** What holds over every run of the persist writer. */
module WriterSafety {
  import opened Writer
  import opened WriterVersions
  import opened WriterRuns
  import opened WriterFlush

  // ----- the newest executed job of a path is on disk or failed -----

  ghost predicate HasFailed(failures: set<Job>, path: Path, version: nat) {
    exists job :: job in failures && job.path == path && job.version == version
  }

  ghost predicate SettledIsKnown(settled: map<Path, nat>, disk: Jobs, failures: set<Job>) {
    forall path :: path in settled ==>
      settled[path] <= VersionOf(disk, path) || HasFailed(failures, path, settled[path])
  }

  ghost predicate SettledOk(s: State) {
    SettledIsKnown(s.settled, s.disk, s.failures)
  }

  lemma DiskOnlyAdvances(disk: Jobs, job: Job, succeeds: bool, path: Path)
    ensures VersionOf(disk, path) <= VersionOf(DiskAfter(disk, job, succeeds), path)
    ensures succeeds && path == job.path ==> job.version <= VersionOf(DiskAfter(disk, job, succeeds), path)
  {
  }

  lemma FailuresStay(failures: set<Job>, job: Job, succeeds: bool, path: Path, version: nat)
    ensures HasFailed(failures, path, version) ==> HasFailed(FailuresAfter(failures, job, succeeds), path, version)
    ensures !succeeds ==> HasFailed(FailuresAfter(failures, job, succeeds), job.path, job.version)
  {
    assert !succeeds ==> job in FailuresAfter(failures, job, succeeds);
  }

  lemma ExecutingKeepsSettled(settled: map<Path, nat>, disk: Jobs, failures: set<Job>, job: Job, succeeds: bool)
    requires SettledIsKnown(settled, disk, failures)
    ensures SettledIsKnown(SettledAfter(settled, job), DiskAfter(disk, job, succeeds), FailuresAfter(failures, job, succeeds))
  {
    var settled' := SettledAfter(settled, job);
    hide HasFailed, DiskAfter, FailuresAfter, VersionOf;
    forall path | path in settled'
      ensures settled'[path] <= VersionOf(DiskAfter(disk, job, succeeds), path)
        || HasFailed(FailuresAfter(failures, job, succeeds), path, settled'[path])
    {
      DiskOnlyAdvances(disk, job, succeeds, path);
      FailuresStay(failures, job, succeeds, path, settled'[path]);
    }
  }

  lemma WritesKeepSettled(s: State, step: Step)
    requires SettledOk(s) && IsEnabled(s, step, true) && (step.Write? || step.TaskWrite?)
    ensures SettledOk(Apply(s, step))
  {
    hide SettledIsKnown, DiskAfter, FailuresAfter, SettledAfter;
    var job := if step.Write? then s.workers[step.w].jobs[step.path] else Hands(s.task)[step.path];
    ExecutingKeepsSettled(s.settled, s.disk, s.failures, job, step.succeeds);
  }

  ghost predicate SameOutcome(s: State, s': State) {
    s'.disk == s.disk && s'.failures == s.failures && s'.settled == s.settled
  }

  // Only executing a job touches the disk, the failures and what is settled.

  lemma CallsExecuteNothing(s: State, step: Step)
    requires IsEnabled(s, step, false)
    requires step.Draw? || step.Spawn? || step.Notify? || step.CloseNotify? || step.CloseBegin? || step.DrainBegin?
    ensures SameOutcome(s, Apply(s, step))
    ensures Apply(s, step).submitted == s.submitted
  {
  }

  lemma EnteringExecutesNothing(s: State, step: Step)
    requires IsEnabled(s, step, false) && step.Enter?
    ensures SameOutcome(s, Apply(s, step)) && Apply(s, step).flushers == s.flushers
  {
    hide EnterInline, EnterQueue;
    InlineExecutesNothing(s, step.w, s.workers[step.w].job);
    QueueingExecutesNothing(s, step.w, s.workers[step.w].job);
  }

  lemma InlineExecutesNothing(s: State, w: Id, job: Job)
    ensures SameOutcome(s, EnterInline(s, w, job)) && EnterInline(s, w, job).flushers == s.flushers
  {
  }

  lemma QueueingExecutesNothing(s: State, w: Id, job: Job)
    ensures SameOutcome(s, EnterQueue(s, w, job)) && EnterQueue(s, w, job).flushers == s.flushers
  {
  }

  lemma EndsExecuteNothing(s: State, step: Step)
    requires IsEnabled(s, step, false)
    requires step.Take? || step.Leave? || step.FlushBegin? || step.FlushNotify? || step.FlushEnd?
    ensures SameOutcome(s, Apply(s, step))
    ensures Apply(s, step).submitted == s.submitted
  {
  }

  lemma TaskStepsExecuteNothing(s: State, step: Step)
    requires IsEnabled(s, step, false)
    requires step.Tick? || step.TaskBegin? || step.TaskTakeAll? || step.TaskAnswer? || step.TaskDueDone?
      || step.TaskWake? || step.TaskTimer? || step.TaskTakeDue?
    ensures SameOutcome(s, Apply(s, step))
    ensures Apply(s, step).submitted == s.submitted
  {
    hide DueJobs;
  }

  lemma LookingExecutesNothing(s: State, step: Step)
    requires IsEnabled(s, step, false) && step.TaskLook?
    ensures SameOutcome(s, Apply(s, step))
    ensures Apply(s, step).submitted == s.submitted
  {
    hide NextDue;
  }

  lemma DroppingExecutesNothing(s: State, step: Step)
    requires IsEnabled(s, step, false) && (step.TaskExit? || step.TaskAbort?)
    ensures SameOutcome(s, Apply(s, step))
    ensures Apply(s, step).submitted == s.submitted
  {
  }

  lemma SettledKept(s: State, step: Step)
    requires SettledOk(s) && IsEnabled(s, step, true)
    ensures SettledOk(Apply(s, step))
  {
    hide SettledIsKnown, Apply;
    match step {
      case Write(_, _, _) | TaskWrite(_, _) => WritesKeepSettled(s, step);
      case TaskLook => LookingExecutesNothing(s, step);
      case Tick | TaskBegin | TaskTakeAll | TaskAnswer | TaskDueDone | TaskWake | TaskTimer | TaskTakeDue =>
        TaskStepsExecuteNothing(s, step);
      case TaskExit(_) | TaskAbort(_) => DroppingExecutesNothing(s, step);
      case Take(_) | Leave(_) | FlushBegin(_) | FlushNotify(_) | FlushEnd(_) => EndsExecuteNothing(s, step);
      case Enter(_, _) => EnteringExecutesNothing(s, step);
      case _ => CallsExecuteNothing(s, step);
    }
  }

  lemma DiskAdvances(s: State, step: Step, path: Path)
    requires IsEnabled(s, step, false)
    ensures VersionOf(s.disk, path) <= VersionOf(Apply(s, step).disk, path)
  {
    hide VersionOf, Apply;
    match step {
      case Write(_, _, _) | TaskWrite(_, _) => WritesAdvanceDisk(s, step, path);
      case TaskLook => LookingExecutesNothing(s, step);
      case Tick | TaskBegin | TaskTakeAll | TaskAnswer | TaskDueDone | TaskWake | TaskTimer | TaskTakeDue =>
        TaskStepsExecuteNothing(s, step);
      case TaskExit(_) | TaskAbort(_) => DroppingExecutesNothing(s, step);
      case Take(_) | Leave(_) | FlushBegin(_) | FlushNotify(_) | FlushEnd(_) => EndsExecuteNothing(s, step);
      case Enter(_, _) => EnteringExecutesNothing(s, step);
      case _ => CallsExecuteNothing(s, step);
    }
  }

  lemma WritesAdvanceDisk(s: State, step: Step, path: Path)
    requires IsEnabled(s, step, false) && (step.Write? || step.TaskWrite?)
    ensures VersionOf(s.disk, path) <= VersionOf(Apply(s, step).disk, path)
  {
    hide VersionOf, DiskAfter, FailuresAfter, SettledAfter;
    var job := if step.Write? then s.workers[step.w].jobs[step.path] else Hands(s.task)[step.path];
    DiskOnlyAdvances(s.disk, job, step.succeeds, path);
  }

  // ----- every reachable state -----

  ghost predicate IsSafe(s: State) {
    && VersionsOk(s) && AccountsOk(s) && SettledOk(s)
    && RunsOk(s) && SealedOk(s) && WakesOk(s)
    && WaitersOk(s) && FlushesOk(s)
  }

  lemma SpawnFindsNoTask(s: State, step: Step)
    requires RunsOk(s) && IsEnabled(s, step, true) && step.Spawn?
    ensures s.task.NoTask?
  {
    SpawnKeepsRuns(s, step);
  }

  lemma StepIsSafe(s: State, step: Step)
    requires IsSafe(s) && IsEnabled(s, step, true)
    ensures IsSafe(Apply(s, step))
  {
    hide VersionsOk, AccountsOk, SettledOk, RunsOk, SealedOk, WakesOk, WaitersOk, FlushesOk, Apply, IsEnabled;
    if step.Spawn? {
      SpawnFindsNoTask(s, step);
    }
    VersionsKept(s, step);
    AccountsKept(s, step);
    SettledKept(s, step);
    RunsKept(s, step);
    SealedKept(s, step);
    WakesKept(s, step);
    WaitersKept(s, step);
    FlushesKept(s, step);
  }

  lemma StartIsSafe(interval: nat)
    ensures IsSafe(Start(interval))
  {
  }

  lemma {:induction false} RunsAreSafe(run: seq<State>, steps: seq<Step>, interval: nat, i: nat)
    requires IsRun(run, steps, interval) && i < |run|
    ensures IsSafe(run[i])
  {
    hide IsSafe, Apply, IsEnabled;
    if i == 0 {
      StartIsSafe(interval);
    } else {
      RunsAreSafe(run, steps, interval, i - 1);
      assert IsStep(run[i - 1], steps[i - 1], run[i]);
      StepIsSafe(run[i - 1], steps[i - 1]);
    }
  }

  // ----- the disk -----

  /** Along every run, overlapping draws included. */
  lemma {:induction false} VersionsOnDiskNeverDecrease(
    run: seq<State>, steps: seq<Step>, interval: nat, i: nat, j: nat, path: Path)
    requires IsLooseRun(run, steps, interval) && i <= j < |run|
    ensures VersionOf(run[i].disk, path) <= VersionOf(run[j].disk, path)
    decreases j
  {
    hide VersionOf, Apply, IsEnabled;
    if i == j {
    } else {
      VersionsOnDiskNeverDecrease(run, steps, interval, i, j - 1, path);
      assert IsLooseStep(run[j - 1], steps[j - 1], run[j]);
      DiskAdvances(run[j - 1], steps[j - 1], path);
    }
  }

  /** Nothing is queued and nobody has a job in hand. */
  ghost predicate IsQuiet(s: State) {
    && s.pending == map[] && Hands(s.task) == map[]
    && forall w :: w in s.workers && s.workers[w].Holding? ==> s.workers[w].jobs == map[]
  }

  /** Once all is quiet each path holds the last contents submitted for it, or the failure of exactly that
      write was returned or reported; and nothing newer than that was ever put there. */
  lemma LastSubmittedIsOnDisk(run: seq<State>, steps: seq<Step>, interval: nat, i: nat, path: Path)
    requires IsRun(run, steps, interval) && i < |run| && IsQuiet(run[i])
    ensures path in run[i].submitted ==>
      Has(run[i].disk, run[i].submitted[path]) || run[i].submitted[path] in run[i].failures
    ensures path in run[i].disk ==>
      path in run[i].submitted && run[i].disk[path].version <= run[i].submitted[path].version
  {
    RunsAreSafe(run, steps, interval, i);
    QuietIsDone(run[i], path);
  }

  lemma QuietIsDone(s: State, path: Path)
    requires VersionsOk(s) && AccountsOk(s) && IsQuiet(s)
    ensures path in s.submitted ==> IsDone(s.submitted[path], s.disk, s.failures)
    ensures path in s.disk ==> path in s.submitted && s.disk[path].version <= s.submitted[path].version
  {
    hide HoldingsKnown, DrawnAreNewer, SubmittedOk;
  }

  // ----- the task -----

  /** A task is spawned only where none exists, and `running` is set exactly while there is one or a
      caller is about to spawn it. */
  lemma OneTaskAtATime(run: seq<State>, steps: seq<Step>, interval: nat, i: nat)
    requires IsRun(run, steps, interval) && i < |run|
    ensures i < |steps| && steps[i].Spawn? ==> run[i].task.NoTask? && !run[i + 1].task.NoTask?
    ensures run[i].running <==> !run[i].task.NoTask? || SomeStarter(run[i].workers)
    ensures OneStarter(run[i].workers) && (!run[i].task.NoTask? ==> !SomeStarter(run[i].workers))
  {
    RunsAreSafe(run, steps, interval, i);
    assert RunsOk(run[i]);
    hide IsSafe, SomeStarter, OneStarter, SomeEntering;
    if i < |steps| && steps[i].Spawn? {
      assert IsStep(run[i], steps[i], run[i + 1]);
      SpawnFindsNoTask(run[i], steps[i]);
    }
  }

  lemma SealedStays(s: State, step: Step)
    requires IsEnabled(s, step, true) && s.sealed
    ensures Apply(s, step).sealed
  {
    hide Apply, IsEnabled;
    if IsTaskStep(step) {
      TaskStepsKeepSeal(s, step);
    } else if step.Enter? {
      EnterKeepsSeal(s, step);
    } else {
      CallsKeepSeal(s, step);
    }
  }

  ghost predicate IsTaskStep(step: Step) {
    step.TaskBegin? || step.TaskLook? || step.TaskTakeAll? || step.TaskWrite? || step.TaskAnswer? || step.TaskDueDone?
    || step.TaskWake? || step.TaskTimer? || step.TaskTakeDue? || step.TaskExit? || step.TaskAbort?
  }

  lemma TaskStepsKeepSeal(s: State, step: Step)
    requires IsEnabled(s, step, true) && s.sealed && IsTaskStep(step)
    ensures Apply(s, step).sealed
  {
    hide NextDue, DiskAfter, FailuresAfter, SettledAfter, DueJobs, IsEnabled;
  }

  lemma EnterKeepsSeal(s: State, step: Step)
    requires IsEnabled(s, step, true) && s.sealed && step.Enter?
    ensures Apply(s, step).sealed
  {
  }

  lemma CallsKeepSeal(s: State, step: Step)
    requires IsEnabled(s, step, true) && s.sealed && !IsTaskStep(step) && !step.Enter?
    ensures Apply(s, step).sealed
  {
    hide DiskAfter, FailuresAfter, SettledAfter, IsEnabled;
  }

  lemma {:induction false} SealedRunsStaySealed(run: seq<State>, steps: seq<Step>, interval: nat, i: nat, j: nat)
    requires IsRun(run, steps, interval) && i <= j < |run| && run[i].sealed
    ensures run[j].sealed
    decreases j
  {
    hide Apply, IsEnabled;
    if i == j {
    } else {
      SealedRunsStaySealed(run, steps, interval, i, j - 1);
      assert IsStep(run[j - 1], steps[j - 1], run[j]);
      SealedStays(run[j - 1], steps[j - 1]);
    }
  }

  /** From the moment close takes what was pending, hence in every state after it returns, nothing pends:
      later writes are executed by their callers. */
  lemma NothingPendsOnceClosed(run: seq<State>, steps: seq<Step>, interval: nat, i: nat, j: nat, w: Id)
    requires IsRun(run, steps, interval) && i < j < |run|
    requires steps[i] == Take(w) && w in run[i].workers && run[i].workers[w] == Entering(true)
    ensures run[j].pending == map[] && run[j].closed
  {
    assert IsStep(run[i], steps[i], run[i + 1]);
    SealedRunsStaySealed(run, steps, interval, i + 1, j);
    RunsAreSafe(run, steps, interval, j);
  }

  // ----- waking -----

  /** Steps the writer makes by itself: no new call, no passing of time, no abort. */
  ghost predicate IsOwn(step: Step) {
    !step.Tick? && !step.Draw? && !step.CloseBegin? && !step.DrainBegin? && !step.FlushBegin? && !step.TaskAbort?
  }

  ghost predicate CanGoOn(s: State) {
    exists step :: IsOwn(step) && IsEnabled(s, step, true)
  }

  lemma GoesOn(s: State, step: Step)
    requires IsOwn(step) && IsEnabled(s, step, true)
    ensures CanGoOn(s)
  {
  }

  lemma {:induction false} IdsAreBounded(taken: set<Id>) returns (bound: Id)
    ensures forall w :: w in taken ==> w < bound
  {
    if taken == {} {
      bound := 0;
    } else {
      var w :| w in taken;
      var below := IdsAreBounded(taken - {w});
      bound := if w < below then below else w + 1;
      assert forall x :: x in taken ==> x == w || x in taken - {w};
    }
  }

  lemma WorkersGoOn(s: State)
    requires SomeEntering(s.workers) || SomeStarter(s.workers) || SomeWaker(s.workers)
    ensures CanGoOn(s)
  {
    if SomeEntering(s.workers) {
      var w :| w in s.workers && s.workers[w].Entering?;
      GoesOn(s, Take(w));
    } else {
      assert SomeWaker(s.workers) by { StarterWakes(s.workers); }
      var w :| w in s.workers && WillWake(s.workers[w]);
      GoesOn(s, if s.workers[w].MustStart? then Spawn(w) else if s.workers[w].MustNotify? then Notify(w) else CloseNotify(w));
    }
  }

  lemma StarterWakes(workers: Workers)
    requires SomeStarter(workers) || SomeWaker(workers)
    ensures SomeWaker(workers)
  {
    assert forall w :: IsStarter(workers, w) ==> WillWake(workers[w]);
  }

  lemma FlushersGoOn(s: State)
    requires SomeFlushWaker(s.flushers)
    ensures CanGoOn(s)
  {
    var f :| f in s.flushers && !s.flushers[f].notified;
    GoesOn(s, FlushNotify(f));
  }

  lemma BusyTaskGoesOn(s: State)
    requires !s.task.NoTask? && !s.task.Selecting?
    ensures CanGoOn(s)
  {
    match s.task {
      case Starting => GoesOn(s, TaskBegin);
      case Top => GoesOn(s, TaskLook);
      case Chosen(_, _) => GoesOn(s, TaskTakeAll);
      case WritingAll(_, _, jobs) => if jobs == map[] { GoesOn(s, TaskAnswer); } else { HandsGoOn(s); }
      case TakingDue(_) => GoesOn(s, TaskTakeDue);
      case WritingDue(jobs) => if jobs == map[] { GoesOn(s, TaskDueDone); } else { HandsGoOn(s); }
      case Exiting =>
        var w := IdsAreBounded(s.workers.Keys + s.flushers.Keys);
        GoesOn(s, TaskExit(w));
    }
  }

  lemma HandsGoOn(s: State)
    requires Hands(s.task) != map[]
    ensures CanGoOn(s)
  {
    var path :| path in Hands(s.task);
    GoesOn(s, TaskWrite(path, true));
  }

  /** No wake-up is lost: while something pends or a flush waits, the writer can make a step by itself, or
      its task waits for a timer that goes off as soon as the first pending job may be written. */
  lemma WorkIsNeverStuck(run: seq<State>, steps: seq<Step>, interval: nat, i: nat)
    requires IsRun(run, steps, interval) && i < |run|
    requires run[i].pending != map[] || exists f :: f in run[i].flushers && run[i].flushers[f].reply.Waiting?
    ensures CanGoOn(run[i]) || WaitsForTimer(run[i])
  {
    RunsAreSafe(run, steps, interval, i);
    var s := run[i];
    if s.flushing == {} && Answering(s.task) == {} {
      NobodyWaits(s);
    }
    hide IsRun, CanGoOn, WaitersOk, VersionsOk, AccountsOk, SettledOk, SealedOk, FlushesOk;
    SafeGoesOn(s);
  }

  lemma NobodyWaits(s: State)
    requires WaitersOk(s) && s.flushing == {} && Answering(s.task) == {}
    ensures forall f :: f in s.flushers ==> !s.flushers[f].reply.Waiting?
  {
  }

  ghost predicate WaitsForTimer(s: State) {
    && s.task.Selecting? && s.task.timer.Some?
    && forall path :: path in s.pending ==> s.task.timer.value <= DueAt(s, path)
  }

  lemma SafeGoesOn(s: State)
    requires RunsOk(s) && WakesOk(s)
    requires s.pending != map[] || s.flushing != {} || Answering(s.task) != {}
    ensures CanGoOn(s) || WaitsForTimer(s)
  {
    hide CanGoOn, SomeEntering, SomeStarter, SomeWaker, SomeFlushWaker;
    if SomeEntering(s.workers) || SomeStarter(s.workers) || SomeWaker(s.workers) {
      WorkersGoOn(s);
    } else if SomeFlushWaker(s.flushers) {
      FlushersGoOn(s);
    } else if !s.task.Selecting? {
      BusyTaskGoesOn(s);
    } else if s.permit {
      GoesOn(s, TaskWake);
    } else {
      assert IsIdle(s, s.task.timer);
      var path :| path in s.pending;
    }
  }

  // ----- flushing -----

  ghost predicate StillWants(s: State, f: Id, wanted: map<Path, nat>) {
    f in s.flushers && s.flushers[f].wanted == wanted
  }

  lemma FlushStepsKeepWanting(s: State, step: Step, f: Id, wanted: map<Path, nat>)
    requires IsEnabled(s, step, true) && step != FlushEnd(f) && StillWants(s, f, wanted)
    requires step.FlushBegin? || step.FlushNotify? || step.FlushEnd?
    ensures StillWants(Apply(s, step), f, wanted)
  {
  }

  lemma RepliesKeepWanting(s: State, step: Step, f: Id, wanted: map<Path, nat>)
    requires IsEnabled(s, step, true) && StillWants(s, f, wanted)
    requires step.TaskAnswer? || step.TaskExit? || step.TaskAbort?
    ensures StillWants(Apply(s, step), f, wanted)
  {
  }

  lemma CallsKeepFlushers(s: State, step: Step)
    requires IsEnabled(s, step, true)
    requires step.Draw? || step.Spawn? || step.Notify? || step.CloseNotify? || step.CloseBegin? || step.DrainBegin?
      || step.Take? || step.Leave? || step.Write?
    ensures Apply(s, step).flushers == s.flushers
  {
    hide DiskAfter, FailuresAfter, SettledAfter;
  }

  lemma TaskStepsKeepFlushers(s: State, step: Step)
    requires IsEnabled(s, step, true)
    requires step.Tick? || step.TaskBegin? || step.TaskLook? || step.TaskTakeAll? || step.TaskDueDone? || step.TaskWake?
      || step.TaskTimer? || step.TaskTakeDue? || step.TaskWrite?
    ensures Apply(s, step).flushers == s.flushers
  {
    hide NextDue, DueJobs, DiskAfter, FailuresAfter, SettledAfter;
  }

  lemma WantingStays(s: State, step: Step, f: Id, wanted: map<Path, nat>)
    requires IsEnabled(s, step, true) && step != FlushEnd(f) && StillWants(s, f, wanted)
    ensures StillWants(Apply(s, step), f, wanted)
  {
    assert IsEnabled(s, step, false);
    hide Apply, IsEnabled;
    match step {
      case FlushBegin(_) | FlushNotify(_) | FlushEnd(_) => FlushStepsKeepWanting(s, step, f, wanted);
      case TaskAnswer | TaskExit(_) | TaskAbort(_) => RepliesKeepWanting(s, step, f, wanted);
      case Tick | TaskBegin | TaskLook | TaskTakeAll | TaskDueDone | TaskWake | TaskTimer | TaskTakeDue | TaskWrite(_, _) =>
        TaskStepsKeepFlushers(s, step);
      case Enter(_, _) => EnteringExecutesNothing(s, step);
      case _ => CallsKeepFlushers(s, step);
    }
  }

  lemma {:induction false} WantingLasts(
    run: seq<State>, steps: seq<Step>, interval: nat, i: nat, j: nat, f: Id, wanted: map<Path, nat>)
    requires IsRun(run, steps, interval) && i <= j < |run| && StillWants(run[i], f, wanted)
    requires forall k :: i <= k < j ==> steps[k] != FlushEnd(f)
    ensures StillWants(run[j], f, wanted)
    decreases j
  {
    hide Apply, IsEnabled, StillWants;
    if i == j {
    } else {
      WantingLasts(run, steps, interval, i, j - 1, f, wanted);
      assert IsStep(run[j - 1], steps[j - 1], run[j]);
      WantingStays(run[j - 1], steps[j - 1], f, wanted);
    }
  }

  lemma FlushRemembersPending(s: State, f: Id)
    requires IsEnabled(s, FlushBegin(f), true) && s.running
    ensures StillWants(Apply(s, FlushBegin(f)), f, map path | path in s.pending :: s.pending[path].version)
  {
  }

  lemma AnsweredIsCovered(s: State, f: Id, wanted: map<Path, nat>, path: Path)
    requires FlushesOk(s) && StillWants(s, f, wanted) && s.flushers[f].reply.Answered? && path in wanted
    ensures IsSettled(s.settled, path, wanted[path]) || SomeHolds(s.workers, path, wanted[path])
  {
    hide SomeHolds, IsSettled, IsTaken;
    assert IsServed(s.flushers[f], IsTaken(s.task, f), AllPlaces(s));
    var at := AllPlaces(s).(pending := map[], hands := map[]);
    assert Covers(at, path, wanted[path]);
    assert !Reaches(at.pending, path, wanted[path]) && !Reaches(at.hands, path, wanted[path]);
  }

  /** When the task has answered a flush, every job that was pending when it was called has been executed,
      or a newer one for its path has, or a caller writing by itself still holds it or a newer one. */
  lemma FlushIsABarrier(run: seq<State>, steps: seq<Step>, interval: nat, i: nat, j: nat, f: Id, path: Path)
    requires IsRun(run, steps, interval) && i < |steps| && i < j < |run|
    requires steps[i] == FlushBegin(f) && run[i].running && path in run[i].pending
    requires forall k :: i < k < j ==> steps[k] != FlushEnd(f)
    requires f in run[j].flushers && run[j].flushers[f].reply.Answered?
    ensures var version := run[i].pending[path].version;
      IsSettled(run[j].settled, path, version) || SomeHolds(run[j].workers, path, version)
  {
    var wanted := map p | p in run[i].pending :: run[i].pending[p].version;
    assert IsStep(run[i], steps[i], run[i + 1]);
    hide Apply, IsEnabled, StillWants, SomeHolds, IsSettled;
    FlushRemembersPending(run[i], f);
    WantingLasts(run, steps, interval, i + 1, j, f, wanted);
    RunsAreSafe(run, steps, interval, j);
    AnswersAreCovered(run[j], f, wanted, path);
  }

  lemma AnswersAreCovered(s: State, f: Id, wanted: map<Path, nat>, path: Path)
    requires IsSafe(s) && StillWants(s, f, wanted) && path in wanted
    requires f in s.flushers && s.flushers[f].reply.Answered?
    ensures IsSettled(s.settled, path, wanted[path]) || SomeHolds(s.workers, path, wanted[path])
  {
    AnsweredIsCovered(s, f, wanted, path);
  }

  /** So, unless a caller is writing that path by itself, the answered flush finds that version or a newer
      one on disk, or the write of that or a newer version failed. */
  lemma FlushedIsOnDisk(run: seq<State>, steps: seq<Step>, interval: nat, i: nat, j: nat, f: Id, path: Path)
    requires IsRun(run, steps, interval) && i < |steps| && i < j < |run|
    requires steps[i] == FlushBegin(f) && run[i].running && path in run[i].pending
    requires forall k :: i < k < j ==> steps[k] != FlushEnd(f)
    requires f in run[j].flushers && run[j].flushers[f].reply.Answered?
    requires forall w :: w in run[j].workers && run[j].workers[w].Holding? ==> path !in run[j].workers[w].jobs
    ensures var version := run[i].pending[path].version;
      || version <= VersionOf(run[j].disk, path)
      || exists failed: nat :: version <= failed && HasFailed(run[j].failures, path, failed)
  {
    FlushIsABarrier(run, steps, interval, i, j, f, path);
    RunsAreSafe(run, steps, interval, j);
    SettledIsOnDisk(run[j], path, run[i].pending[path].version);
  }

  lemma SettledIsOnDisk(s: State, path: Path, version: nat)
    requires SettledOk(s) && IsSettled(s.settled, path, version)
    ensures version <= VersionOf(s.disk, path)
      || exists failed: nat :: version <= failed && HasFailed(s.failures, path, failed)
  {
    hide HasFailed, VersionOf;
  }
}
