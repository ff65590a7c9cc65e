/** At most one background task runs, `running` says so, nothing pends once the writer is closed, and
    no wake-up is lost. */
module WriterRuns {
  import opened Ordered
  import opened Writer

  // ----- who runs -----

  ghost predicate IsStarter(workers: Workers, w: Id) {
    w in workers && workers[w].MustStart?
  }

  ghost predicate SomeStarter(workers: Workers) {
    exists w :: IsStarter(workers, w)
  }

  ghost predicate OneStarter(workers: Workers) {
    forall w, x :: IsStarter(workers, w) && IsStarter(workers, x) ==> w == x
  }

  ghost predicate SomeEntering(workers: Workers) {
    exists w :: w in workers && workers[w].Entering?
  }

  /** `running` is set exactly while a task exists or one caller is about to start it; flushes wait only
      then, and what is pending always has somebody who will take it. */
  ghost predicate RunOk(running: bool, task: Task, workers: Workers, flushing: set<Id>, pending: Jobs) {
    && (running <==> !task.NoTask? || SomeStarter(workers))
    && (!task.NoTask? ==> !SomeStarter(workers)) && OneStarter(workers)
    && (flushing != {} ==> running)
    && (pending != map[] ==> running || SomeEntering(workers))
  }

  ghost predicate RunsOk(s: State) {
    RunOk(s.running, s.task, s.workers, s.flushing, s.pending)
  }

  lemma StartersSame(workers: Workers, w: Id, worker: Worker)
    requires !IsStarter(workers, w) && !worker.MustStart?
    ensures forall x :: IsStarter(workers[w := worker], x) <==> IsStarter(workers, x)
    ensures SomeStarter(workers[w := worker]) == SomeStarter(workers)
    ensures OneStarter(workers) ==> OneStarter(workers[w := worker])
  {
    var more := workers[w := worker];
    assert forall x :: IsStarter(more, x) <==> IsStarter(workers, x);
  }

  lemma StartersLess(workers: Workers, w: Id)
    requires !IsStarter(workers, w)
    ensures SomeStarter(workers - {w}) == SomeStarter(workers)
    ensures OneStarter(workers) ==> OneStarter(workers - {w})
  {
    var less := workers - {w};
    assert forall x :: IsStarter(less, x) <==> IsStarter(workers, x);
  }

  lemma StarterGone(workers: Workers, w: Id, worker: Worker)
    requires IsStarter(workers, w) && OneStarter(workers) && !worker.MustStart?
    ensures !SomeStarter(workers[w := worker]) && OneStarter(workers[w := worker])
  {
    var more := workers[w := worker];
    assert forall x :: x != w ==> (IsStarter(more, x) <==> IsStarter(workers, x));
  }

  lemma StarterComes(workers: Workers, w: Id)
    requires !SomeStarter(workers)
    ensures SomeStarter(workers[w := MustStart]) && OneStarter(workers[w := MustStart])
  {
    var more := workers[w := MustStart];
    assert IsStarter(more, w);
    assert forall x :: x != w ==> (IsStarter(more, x) <==> IsStarter(workers, x));
  }

  lemma EnteringStays(workers: Workers, w: Id, worker: Worker)
    requires SomeEntering(workers) && (w in workers && workers[w].Entering? ==> worker.Entering?)
    ensures SomeEntering(workers[w := worker])
    ensures w in workers && !workers[w].Entering? ==> SomeEntering(workers - {w})
  {
    var x :| x in workers && workers[x].Entering?;
    var more, less := workers[w := worker], workers - {w};
    assert x in more && more[x].Entering?;
    assert x != w ==> x in less && less[x].Entering?;
  }

  lemma EnteringComes(workers: Workers, w: Id, closes: bool)
    ensures SomeEntering(workers[w := Entering(closes)])
  {
    var more := workers[w := Entering(closes)];
    assert w in more && more[w].Entering?;
  }

  /** A worker that neither starts the task nor is about to take what is pending moves on. */
  lemma PlainMovesKeepRuns(s: State, s': State, w: Id, worker: Worker)
    requires RunsOk(s) && s'.workers == s.workers[w := worker] && !IsStarter(s.workers, w) && !worker.MustStart?
    requires s'.running == s.running && s'.task.NoTask? == s.task.NoTask? && (s'.flushing == {} || s.running)
    requires s'.pending != map[] ==> (s.running || (s.pending != map[] && !(w in s.workers && s.workers[w].Entering?)))
    ensures RunsOk(s')
  {
    hide SomeStarter, OneStarter, SomeEntering;
    StartersSame(s.workers, w, worker);
    if SomeEntering(s.workers) && s'.pending != map[] && !s.running {
      EnteringStays(s.workers, w, worker);
    }
  }

  lemma LeavingKeepsRuns(s: State, s': State, w: Id)
    requires RunsOk(s) && w in s.workers && !s.workers[w].MustStart? && !s.workers[w].Entering?
    requires s'.workers == s.workers - {w} && s'.running == s.running && s'.task == s.task
    requires s'.flushing == s.flushing && s'.pending == s.pending
    ensures RunsOk(s')
  {
    hide SomeStarter, OneStarter, SomeEntering;
    StartersLess(s.workers, w);
    if SomeEntering(s.workers) {
      EnteringStays(s.workers, w, MustNotify);
    }
  }

  lemma SameRuns(s: State, s': State)
    requires RunsOk(s) && s'.workers == s.workers && s'.running == s.running && (!s'.task.NoTask? <==> !s.task.NoTask?)
    requires s'.flushing == {} || s.running
    requires s'.pending == map[] || s.pending != map[]
    ensures RunsOk(s')
  {
  }

  lemma EnterKeepsRuns(s: State, step: Step)
    requires RunsOk(s) && IsEnabled(s, step, true) && step.Enter?
    ensures RunsOk(Apply(s, step))
  {
    hide RunsOk, RunOk, SomeStarter, OneStarter, SomeEntering;
    var w, s' := step.w, Apply(s, step);
    var job := s.workers[w].job;
    if s.closed || !(s.running || step.hasRuntime) {
      PlainMovesKeepRuns(s, s', w, Holding(map[job.path := job])) by { RunsUnfold(s); }
    } else if s.running {
      PlainMovesKeepRuns(s, s', w, MustNotify) by { RunsUnfold(s); }
    } else {
      NewStarterKeepsRuns(s, s', w);
    }
  }

  lemma RunsUnfold(s: State)
    requires RunsOk(s)
    ensures s.flushing == {} || s.running
  {
  }

  lemma NewStarterKeepsRuns(s: State, s': State, w: Id)
    requires RunsOk(s) && !s.running && s'.running && s'.task == s.task && s'.workers == s.workers[w := MustStart]
    ensures RunsOk(s')
  {
    hide SomeStarter, OneStarter, SomeEntering;
    StarterComes(s.workers, w);
  }

  lemma CallStepsKeepRuns(s: State, step: Step)
    requires RunsOk(s) && IsEnabled(s, step, true)
    requires step.Draw? || step.CloseNotify? || step.CloseBegin? || step.DrainBegin? || step.Take? || step.Write?
    ensures RunsOk(Apply(s, step))
  {
    hide RunsOk, RunOk, SomeStarter, OneStarter, SomeEntering, DiskAfter, FailuresAfter, SettledAfter;
    var s' := Apply(s, step);
    RunsUnfold(s);
    PlainMovesKeepRuns(s, s', step.w, s'.workers[step.w]);
  }

  lemma LeavesKeepRuns(s: State, step: Step)
    requires RunsOk(s) && IsEnabled(s, step, true) && (step.Notify? || step.Leave?)
    ensures RunsOk(Apply(s, step))
  {
    hide RunsOk, RunOk, SomeStarter, OneStarter, SomeEntering;
    LeavingKeepsRuns(s, Apply(s, step), step.w);
  }

  /** The task is started only where there is none. */
  lemma SpawnKeepsRuns(s: State, step: Step)
    requires RunsOk(s) && IsEnabled(s, step, true) && step.Spawn?
    ensures s.task.NoTask? && RunsOk(Apply(s, step))
  {
    hide SomeStarter, OneStarter, SomeEntering, RunOk;
    StarterIsSome(s.workers, step.w);
    StartingKeepsRuns(s.running, s.task, s.workers, s.flushing, s.pending, step.w);
  }

  lemma StartingKeepsRuns(running: bool, task: Task, workers: Workers, flushing: set<Id>, pending: Jobs, w: Id)
    requires RunOk(running, task, workers, flushing, pending) && IsStarter(workers, w)
    ensures task.NoTask? && RunOk(running, Starting, workers[w := MustNotify], flushing, pending)
  {
    hide SomeStarter, OneStarter, SomeEntering;
    StarterIsSome(workers, w);
    StarterGone(workers, w, MustNotify);
    if SomeEntering(workers) {
      EnteringStays(workers, w, MustNotify);
    }
  }

  lemma StarterIsSome(workers: Workers, w: Id)
    requires IsStarter(workers, w)
    ensures SomeStarter(workers)
  {
  }

  lemma EndingKeepsRuns(s: State, step: Step)
    requires RunsOk(s) && IsEnabled(s, step, true) && (step.TaskExit? || step.TaskAbort?)
    ensures RunsOk(Apply(s, step))
  {
    hide SomeStarter, OneStarter, SomeEntering;
    StartersSame(s.workers, step.w, Entering(false));
    EnteringComes(s.workers, step.w, false);
  }

  lemma FlushStepsKeepRuns(s: State, step: Step)
    requires RunsOk(s) && IsEnabled(s, step, true) && (step.FlushBegin? || step.FlushNotify? || step.FlushEnd?)
    ensures RunsOk(Apply(s, step))
  {
    hide RunsOk, RunOk, SomeStarter, OneStarter, SomeEntering;
    var s' := Apply(s, step);
    RunsUnfold(s);
    if s.running || step.FlushNotify? {
      SameRuns(s, s');
    } else {
      PlainMovesKeepRuns(s, s', step.f, Entering(false));
    }
  }

  lemma TaskStepsKeepRuns(s: State, step: Step)
    requires RunsOk(s) && IsEnabled(s, step, true)
    requires step.Tick? || step.TaskBegin? || step.TaskDueDone? || step.TaskWake? || step.TaskTimer? || step.TaskTakeDue?
    ensures RunsOk(Apply(s, step))
  {
    hide RunsOk, RunOk;
    RunsUnfold(s);
    SameRuns(s, Apply(s, step));
  }

  lemma TaskWorkKeepsRuns(s: State, step: Step)
    requires RunsOk(s) && IsEnabled(s, step, true)
    requires step.TaskTakeAll? || step.TaskAnswer?
    ensures RunsOk(Apply(s, step))
  {
    hide RunsOk, RunOk;
    RunsUnfold(s);
    SameRuns(s, Apply(s, step));
  }

  lemma LookKeepsRuns(s: State, step: Step)
    requires RunsOk(s) && IsEnabled(s, step, true) && step.TaskLook?
    ensures RunsOk(Apply(s, step))
  {
    hide RunsOk, RunOk, NextDue;
    SameRuns(s, Apply(s, step));
  }

  lemma TaskWriteKeepsRuns(s: State, step: Step)
    requires RunsOk(s) && IsEnabled(s, step, true) && step.TaskWrite?
    ensures RunsOk(Apply(s, step))
  {
    hide RunsOk, RunOk, DiskAfter, FailuresAfter, SettledAfter;
    RunsUnfold(s);
    SameRuns(s, Apply(s, step));
  }

  lemma RunsKept(s: State, step: Step)
    requires RunsOk(s) && IsEnabled(s, step, true)
    ensures RunsOk(Apply(s, step))
  {
    hide RunsOk, Apply;
    match step {
      case Enter(_, _) => EnterKeepsRuns(s, step);
      case Spawn(_) => SpawnKeepsRuns(s, step);
      case Notify(_) | Leave(_) => LeavesKeepRuns(s, step);
      case Draw(_, _, _, _) | CloseNotify(_) | CloseBegin(_) | DrainBegin(_) | Take(_) | Write(_, _, _) =>
        CallStepsKeepRuns(s, step);
      case TaskExit(_) | TaskAbort(_) => EndingKeepsRuns(s, step);
      case FlushBegin(_) | FlushNotify(_) | FlushEnd(_) => FlushStepsKeepRuns(s, step);
      case TaskWrite(_, _) => TaskWriteKeepsRuns(s, step);
      case TaskLook => LookKeepsRuns(s, step);
      case TaskTakeAll | TaskAnswer => TaskWorkKeepsRuns(s, step);
      case _ => TaskStepsKeepRuns(s, step);
    }
  }

  // ----- closing -----

  ghost predicate IsClosing(worker: Worker) {
    worker.MustNotifyClosed? || (worker.Entering? && worker.closes)
  }

  ghost predicate ClosersClosed(closed: bool, workers: Workers) {
    forall w :: w in workers && IsClosing(workers[w]) ==> closed
  }

  /** Once a close has taken what was pending nothing pends again. */
  ghost predicate SealedOk(s: State) {
    (s.sealed ==> s.closed && s.pending == map[]) && ClosersClosed(s.closed, s.workers)
  }

  lemma ClosersKept(closed: bool, workers: Workers, w: Id, worker: Worker)
    requires ClosersClosed(closed, workers) && (IsClosing(worker) ==> closed)
    ensures ClosersClosed(closed, workers[w := worker]) && ClosersClosed(closed, workers - {w})
  {
  }

  lemma MovesKeepSealed(s: State, s': State, w: Id, worker: Worker)
    requires SealedOk(s) && (s'.workers == s.workers[w := worker] || s'.workers == s.workers - {w})
    requires (s.closed ==> s'.closed) && (IsClosing(worker) ==> s'.closed)
    requires s'.sealed ==> s'.closed && s'.pending == map[]
    ensures SealedOk(s')
  {
    assert ClosersClosed(s'.closed, s.workers);
    hide ClosersClosed, IsClosing;
    ClosersKept(s'.closed, s.workers, w, worker);
  }

  lemma SameSealed(s: State, s': State)
    requires SealedOk(s) && s'.workers == s.workers && s'.closed == s.closed && s'.sealed == s.sealed
    requires s.pending == map[] ==> s'.pending == map[]
    ensures SealedOk(s')
  {
    hide ClosersClosed;
  }

  lemma SealedUnfold(s: State)
    requires SealedOk(s)
    ensures s.sealed ==> s.closed && s.pending == map[]
    ensures forall w :: w in s.workers && IsClosing(s.workers[w]) ==> s.closed
  {
  }

  lemma EnterKeepsSealed(s: State, step: Step)
    requires SealedOk(s) && IsEnabled(s, step, true) && step.Enter?
    ensures SealedOk(Apply(s, step))
  {
    hide SealedOk, ClosersClosed;
    SealedUnfold(s);
    var job := s.workers[step.w].job;
    if s.closed || !(s.running || step.hasRuntime) {
      MovesKeepSealed(s, Apply(s, step), step.w, Holding(map[job.path := job]));
    } else {
      MovesKeepSealed(s, Apply(s, step), step.w, if s.running then MustNotify else MustStart);
    }
  }

  lemma CallsKeepSealed(s: State, step: Step)
    requires SealedOk(s) && IsEnabled(s, step, true)
    requires step.Draw? || step.Spawn? || step.CloseBegin? || step.CloseNotify? || step.DrainBegin? || step.Take?
    ensures SealedOk(Apply(s, step))
  {
    hide SealedOk, ClosersClosed;
    SealedUnfold(s);
    var s' := Apply(s, step);
    MovesKeepSealed(s, s', step.w, s'.workers[step.w]);
  }

  lemma OthersKeepSealed(s: State, step: Step)
    requires SealedOk(s) && IsEnabled(s, step, true)
    requires step.Notify? || step.Leave? || step.Write? || step.TaskExit? || step.TaskAbort?
    ensures SealedOk(Apply(s, step))
  {
    hide SealedOk, ClosersClosed, DiskAfter, FailuresAfter, SettledAfter;
    SealedUnfold(s);
    var s' := Apply(s, step);
    MovesKeepSealed(s, s', step.w, if step.w in s'.workers then s'.workers[step.w] else MustNotify);
  }

  lemma FlushesKeepSealed(s: State, step: Step)
    requires SealedOk(s) && IsEnabled(s, step, true) && (step.FlushBegin? || step.FlushNotify? || step.FlushEnd?)
    ensures SealedOk(Apply(s, step))
  {
    hide SealedOk, ClosersClosed;
    SealedUnfold(s);
    if s.running || step.FlushNotify? {
      SameSealed(s, Apply(s, step));
    } else {
      MovesKeepSealed(s, Apply(s, step), step.f, Entering(false));
    }
  }

  lemma TaskStepsKeepSealed(s: State, step: Step)
    requires SealedOk(s) && IsEnabled(s, step, true)
    requires step.Tick? || step.TaskBegin? || step.TaskDueDone? || step.TaskWake? || step.TaskTimer? || step.TaskTakeDue?
    ensures SealedOk(Apply(s, step))
  {
    hide SealedOk;
    SameSealed(s, Apply(s, step));
  }

  lemma TaskWorkKeepsSealed(s: State, step: Step)
    requires SealedOk(s) && IsEnabled(s, step, true)
    requires step.TaskLook? || step.TaskTakeAll? || step.TaskWrite? || step.TaskAnswer?
    ensures SealedOk(Apply(s, step))
  {
    hide SealedOk, NextDue, DiskAfter, FailuresAfter, SettledAfter;
    SameSealed(s, Apply(s, step));
  }

  lemma SealedKept(s: State, step: Step)
    requires SealedOk(s) && IsEnabled(s, step, true)
    ensures SealedOk(Apply(s, step))
  {
    hide SealedOk, Apply;
    match step {
      case Enter(_, _) => EnterKeepsSealed(s, step);
      case Draw(_, _, _, _) | Spawn(_) | CloseBegin(_) | CloseNotify(_) | DrainBegin(_) | Take(_) => CallsKeepSealed(s, step);
      case Notify(_) | Leave(_) | Write(_, _, _) | TaskExit(_) | TaskAbort(_) => OthersKeepSealed(s, step);
      case FlushBegin(_) | FlushNotify(_) | FlushEnd(_) => FlushesKeepSealed(s, step);
      case TaskLook | TaskTakeAll | TaskWrite(_, _) | TaskAnswer => TaskWorkKeepsSealed(s, step);
      case _ => TaskStepsKeepSealed(s, step);
    }
  }

  // ----- waking -----

  ghost predicate WillWake(worker: Worker) {
    worker.MustStart? || worker.MustNotify? || worker.MustNotifyClosed?
  }

  ghost predicate SomeWaker(workers: Workers) {
    exists w :: w in workers && WillWake(workers[w])
  }

  ghost predicate SomeFlushWaker(flushers: Flushers) {
    exists f :: f in flushers && !flushers[f].notified
  }

  ghost predicate IsAwake(permit: bool, workers: Workers, flushers: Flushers) {
    permit || SomeWaker(workers) || SomeFlushWaker(flushers)
  }

  /** The timer goes off no later than any pending job may be written. */
  ghost predicate IsTimed(s: State, timer: Option<nat>) {
    forall path :: path in s.pending ==> timer.Some? && timer.value <= DueAt(s, path)
  }

  ghost predicate IsIdle(s: State, timer: Option<nat>) {
    !s.closed && s.flushing == {} && IsTimed(s, timer)
  }

  /** A task that waits has a wake-up stored or on its way, or nothing to do before its timer. */
  ghost predicate WakesOk(s: State) {
    s.task.Selecting? ==> IsAwake(s.permit, s.workers, s.flushers) || IsIdle(s, s.task.timer)
  }

  lemma WakerStays(workers: Workers, w: Id, worker: Worker)
    requires SomeWaker(workers) && (w in workers ==> !WillWake(workers[w]) || WillWake(worker))
    ensures SomeWaker(workers[w := worker])
    ensures w in workers && !WillWake(workers[w]) ==> SomeWaker(workers - {w})
  {
    var x :| x in workers && WillWake(workers[x]);
    var more, less := workers[w := worker], workers - {w};
    assert x in more && WillWake(more[x]);
    assert x != w ==> x in less && WillWake(less[x]);
  }

  lemma WakerComes(workers: Workers, w: Id, worker: Worker)
    requires WillWake(worker)
    ensures SomeWaker(workers[w := worker])
  {
    var more := workers[w := worker];
    assert w in more && WillWake(more[w]);
  }

  lemma FlushWakerLess(flushers: Flushers, f: Id)
    requires SomeFlushWaker(flushers) && f in flushers && flushers[f].notified
    ensures SomeFlushWaker(flushers - {f})
  {
    var x :| x in flushers && !flushers[x].notified;
    var less := flushers - {f};
    assert x in less && !less[x].notified;
  }

  lemma FlushWakerComes(flushers: Flushers, f: Id, flusher: Flusher)
    requires !flusher.notified
    ensures SomeFlushWaker(flushers[f := flusher])
  {
    var more := flushers[f := flusher];
    assert f in more && !more[f].notified;
  }

  /** A caller that is not about to wake the task, or goes on to, moves; less may be pending. */
  lemma MovesKeepWakes(s: State, s': State, w: Id, worker: Worker)
    requires WakesOk(s) && s'.workers == s.workers[w := worker]
    requires w in s.workers ==> !WillWake(s.workers[w]) || WillWake(worker)
    requires s'.task == s.task && s'.permit == s.permit && s'.flushers == s.flushers && s'.last == s.last
    requires s'.clock == s.clock && s'.interval == s.interval
    requires WillWake(worker) || (s'.closed == s.closed && s'.flushing == s.flushing && s'.pending.Keys <= s.pending.Keys)
    ensures WakesOk(s')
  {
    hide SomeWaker, SomeFlushWaker, WillWake;
    if SomeWaker(s.workers) {
      WakerStays(s.workers, w, worker);
    }
    if WillWake(worker) {
      WakerComes(s.workers, w, worker);
    }
  }

  lemma EnterKeepsWakes(s: State, step: Step)
    requires WakesOk(s) && IsEnabled(s, step, true) && step.Enter?
    ensures WakesOk(Apply(s, step))
  {
    hide WakesOk, EnterInline, EnterQueue;
    InlineKeepsWakes(s, step.w, s.workers[step.w].job);
    QueueingKeepsWakes(s, step.w, s.workers[step.w].job);
  }

  lemma InlineKeepsWakes(s: State, w: Id, job: Job)
    requires WakesOk(s) && w in s.workers && s.workers[w] == Drawn(job)
    ensures WakesOk(EnterInline(s, w, job))
  {
    hide WakesOk;
    MovesKeepWakes(s, EnterInline(s, w, job), w, Holding(map[job.path := job]));
  }

  lemma QueueingKeepsWakes(s: State, w: Id, job: Job)
    requires WakesOk(s) && w in s.workers && s.workers[w] == Drawn(job)
    ensures WakesOk(EnterQueue(s, w, job))
  {
    hide WakesOk;
    var worker := if s.running then MustNotify else MustStart;
    WakerComes(s.workers, w, worker);
    AwakeIsEnough(EnterQueue(s, w, job));
  }

  lemma CallsKeepWakes(s: State, step: Step)
    requires WakesOk(s) && IsEnabled(s, step, true)
    requires step.Draw? || step.CloseBegin? || step.DrainBegin? || step.Take? || step.Write?
    ensures WakesOk(Apply(s, step))
  {
    hide WakesOk, DiskAfter, FailuresAfter, SettledAfter;
    var s' := Apply(s, step);
    MovesKeepWakes(s, s', step.w, s'.workers[step.w]);
  }

  lemma WakingKeepsWakes(s: State, step: Step)
    requires IsEnabled(s, step, true) && (step.Notify? || step.CloseNotify? || step.FlushNotify? || step.Spawn?)
    ensures WakesOk(Apply(s, step))
  {
  }

  lemma LeaveKeepsWakes(s: State, step: Step)
    requires WakesOk(s) && IsEnabled(s, step, true) && step.Leave?
    ensures WakesOk(Apply(s, step))
  {
    hide SomeWaker, SomeFlushWaker;
    if SomeWaker(s.workers) {
      WakerStays(s.workers, step.w, MustNotify);
    }
  }

  lemma FlushBeginKeepsWakes(s: State, step: Step)
    requires WakesOk(s) && IsEnabled(s, step, true) && step.FlushBegin?
    ensures WakesOk(Apply(s, step))
  {
    hide SomeWaker, SomeFlushWaker, WakesOk;
    var s' := Apply(s, step);
    if s.running {
      FlushWakerComes(s.flushers, step.f, s'.flushers[step.f]);
      AwakeIsEnough(s');
    } else {
      MovesKeepWakes(s, s', step.f, Entering(false));
    }
  }

  lemma AwakeIsEnough(s: State)
    requires IsAwake(s.permit, s.workers, s.flushers)
    ensures WakesOk(s)
  {
  }

  lemma FlushEndKeepsWakes(s: State, step: Step)
    requires WakesOk(s) && IsEnabled(s, step, true) && step.FlushEnd?
    ensures WakesOk(Apply(s, step))
  {
    hide WakesOk;
    var less := s.(flushers := s.flushers - {step.f});
    FlusherLeaves(s, step.f);
    if !s.running {
      MovesKeepWakes(less, Apply(s, step), step.f, Entering(false));
    }
  }

  lemma FlusherLeaves(s: State, f: Id)
    requires WakesOk(s) && f in s.flushers && s.flushers[f].notified
    ensures WakesOk(s.(flushers := s.flushers - {f}))
  {
    hide SomeWaker, SomeFlushWaker;
    if SomeFlushWaker(s.flushers) {
      FlushWakerLess(s.flushers, f);
    }
  }

  lemma LookKeepsWakes(s: State, step: Step)
    requires IsEnabled(s, step, true) && step.TaskLook?
    ensures WakesOk(Apply(s, step))
  {
  }

  lemma TickKeepsWakes(s: State)
    requires WakesOk(s)
    ensures WakesOk(Apply(s, Tick))
  {
    hide IsAwake;
  }

  lemma TaskStepsKeepWakes(s: State, step: Step)
    requires IsEnabled(s, step, true)
    requires step.TaskBegin? || step.TaskTakeAll? || step.TaskAnswer? || step.TaskDueDone? || step.TaskWake?
      || step.TaskTimer? || step.TaskTakeDue? || step.TaskExit? || step.TaskAbort?
    ensures WakesOk(Apply(s, step))
  {
    hide IsAwake, IsIdle;
  }

  lemma TaskWriteKeepsWakes(s: State, step: Step)
    requires IsEnabled(s, step, true) && step.TaskWrite?
    ensures WakesOk(Apply(s, step))
  {
    hide IsAwake, IsIdle, DiskAfter, FailuresAfter, SettledAfter;
  }

  lemma WakesKept(s: State, step: Step)
    requires WakesOk(s) && IsEnabled(s, step, true)
    ensures WakesOk(Apply(s, step))
  {
    hide WakesOk, Apply;
    match step {
      case Enter(_, _) => EnterKeepsWakes(s, step);
      case Draw(_, _, _, _) | CloseBegin(_) | DrainBegin(_) | Take(_) | Write(_, _, _) => CallsKeepWakes(s, step);
      case Notify(_) | CloseNotify(_) | FlushNotify(_) | Spawn(_) => WakingKeepsWakes(s, step);
      case Leave(_) => LeaveKeepsWakes(s, step);
      case FlushBegin(_) => FlushBeginKeepsWakes(s, step);
      case FlushEnd(_) => FlushEndKeepsWakes(s, step);
      case TaskLook => LookKeepsWakes(s, step);
      case Tick => TickKeepsWakes(s);
      case TaskWrite(_, _) => TaskWriteKeepsWakes(s, step);
      case _ => TaskStepsKeepWakes(s, step);
    }
  }
}
