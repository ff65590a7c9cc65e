/** How often a path is written: when the task writes what is due it waits the interval, told by the steps of
    a run alone. */
module WriterPacing {
  import opened Writer
  import opened WriterSafety
  import opened WriterProgress

  /** Step i was the task writing this path, and no other task has begun since. */
  ghost predicate WroteAt(steps: seq<Step>, i: nat, t: nat, path: Path) {
    i < t <= |steps| && steps[i].TaskWrite? && steps[i].path == path && forall k :: i < k < t ==> !steps[k].TaskBegin?
  }

  // ----- the clock -----

  lemma CallsKeepClock(s: State, step: Step)
    requires IsEnabled(s, step, false)
    requires step.Draw? || step.Notify? || step.CloseNotify? || step.CloseBegin? || step.DrainBegin? || step.Take?
      || step.Leave? || step.FlushBegin? || step.FlushNotify? || step.FlushEnd?
    ensures SamePace(s, Apply(s, step))
  {
  }

  ghost predicate SamePace(s: State, s': State) {
    s'.clock == s.clock && s'.interval == s.interval && s'.last == s.last && s'.task == s.task
  }

  lemma EnterKeepsClock(s: State, step: Step)
    requires IsEnabled(s, step, false) && step.Enter?
    ensures SamePace(s, Apply(s, step))
  {
    hide EnterInline, EnterQueue;
    InlineKeepsClock(s, step.w, s.workers[step.w].job);
    QueueingKeepsClock(s, step.w, s.workers[step.w].job);
  }

  lemma InlineKeepsClock(s: State, w: Id, job: Job)
    ensures SamePace(s, EnterInline(s, w, job))
  {
  }

  lemma QueueingKeepsClock(s: State, w: Id, job: Job)
    ensures SamePace(s, EnterQueue(s, w, job))
  {
  }

  lemma SpawnKeepsClock(s: State, step: Step)
    requires IsEnabled(s, step, false) && step.Spawn?
    ensures var s' := Apply(s, step); s'.clock == s.clock && s'.interval == s.interval && s'.last == s.last
    ensures Apply(s, step).task == Starting
  {
  }

  lemma WritesKeepClock(s: State, step: Step)
    requires IsEnabled(s, step, false) && (step.Write? || step.TaskWrite?)
    ensures var s' := Apply(s, step); s'.clock == s.clock && s'.interval == s.interval
    ensures step.Write? ==> Apply(s, step).last == s.last && Apply(s, step).task == s.task
    ensures step.TaskWrite? ==> Apply(s, step).last == s.last[step.path := s.clock]
    ensures step.TaskWrite? ==> !Apply(s, step).task.TakingDue?
    ensures step.TaskWrite? ==> Hands(Apply(s, step).task) == Hands(s.task) - {step.path}
    ensures step.TaskWrite? ==> Apply(s, step).task.WritingDue? == s.task.WritingDue?
  {
    hide DiskAfter, FailuresAfter, SettledAfter;
  }

  lemma TaskStepsKeepClock(s: State, step: Step)
    requires IsEnabled(s, step, false)
    requires step.TaskLook? || step.TaskTakeAll? || step.TaskAnswer? || step.TaskDueDone? || step.TaskWake?
      || step.TaskTimer? || step.TaskTakeDue? || step.TaskExit? || step.TaskAbort?
    ensures var s' := Apply(s, step); s'.clock == s.clock && s'.interval == s.interval && s'.last == s.last
    ensures Apply(s, step).task.WritingDue? ==> step.TaskTakeDue?
    ensures Apply(s, step).task.TakingDue? ==> step.TaskTimer? && Apply(s, step).task.now == s.clock
  {
    hide NextDue, DueJobs;
  }

  lemma IntervalStays(s: State, step: Step)
    requires IsEnabled(s, step, false)
    ensures var s' := Apply(s, step); s'.interval == s.interval && s.clock <= s'.clock
  {
    hide Apply;
    match step {
      case Write(_, _, _) | TaskWrite(_, _) => WritesKeepClock(s, step);
      case TaskLook | TaskTakeAll | TaskAnswer | TaskDueDone | TaskWake | TaskTimer | TaskTakeDue | TaskExit(_)
        | TaskAbort(_) => TaskStepsKeepClock(s, step);
      case Tick | TaskBegin => TicksAndBegins(s, step);
      case Spawn(_) => SpawnKeepsClock(s, step);
      case Enter(_, _) => EnterKeepsClock(s, step);
      case _ => CallsKeepClock(s, step);
    }
  }

  lemma TicksAndBegins(s: State, step: Step)
    requires IsEnabled(s, step, false) && (step.Tick? || step.TaskBegin?)
    ensures var s' := Apply(s, step); s'.interval == s.interval && s.clock <= s'.clock
    ensures step.Tick? ==> Apply(s, step).last == s.last && Apply(s, step).task == s.task
    ensures step.TaskBegin? ==> Apply(s, step).last == map[]
  {
  }

  lemma {:induction false} ClockOnlyAdvances(run: seq<State>, steps: seq<Step>, interval: nat, i: nat, j: nat)
    requires IsLooseRun(run, steps, interval) && i <= j < |run|
    ensures run[i].clock <= run[j].clock && run[j].interval == interval
    decreases j
  {
    hide Apply, IsEnabled;
    if j == 0 {
    } else {
      assert IsLooseStep(run[j - 1], steps[j - 1], run[j]);
      IntervalStays(run[j - 1], steps[j - 1]);
      if i < j {
        ClockOnlyAdvances(run, steps, interval, i, j - 1);
      } else {
        ClockOnlyAdvances(run, steps, interval, j - 1, j - 1);
      }
    }
  }

  // ----- writes of due jobs keep their distance -----

  /** The path was written at that time and is not in hands as due before the interval has passed. */
  ghost predicate IsSpaced(
    last: map<Path, nat>, clock: nat, interval: nat, task: Task, path: Path, at: nat)
  {
    && at <= clock && path in last && at <= last[path]
    && (task.WritingDue? && path in task.jobs ==> at + interval <= clock)
    && (task.TakingDue? ==> task.now <= clock)
  }

  ghost predicate Spaced(s: State, path: Path, at: nat) {
    IsSpaced(s.last, s.clock, s.interval, s.task, path, at)
  }

  lemma TakeDueKeepsSpaced(s: State, step: Step, path: Path, at: nat)
    requires IsEnabled(s, step, false) && step.TaskTakeDue? && Spaced(s, path, at)
    ensures Spaced(Apply(s, step), path, at)
  {
  }

  lemma SpacedKept(s: State, step: Step, path: Path, at: nat)
    requires IsEnabled(s, step, false) && !step.TaskBegin? && Spaced(s, path, at)
    ensures Spaced(Apply(s, step), path, at)
  {
    hide Apply;
    match step {
      case TaskTakeDue => TakeDueKeepsSpaced(s, step, path, at);
      case Write(_, _, _) | TaskWrite(_, _) => WritesKeepClock(s, step);
      case TaskLook | TaskTakeAll | TaskAnswer | TaskDueDone | TaskWake | TaskTimer | TaskExit(_)
        | TaskAbort(_) => TaskStepsKeepClock(s, step);
      case Tick => TickKeepsSpaced(s, path, at);
      case Spawn(_) => SpawnKeepsClock(s, step);
      case Enter(_, _) => EnterKeepsClock(s, step);
      case _ => CallsKeepClock(s, step);
    }
  }

  lemma TickKeepsSpaced(s: State, path: Path, at: nat)
    requires Spaced(s, path, at)
    ensures Spaced(Apply(s, Tick), path, at)
  {
  }

  lemma WritingStartsSpaced(s: State, step: Step)
    requires IsEnabled(s, step, false) && step.TaskWrite?
    ensures Spaced(Apply(s, step), step.path, s.clock)
  {
    hide Apply;
    WritesKeepClock(s, step);
  }

  lemma {:induction false} StaysSpaced(
    run: seq<State>, steps: seq<Step>, interval: nat, i: nat, t: nat, path: Path)
    requires IsLooseRun(run, steps, interval) && WroteAt(steps, i, t, path)
    ensures Spaced(run[t], path, run[i].clock)
    decreases t
  {
    hide Apply, IsEnabled, Spaced;
    assert IsLooseStep(run[t - 1], steps[t - 1], run[t]);
    if t == i + 1 {
      WritingStartsSpaced(run[i], steps[i]);
    } else {
      StaysSpaced(run, steps, interval, i, t - 1, path);
      SpacedKept(run[t - 1], steps[t - 1], path, run[i].clock);
    }
  }

  /** Over every run: when the task writes a path as due, the interval has passed since it last wrote it. */
  lemma DueWritesKeepTheirDistance(run: seq<State>, steps: seq<Step>, interval: nat, i: nat, j: nat, path: Path)
    requires IsLooseRun(run, steps, interval) && i < j < |steps|
    requires steps[i].TaskWrite? && steps[i].path == path && steps[j].TaskWrite? && steps[j].path == path
    requires (forall k :: i < k < j ==> !steps[k].TaskBegin?) && run[j].task.WritingDue?
    ensures run[i].clock + interval <= run[j].clock
  {
    StaysSpaced(run, steps, interval, i, j, path);
    assert IsLooseStep(run[j], steps[j], run[j + 1]);
    ClockOnlyAdvances(run, steps, interval, j, j);
  }

  // ----- and nothing is kept waiting longer -----

  /** What the task remembers of its writes is what it did. */
  ghost predicate LastTells(run: seq<State>, steps: seq<Step>, t: nat, path: Path)
    requires t < |run| == |steps| + 1
  {
    && (forall i: nat :: WroteAt(steps, i, t, path) ==> path in run[t].last && run[i].clock <= run[t].last[path])
    && (path in run[t].last ==> exists i: nat :: WroteAt(steps, i, t, path) && run[i].clock == run[t].last[path])
  }

  lemma OlderWrites(steps: seq<Step>, t: nat, path: Path)
    requires t < |steps|
    ensures forall i: nat :: WroteAt(steps, i, t + 1, path) <==>
      (WroteAt(steps, i, t, path) && !steps[t].TaskBegin?)
      || (i == t && steps[t].TaskWrite? && steps[t].path == path)
  {
    forall i: nat | WroteAt(steps, i, t + 1, path) && i < t ensures WroteAt(steps, i, t, path) && !steps[t].TaskBegin? {
    }
  }

  /** The task's memory of this path after one step. */
  lemma LastAfter(s: State, step: Step, path: Path)
    requires IsEnabled(s, step, false)
    ensures var last := Apply(s, step).last;
      && (step.TaskBegin? ==> path !in last)
      && (step.TaskWrite? && step.path == path ==> path in last && last[path] == s.clock)
      && (!step.TaskBegin? && !(step.TaskWrite? && step.path == path) ==>
            (path in last <==> path in s.last) && (path in last ==> last[path] == s.last[path]))
  {
    hide Apply;
    match step {
      case Write(_, _, _) | TaskWrite(_, _) => WritesKeepClock(s, step);
      case TaskLook | TaskTakeAll | TaskAnswer | TaskDueDone | TaskWake | TaskTimer | TaskTakeDue | TaskExit(_)
        | TaskAbort(_) => TaskStepsKeepClock(s, step);
      case Tick | TaskBegin => TicksAndBegins(s, step);
      case Spawn(_) => SpawnKeepsClock(s, step);
      case Enter(_, _) => EnterKeepsClock(s, step);
      case _ => CallsKeepClock(s, step);
    }
  }

  lemma {:induction false} LastIsHistory(run: seq<State>, steps: seq<Step>, interval: nat, t: nat, path: Path)
    requires IsLooseRun(run, steps, interval) && t < |run|
    ensures LastTells(run, steps, t, path)
  {
    hide Apply, IsEnabled, WroteAt;
    if t == 0 {
      NothingWritten(steps, path);
    } else {
      LastIsHistory(run, steps, interval, t - 1, path);
      assert IsLooseStep(run[t - 1], steps[t - 1], run[t]);
      LastAfter(run[t - 1], steps[t - 1], path);
      OlderWrites(steps, t - 1, path);
      forall i: nat | WroteAt(steps, i, t - 1, path) ensures i < t - 1 && run[i].clock <= run[t - 1].clock {
        WrittenBefore(steps, i, t - 1, path);
        ClockOnlyAdvances(run, steps, interval, i, t - 1);
      }
    }
  }

  lemma NothingWritten(steps: seq<Step>, path: Path)
    ensures forall i: nat :: !WroteAt(steps, i, 0, path)
  {
  }

  lemma WrittenBefore(steps: seq<Step>, i: nat, t: nat, path: Path)
    requires WroteAt(steps, i, t, path)
    ensures i < t <= |steps|
  {
  }

  lemma TakenWhenDue(s: State, step: Step, path: Path)
    requires IsEnabled(s, step, false) && step.TaskTakeDue? && path in s.pending
    ensures var s' := Apply(s, step);
      && (path in Hands(s'.task) <==> path !in s.last || s.last[path] + s.interval <= s.task.now)
      && (path in Hands(s'.task) ==> Hands(s'.task)[path] == s.pending[path] && path !in s'.pending)
      && (path !in Hands(s'.task) ==> path in s'.pending && s'.pending[path] == s.pending[path])
  {
  }

  /** Over every run: when the task takes what is due it takes exactly the pending paths that it has not
      written less than the interval before the time it looked at; the others stay pending. */
  lemma TakesWhatWasNotWrittenLately(run: seq<State>, steps: seq<Step>, interval: nat, t: nat, path: Path)
    requires IsLooseRun(run, steps, interval) && t < |steps| && steps[t].TaskTakeDue? && path in run[t].pending
    ensures run[t].task.TakingDue?
    ensures path in Hands(run[t + 1].task) <==>
      forall i: nat :: WroteAt(steps, i, t, path) ==> run[i].clock + interval <= run[t].task.now
    ensures if path in Hands(run[t + 1].task) then Hands(run[t + 1].task)[path] == run[t].pending[path]
      else path in run[t + 1].pending && run[t + 1].pending[path] == run[t].pending[path]
  {
    assert IsLooseStep(run[t], steps[t], run[t + 1]);
    LastIsHistory(run, steps, interval, t, path);
    ClockOnlyAdvances(run, steps, interval, t, t);
    TakenWhenDue(run[t], steps[t], path);
    hide Apply, WroteAt, IsLooseRun;
  }

  /** The time it looked at is the clock when its timer went off, and the task did nothing else since. */
  lemma {:induction false} LooksAtTheClock(run: seq<State>, steps: seq<Step>, interval: nat, t: nat)
    returns (k: nat)
    requires IsLooseRun(run, steps, interval) && t < |run| && run[t].task.TakingDue?
    ensures k < t && steps[k].TaskTimer? && run[k].clock == run[t].task.now
    ensures forall m :: k < m <= t ==> run[m].task == run[t].task
  {
    hide Apply, IsEnabled;
    assert t > 0;
    assert IsLooseStep(run[t - 1], steps[t - 1], run[t]);
    TakingDueComes(run[t - 1], steps[t - 1]);
    if steps[t - 1].TaskTimer? {
      k := t - 1;
    } else {
      k := LooksAtTheClock(run, steps, interval, t - 1);
    }
  }

  lemma TakingDueComes(s: State, step: Step)
    requires IsEnabled(s, step, false) && Apply(s, step).task.TakingDue?
    ensures if step.TaskTimer? then Apply(s, step).task.now == s.clock else Apply(s, step).task == s.task
  {
    hide Apply;
    match step {
      case Write(_, _, _) | TaskWrite(_, _) => WritesKeepClock(s, step);
      case TaskLook | TaskTakeAll | TaskAnswer | TaskDueDone | TaskWake | TaskTimer | TaskTakeDue | TaskExit(_)
        | TaskAbort(_) => TaskStepsKeepClock(s, step);
      case Tick => TicksAndBegins(s, step);
      case TaskBegin => BeginsAtTop(s, step);
      case Spawn(_) => SpawnKeepsClock(s, step);
      case Enter(_, _) => EnterKeepsClock(s, step);
      case _ => CallsKeepClock(s, step);
    }
  }

  lemma BeginsAtTop(s: State, step: Step)
    requires IsEnabled(s, step, false) && step.TaskBegin?
    ensures Apply(s, step).task == Top
  {
  }

  /** Where the writer comes to rest, a path that still pends was written less than the interval ago. */
  lemma PendingAtRestWasWrittenLately(run: seq<State>, steps: seq<Step>, interval: nat, t: nat, path: Path)
    requires IsRun(run, steps, interval) && t < |run| && !CanGoOn(run[t]) && path in run[t].pending
    ensures exists i: nat :: WroteAt(steps, i, t, path) && run[t].clock < run[i].clock + interval
  {
    RestIsDone(run, steps, interval, t);
    RunsAreLoose(run, steps, interval);
    LastIsHistory(run, steps, interval, t, path);
    ClockOnlyAdvances(run, steps, interval, t, t);
    hide CanGoOn, WroteAt, IsRun, IsLooseRun;
    assert run[t].task.timer.value <= DueAt(run[t], path);
  }

  lemma RunsAreLoose(run: seq<State>, steps: seq<Step>, interval: nat)
    requires IsRun(run, steps, interval)
    ensures IsLooseRun(run, steps, interval)
  {
    forall i | 0 <= i < |steps| ensures IsLooseStep(run[i], steps[i], run[i + 1]) {
      assert IsStep(run[i], steps[i], run[i + 1]);
      StepIsLoose(run[i], steps[i], run[i + 1]);
    }
  }

  lemma StepIsLoose(s: State, step: Step, s': State)
    requires IsStep(s, step, s')
    ensures IsLooseStep(s, step, s')
  {
  }
}
