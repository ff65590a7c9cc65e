/** Drawing a version for a path while another one is drawn and not yet submitted: exactly then the writer
    can lose a write (porthmos-core/src/persist/writer/mod.rs:135-136). */
module WriterOverlap {
  import opened Writer
  import opened WriterSteps
  import opened WriterVersions
  import opened WriterSafety

  // ----- what the failures are -----

  ghost predicate FailuresKnown(submitted: Jobs, failures: set<Job>) {
    forall job :: job in failures ==> job.path in submitted && job.version <= submitted[job.path].version
  }

  /** Nobody failed to write anything newer than what was submitted. */
  ghost predicate FailuresOk(s: State) {
    FailuresKnown(s.submitted, s.failures)
  }

  lemma EnterKeepsFailures(s: State, step: Step)
    requires VersionsOk(s) && FailuresOk(s) && IsEnabled(s, step, true) && step.Enter?
    ensures FailuresOk(Apply(s, step))
  {
    var job := s.workers[step.w].job;
    assert DrawnIsNewer(s.submitted, job, s.nextVersion);
    FailuresLater(s.submitted, s.failures, job);
    EnteringExecutesNothing(s, step);
    EnteringSubmits(s, step);
    hide VersionsOk, Apply, FailuresKnown;
  }

  lemma FailuresLater(submitted: Jobs, failures: set<Job>, job: Job)
    requires FailuresKnown(submitted, failures)
    requires job.path in submitted ==> submitted[job.path].version < job.version
    ensures FailuresKnown(submitted[job.path := job], failures)
  {
  }

  lemma EnteringSubmits(s: State, step: Step)
    requires IsEnabled(s, step, true) && step.Enter?
    ensures var job := s.workers[step.w].job; Apply(s, step).submitted == s.submitted[job.path := job]
  {
    hide EnterInline, EnterQueue;
    var job := s.workers[step.w].job;
    BothSubmit(s, step.w, job);
  }

  lemma BothSubmit(s: State, w: Id, job: Job)
    ensures EnterInline(s, w, job).submitted == s.submitted[job.path := job]
    ensures EnterQueue(s, w, job).submitted == s.submitted[job.path := job]
  {
  }

  lemma WritesKeepFailures(s: State, step: Step)
    requires VersionsOk(s) && FailuresOk(s) && IsEnabled(s, step, true) && (step.Write? || step.TaskWrite?)
    ensures FailuresOk(Apply(s, step))
  {
    if step.Write? {
      HoldingIsKnown(s, step.w);
      FailureIsKnown(s.submitted, s.failures, s.workers[step.w].jobs, step.path, step.succeeds);
    } else {
      PartsKnown(s);
      FailureIsKnown(s.submitted, s.failures, Hands(s.task), step.path, step.succeeds);
    }
    hide VersionsOk, FailuresKnown, DiskAfter, SettledAfter, FailuresAfter;
  }

  lemma FailureIsKnown(submitted: Jobs, failures: set<Job>, jobs: Jobs, path: Path, succeeds: bool)
    requires FailuresKnown(submitted, failures) && Known(submitted, jobs) && path in jobs
    ensures FailuresKnown(submitted, FailuresAfter(failures, jobs[path], succeeds))
  {
  }

  lemma FailuresKept(s: State, step: Step)
    requires VersionsOk(s) && FailuresOk(s) && IsEnabled(s, step, true)
    ensures FailuresOk(Apply(s, step))
  {
    hide VersionsOk, Apply, FailuresKnown;
    match step {
      case Enter(_, _) => EnterKeepsFailures(s, step);
      case Write(_, _, _) | TaskWrite(_, _) => WritesKeepFailures(s, step);
      case TaskLook => LookingExecutesNothing(s, step);
      case Tick | TaskBegin | TaskTakeAll | TaskAnswer | TaskDueDone | TaskWake | TaskTimer | TaskTakeDue =>
        TaskStepsExecuteNothing(s, step);
      case TaskExit(_) | TaskAbort(_) => DroppingExecutesNothing(s, step);
      case Take(_) | Leave(_) | FlushBegin(_) | FlushNotify(_) | FlushEnd(_) => EndsExecuteNothing(s, step);
      case _ => CallsExecuteNothing(s, step);
    }
  }

  lemma {:induction false} RunsKeepFailures(run: seq<State>, steps: seq<Step>, interval: nat, i: nat)
    requires IsRun(run, steps, interval) && i < |run|
    ensures FailuresOk(run[i])
  {
    hide Apply, IsEnabled, IsSafe, FailuresOk;
    if i == 0 {
      NoFailuresAtFirst(interval);
    } else {
      RunsKeepFailures(run, steps, interval, i - 1);
      RunsAreSafe(run, steps, interval, i - 1);
      assert IsStep(run[i - 1], steps[i - 1], run[i]);
      SafeKeepsFailures(run[i - 1], steps[i - 1]);
    }
  }

  lemma NoFailuresAtFirst(interval: nat)
    ensures FailuresOk(Start(interval))
  {
  }

  lemma SafeKeepsFailures(s: State, step: Step)
    requires IsSafe(s) && FailuresOk(s) && IsEnabled(s, step, true)
    ensures FailuresOk(Apply(s, step))
  {
    FailuresKept(s, step);
  }

  // ----- runs that go on from a state -----

  /** However the callers go on, as long as they draw serially, no newest write is lost. */
  ghost predicate LosesNothing(s: State) {
    forall run, steps :: Continues(s, run, steps) ==> AccountsOk(run[|steps|])
  }

  lemma {:induction false} ContinuationsAreSafe(s: State, run: seq<State>, steps: seq<Step>, i: nat)
    requires IsSafe(s) && Continues(s, run, steps) && i < |run|
    ensures IsSafe(run[i])
  {
    hide IsSafe, Apply, IsEnabled;
    if i == 0 {
    } else {
      ContinuationsAreSafe(s, run, steps, i - 1);
      assert IsStep(run[i - 1], steps[i - 1], run[i]);
      StepIsSafe(run[i - 1], steps[i - 1]);
    }
  }

  // ----- a drawn job can always be submitted and executed at once -----

  /** The drawn job of w was submitted and executed; what else is alive is as it was, except that nothing
      for its path pends. */
  ghost predicate Published(s: State, s': State, w: Id, job: Job) {
    && s'.submitted == s.submitted[job.path := job] && s'.disk == DiskAfter(s.disk, job, true)
    && s'.failures == s.failures && s'.task == s.task && job.path !in s'.pending
    && (forall v :: v in s.workers && v != w ==> v in s'.workers && s'.workers[v] == s.workers[v])
    && forall v :: v in s'.workers && HoldsPath(s'.workers[v], job.path) ==> v in s.workers && s'.workers[v] == s.workers[v]
  }

  ghost predicate HoldsPath(worker: Worker, path: Path) {
    worker.Holding? && path in worker.jobs
  }

  lemma PublishesInline(s: State, run: seq<State>, steps: seq<Step>, w: Id, job: Job)
    returns (run': seq<State>, steps': seq<Step>)
    requires Continues(s, run, steps)
    requires var last := run[|steps|]; w in last.workers && last.workers[w] == Drawn(job) && (last.closed || !last.running)
    ensures Continues(s, run', steps') && Published(run[|steps|], run'[|steps'|], w, job)
  {
    var last := run[|steps|];
    Enters(last, w, job, false);
    var s1 := EnterInline(last, w, job);
    OneMore(s, run, steps, Enter(w, false), s1);
    var jobs := map[job.path := job];
    Writes(s1, w, jobs, job.path);
    var s2 := s1.(disk := DiskAfter(s1.disk, job, true), settled := SettledAfter(s1.settled, job),
      workers := s1.workers[w := Holding(jobs - {job.path})]);
    OneMore(s, run + [s1], steps + [Enter(w, false)], Write(w, job.path, true), s2);
    run', steps' := run + [s1] + [s2], steps + [Enter(w, false)] + [Write(w, job.path, true)];
    hide DiskAfter, SettledAfter, Continues;
    assert Published(last, s2, w, job);
  }

  lemma PublishesQueued(s: State, run: seq<State>, steps: seq<Step>, w: Id, job: Job)
    returns (run': seq<State>, steps': seq<Step>)
    requires Continues(s, run, steps)
    requires var last := run[|steps|]; w in last.workers && last.workers[w] == Drawn(job) && !last.closed && last.running
    ensures Continues(s, run', steps') && Published(run[|steps|], run'[|steps'|], w, job)
  {
    var last := run[|steps|];
    Enters(last, w, job, false);
    var s1 := EnterQueue(last, w, job);
    OneMore(s, run, steps, Enter(w, false), s1);
    var y := IdsAreBounded(s1.workers.Keys + s1.flushers.Keys);
    Drains(s1, y);
    var s2 := s1.(workers := s1.workers[y := Entering(false)]);
    OneMore(s, run + [s1], steps + [Enter(w, false)], DrainBegin(y), s2);
    Takes(s2, y);
    var s3 := s2.(pending := map[], workers := s2.workers[y := Holding(s2.pending)]);
    OneMore(s, run + [s1] + [s2], steps + [Enter(w, false)] + [DrainBegin(y)], Take(y), s3);
    Writes(s3, y, s2.pending, job.path);
    var s4 := s3.(disk := DiskAfter(s3.disk, job, true), settled := SettledAfter(s3.settled, job),
      workers := s3.workers[y := Holding(s2.pending - {job.path})]);
    OneMore(s, run + [s1] + [s2] + [s3], steps + [Enter(w, false)] + [DrainBegin(y)] + [Take(y)],
      Write(y, job.path, true), s4);
    run' := run + [s1] + [s2] + [s3] + [s4];
    steps' := steps + [Enter(w, false)] + [DrainBegin(y)] + [Take(y)] + [Write(y, job.path, true)];
    hide DiskAfter, SettledAfter, Continues;
    assert Published(last, s4, w, job);
  }

  lemma Publishes(s: State, run: seq<State>, steps: seq<Step>, w: Id, job: Job)
    returns (run': seq<State>, steps': seq<Step>)
    requires Continues(s, run, steps)
    requires w in run[|steps|].workers && run[|steps|].workers[w] == Drawn(job)
    ensures Continues(s, run', steps') && Published(run[|steps|], run'[|steps'|], w, job)
  {
    hide Published;
    if run[|steps|].closed || !run[|steps|].running {
      run', steps' := PublishesInline(s, run, steps, w, job);
    } else {
      run', steps' := PublishesQueued(s, run, steps, w, job);
    }
  }

  // ----- so of two drawn jobs the older can be lost -----

  lemma OlderIsDropped(disk: Jobs, older: Job, newer: Job)
    requires older.path == newer.path && 1 <= older.version < newer.version
    ensures !Has(DiskAfter(DiskAfter(disk, newer, true), older, true), older)
      || Has(disk, older)
  {
  }

  /** A job newer than all that was submitted is nowhere yet. */
  lemma DrawnIsNowhere(s: State, w: Id)
    requires VersionsOk(s) && FailuresOk(s) && w in s.workers && s.workers[w].Drawn?
    ensures var job := s.workers[w].job;
      && 1 <= job.version < s.nextVersion && !IsDone(job, s.disk, s.failures) && !Has(Hands(s.task), job)
      && !IsHeld(s.workers, job)
  {
    var job := s.workers[w].job;
    assert DrawnIsNewer(s.submitted, job, s.nextVersion);
    hide DrawnAreNewer, SubmittedOk;
  }

  lemma LostAfterAll(s: State, s1: State, s2: State, s3: State, w: Id, x: Id, older: Job, newer: Job)
    requires older.path == newer.path && 1 <= older.version < newer.version
    requires !IsDone(older, s.disk, s.failures) && !Has(Hands(s.task), older) && !IsHeld(s.workers, older)
    requires s1 == s.(nextVersion := s1.nextVersion, workers := s.workers[x := Drawn(newer)]) && x !in s.workers && x != w
    requires Published(s1, s2, x, newer) && Published(s2, s3, w, older)
    ensures older.path in s3.submitted && s3.submitted[older.path] == older
    ensures !IsAlive(older, s3.pending, Hands(s3.task), s3.workers) && !IsDone(older, s3.disk, s3.failures)
  {
    OlderIsDropped(s.disk, older, newer);
    PublishingHandsOutNothing(s1, s2, x, newer, older);
    PublishingHandsOutNothing(s2, s3, w, older, older);
    assert IsHeld(s1.workers, older) ==> IsHeld(s.workers, older);
    hide DiskAfter, IsHeld;
  }

  lemma PublishingHandsOutNothing(s: State, s': State, w: Id, job: Job, other: Job)
    requires Published(s, s', w, job) && other.path == job.path
    ensures IsHeld(s'.workers, other) ==> IsHeld(s.workers, other)
  {
    if IsHeld(s'.workers, other) {
      var v :| v in s'.workers && s'.workers[v].Holding? && Has(s'.workers[v].jobs, other);
      assert HoldsPath(s'.workers[v], job.path);
    }
  }

  /** After a second version is drawn for a path, there is a way to go on that loses a write: submitted
      last for its path, it is neither queued nor in hands nor on disk, and no failure tells of it. */
  lemma OverlappingDrawLoses(s: State, w: Id, x: Id, path: Path, tag: nat, contents: string)
    returns (run: seq<State>, steps: seq<Step>)
    requires VersionsOk(s) && FailuresOk(s) && w in s.workers && s.workers[w].Drawn? && s.workers[w].job.path == path
    requires x !in s.workers && x !in s.flushers
    ensures Continues(Apply(s, Draw(x, path, tag, contents)), run, steps)
    ensures var last, job := run[|steps|], s.workers[w].job;
      && path in last.submitted && last.submitted[path] == job
      && !IsAlive(job, last.pending, Hands(last.task), last.workers) && !IsDone(job, last.disk, last.failures)
  {
    DrawnIsNowhere(s, w);
    hide VersionsOk, FailuresOk;
    Draws(s, x, path, tag, contents);
    var s1 := Apply(s, Draw(x, path, tag, contents));
    hide Apply, IsEnabled;
    var older, newer := s.workers[w].job, Job(path, s.nextVersion, tag, contents);
    assert Continues(s1, [s1], []);
    var run1, steps1 := Publishes(s1, [s1], [], x, newer);
    var s2 := run1[|steps1|];
    assert s2.workers[w] == s.workers[w];
    run, steps := Publishes(s1, run1, steps1, w, older);
    LostAfterAll(s, s1, s2, run[|steps|], w, x, older, newer);
  }

  /** Drawing a version loses nothing, however serially the callers go on, if and only if no other version
      of that path is drawn and not yet submitted. */
  lemma DrawLosesNothingIffSerial(
    run: seq<State>, steps: seq<Step>, interval: nat, i: nat, x: Id, path: Path, tag: nat, contents: string)
    requires IsRun(run, steps, interval) && i < |run| && IsEnabled(run[i], Draw(x, path, tag, contents), false)
    ensures MayDraw(run[i], path) <==> LosesNothing(Apply(run[i], Draw(x, path, tag, contents)))
  {
    var s, draw := run[i], Draw(x, path, tag, contents);
    RunsAreSafe(run, steps, interval, i);
    RunsKeepFailures(run, steps, interval, i);
    Draws(s, x, path, tag, contents);
    hide Apply, IsEnabled, FailuresOk, IsRun;
    if MayDraw(s, path) {
      StepIsSafe(s, draw);
      SafeLosesNothing(Apply(s, draw));
    } else {
      var w :| w in s.workers && s.workers[w].Drawn? && s.workers[w].job.path == path;
      SafeHasVersions(s);
      var run', steps' := OverlappingDrawLoses(s, w, x, path, tag, contents);
      LostIsNotAccounted(run'[|steps'|], path);
    }
  }

  lemma SafeHasVersions(s: State)
    requires IsSafe(s)
    ensures VersionsOk(s)
  {
  }

  lemma LostIsNotAccounted(s: State, path: Path)
    requires path in s.submitted
    requires !IsAlive(s.submitted[path], s.pending, Hands(s.task), s.workers)
    requires !IsDone(s.submitted[path], s.disk, s.failures)
    ensures !AccountsOk(s)
  {
    hide IsAlive, IsDone;
  }

  lemma SafeLosesNothing(s: State)
    requires IsSafe(s)
    ensures LosesNothing(s)
  {
    forall run, steps | Continues(s, run, steps) ensures AccountsOk(run[|steps|]) {
      ContinuationsAreSafe(s, run, steps, |steps|);
    }
  }

  // ----- a run without the rule -----

  lemma SerialIsLoose(s: State, step: Step, s': State)
    requires IsStep(s, step, s')
    ensures IsLooseStep(s, step, s')
  {
  }

  /** Both callers have submitted, without a task, and hold their jobs. */
  lemma BothEnter(path: Path, interval: nat) returns (run: seq<State>)
    ensures |run| == 5 && run[0] == Start(interval)
    ensures IsLooseStep(run[0], Draw(0, path, 0, "first"), run[1]) && IsLooseStep(run[1], Draw(1, path, 0, "second"), run[2])
    ensures IsLooseStep(run[2], Enter(1, false), run[3]) && IsLooseStep(run[3], Enter(0, false), run[4])
    ensures var first, second := Job(path, 1, 0, "first"), Job(path, 2, 0, "second");
      run[4] == Start(interval).(nextVersion := 3, submitted := map[path := first],
        workers := map[0 := Holding(map[path := first]), 1 := Holding(map[path := second])])
  {
    hide Apply, IsEnabled, IsLooseStep;
    var first, second := Job(path, 1, 0, "first"), Job(path, 2, 0, "second");
    var s0 := Start(interval);
    var s1 := s0.(nextVersion := 2, workers := map[0 := Drawn(first)]);
    var s2 := s0.(nextVersion := 3, workers := map[0 := Drawn(first), 1 := Drawn(second)]);
    BothDraw(path, interval);
    Enters(s2, 1, second, false);
    var s3 := EnterInline(s2, 1, second);
    SerialIsLoose(s2, Enter(1, false), s3);
    Enters(s3, 0, first, false);
    var s4 := EnterInline(s3, 0, first);
    SerialIsLoose(s3, Enter(0, false), s4);
    run := [s0, s1, s2, s3, s4];
    assert s4.pending == map[];
  }

  lemma BothDraw(path: Path, interval: nat)
    ensures var first, second := Job(path, 1, 0, "first"), Job(path, 2, 0, "second");
      var s0 := Start(interval);
      var s1 := s0.(nextVersion := 2, workers := map[0 := Drawn(first)]);
      var s2 := s0.(nextVersion := 3, workers := map[0 := Drawn(first), 1 := Drawn(second)]);
      && IsLooseStep(s0, Draw(0, path, 0, "first"), s1) && IsLooseStep(s1, Draw(1, path, 0, "second"), s2)
  {
    hide Apply, IsEnabled;
    var first, second := Job(path, 1, 0, "first"), Job(path, 2, 0, "second");
    var s0 := Start(interval);
    Draws(s0, 0, path, 0, "first");
    var s1 := s0.(nextVersion := 2, workers := map[0 := Drawn(first)]);
    Draws(s1, 1, path, 0, "second");
    assert s1.workers[1 := Drawn(second)] == map[0 := Drawn(first), 1 := Drawn(second)];
  }

  lemma HolderWrites(s: State, w: Id, job: Job)
    requires w in s.workers && s.workers[w] == Holding(map[job.path := job])
    ensures IsLooseStep(s, Write(w, job.path, true), s.(disk := DiskAfter(s.disk, job, true),
      settled := SettledAfter(s.settled, job), workers := s.workers[w := Holding(map[])]))
  {
    hide Apply, IsEnabled, DiskAfter, SettledAfter;
    var jobs := map[job.path := job];
    assert jobs - {job.path} == map[];
    Writes(s, w, jobs, job.path);
    SerialIsLoose(s, Write(w, job.path, true), s.(disk := DiskAfter(s.disk, job, true),
      settled := SettledAfter(s.settled, job), workers := s.workers[w := Holding(map[])]));
  }

  /** Two callers draw versions for one path before either takes the lock: the later submission is dropped
      although its write succeeded. */
  lemma OverlappingWritesLoseTheLast(path: Path, interval: nat) returns (run: seq<State>, steps: seq<Step>)
    ensures IsLooseRun(run, steps, interval)
    ensures var last := run[|steps|];
      IsQuiet(last) && last.failures == {} && path in last.submitted && !Has(last.disk, last.submitted[path])
  {
    hide DiskAfter, SettledAfter, IsLooseStep;
    var first, second := Job(path, 1, 0, "first"), Job(path, 2, 0, "second");
    OlderIsDropped(map[], first, second);
    var before := BothEnter(path, interval);
    var s4 := before[4];
    HolderWrites(s4, 1, second);
    var s5 := s4.(disk := DiskAfter(s4.disk, second, true), settled := SettledAfter(s4.settled, second),
      workers := s4.workers[1 := Holding(map[])]);
    HolderWrites(s5, 0, first);
    var s6 := s5.(disk := DiskAfter(s5.disk, first, true), settled := SettledAfter(s5.settled, first),
      workers := s5.workers[0 := Holding(map[])]);
    run := before + [s5, s6];
    steps := [Draw(0, path, 0, "first"), Draw(1, path, 0, "second"), Enter(1, false), Enter(0, false),
      Write(1, path, true), Write(0, path, true)];
  }
}
