/** In every state of every run of the persist writer nobody holds a newer job for a path than the
    newest one submitted for it, and no submitted job is lost: it is queued, in hands, on disk or its
    failure is known. */
module WriterVersions {
  import opened Writer
  import opened Ordered
  import Locks

  // ----- versions: nobody has a newer job for a path than the newest one submitted -----

  ghost predicate Known(submitted: Jobs, jobs: Jobs) {
    forall path :: path in jobs ==>
      && jobs[path].path == path && path in submitted
      && jobs[path].version <= submitted[path].version
      && (jobs[path].version == submitted[path].version ==> jobs[path] == submitted[path])
  }

  ghost predicate HoldingsKnown(submitted: Jobs, workers: Workers) {
    forall w :: w in workers && workers[w].Holding? ==> Known(submitted, workers[w].jobs)
  }

  /** A drawn version is newer than everything submitted for its path, and the only one drawn for it. */
  ghost predicate DrawnAreNewer(submitted: Jobs, workers: Workers, nextVersion: nat) {
    && (forall w :: w in workers && workers[w].Drawn? ==> DrawnIsNewer(submitted, workers[w].job, nextVersion))
    && forall w, x :: SamePathDrawn(workers, w, x) ==> w == x
  }

  ghost predicate DrawnIsNewer(submitted: Jobs, job: Job, nextVersion: nat) {
    1 <= job.version < nextVersion && (job.path in submitted ==> submitted[job.path].version < job.version)
  }

  ghost predicate SamePathDrawn(workers: Workers, w: Id, x: Id) {
    w in workers && x in workers && workers[w].Drawn? && workers[x].Drawn? && workers[w].job.path == workers[x].job.path
  }

  ghost predicate SubmittedOk(submitted: Jobs, nextVersion: nat) {
    nextVersion >= 1 &&
    forall path :: path in submitted ==> submitted[path].path == path && 1 <= submitted[path].version < nextVersion
  }

  ghost predicate VersionsOk(s: State) {
    && SubmittedOk(s.submitted, s.nextVersion) && DrawnAreNewer(s.submitted, s.workers, s.nextVersion)
    && Known(s.submitted, s.pending) && Known(s.submitted, Hands(s.task)) && Known(s.submitted, s.disk)
    && HoldingsKnown(s.submitted, s.workers)
  }

  lemma KnownLess(submitted: Jobs, jobs: Jobs, gone: set<Path>)
    requires Known(submitted, jobs)
    ensures Known(submitted, jobs - gone)
  {
  }

  lemma KnownLater(submitted: Jobs, jobs: Jobs, job: Job)
    requires Known(submitted, jobs)
    requires job.path in submitted ==> submitted[job.path].version < job.version
    ensures Known(submitted[job.path := job], jobs)
    ensures Known(submitted[job.path := job], jobs[job.path := job])
    ensures Known(submitted[job.path := job], map[job.path := job])
  {
  }

  lemma HoldingsLater(submitted: Jobs, workers: Workers, job: Job)
    requires HoldingsKnown(submitted, workers)
    requires job.path in submitted ==> submitted[job.path].version < job.version
    ensures HoldingsKnown(submitted[job.path := job], workers)
  {
    forall w | w in workers && workers[w].Holding? ensures Known(submitted[job.path := job], workers[w].jobs) {
      KnownLater(submitted, workers[w].jobs, job);
    }
  }

  lemma HoldingsWith(submitted: Jobs, workers: Workers, w: Id, worker: Worker)
    requires HoldingsKnown(submitted, workers)
    requires worker.Holding? ==> Known(submitted, worker.jobs)
    ensures HoldingsKnown(submitted, workers[w := worker])
    ensures HoldingsKnown(submitted, workers - {w})
  {
  }

  lemma DrawnWith(submitted: Jobs, workers: Workers, nextVersion: nat, w: Id, worker: Worker)
    requires DrawnAreNewer(submitted, workers, nextVersion) && !worker.Drawn?
    ensures DrawnAreNewer(submitted, workers[w := worker], nextVersion)
    ensures DrawnAreNewer(submitted, workers - {w}, nextVersion)
  {
    var more, less := workers[w := worker], workers - {w};
    forall x, y | SamePathDrawn(more, x, y) ensures x == y {
      assert SamePathDrawn(workers, x, y);
    }
    forall x, y | SamePathDrawn(less, x, y) ensures x == y {
      assert SamePathDrawn(workers, x, y);
    }
  }

  lemma DrawnOneMore(submitted: Jobs, workers: Workers, nextVersion: nat, w: Id, job: Job)
    requires DrawnAreNewer(submitted, workers, nextVersion) && SubmittedOk(submitted, nextVersion)
    requires w !in workers && job.version == nextVersion
    requires forall x :: x in workers && workers[x].Drawn? ==> workers[x].job.path != job.path
    ensures DrawnAreNewer(submitted, workers[w := Drawn(job)], nextVersion + 1)
  {
    var more := workers[w := Drawn(job)];
    forall x | x in more && more[x].Drawn? ensures DrawnIsNewer(submitted, more[x].job, nextVersion + 1) {
      assert x != w ==> DrawnIsNewer(submitted, workers[x].job, nextVersion);
    }
    forall x, y | SamePathDrawn(more, x, y) ensures x == y {
      assert x != w && y != w ==> SamePathDrawn(workers, x, y);
    }
  }

  /** Once a drawn job is submitted, the others drawn are for other paths. */
  lemma DrawnOneLess(submitted: Jobs, workers: Workers, nextVersion: nat, w: Id, worker: Worker)
    requires DrawnAreNewer(submitted, workers, nextVersion) && w in workers && workers[w].Drawn? && !worker.Drawn?
    ensures var job := workers[w].job;
      DrawnAreNewer(submitted[job.path := job], workers[w := worker], nextVersion)
  {
    var job, less := workers[w].job, workers[w := worker];
    forall x | x in less && less[x].Drawn? ensures DrawnIsNewer(submitted[job.path := job], less[x].job, nextVersion) {
      assert DrawnIsNewer(submitted, workers[x].job, nextVersion);
      assert workers[x].job.path == job.path ==> SamePathDrawn(workers, x, w);
    }
    forall x, y | SamePathDrawn(less, x, y) ensures x == y {
      assert SamePathDrawn(workers, x, y);
    }
  }

  lemma KnownWith(submitted: Jobs, jobs: Jobs, job: Job)
    requires Known(submitted, jobs) && Known(submitted, map[job.path := job])
    ensures Known(submitted, jobs[job.path := job])
  {
    assert job.path in map[job.path := job];
  }

  lemma KnownAlone(submitted: Jobs, jobs: Jobs, path: Path)
    requires Known(submitted, jobs) && path in jobs
    ensures jobs[path].path == path && Known(submitted, map[path := jobs[path]])
  {
  }

  lemma ExecuteKeepsKnown(submitted: Jobs, disk: Jobs, job: Job, succeeds: bool)
    requires Known(submitted, disk) && Known(submitted, map[job.path := job])
    ensures Known(submitted, DiskAfter(disk, job, succeeds))
  {
    hide Known;
    KnownWith(submitted, disk, job);
  }

  lemma SubmittedWith(submitted: Jobs, nextVersion: nat, job: Job)
    requires SubmittedOk(submitted, nextVersion) && 1 <= job.version < nextVersion
    ensures SubmittedOk(submitted[job.path := job], nextVersion)
    ensures SubmittedOk(submitted, nextVersion + 1)
  {
  }

  /** What submitting a drawn job does to the parts that speak of versions. */
  lemma SubmittingKeepsKnown(s: State, w: Id, worker: Worker)
    requires VersionsOk(s) && w in s.workers && s.workers[w].Drawn? && !worker.Drawn?
    requires var job := s.workers[w].job; worker.Holding? ==> worker.jobs == map[job.path := job]
    ensures var job := s.workers[w].job;
      var submitted, workers := s.submitted[job.path := job], s.workers[w := worker];
      && SubmittedOk(submitted, s.nextVersion) && DrawnAreNewer(submitted, workers, s.nextVersion)
      && Known(submitted, s.pending - {job.path}) && Known(submitted, s.pending[job.path := job])
      && Known(submitted, Hands(s.task)) && Known(submitted, s.disk) && HoldingsKnown(submitted, workers)
  {
    var job := s.workers[w].job;
    var submitted := s.submitted[job.path := job];
    assert DrawnIsNewer(s.submitted, job, s.nextVersion);
    hide Known, HoldingsKnown, DrawnAreNewer, SubmittedOk, Hands;
    SubmittedWith(s.submitted, s.nextVersion, job);
    DrawnOneLess(s.submitted, s.workers, s.nextVersion, w, worker);
    HoldingsLater(s.submitted, s.workers, job);
    KnownLater(s.submitted, s.pending, job);
    KnownLater(s.submitted, Hands(s.task), job);
    KnownLater(s.submitted, s.disk, job);
    KnownLess(submitted, s.pending, {job.path});
    HoldingsWith(submitted, s.workers, w, worker);
  }

  lemma EnterKeepsVersions(s: State, step: Step)
    requires VersionsOk(s) && step.Enter? && IsEnabled(s, step, true)
    ensures VersionsOk(Apply(s, step))
  {
    hide Known, HoldingsKnown, DrawnAreNewer, SubmittedOk, Hands;
    var w := step.w;
    var job := s.workers[w].job;
    if s.closed || !(s.running || step.hasRuntime) {
      SubmittingKeepsKnown(s, w, Holding(map[job.path := job]));
    } else {
      SubmittingKeepsKnown(s, w, if s.running then MustNotify else MustStart);
    }
  }

  lemma DrawKeepsVersions(s: State, step: Step)
    requires VersionsOk(s) && step.Draw? && IsEnabled(s, step, true)
    ensures VersionsOk(Apply(s, step))
  {
    var s' := Apply(s, step);
    DrawnOneMore(s.submitted, s.workers, s.nextVersion, step.w, s'.workers[step.w].job);
    hide Known, HoldingsKnown, DrawnAreNewer;
    HoldingsWith(s.submitted, s.workers, step.w, s'.workers[step.w]);
  }

  lemma WriteKeepsVersions(s: State, step: Step)
    requires VersionsOk(s) && step.Write? && IsEnabled(s, step, true)
    ensures VersionsOk(Apply(s, step))
  {
    var jobs := s.workers[step.w].jobs;
    var rest := Holding(jobs - {step.path});
    assert Known(s.submitted, jobs);
    hide Known, HoldingsKnown, DrawnAreNewer, SubmittedOk, DiskAfter, FailuresAfter, SettledAfter;
    KnownLess(s.submitted, jobs, {step.path});
    KnownAlone(s.submitted, jobs, step.path);
    ExecuteKeepsKnown(s.submitted, s.disk, jobs[step.path], step.succeeds);
    HoldingsWith(s.submitted, s.workers, step.w, rest);
    DrawnWith(s.submitted, s.workers, s.nextVersion, step.w, rest);
  }

  lemma TaskWriteKeepsVersions(s: State, step: Step)
    requires VersionsOk(s) && step.TaskWrite? && IsEnabled(s, step, true)
    ensures VersionsOk(Apply(s, step))
  {
    hide Known, HoldingsKnown, DrawnAreNewer, SubmittedOk, DiskAfter, FailuresAfter, SettledAfter;
    var jobs := Hands(s.task);
    KnownLess(s.submitted, jobs, {step.path});
    KnownAlone(s.submitted, jobs, step.path);
    ExecuteKeepsKnown(s.submitted, s.disk, jobs[step.path], step.succeeds);
  }

  lemma WorkerStepKeepsVersions(s: State, s': State, w: Id)
    requires VersionsOk(s)
    requires s'.submitted == s.submitted && s'.nextVersion == s.nextVersion && s'.disk == s.disk
    requires s'.workers == s.workers - {w} || (w in s'.workers && !s'.workers[w].Drawn? && !s'.workers[w].Holding?
                                               && s'.workers == s.workers[w := s'.workers[w]])
    requires Known(s.submitted, s'.pending) && Known(s.submitted, Hands(s'.task))
    ensures VersionsOk(s')
  {
    hide Known, HoldingsKnown, DrawnAreNewer, SubmittedOk;
    HoldingsWith(s.submitted, s.workers, w, MustNotify);
    DrawnWith(s.submitted, s.workers, s.nextVersion, w, MustNotify);
    if w in s'.workers {
      HoldingsWith(s.submitted, s.workers, w, s'.workers[w]);
      DrawnWith(s.submitted, s.workers, s.nextVersion, w, s'.workers[w]);
    }
  }

  lemma NothingIsKnown(submitted: Jobs)
    ensures Known(submitted, map[])
  {
  }

  lemma TakeKeepsVersions(s: State, step: Step)
    requires VersionsOk(s) && step.Take? && IsEnabled(s, step, true)
    ensures VersionsOk(Apply(s, step))
  {
    hide Known, HoldingsKnown, DrawnAreNewer, SubmittedOk;
    NothingIsKnown(s.submitted);
    HoldingsWith(s.submitted, s.workers, step.w, Holding(s.pending));
    DrawnWith(s.submitted, s.workers, s.nextVersion, step.w, Holding(s.pending));
  }

  lemma TakeDueKeepsVersions(s: State, step: Step)
    requires VersionsOk(s) && step.TaskTakeDue? && IsEnabled(s, step, true)
    ensures VersionsOk(Apply(s, step))
  {
    var due := DueJobs(s, s.task.now);
    assert Known(s.submitted, due);
    KnownLess(s.submitted, s.pending, due.Keys);
    hide Known, HoldingsKnown, DrawnAreNewer, SubmittedOk;
  }

  lemma CallStepsKeepVersions(s: State, step: Step)
    requires VersionsOk(s) && IsEnabled(s, step, true)
    requires step.Spawn? || step.Notify? || step.CloseNotify? || step.CloseBegin? || step.DrainBegin? || step.Leave?
    ensures VersionsOk(Apply(s, step))
  {
    hide Known, HoldingsKnown, DrawnAreNewer, SubmittedOk, VersionsOk;
    NothingIsKnown(s.submitted);
    PartsKnown(s);
    WorkerStepKeepsVersions(s, Apply(s, step), step.w);
  }

  lemma FlushStepsKeepVersions(s: State, step: Step)
    requires VersionsOk(s) && IsEnabled(s, step, true)
    requires step.FlushBegin? || step.FlushNotify? || step.FlushEnd?
    ensures VersionsOk(Apply(s, step))
  {
    hide Known, HoldingsKnown, DrawnAreNewer, SubmittedOk, VersionsOk;
    PartsKnown(s);
    if s.running || step.FlushNotify? {
      SameVersions(s, Apply(s, step));
    } else {
      WorkerStepKeepsVersions(s, Apply(s, step), step.f);
    }
  }

  lemma EndingsKeepVersions(s: State, step: Step)
    requires VersionsOk(s) && IsEnabled(s, step, true)
    requires step.TaskExit? || step.TaskAbort?
    ensures VersionsOk(Apply(s, step))
  {
    hide Known, HoldingsKnown, DrawnAreNewer, SubmittedOk, VersionsOk;
    NothingIsKnown(s.submitted);
    PartsKnown(s);
    WorkerStepKeepsVersions(s, Apply(s, step), step.w);
  }

  lemma WaitsKeepVersions(s: State, step: Step)
    requires VersionsOk(s) && IsEnabled(s, step, true)
    requires step.Tick? || step.TaskBegin? || step.TaskDueDone? || step.TaskWake? || step.TaskTimer?
    ensures VersionsOk(Apply(s, step))
  {
    hide Known, HoldingsKnown, DrawnAreNewer, SubmittedOk, VersionsOk;
    NothingIsKnown(s.submitted);
    PartsKnown(s);
    SameVersions(s, Apply(s, step));
  }

  lemma TaskStepsKeepVersions(s: State, step: Step)
    requires VersionsOk(s) && IsEnabled(s, step, true)
    requires step.TaskLook? || step.TaskTakeAll? || step.TaskAnswer?
    ensures VersionsOk(Apply(s, step))
  {
    hide Known, HoldingsKnown, DrawnAreNewer, SubmittedOk, VersionsOk, NextDue;
    NothingIsKnown(s.submitted);
    PartsKnown(s);
    SameVersions(s, Apply(s, step));
  }

  lemma PartsKnown(s: State)
    requires VersionsOk(s)
    ensures Known(s.submitted, s.pending) && Known(s.submitted, Hands(s.task))
  {
  }

  lemma SameVersions(s: State, s': State)
    requires VersionsOk(s)
    requires s'.submitted == s.submitted && s'.nextVersion == s.nextVersion && s'.disk == s.disk
    requires s'.workers == s.workers && Known(s.submitted, s'.pending) && Known(s.submitted, Hands(s'.task))
    ensures VersionsOk(s')
  {
    hide Known, HoldingsKnown, DrawnAreNewer, SubmittedOk;
  }

  lemma VersionsKept(s: State, step: Step)
    requires VersionsOk(s) && IsEnabled(s, step, true)
    ensures VersionsOk(Apply(s, step))
  {
    hide VersionsOk, Apply;
    match step {
      case Enter(_, _) => EnterKeepsVersions(s, step);
      case Draw(_, _, _, _) => DrawKeepsVersions(s, step);
      case Write(_, _, _) => WriteKeepsVersions(s, step);
      case TaskWrite(_, _) => TaskWriteKeepsVersions(s, step);
      case Take(_) => TakeKeepsVersions(s, step);
      case TaskTakeDue => TakeDueKeepsVersions(s, step);
      case Spawn(_) | Notify(_) | CloseNotify(_) | CloseBegin(_) | DrainBegin(_) | Leave(_) => CallStepsKeepVersions(s, step);
      case FlushBegin(_) | FlushNotify(_) | FlushEnd(_) => FlushStepsKeepVersions(s, step);
      case TaskExit(_) | TaskAbort(_) => EndingsKeepVersions(s, step);
      case TaskLook | TaskTakeAll | TaskAnswer => TaskStepsKeepVersions(s, step);
      case _ => WaitsKeepVersions(s, step);
    }
  }

  // ----- nothing submitted is lost -----

  ghost predicate Has(jobs: Jobs, job: Job) {
    job.path in jobs && jobs[job.path] == job
  }

  ghost predicate IsHeld(workers: Workers, job: Job) {
    exists w :: w in workers && workers[w].Holding? && Has(workers[w].jobs, job)
  }

  /** Somebody will still execute the job. */
  ghost predicate IsAlive(job: Job, pending: Jobs, hands: Jobs, workers: Workers) {
    Has(pending, job) || Has(hands, job) || IsHeld(workers, job)
  }

  ghost predicate IsDone(job: Job, disk: Jobs, failures: set<Job>) {
    Has(disk, job) || job in failures
  }

  ghost predicate Accounted(
    submitted: Jobs, pending: Jobs, hands: Jobs, workers: Workers, disk: Jobs, failures: set<Job>)
  {
    forall path :: path in submitted ==>
      IsAlive(submitted[path], pending, hands, workers) || IsDone(submitted[path], disk, failures)
  }

  /** The newest job of every path still has somebody who will execute it, or is what the disk holds,
      or its failure was reported or returned. */
  ghost predicate AccountsOk(s: State) {
    Accounted(s.submitted, s.pending, Hands(s.task), s.workers, s.disk, s.failures)
  }

  lemma HeldElsewhere(workers: Workers, w: Id, worker: Worker, job: Job)
    requires IsHeld(workers, job)
    requires w in workers ==> !workers[w].Holding? || workers[w].jobs == map[]
    ensures IsHeld(workers[w := worker], job) && IsHeld(workers - {w}, job)
  {
    var x :| x in workers && workers[x].Holding? && Has(workers[x].jobs, job);
    var more, less := workers[w := worker], workers - {w};
    assert x != w && x in more && x in less && more[x] == workers[x] && less[x] == workers[x];
  }

  lemma HeldLess(workers: Workers, w: Id, path: Path, job: Job)
    requires IsHeld(workers, job) && w in workers && workers[w].Holding? && path in workers[w].jobs
    ensures IsHeld(workers[w := Holding(workers[w].jobs - {path})], job)
      || (job.path == path && job == workers[w].jobs[path])
  {
    var x :| x in workers && workers[x].Holding? && Has(workers[x].jobs, job);
    var less := workers[w := Holding(workers[w].jobs - {path})];
    if x != w {
      assert x in less && less[x] == workers[x];
    } else if job.path != path {
      assert w in less && less[w].Holding? && Has(less[w].jobs, job);
    }
  }

  lemma HeldBy(workers: Workers, w: Id, job: Job)
    requires w in workers && workers[w].Holding? && Has(workers[w].jobs, job)
    ensures IsHeld(workers, job)
  {
  }

  /** The newest job of a path, once on disk, stays there. */
  lemma NewestStays(submitted: Jobs, disk: Jobs, path: Path, job: Job, succeeds: bool)
    requires path in submitted && Known(submitted, map[job.path := job])
    requires Has(disk, submitted[path]) && submitted[path].path == path
    ensures Has(DiskAfter(disk, job, succeeds), submitted[path])
  {
    assert job.path in map[job.path := job];
  }

  /** The newest job of a path, once executed, is on disk or failed. */
  lemma NewestIsExecuted(submitted: Jobs, disk: Jobs, failures: set<Job>, job: Job, succeeds: bool)
    requires Known(submitted, disk) && job.path in submitted && submitted[job.path] == job && job.version >= 1
    ensures Has(DiskAfter(disk, job, succeeds), job) || job in FailuresAfter(failures, job, succeeds)
  {
  }

  lemma SubmittingKeepsAccounts(
    submitted: Jobs, pending: Jobs, hands: Jobs, workers: Workers, disk: Jobs, failures: set<Job>, w: Id,
    worker: Worker, job: Job)
    requires Accounted(submitted, pending, hands, workers, disk, failures)
    requires w in workers && workers[w].Drawn? && (forall path :: path in submitted ==> submitted[path].path == path)
    ensures Accounted(submitted[job.path := job], pending[job.path := job], hands, workers[w := worker], disk, failures)
    ensures worker == Holding(map[job.path := job]) ==>
      Accounted(submitted[job.path := job], pending - {job.path}, hands, workers[w := worker], disk, failures)
  {
    var submitted', more := submitted[job.path := job], workers[w := worker];
    forall path | path in submitted'
      ensures IsDone(submitted'[path], disk, failures) || IsAlive(submitted'[path], pending[job.path := job], hands, more)
      ensures worker == Holding(map[job.path := job]) ==>
        IsDone(submitted'[path], disk, failures) || IsAlive(submitted'[path], pending - {job.path}, hands, more)
    {
      if path != job.path {
        if IsHeld(workers, submitted[path]) {
          HeldElsewhere(workers, w, worker, submitted[path]);
        }
      } else if worker == Holding(map[job.path := job]) {
        HeldBy(more, w, job);
      }
    }
  }

  lemma EnterKeepsAccounts(s: State, step: Step)
    requires VersionsOk(s) && AccountsOk(s) && step.Enter? && IsEnabled(s, step, true)
    ensures AccountsOk(Apply(s, step))
  {
    var w := step.w;
    var job := s.workers[w].job;
    hide Known, HoldingsKnown, DrawnAreNewer, Accounted, Hands;
    var worker :=
      if s.closed || !(s.running || step.hasRuntime) then Holding(map[job.path := job])
      else if s.running then MustNotify else MustStart;
    SubmittingKeepsAccounts(s.submitted, s.pending, Hands(s.task), s.workers, s.disk, s.failures, w, worker, job);
  }

  /** Whatever somebody would have executed, somebody still will. */
  ghost predicate NoneForgotten(
    pending: Jobs, hands: Jobs, workers: Workers, pending': Jobs, hands': Jobs, workers': Workers)
  {
    forall job :: IsAlive(job, pending, hands, workers) ==> IsAlive(job, pending', hands', workers')
  }

  lemma NoneForgottenKeepsAccounts(s: State, s': State)
    requires AccountsOk(s) && s'.submitted == s.submitted && s'.disk == s.disk && s'.failures == s.failures
    requires NoneForgotten(s.pending, Hands(s.task), s.workers, s'.pending, Hands(s'.task), s'.workers)
    ensures AccountsOk(s')
  {
    hide IsAlive, IsDone, Hands;
  }

  /** Whatever somebody would have executed, except one job, somebody still will. */
  ghost predicate OnlyForgotten(
    gone: Job, pending: Jobs, hands: Jobs, workers: Workers, pending': Jobs, hands': Jobs, workers': Workers)
  {
    forall job :: IsAlive(job, pending, hands, workers) ==> job == gone || IsAlive(job, pending', hands', workers')
  }

  lemma ExecutingKeepsAccounts(s: State, s': State, gone: Job, succeeds: bool)
    requires AccountsOk(s) && SubmittedOk(s.submitted, s.nextVersion) && Known(s.submitted, s.disk)
    requires Known(s.submitted, map[gone.path := gone])
    requires OnlyForgotten(gone, s.pending, Hands(s.task), s.workers, s'.pending, Hands(s'.task), s'.workers)
    requires s'.submitted == s.submitted && s'.disk == DiskAfter(s.disk, gone, succeeds)
    requires s'.failures == FailuresAfter(s.failures, gone, succeeds)
    ensures AccountsOk(s')
  {
    hide IsAlive, Hands, Has, DiskAfter, Known;
    forall path | path in s'.submitted
      ensures IsAlive(s.submitted[path], s'.pending, Hands(s'.task), s'.workers)
        || IsDone(s.submitted[path], s'.disk, s'.failures)
    {
      var job := s.submitted[path];
      if job == gone {
        NewestIsExecuted(s.submitted, s.disk, s.failures, gone, succeeds);
      } else if Has(s.disk, job) {
        NewestStays(s.submitted, s.disk, path, gone, succeeds);
      }
    }
  }

  lemma HandsLess(pending: Jobs, hands: Jobs, workers: Workers, path: Path)
    requires path in hands
    ensures OnlyForgotten(hands[path], pending, hands, workers, pending, hands - {path}, workers)
  {
  }

  lemma WorkerHoldsLess(pending: Jobs, hands: Jobs, workers: Workers, w: Id, path: Path)
    requires w in workers && workers[w].Holding? && path in workers[w].jobs
    ensures OnlyForgotten(
      workers[w].jobs[path], pending, hands, workers, pending, hands, workers[w := Holding(workers[w].jobs - {path})])
  {
    hide Has, IsHeld;
    forall job | IsHeld(workers, job)
      ensures job == workers[w].jobs[path] || IsHeld(workers[w := Holding(workers[w].jobs - {path})], job)
    {
      HeldLess(workers, w, path, job);
    }
  }

  lemma WorkerTakesPending(pending: Jobs, hands: Jobs, workers: Workers, w: Id)
    requires w in workers && workers[w].Entering?
    ensures NoneForgotten(pending, hands, workers, map[], hands, workers[w := Holding(pending)])
  {
    var more := workers[w := Holding(pending)];
    hide IsHeld;
    forall job | IsAlive(job, pending, hands, workers) ensures IsAlive(job, map[], hands, more) {
      if Has(pending, job) {
        HeldBy(more, w, job);
      } else if IsHeld(workers, job) {
        HeldElsewhere(workers, w, Holding(pending), job);
      }
    }
  }

  lemma WorkerMoves(pending: Jobs, hands: Jobs, workers: Workers, w: Id, worker: Worker)
    requires w in workers ==> !workers[w].Holding? || workers[w].jobs == map[]
    ensures NoneForgotten(pending, hands, workers, pending, hands, workers[w := worker])
    ensures NoneForgotten(pending, hands, workers, pending, hands, workers - {w})
  {
    var more, less := workers[w := worker], workers - {w};
    hide Has, IsHeld;
    forall job | IsAlive(job, pending, hands, workers)
      ensures IsAlive(job, pending, hands, more) && IsAlive(job, pending, hands, less)
    {
      if IsHeld(workers, job) {
        HeldElsewhere(workers, w, worker, job);
      }
    }
  }

  lemma TaskTakes(pending: Jobs, workers: Workers, taken: Jobs, rest: Jobs)
    requires forall path :: path in pending ==> path in taken || path in rest
    requires forall path :: path in taken && path in pending ==> taken[path] == pending[path]
    requires forall path :: path in rest && path in pending ==> rest[path] == pending[path]
    ensures NoneForgotten(pending, map[], workers, rest, taken, workers)
  {
    hide IsHeld;
  }

  // ----- each step keeps the account -----

  lemma WritesKeepAccounts(s: State, step: Step)
    requires VersionsOk(s) && AccountsOk(s) && IsEnabled(s, step, true) && (step.Write? || step.TaskWrite?)
    ensures AccountsOk(Apply(s, step))
  {
    hide AccountsOk, OnlyForgotten, HoldingsKnown, DrawnAreNewer, SubmittedOk, DiskAfter, FailuresAfter, SettledAfter;
    if step.Write? {
      var jobs := s.workers[step.w].jobs;
      assert Known(s.submitted, jobs) by { assert HoldingsKnown(s.submitted, s.workers); HoldingIsKnown(s, step.w); }
      hide Known;
      KnownAlone(s.submitted, jobs, step.path);
      WorkerHoldsLess(s.pending, Hands(s.task), s.workers, step.w, step.path);
      ExecutingKeepsAccounts(s, Apply(s, step), jobs[step.path], step.succeeds);
    } else {
      var jobs := Hands(s.task);
      hide Known;
      KnownAlone(s.submitted, jobs, step.path);
      HandsLess(s.pending, jobs, s.workers, step.path);
      ExecutingKeepsAccounts(s, Apply(s, step), jobs[step.path], step.succeeds);
    }
  }

  lemma HoldingIsKnown(s: State, w: Id)
    requires VersionsOk(s) && w in s.workers && s.workers[w].Holding?
    ensures Known(s.submitted, s.workers[w].jobs)
  {
  }

  lemma CallStepsKeepAccounts(s: State, step: Step)
    requires AccountsOk(s) && IsEnabled(s, step, true)
    requires step.Draw? || step.Spawn? || step.Notify? || step.CloseNotify? || step.CloseBegin? || step.DrainBegin?
      || step.Leave?
    requires step.Spawn? ==> s.task.NoTask?
    ensures AccountsOk(Apply(s, step))
  {
    hide AccountsOk, NoneForgotten;
    var s' := Apply(s, step);
    var worker := if step.w in s'.workers then s'.workers[step.w] else MustNotify;
    assert s'.workers == if step.w in s'.workers then s.workers[step.w := worker] else s.workers - {step.w};
    WorkerMoves(s.pending, Hands(s.task), s.workers, step.w, worker);
    NoneForgottenKeepsAccounts(s, s');
  }

  lemma TakesKeepAccounts(s: State, step: Step)
    requires AccountsOk(s) && IsEnabled(s, step, true) && (step.Take? || step.TaskTakeAll? || step.TaskTakeDue?)
    ensures AccountsOk(Apply(s, step))
  {
    hide AccountsOk, NoneForgotten;
    var s' := Apply(s, step);
    if step.Take? {
      WorkerTakesPending(s.pending, Hands(s.task), s.workers, step.w);
    } else {
      assert Hands(s.task) == map[];
      TaskTakes(s.pending, s.workers, Hands(s'.task), s'.pending);
    }
    NoneForgottenKeepsAccounts(s, s');
  }

  lemma FlushStepsKeepAccounts(s: State, step: Step)
    requires AccountsOk(s) && IsEnabled(s, step, true) && (step.FlushBegin? || step.FlushNotify? || step.FlushEnd?)
    ensures AccountsOk(Apply(s, step))
  {
    hide AccountsOk, NoneForgotten;
    if !step.FlushNotify? {
      WorkerMoves(s.pending, Hands(s.task), s.workers, step.f, Entering(false));
    }
    SameAlive(s.pending, Hands(s.task), s.workers);
    NoneForgottenKeepsAccounts(s, Apply(s, step));
  }

  lemma SameAlive(pending: Jobs, hands: Jobs, workers: Workers)
    ensures NoneForgotten(pending, hands, workers, pending, hands, workers)
  {
  }

  lemma EndingsKeepAccounts(s: State, step: Step)
    requires AccountsOk(s) && IsEnabled(s, step, true) && (step.TaskExit? || step.TaskAbort?)
    ensures AccountsOk(Apply(s, step))
  {
    hide AccountsOk, NoneForgotten;
    WorkerMoves(s.pending, Hands(s.task), s.workers, step.w, Entering(false));
    NoneForgottenKeepsAccounts(s, Apply(s, step));
  }

  lemma WaitsKeepAccounts(s: State, step: Step)
    requires AccountsOk(s) && IsEnabled(s, step, true)
    requires step.Tick? || step.TaskBegin? || step.TaskDueDone? || step.TaskWake? || step.TaskTimer?
      || step.TaskLook? || step.TaskAnswer?
    ensures AccountsOk(Apply(s, step))
  {
    hide AccountsOk, NoneForgotten, NextDue;
    SameAlive(s.pending, Hands(s.task), s.workers);
    NoneForgottenKeepsAccounts(s, Apply(s, step));
  }

  lemma AccountsKept(s: State, step: Step)
    requires VersionsOk(s) && AccountsOk(s) && IsEnabled(s, step, true)
    requires step.Spawn? ==> s.task.NoTask?
    ensures AccountsOk(Apply(s, step))
  {
    hide VersionsOk, AccountsOk, Apply;
    match step {
      case Enter(_, _) => EnterKeepsAccounts(s, step);
      case Write(_, _, _) | TaskWrite(_, _) => WritesKeepAccounts(s, step);
      case Take(_) | TaskTakeAll | TaskTakeDue => TakesKeepAccounts(s, step);
      case Draw(_, _, _, _) | Spawn(_) | Notify(_) | CloseNotify(_) | CloseBegin(_) | DrainBegin(_) | Leave(_) =>
        CallStepsKeepAccounts(s, step);
      case FlushBegin(_) | FlushNotify(_) | FlushEnd(_) => FlushStepsKeepAccounts(s, step);
      case TaskExit(_) | TaskAbort(_) => EndingsKeepAccounts(s, step);
      case _ => WaitsKeepAccounts(s, step);
    }
  }

  // ----- dropping the task while it holds taken jobs -----

  /** Dropping the task in the middle of its writing keeps the account if and only if none of the jobs in
      its hands is the newest of its path and nowhere else. */
  lemma AbortKeepsAccountsIff(s: State, w: Id)
    requires AccountsOk(s) && (s.task.WritingAll? || s.task.WritingDue?) && w !in s.workers
    ensures AccountsOk(MarkDropped(s, w)) <==>
      forall path :: path in s.submitted && Has(Hands(s.task), s.submitted[path]) ==>
        IsAlive(s.submitted[path], s.pending, map[], s.workers) || IsDone(s.submitted[path], s.disk, s.failures)
  {
    var more := s.workers[w := Entering(false)];
    forall job ensures IsHeld(more, job) <==> IsHeld(s.workers, job) {
      if IsHeld(s.workers, job) {
        HeldElsewhere(s.workers, w, Entering(false), job);
      }
    }
    hide IsHeld, IsDone;
    var s' := MarkDropped(s, w);
    assert Hands(s'.task) == map[] && s'.workers == more;
    hide Hands, MarkDropped;
    assert forall job :: IsAlive(job, s'.pending, map[], more) <==> IsAlive(job, s.pending, map[], s.workers);
  }

  // ----- one step of executing is one locked write -----

  ghost function OnDiskOf(disk: Jobs): map<Path, Locks.OnDisk> {
    map path | path in disk :: Locks.OnDisk(disk[path].version, disk[path].contents)
  }

  /** What executing a job does to the disk is what a locked, versioned write does. */
  lemma ExecutingIsOneWrite(disk: Jobs, job: Job, succeeds: bool)
    ensures OnDiskOf(DiskAfter(disk, job, succeeds)) ==
      Locks.WriteVersioned(OnDiskOf(disk), job.path, Some(job.version), job.contents, succeeds)
  {
  }
}
