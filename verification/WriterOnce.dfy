/** Every job is in one place at a time, and nowhere once it was executed; so dropping the task in the
    middle of its writing loses exactly the newest jobs in its hands. */
module WriterOnce {
  import opened Writer
  import opened WriterVersions
  import opened WriterRuns
  import opened WriterSafety
  import opened WriterOverlap
  import WriterFlush

  datatype Place = InQueue | InHands | AtWorker(w: Id)

  /** Where jobs wait to be executed. */
  datatype Unwritten = Unwritten(pending: Jobs, hands: Jobs, workers: Workers)

  ghost function UnwrittenIn(s: State): Unwritten {
    Unwritten(s.pending, Hands(s.task), s.workers)
  }

  ghost predicate At(here: Unwritten, place: Place, job: Job) {
    match place
    case InQueue => Has(here.pending, job)
    case InHands => Has(here.hands, job)
    case AtWorker(w) => w in here.workers && here.workers[w].Holding? && Has(here.workers[w].jobs, job)
  }

  ghost predicate OncePlaced(here: Unwritten) {
    forall a, b, job :: At(here, a, job) && At(here, b, job) ==> a == b
  }

  ghost predicate NotYetDone(here: Unwritten, disk: Jobs, failures: set<Job>) {
    forall a, job :: At(here, a, job) ==> !IsDone(job, disk, failures)
  }

  ghost predicate OnceOk(s: State) {
    OncePlaced(UnwrittenIn(s)) && NotYetDone(UnwrittenIn(s), s.disk, s.failures)
  }

  // ----- moves -----

  /** Nothing is anywhere it was not. */
  ghost predicate NothingNew(here: Unwritten, after: Unwritten) {
    forall a, job :: At(after, a, job) ==> At(here, a, job)
  }

  lemma FewerStayOnce(s: State, s': State)
    requires OnceOk(s) && NothingNew(UnwrittenIn(s), UnwrittenIn(s')) && s'.disk == s.disk && s'.failures == s.failures
    ensures OnceOk(s')
  {
    hide At, UnwrittenIn, IsDone;
  }

  lemma WorkerMovesOn(pending: Jobs, hands: Jobs, workers: Workers, w: Id, worker: Worker)
    requires worker.Holding? ==> worker.jobs == map[]
    ensures NothingNew(Unwritten(pending, hands, workers), Unwritten(pending, hands, workers[w := worker]))
    ensures NothingNew(Unwritten(pending, hands, workers), Unwritten(pending, hands, workers - {w}))
  {
  }

  /** What was queued is with one worker, or in the task's empty hands, or still queued. */
  lemma QueueMoves(here: Unwritten, after: Unwritten, to: Place, disk: Jobs, failures: set<Job>)
    requires OncePlaced(here) && NotYetDone(here, disk, failures)
    requires forall job :: At(after, to, job) ==> At(here, InQueue, job)
    requires forall a, job :: a != to && At(after, a, job) ==> At(here, a, job)
    requires forall job :: !(At(after, to, job) && At(after, InQueue, job)) || to.InQueue?
    ensures OncePlaced(after) && NotYetDone(after, disk, failures)
  {
    hide At, IsDone;
  }

  lemma TakeKeepsOnce(s: State, step: Step)
    requires OnceOk(s) && IsEnabled(s, step, true) && step.Take?
    ensures OnceOk(Apply(s, step))
  {
    hide OncePlaced, NotYetDone, Hands;
    QueueMoves(UnwrittenIn(s), UnwrittenIn(Apply(s, step)), AtWorker(step.w), s.disk, s.failures);
  }

  lemma TaskTakesKeepOnce(s: State, step: Step)
    requires OnceOk(s) && IsEnabled(s, step, true) && (step.TaskTakeAll? || step.TaskTakeDue?)
    ensures OnceOk(Apply(s, step))
  {
    hide OncePlaced, NotYetDone;
    QueueMoves(UnwrittenIn(s), UnwrittenIn(Apply(s, step)), InHands, s.disk, s.failures);
  }

  /** A job that was nowhere is put somewhere, and what it replaces goes. */
  lemma OneMorePlaced(here: Unwritten, after: Unwritten, to: Place, job: Job, disk: Jobs, failures: set<Job>)
    requires OncePlaced(here) && NotYetDone(here, disk, failures) && !IsDone(job, disk, failures)
    requires forall a :: !At(here, a, job)
    requires forall a, other :: At(after, a, other) ==> At(here, a, other) || (a == to && other == job)
    ensures OncePlaced(after) && NotYetDone(after, disk, failures)
  {
    hide At, IsDone;
  }

  lemma EnterKeepsOnce(s: State, step: Step)
    requires VersionsOk(s) && FailuresOk(s) && OnceOk(s) && IsEnabled(s, step, true) && step.Enter?
    ensures OnceOk(Apply(s, step))
  {
    hide EnterInline, EnterQueue, OnceOk;
    DrawnIsInNoPlace(s, step.w);
    InlineKeepsOnce(s, step.w, s.workers[step.w].job);
    QueueingKeepsOnce(s, step.w, s.workers[step.w].job);
  }

  lemma DrawnIsInNoPlace(s: State, w: Id)
    requires VersionsOk(s) && FailuresOk(s) && w in s.workers && s.workers[w].Drawn?
    ensures var job := s.workers[w].job;
      !IsDone(job, s.disk, s.failures) && forall a :: !At(UnwrittenIn(s), a, job)
  {
    var job := s.workers[w].job;
    DrawnIsNowhere(s, w);
    PendingHasNotDrawn(s, w);
    hide VersionsOk, FailuresOk, Hands, IsDone;
    forall a ensures !At(UnwrittenIn(s), a, job) {
      if a.AtWorker? && At(UnwrittenIn(s), a, job) {
        HeldBy(s.workers, a.w, job);
      }
    }
  }

  lemma PendingHasNotDrawn(s: State, w: Id)
    requires VersionsOk(s) && w in s.workers && s.workers[w].Drawn?
    ensures !Has(s.pending, s.workers[w].job)
  {
    assert DrawnIsNewer(s.submitted, s.workers[w].job, s.nextVersion);
    hide HoldingsKnown, SubmittedOk, SamePathDrawn;
  }

  lemma InlineKeepsOnce(s: State, w: Id, job: Job)
    requires OnceOk(s) && w in s.workers && s.workers[w] == Drawn(job)
    requires !IsDone(job, s.disk, s.failures) && forall a :: !At(UnwrittenIn(s), a, job)
    ensures OnceOk(EnterInline(s, w, job))
  {
    hide OncePlaced, NotYetDone, Hands, IsDone;
    OneMorePlaced(UnwrittenIn(s), UnwrittenIn(EnterInline(s, w, job)), AtWorker(w), job, s.disk, s.failures);
  }

  lemma QueueingKeepsOnce(s: State, w: Id, job: Job)
    requires OnceOk(s) && w in s.workers && s.workers[w] == Drawn(job)
    requires !IsDone(job, s.disk, s.failures) && forall a :: !At(UnwrittenIn(s), a, job)
    ensures OnceOk(EnterQueue(s, w, job))
  {
    hide OncePlaced, NotYetDone, Hands, IsDone;
    OneMorePlaced(UnwrittenIn(s), UnwrittenIn(EnterQueue(s, w, job)), InQueue, job, s.disk, s.failures);
  }

  /** A job leaves its place and is done; nothing else becomes done. */
  lemma OneLessPlaced(
    here: Unwritten, after: Unwritten, from: Place, job: Job, disk: Jobs, disk': Jobs, failures: set<Job>, failures': set<Job>)
    requires OncePlaced(here) && NotYetDone(here, disk, failures) && At(here, from, job)
    requires forall a, other :: At(after, a, other) ==> At(here, a, other) && (a != from || other != job)
    requires forall other :: IsDone(other, disk', failures') ==> IsDone(other, disk, failures) || other == job
    ensures OncePlaced(after) && NotYetDone(after, disk', failures')
  {
    hide At, IsDone;
  }

  lemma OnlyTheJobIsDone(disk: Jobs, failures: set<Job>, job: Job, succeeds: bool)
    ensures forall other :: IsDone(other, DiskAfter(disk, job, succeeds), FailuresAfter(failures, job, succeeds)) ==>
      IsDone(other, disk, failures) || other == job
  {
  }

  lemma WriteKeepsOnce(s: State, step: Step)
    requires OnceOk(s) && IsEnabled(s, step, true) && step.Write? && s.workers[step.w].jobs[step.path].path == step.path
    ensures OnceOk(Apply(s, step))
  {
    hide OncePlaced, NotYetDone, Hands, IsDone, DiskAfter, FailuresAfter, SettledAfter;
    var s', job := Apply(s, step), s.workers[step.w].jobs[step.path];
    OnlyTheJobIsDone(s.disk, s.failures, job, step.succeeds);
    OneLessPlaced(
      UnwrittenIn(s), UnwrittenIn(s'), AtWorker(step.w), job, s.disk, s'.disk, s.failures, s'.failures);
  }

  lemma TaskWriteKeepsOnce(s: State, step: Step)
    requires OnceOk(s) && IsEnabled(s, step, true) && step.TaskWrite? && Hands(s.task)[step.path].path == step.path
    ensures OnceOk(Apply(s, step))
  {
    hide OncePlaced, NotYetDone, IsDone, DiskAfter, FailuresAfter, SettledAfter;
    var s', job := Apply(s, step), Hands(s.task)[step.path];
    OnlyTheJobIsDone(s.disk, s.failures, job, step.succeeds);
    OneLessPlaced(UnwrittenIn(s), UnwrittenIn(s'), InHands, job, s.disk, s'.disk, s.failures, s'.failures);
  }

  lemma CallsKeepOnce(s: State, step: Step)
    requires OnceOk(s) && IsEnabled(s, step, true)
    requires step.Draw? || step.Spawn? || step.Notify? || step.CloseNotify? || step.CloseBegin? || step.DrainBegin?
      || step.Leave?
    requires step.Spawn? ==> s.task.NoTask?
    ensures OnceOk(Apply(s, step))
  {
    hide OnceOk, NothingNew;
    var s' := Apply(s, step);
    var worker := if step.w in s'.workers then s'.workers[step.w] else MustNotify;
    WorkerMovesOn(s.pending, Hands(s.task), s.workers, step.w, worker);
    FewerStayOnce(s, s');
  }

  lemma FlushesKeepOnce(s: State, step: Step)
    requires OnceOk(s) && IsEnabled(s, step, true) && (step.FlushBegin? || step.FlushNotify? || step.FlushEnd?)
    ensures OnceOk(Apply(s, step))
  {
    hide OnceOk, NothingNew, Hands;
    WorkerMovesOn(s.pending, Hands(s.task), s.workers, step.f, Entering(false));
    SamePlaces(UnwrittenIn(s));
    FewerStayOnce(s, Apply(s, step));
  }

  lemma SamePlaces(here: Unwritten)
    ensures NothingNew(here, here)
  {
  }

  lemma EndingsKeepOnce(s: State, step: Step)
    requires OnceOk(s) && IsEnabled(s, step, true) && (step.TaskExit? || step.TaskAbort?)
    ensures OnceOk(Apply(s, step))
  {
    hide OnceOk, NothingNew;
    WorkerMovesOn(s.pending, Hands(s.task), s.workers, step.w, Entering(false));
    FewerStayOnce(s, Apply(s, step));
  }

  lemma WaitsKeepOnce(s: State, step: Step)
    requires OnceOk(s) && IsEnabled(s, step, true)
    requires step.Tick? || step.TaskBegin? || step.TaskDueDone? || step.TaskWake? || step.TaskTimer?
      || step.TaskLook? || step.TaskAnswer?
    ensures OnceOk(Apply(s, step))
  {
    hide OnceOk, NothingNew, NextDue;
    SamePlaces(UnwrittenIn(s));
    FewerStayOnce(s, Apply(s, step));
  }

  lemma OnceKept(s: State, step: Step)
    requires VersionsOk(s) && FailuresOk(s) && RunsOk(s) && OnceOk(s) && IsEnabled(s, step, true)
    ensures OnceOk(Apply(s, step))
  {
    WriterFlush.JobsArePlaced(s, step);
    if step.Spawn? {
      SpawnFindsNoTask(s, step);
    }
    hide VersionsOk, FailuresOk, RunsOk, OnceOk, Apply;
    match step {
      case Enter(_, _) => EnterKeepsOnce(s, step);
      case Take(_) => TakeKeepsOnce(s, step);
      case TaskTakeAll | TaskTakeDue => TaskTakesKeepOnce(s, step);
      case Write(_, _, _) => WriteKeepsOnce(s, step);
      case TaskWrite(_, _) => TaskWriteKeepsOnce(s, step);
      case Draw(_, _, _, _) | Spawn(_) | Notify(_) | CloseNotify(_) | CloseBegin(_) | DrainBegin(_) | Leave(_) =>
        CallsKeepOnce(s, step);
      case FlushBegin(_) | FlushNotify(_) | FlushEnd(_) => FlushesKeepOnce(s, step);
      case TaskExit(_) | TaskAbort(_) => EndingsKeepOnce(s, step);
      case _ => WaitsKeepOnce(s, step);
    }
  }

  lemma NothingPlacedAtFirst(interval: nat)
    ensures OnceOk(Start(interval))
  {
  }

  lemma {:induction false} JobsAreInOnePlace(run: seq<State>, steps: seq<Step>, interval: nat, i: nat)
    requires IsRun(run, steps, interval) && i < |run|
    ensures OnceOk(run[i])
  {
    hide Apply, IsEnabled, IsSafe, FailuresOk, OnceOk;
    if i == 0 {
      NothingPlacedAtFirst(interval);
    } else {
      JobsAreInOnePlace(run, steps, interval, i - 1);
      RunsAreSafe(run, steps, interval, i - 1);
      RunsKeepFailures(run, steps, interval, i - 1);
      assert IsStep(run[i - 1], steps[i - 1], run[i]);
      SafeKeepsOnce(run[i - 1], steps[i - 1]);
    }
  }

  lemma SafeKeepsOnce(s: State, step: Step)
    requires IsSafe(s) && FailuresOk(s) && OnceOk(s) && IsEnabled(s, step, true)
    ensures OnceOk(Apply(s, step))
  {
    hide FailuresOk, OnceOk, Apply, IsEnabled;
    OnceKept(s, step);
  }

  // ----- dropping the task while it holds taken jobs -----

  /** In every state of every run, dropping the task in the middle of its writing loses nothing if and only
      if no job in its hands is the newest submitted for its path. */
  lemma DroppingLosesTheNewestInHands(run: seq<State>, steps: seq<Step>, interval: nat, i: nat, w: Id)
    requires IsRun(run, steps, interval) && i < |run|
    requires (run[i].task.WritingAll? || run[i].task.WritingDue?) && w !in run[i].workers
    ensures AccountsOk(MarkDropped(run[i], w)) <==>
      forall path :: path in run[i].submitted ==> !Has(Hands(run[i].task), run[i].submitted[path])
  {
    RunsAreSafe(run, steps, interval, i);
    JobsAreInOnePlace(run, steps, interval, i);
    HandsAreElsewhereNot(run[i]);
    SafeIsAccounted(run[i]);
    hide IsRun, IsSafe, OnceOk, Hands, IsAlive, IsDone, AccountsOk;
    AbortKeepsAccountsIff(run[i], w);
  }

  lemma SafeIsAccounted(s: State)
    requires IsSafe(s)
    ensures AccountsOk(s)
  {
  }

  lemma HandsAreElsewhereNot(s: State)
    requires OnceOk(s)
    ensures forall job :: Has(Hands(s.task), job) ==>
      !IsAlive(job, s.pending, map[], s.workers) && !IsDone(job, s.disk, s.failures)
  {
    forall job | Has(Hands(s.task), job)
      ensures !IsAlive(job, s.pending, map[], s.workers) && !IsDone(job, s.disk, s.failures)
    {
      assert At(UnwrittenIn(s), InHands, job);
      assert Has(s.pending, job) ==> At(UnwrittenIn(s), InQueue, job);
      HeldIsAtWorker(s, job);
    }
  }

  lemma HeldIsAtWorker(s: State, job: Job)
    ensures IsHeld(s.workers, job) ==> exists w :: At(UnwrittenIn(s), AtWorker(w), job)
  {
    if IsHeld(s.workers, job) {
      var w :| w in s.workers && s.workers[w].Holding? && Has(s.workers[w].jobs, job);
      assert At(UnwrittenIn(s), AtWorker(w), job);
    }
  }
}
