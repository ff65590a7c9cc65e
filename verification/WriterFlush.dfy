/** A flush is a barrier: when the task answers it, everything that was pending when it was called has
    been executed or superseded by something executed, except what an inline writer still holds. */
module WriterFlush {
  import opened Writer
  import opened WriterVersions

  /** Where a job may be: executed, pending, in the task's hands, held by a worker. */
  datatype Places = Places(settled: map<Path, nat>, pending: Jobs, hands: Jobs, workers: Workers)

  ghost function AllPlaces(s: State): Places {
    Places(s.settled, s.pending, Hands(s.task), s.workers)
  }

  ghost predicate Reaches(jobs: Jobs, path: Path, version: nat) {
    path in jobs && jobs[path].version >= version
  }

  ghost predicate SomeHolds(workers: Workers, path: Path, version: nat) {
    exists w :: w in workers && workers[w].Holding? && Reaches(workers[w].jobs, path, version)
  }

  ghost predicate IsSettled(settled: map<Path, nat>, path: Path, version: nat) {
    path in settled && settled[path] >= version
  }

  /** That version of the path, or a newer one, is in one of the places. */
  ghost predicate Covers(at: Places, path: Path, version: nat) {
    || IsSettled(at.settled, path, version) || Reaches(at.pending, path, version)
    || Reaches(at.hands, path, version) || SomeHolds(at.workers, path, version)
  }

  ghost predicate CoversAll(at: Places, wanted: map<Path, nat>) {
    forall path :: path in wanted ==> Covers(at, path, wanted[path])
  }

  /** What one place covers, the other covers too. */
  ghost predicate Keeps(at: Places, after: Places) {
    forall path, version :: Covers(at, path, version) ==> Covers(after, path, version)
  }

  /** What the flush wanted: never lost, out of the queue once the task has taken all for
      it, and out of the task's hands once it was answered. */
  ghost predicate IsServed(flusher: Flusher, taken: bool, at: Places) {
    && CoversAll(at, flusher.wanted)
    && (flusher.reply.Waiting? && taken ==> CoversAll(at.(pending := map[]), flusher.wanted))
    && (flusher.reply.Answered? ==> CoversAll(at.(pending := map[], hands := map[]), flusher.wanted))
  }

  ghost predicate IsTaken(task: Task, f: Id) {
    task.WritingAll? && f in task.answering
  }

  ghost predicate FlushesServed(flushers: Flushers, task: Task, at: Places) {
    forall f :: f in flushers ==> IsServed(flushers[f], IsTaken(task, f), at)
  }

  ghost predicate FlushesOk(s: State) {
    FlushesServed(s.flushers, s.task, AllPlaces(s))
  }

  /** Nothing any flush counts on is lost, wherever it is by now. */
  ghost predicate KeepsAll(at: Places, after: Places) {
    && Keeps(at, after) && Keeps(at.(pending := map[]), after.(pending := map[]))
    && Keeps(at.(pending := map[], hands := map[]), after.(pending := map[], hands := map[]))
  }

  lemma KeptCoversAll(at: Places, after: Places, wanted: map<Path, nat>)
    requires Keeps(at, after) && CoversAll(at, wanted)
    ensures CoversAll(after, wanted)
  {
    hide Covers;
  }

  lemma KeptIsServed(flusher: Flusher, taken: bool, at: Places, after: Places)
    requires IsServed(flusher, taken, at) && KeepsAll(at, after)
    ensures IsServed(flusher, taken, after)
  {
    hide Keeps, CoversAll;
    KeptCoversAll(at, after, flusher.wanted);
    if flusher.reply.Waiting? && taken {
      KeptCoversAll(at.(pending := map[]), after.(pending := map[]), flusher.wanted);
    } else if flusher.reply.Answered? {
      KeptCoversAll(at.(pending := map[], hands := map[]), after.(pending := map[], hands := map[]), flusher.wanted);
    }
  }

  lemma KeptFlushes(flushers: Flushers, task: Task, task': Task, at: Places, after: Places)
    requires FlushesServed(flushers, task, at) && KeepsAll(at, after)
    requires forall f :: IsTaken(task', f) ==> IsTaken(task, f)
    ensures FlushesServed(flushers, task', after)
  {
    hide IsServed, KeepsAll, IsTaken;
    forall f | f in flushers ensures IsServed(flushers[f], IsTaken(task', f), after) {
      KeptIsServed(flushers[f], IsTaken(task, f), at, after);
      FewerTaken(flushers[f], IsTaken(task, f), IsTaken(task', f), after);
    }
  }

  lemma FewerTaken(flusher: Flusher, taken: bool, taken': bool, at: Places)
    requires IsServed(flusher, taken, at) && (taken' ==> taken)
    ensures IsServed(flusher, taken', at)
  {
    hide CoversAll;
  }

  // ----- moves -----

  lemma HoldsElsewhere(workers: Workers, w: Id, worker: Worker, path: Path, version: nat)
    requires SomeHolds(workers, path, version)
    requires w in workers ==> !workers[w].Holding? || workers[w].jobs == map[]
    ensures SomeHolds(workers[w := worker], path, version) && SomeHolds(workers - {w}, path, version)
  {
    var x :| x in workers && workers[x].Holding? && Reaches(workers[x].jobs, path, version);
    var more, less := workers[w := worker], workers - {w};
    assert x != w && x in more && x in less && more[x] == workers[x] && less[x] == workers[x];
  }

  lemma WorkersKeep(settled: map<Path, nat>, pending: Jobs, hands: Jobs, workers: Workers, w: Id, worker: Worker)
    requires w in workers ==> !workers[w].Holding? || workers[w].jobs == map[]
    ensures Keeps(Places(settled, pending, hands, workers), Places(settled, pending, hands, workers[w := worker]))
    ensures Keeps(Places(settled, pending, hands, workers), Places(settled, pending, hands, workers - {w}))
  {
    hide SomeHolds, Reaches, IsSettled;
    forall path, version | SomeHolds(workers, path, version)
      ensures SomeHolds(workers[w := worker], path, version) && SomeHolds(workers - {w}, path, version)
    {
      HoldsElsewhere(workers, w, worker, path, version);
    }
  }

  lemma WorkersKeepAll(at: Places, w: Id, worker: Worker)
    requires w in at.workers ==> !at.workers[w].Holding? || at.workers[w].jobs == map[]
    ensures KeepsAll(at, at.(workers := at.workers[w := worker])) && KeepsAll(at, at.(workers := at.workers - {w}))
  {
    hide Keeps;
    WorkersKeep(at.settled, at.pending, at.hands, at.workers, w, worker);
    WorkersKeep(at.settled, map[], at.hands, at.workers, w, worker);
    WorkersKeep(at.settled, map[], map[], at.workers, w, worker);
  }

  lemma SameKeepsAll(at: Places)
    ensures KeepsAll(at, at)
  {
    hide Covers;
  }

  lemma KeepsThen(a: Places, b: Places, c: Places)
    requires Keeps(a, b) && Keeps(b, c)
    ensures Keeps(a, c)
  {
    hide Covers;
  }

  lemma KeepsAllThen(a: Places, b: Places, c: Places)
    requires KeepsAll(a, b) && KeepsAll(b, c)
    ensures KeepsAll(a, c)
  {
    hide Keeps;
    KeepsThen(a, b, c);
    KeepsThen(a.(pending := map[]), b.(pending := map[]), c.(pending := map[]));
    KeepsThen(a.(pending := map[], hands := map[]), b.(pending := map[], hands := map[]),
      c.(pending := map[], hands := map[]));
  }

  /** A newer job takes the place of a pending one. */
  lemma NewerKeepsAll(at: Places, job: Job)
    requires job.path in at.pending ==> at.pending[job.path].version <= job.version
    ensures KeepsAll(at, at.(pending := at.pending[job.path := job]))
  {
    hide SomeHolds, IsSettled;
  }

  /** A pending job may go once a worker holds a newer one. */
  lemma HeldKeepsAll(at: Places, w: Id, job: Job)
    requires w in at.workers && at.workers[w] == Holding(map[job.path := job])
    requires job.path in at.pending ==> at.pending[job.path].version <= job.version
    ensures KeepsAll(at, at.(pending := at.pending - {job.path}))
  {
    forall version | Reaches(at.pending, job.path, version) ensures SomeHolds(at.workers, job.path, version) {
      assert Reaches(at.workers[w].jobs, job.path, version);
    }
    hide SomeHolds, IsSettled;
  }

  /** A worker that holds what is pending may empty the queue. */
  lemma TakenKeepsAll(at: Places, w: Id)
    requires w in at.workers && at.workers[w] == Holding(at.pending)
    ensures KeepsAll(at, at.(pending := map[]))
  {
    forall path, version | Reaches(at.pending, path, version) ensures SomeHolds(at.workers, path, version) {
      assert Reaches(at.workers[w].jobs, path, version);
    }
    hide SomeHolds, IsSettled, Reaches;
    EmptyReachesNone();
  }

  lemma EmptyReachesNone()
    ensures forall path, version :: !Reaches(map[], path, version)
  {
  }

  lemma SettledIsMore(settled: map<Path, nat>, job: Job, path: Path, version: nat)
    ensures IsSettled(settled, path, version) ==> IsSettled(SettledAfter(settled, job), path, version)
    ensures path == job.path && job.version >= version ==> IsSettled(SettledAfter(settled, job), path, version)
  {
  }

  lemma SettlingKeepsAll(at: Places, job: Job)
    ensures KeepsAll(at, at.(settled := SettledAfter(at.settled, job)))
  {
    hide IsSettled, SettledAfter, Reaches, SomeHolds;
    forall path, version ensures IsSettled(at.settled, path, version) ==>
      IsSettled(SettledAfter(at.settled, job), path, version)
    {
      SettledIsMore(at.settled, job, path, version);
    }
  }

  /** The task may forget a job it has executed. */
  lemma HandsLessKeepsAll(at: Places, path: Path)
    requires path in at.hands && IsSettled(at.settled, path, at.hands[path].version)
    ensures KeepsAll(at, at.(hands := at.hands - {path}))
  {
    hide SomeHolds;
  }

  lemma HoldsLess(workers: Workers, w: Id, gone: Path, path: Path, version: nat)
    requires w in workers && workers[w].Holding? && gone in workers[w].jobs && SomeHolds(workers, path, version)
    ensures SomeHolds(workers[w := Holding(workers[w].jobs - {gone})], path, version)
      || (path == gone && version <= workers[w].jobs[gone].version)
  {
    var x :| x in workers && workers[x].Holding? && Reaches(workers[x].jobs, path, version);
    var less := workers[w := Holding(workers[w].jobs - {gone})];
    if x != w {
      assert x in less && less[x] == workers[x];
    } else if path != gone {
      assert w in less && less[w].Holding? && Reaches(less[w].jobs, path, version);
    }
  }

  lemma SettledIsLess(settled: map<Path, nat>, path: Path, most: nat)
    requires IsSettled(settled, path, most)
    ensures forall version: nat :: version <= most ==> IsSettled(settled, path, version)
  {
  }

  lemma WorkerLessKeeps(settled: map<Path, nat>, pending: Jobs, hands: Jobs, workers: Workers, w: Id, gone: Path)
    requires w in workers && workers[w].Holding? && gone in workers[w].jobs
    requires IsSettled(settled, gone, workers[w].jobs[gone].version)
    ensures Keeps(Places(settled, pending, hands, workers),
      Places(settled, pending, hands, workers[w := Holding(workers[w].jobs - {gone})]))
  {
    var less := workers[w := Holding(workers[w].jobs - {gone})];
    SettledIsLess(settled, gone, workers[w].jobs[gone].version);
    hide IsSettled, Reaches, SomeHolds;
    forall path, version | SomeHolds(workers, path, version)
      ensures SomeHolds(less, path, version) || IsSettled(settled, path, version)
    {
      HoldsLess(workers, w, gone, path, version);
    }
  }

  /** A worker may forget a job it has executed. */
  lemma WorkerLessKeepsAll(at: Places, w: Id, gone: Path)
    requires w in at.workers && at.workers[w].Holding? && gone in at.workers[w].jobs
    requires IsSettled(at.settled, gone, at.workers[w].jobs[gone].version)
    ensures KeepsAll(at, at.(workers := at.workers[w := Holding(at.workers[w].jobs - {gone})]))
  {
    hide Keeps, IsSettled;
    WorkerLessKeeps(at.settled, at.pending, at.hands, at.workers, w, gone);
    WorkerLessKeeps(at.settled, map[], at.hands, at.workers, w, gone);
    WorkerLessKeeps(at.settled, map[], map[], at.workers, w, gone);
  }

  /** The task may move jobs from the queue into its empty hands. */
  lemma TaskTakesKeepsAll(at: Places, taken: Jobs, rest: Jobs)
    requires at.hands == map[]
    requires forall path :: path in at.pending ==>
      (path in taken && taken[path] == at.pending[path]) || (path in rest && rest[path] == at.pending[path])
    ensures KeepsAll(at, at.(pending := rest, hands := taken))
  {
    hide SomeHolds, IsSettled;
  }

  // ----- each step keeps the flushes served -----

  lemma KeptFlushesOk(s: State, s': State)
    requires FlushesOk(s) && s'.flushers == s.flushers && KeepsAll(AllPlaces(s), AllPlaces(s'))
    requires forall f :: IsTaken(s'.task, f) ==> IsTaken(s.task, f)
    ensures FlushesOk(s')
  {
    hide FlushesServed, KeepsAll, IsTaken;
    KeptFlushes(s.flushers, s.task, s'.task, AllPlaces(s), AllPlaces(s'));
  }

  lemma PendingIsOlder(s: State, w: Id)
    requires VersionsOk(s) && w in s.workers && s.workers[w].Drawn?
    ensures var job := s.workers[w].job;
      job.path in s.pending ==> s.pending[job.path].version <= job.version
  {
    assert DrawnIsNewer(s.submitted, s.workers[w].job, s.nextVersion);
    hide HoldingsKnown, SubmittedOk, SamePathDrawn;
  }

  lemma SubmittingKeepsAll(at: Places, w: Id, worker: Worker, job: Job)
    requires w in at.workers && at.workers[w].Drawn?
    requires job.path in at.pending ==> at.pending[job.path].version <= job.version
    ensures KeepsAll(at, at.(workers := at.workers[w := worker], pending := at.pending[job.path := job]))
    ensures worker == Holding(map[job.path := job]) ==>
      KeepsAll(at, at.(workers := at.workers[w := worker], pending := at.pending - {job.path}))
  {
    hide KeepsAll;
    WorkersKeepAll(at, w, worker);
    var mid := at.(workers := at.workers[w := worker]);
    NewerKeepsAll(mid, job);
    KeepsAllThen(at, mid, mid.(pending := at.pending[job.path := job]));
    if worker == Holding(map[job.path := job]) {
      HeldKeepsAll(mid, w, job);
      KeepsAllThen(at, mid, mid.(pending := at.pending - {job.path}));
    }
  }

  lemma EnterInlineKeepsFlushes(s: State, w: Id)
    requires VersionsOk(s) && FlushesOk(s) && w in s.workers && s.workers[w].Drawn?
    ensures FlushesOk(EnterInline(s, w, s.workers[w].job))
    ensures KeepsAll(AllPlaces(s), AllPlaces(EnterInline(s, w, s.workers[w].job)))
  {
    hide VersionsOk, FlushesOk, KeepsAll, Hands;
    var job := s.workers[w].job;
    PendingIsOlder(s, w);
    SubmittingKeepsAll(AllPlaces(s), w, Holding(map[job.path := job]), job);
    KeptFlushesOk(s, EnterInline(s, w, job));
  }

  lemma EnterQueueKeepsFlushes(s: State, w: Id)
    requires VersionsOk(s) && FlushesOk(s) && w in s.workers && s.workers[w].Drawn?
    ensures FlushesOk(EnterQueue(s, w, s.workers[w].job))
    ensures KeepsAll(AllPlaces(s), AllPlaces(EnterQueue(s, w, s.workers[w].job)))
  {
    hide VersionsOk, FlushesOk, KeepsAll, Hands;
    var job := s.workers[w].job;
    PendingIsOlder(s, w);
    SubmittingKeepsAll(AllPlaces(s), w, if s.running then MustNotify else MustStart, job);
    KeptFlushesOk(s, EnterQueue(s, w, job));
  }

  lemma EnterKeepsFlushes(s: State, step: Step)
    requires VersionsOk(s) && FlushesOk(s) && IsEnabled(s, step, true) && step.Enter?
    ensures FlushesOk(Apply(s, step))
    ensures KeepsAll(AllPlaces(s), AllPlaces(Apply(s, step)))
  {
    hide VersionsOk, FlushesOk, EnterInline, EnterQueue;
    EnterInlineKeepsFlushes(s, step.w);
    EnterQueueKeepsFlushes(s, step.w);
  }

  lemma CallsKeepFlushes(s: State, step: Step)
    requires FlushesOk(s) && IsEnabled(s, step, true) && (step.Spawn? ==> s.task.NoTask?)
    requires step.Draw? || step.Spawn? || step.CloseNotify? || step.CloseBegin? || step.DrainBegin?
    ensures FlushesOk(Apply(s, step))
    ensures KeepsAll(AllPlaces(s), AllPlaces(Apply(s, step)))
  {
    hide FlushesOk, KeepsAll;
    var s' := Apply(s, step);
    WorkersKeepAll(AllPlaces(s), step.w, s'.workers[step.w]);
    KeptFlushesOk(s, s');
  }

  lemma LeavesKeepFlushes(s: State, step: Step)
    requires FlushesOk(s) && IsEnabled(s, step, true) && (step.Notify? || step.Leave?)
    ensures FlushesOk(Apply(s, step))
    ensures KeepsAll(AllPlaces(s), AllPlaces(Apply(s, step)))
  {
    hide FlushesOk, KeepsAll;
    WorkersKeepAll(AllPlaces(s), step.w, MustNotify);
    KeptFlushesOk(s, Apply(s, step));
  }

  lemma TakeKeepsFlushes(s: State, step: Step)
    requires FlushesOk(s) && IsEnabled(s, step, true) && step.Take?
    ensures FlushesOk(Apply(s, step))
    ensures KeepsAll(AllPlaces(s), AllPlaces(Apply(s, step)))
  {
    hide FlushesOk, KeepsAll, Hands;
    var at, s' := AllPlaces(s), Apply(s, step);
    var mid := at.(workers := s'.workers);
    WorkersKeepAll(at, step.w, Holding(s.pending));
    TakenKeepsAll(mid, step.w);
    KeepsAllThen(at, mid, AllPlaces(s'));
    KeptFlushesOk(s, s');
  }

  lemma WriteKeepsFlushes(s: State, step: Step)
    requires FlushesOk(s) && IsEnabled(s, step, true) && step.Write? && s.workers[step.w].jobs[step.path].path == step.path
    ensures FlushesOk(Apply(s, step))
    ensures KeepsAll(AllPlaces(s), AllPlaces(Apply(s, step)))
  {
    hide FlushesOk, KeepsAll, Hands, DiskAfter, FailuresAfter, SettledAfter;
    var at, s' := AllPlaces(s), Apply(s, step);
    var job := s.workers[step.w].jobs[step.path];
    var mid := at.(settled := s'.settled);
    SettlingKeepsAll(at, job);
    SettledIsMore(s.settled, job, step.path, job.version);
    WorkerLessKeepsAll(mid, step.w, step.path);
    KeepsAllThen(at, mid, AllPlaces(s'));
    KeptFlushesOk(s, s');
  }

  lemma TaskWriteKeepsFlushes(s: State, step: Step)
    requires FlushesOk(s) && IsEnabled(s, step, true) && step.TaskWrite? && Hands(s.task)[step.path].path == step.path
    ensures FlushesOk(Apply(s, step))
    ensures KeepsAll(AllPlaces(s), AllPlaces(Apply(s, step)))
  {
    hide FlushesOk, KeepsAll, DiskAfter, FailuresAfter, SettledAfter;
    var at, s' := AllPlaces(s), Apply(s, step);
    var job := Hands(s.task)[step.path];
    var mid := at.(settled := s'.settled);
    SettlingKeepsAll(at, job);
    SettledIsMore(s.settled, job, step.path, job.version);
    HandsLessKeepsAll(mid, step.path);
    KeepsAllThen(at, mid, AllPlaces(s'));
    KeptFlushesOk(s, s');
  }

  lemma TakeDueKeepsFlushes(s: State, step: Step)
    requires FlushesOk(s) && IsEnabled(s, step, true) && step.TaskTakeDue?
    ensures FlushesOk(Apply(s, step))
    ensures KeepsAll(AllPlaces(s), AllPlaces(Apply(s, step)))
  {
    hide FlushesOk, KeepsAll;
    var s' := Apply(s, step);
    TaskTakesKeepsAll(AllPlaces(s), Hands(s'.task), s'.pending);
    KeptFlushesOk(s, s');
  }

  /** With the queue empty, what a waiting flush wants is out of the queue. */
  lemma EmptyQueueServes(flusher: Flusher, at: Places, taken: bool)
    requires IsServed(flusher, false, at) && at.pending == map[]
    ensures IsServed(flusher, taken, at)
  {
    hide CoversAll;
  }

  lemma TakeAllKeepsFlushes(s: State, step: Step)
    requires FlushesOk(s) && IsEnabled(s, step, true) && step.TaskTakeAll?
    ensures FlushesOk(Apply(s, step))
    ensures KeepsAll(AllPlaces(s), AllPlaces(Apply(s, step)))
  {
    hide KeepsAll, IsServed;
    var at, s' := AllPlaces(s), Apply(s, step);
    var after := AllPlaces(s');
    TaskTakesKeepsAll(at, s.pending, map[]);
    forall f | f in s'.flushers ensures IsServed(s'.flushers[f], IsTaken(s'.task, f), after) {
      KeptIsServed(s.flushers[f], false, at, after);
      EmptyQueueServes(s.flushers[f], after, IsTaken(s'.task, f));
    }
  }

  // ----- flushes come, hear back and go -----

  /** Nobody new waits and nobody new was answered. */
  ghost predicate FewerWait(flushers: Flushers, flushers': Flushers) {
    forall f :: f in flushers' ==>
      && f in flushers && flushers'[f].wanted == flushers[f].wanted
      && (flushers'[f].reply == flushers[f].reply || flushers'[f].reply == Dropped)
  }

  lemma FewerStayServed(flushers: Flushers, flushers': Flushers, task: Task, task': Task, at: Places)
    requires FlushesServed(flushers, task, at) && FewerWait(flushers, flushers')
    requires forall f :: IsTaken(task', f) ==> IsTaken(task, f)
    ensures FlushesServed(flushers', task', at)
  {
    hide IsTaken, CoversAll;
    forall f | f in flushers' ensures IsServed(flushers'[f], IsTaken(task', f), at) {
      assert IsServed(flushers[f], IsTaken(task, f), at);
    }
  }

  lemma EndingsKeepFlushes(s: State, step: Step)
    requires FlushesOk(s) && IsEnabled(s, step, true) && (step.TaskExit? || step.TaskAbort?)
    ensures FlushesOk(Apply(s, step))
    ensures KeepsAll(AllPlaces(s), AllPlaces(Apply(s, step)))
  {
    hide FlushesServed, KeepsAll;
    var s' := Apply(s, step);
    FewerStayServed(s.flushers, s'.flushers, s.task, s'.task, AllPlaces(s));
    WorkersKeepAll(AllPlaces(s), step.w, Entering(false));
    KeptFlushes(s'.flushers, s'.task, s'.task, AllPlaces(s), AllPlaces(s'));
  }

  lemma FlushNotifyKeepsFlushes(s: State, step: Step)
    requires FlushesOk(s) && IsEnabled(s, step, true) && step.FlushNotify?
    ensures FlushesOk(Apply(s, step))
    ensures KeepsAll(AllPlaces(s), AllPlaces(Apply(s, step)))
  {
    hide FlushesServed;
    var s' := Apply(s, step);
    FewerStayServed(s.flushers, s'.flushers, s.task, s'.task, AllPlaces(s));
  }

  lemma FlushEndKeepsFlushes(s: State, step: Step)
    requires FlushesOk(s) && IsEnabled(s, step, true) && step.FlushEnd?
    ensures FlushesOk(Apply(s, step))
    ensures KeepsAll(AllPlaces(s), AllPlaces(Apply(s, step)))
  {
    hide FlushesServed, KeepsAll;
    var s' := Apply(s, step);
    FewerStayServed(s.flushers, s'.flushers, s.task, s'.task, AllPlaces(s));
    WorkersKeepAll(AllPlaces(s), step.f, Entering(false));
    SameKeepsAll(AllPlaces(s));
    KeptFlushes(s'.flushers, s'.task, s'.task, AllPlaces(s), AllPlaces(s'));
  }

  lemma NewFlushIsServed(at: Places, flusher: Flusher)
    requires flusher.reply.Waiting?
    requires forall path :: path in flusher.wanted ==> path in at.pending && at.pending[path].version == flusher.wanted[path]
    ensures IsServed(flusher, false, at)
  {
  }

  lemma OneMoreServed(flushers: Flushers, task: Task, at: Places, f: Id, flusher: Flusher)
    requires FlushesServed(flushers, task, at) && IsServed(flusher, false, at) && !IsTaken(task, f)
    ensures FlushesServed(flushers[f := flusher], task, at)
  {
    hide IsServed, IsTaken;
  }

  lemma FlushBeginKeepsFlushes(s: State, step: Step)
    requires FlushesOk(s) && WaitersOk(s) && IsEnabled(s, step, true) && step.FlushBegin?
    ensures FlushesOk(Apply(s, step))
    ensures KeepsAll(AllPlaces(s), AllPlaces(Apply(s, step)))
  {
    hide FlushesServed, KeepsAll;
    var s' := Apply(s, step);
    if s.running {
      NewFlushIsServed(AllPlaces(s), s'.flushers[step.f]);
      OneMoreServed(s.flushers, s.task, AllPlaces(s), step.f, s'.flushers[step.f]);
      SameKeepsAll(AllPlaces(s));
    } else {
      WorkersKeepAll(AllPlaces(s), step.f, Entering(false));
      KeptFlushesOk(s, s');
    }
  }

  /** With its hands empty, the task has executed what the flushes it took all for wanted. */
  lemma EmptyHandsServe(flusher: Flusher, at: Places)
    requires IsServed(flusher, true, at) && flusher.reply.Waiting? && at.hands == map[]
    ensures IsServed(flusher.(reply := Answered), false, at)
  {
    hide CoversAll;
    assert at.(pending := map[]) == at.(pending := map[], hands := map[]);
  }

  lemma AnswerKeepsFlushes(s: State, step: Step)
    requires FlushesOk(s) && WaitersOk(s) && IsEnabled(s, step, true) && step.TaskAnswer?
    ensures FlushesOk(Apply(s, step))
    ensures KeepsAll(AllPlaces(s), AllPlaces(Apply(s, step)))
  {
    hide IsServed;
    var at, s' := AllPlaces(s), Apply(s, step);
    forall f | f in s'.flushers ensures IsServed(s'.flushers[f], IsTaken(s'.task, f), AllPlaces(s')) {
      assert IsServed(s.flushers[f], IsTaken(s.task, f), at);
      if f in s.task.answering {
        EmptyHandsServe(s.flushers[f], at);
      } else {
        FewerTaken(s.flushers[f], IsTaken(s.task, f), false, at);
      }
    }
  }

  lemma WaitsKeepFlushes(s: State, step: Step)
    requires FlushesOk(s) && IsEnabled(s, step, true)
    requires step.Tick? || step.TaskBegin? || step.TaskDueDone? || step.TaskWake? || step.TaskTimer? || step.TaskLook?
    ensures FlushesOk(Apply(s, step))
    ensures KeepsAll(AllPlaces(s), AllPlaces(Apply(s, step)))
  {
    hide FlushesOk, KeepsAll, NextDue;
    SameKeepsAll(AllPlaces(s));
    KeptFlushesOk(s, Apply(s, step));
  }

  // ----- who waits -----

  ghost predicate WaitersKnown(flushing: set<Id>, answering: set<Id>, flushers: Flushers) {
    && flushing !! answering
    && forall f :: (f in flushing || f in answering) <==> (f in flushers && flushers[f].reply.Waiting?)
  }

  /** The flushes that wait are those in the list and, apart from them, those the task will answer. */
  ghost predicate WaitersOk(s: State) {
    WaitersKnown(s.flushing, Answering(s.task), s.flushers)
  }

  lemma CallersKeepWaiters(s: State, step: Step)
    requires WaitersOk(s) && IsEnabled(s, step, true) && (step.Spawn? ==> s.task.NoTask?)
    requires step.Draw? || step.Spawn? || step.Notify? || step.CloseNotify? || step.CloseBegin? || step.DrainBegin?
      || step.Take? || step.Leave? || step.Tick?
    ensures WaitersOk(Apply(s, step))
  {
    hide WaitersKnown;
  }

  lemma EnterKeepsWaiters(s: State, step: Step)
    requires WaitersOk(s) && IsEnabled(s, step, true) && step.Enter?
    ensures WaitersOk(Apply(s, step))
  {
    hide WaitersKnown;
  }

  lemma WritesKeepWaiters(s: State, step: Step)
    requires WaitersOk(s) && IsEnabled(s, step, true) && (step.Write? || step.TaskWrite?)
    ensures WaitersOk(Apply(s, step))
  {
    hide WaitersKnown, DiskAfter, FailuresAfter, SettledAfter;
  }

  lemma FlushesKeepWaiters(s: State, step: Step)
    requires WaitersOk(s) && IsEnabled(s, step, true) && (step.FlushBegin? || step.FlushNotify? || step.FlushEnd?)
    ensures WaitersOk(Apply(s, step))
  {
  }

  lemma EndingsKeepWaiters(s: State, step: Step)
    requires WaitersOk(s) && IsEnabled(s, step, true) && (step.TaskExit? || step.TaskAbort?)
    ensures WaitersOk(Apply(s, step))
  {
  }

  lemma AnswerKeepsWaiters(s: State, step: Step)
    requires WaitersOk(s) && IsEnabled(s, step, true) && step.TaskAnswer?
    ensures WaitersOk(Apply(s, step))
  {
  }

  lemma TaskStepsKeepWaiters(s: State, step: Step)
    requires WaitersOk(s) && IsEnabled(s, step, true)
    requires step.TaskBegin? || step.TaskTakeAll? || step.TaskDueDone? || step.TaskWake? || step.TaskTimer?
      || step.TaskTakeDue?
    ensures WaitersOk(Apply(s, step))
  {
    hide WaitersKnown;
  }

  lemma LookKeepsWaiters(s: State, step: Step)
    requires WaitersOk(s) && IsEnabled(s, step, true) && step.TaskLook?
    ensures WaitersOk(Apply(s, step))
  {
    hide NextDue;
  }

  lemma WaitersKept(s: State, step: Step)
    requires WaitersOk(s) && IsEnabled(s, step, true) && (step.Spawn? ==> s.task.NoTask?)
    ensures WaitersOk(Apply(s, step))
  {
    hide WaitersOk, Apply;
    match step {
      case Enter(_, _) => EnterKeepsWaiters(s, step);
      case Write(_, _, _) | TaskWrite(_, _) => WritesKeepWaiters(s, step);
      case FlushBegin(_) | FlushNotify(_) | FlushEnd(_) => FlushesKeepWaiters(s, step);
      case TaskExit(_) | TaskAbort(_) => EndingsKeepWaiters(s, step);
      case TaskAnswer => AnswerKeepsWaiters(s, step);
      case TaskLook => LookKeepsWaiters(s, step);
      case TaskBegin | TaskTakeAll | TaskDueDone | TaskWake | TaskTimer | TaskTakeDue => TaskStepsKeepWaiters(s, step);
      case _ => CallersKeepWaiters(s, step);
    }
  }

  lemma JobsArePlaced(s: State, step: Step)
    requires VersionsOk(s) && IsEnabled(s, step, true)
    ensures step.Write? ==> s.workers[step.w].jobs[step.path].path == step.path
    ensures step.TaskWrite? ==> Hands(s.task)[step.path].path == step.path
  {
    if step.Write? {
      HoldingIsKnown(s, step.w);
    }
  }

  lemma FlushesKept(s: State, step: Step)
    requires VersionsOk(s) && FlushesOk(s) && WaitersOk(s) && IsEnabled(s, step, true)
    requires step.Spawn? ==> s.task.NoTask?
    ensures FlushesOk(Apply(s, step))
    ensures KeepsAll(AllPlaces(s), AllPlaces(Apply(s, step)))
  {
    JobsArePlaced(s, step);
    hide VersionsOk, FlushesOk, WaitersOk, Apply;
    match step {
      case Enter(_, _) => EnterKeepsFlushes(s, step);
      case Draw(_, _, _, _) | Spawn(_) | CloseNotify(_) | CloseBegin(_) | DrainBegin(_) => CallsKeepFlushes(s, step);
      case Notify(_) | Leave(_) => LeavesKeepFlushes(s, step);
      case Take(_) => TakeKeepsFlushes(s, step);
      case Write(_, _, _) => WriteKeepsFlushes(s, step);
      case TaskWrite(_, _) => TaskWriteKeepsFlushes(s, step);
      case TaskTakeDue => TakeDueKeepsFlushes(s, step);
      case TaskTakeAll => TakeAllKeepsFlushes(s, step);
      case TaskExit(_) | TaskAbort(_) => EndingsKeepFlushes(s, step);
      case FlushBegin(_) => FlushBeginKeepsFlushes(s, step);
      case FlushNotify(_) => FlushNotifyKeepsFlushes(s, step);
      case FlushEnd(_) => FlushEndKeepsFlushes(s, step);
      case TaskAnswer => AnswerKeepsFlushes(s, step);
      case _ => WaitsKeepFlushes(s, step);
    }
  }
}
