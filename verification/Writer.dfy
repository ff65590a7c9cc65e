/** The coalescing persist writer (porthmos-core/src/persist/writer/mod.rs) as a state machine: any
    number of callers, one background task, inline drains, flushes and closing, interleaved at every
    point where a lock is taken or a file is written. Executing one job is a single step, which
    Locks.StepsAreAtomicWrites justifies. */
module Writer {
  import opened Ordered

  type Path = string
  type Id = nat

  datatype Job = Job(path: Path, version: nat, tag: nat, contents: string)

  type Jobs = map<Path, Job>

  /** A thread inside a call of the writer. */
  datatype Worker =
    | Drawn(job: Job)                        // write_lazy: has its version, not yet the lock
    | MustStart                              // write_lazy: queued, must start the task, then wake it
    | MustNotify                             // write_lazy: queued, must wake the task
    | MustNotifyClosed                       // close: marked closed, must wake the task
    | Entering(closes: bool)                 // write_pending_now: about to take what is pending
    | Holding(jobs: Jobs)                    // writing taken jobs, or its own job inline

  /** A flush that found the task running: what was pending then, whether it has woken the task yet,
      and what it heard. */
  datatype Reply = Waiting | Answered | Dropped

  datatype Flusher = Flusher(wanted: map<Path, nat>, notified: bool, reply: Reply)

  type Workers = map<Id, Worker>
  type Flushers = map<Id, Flusher>

  datatype Task =
    | NoTask
    | Starting                               // spawned, not yet running
    | Top                                    // at the head of its loop
    | Chosen(closing: bool, answering: set<Id>)          // must write everything, has not taken it yet
    | WritingAll(closing: bool, answering: set<Id>, jobs: Jobs)
    | Selecting(timer: Option<nat>)          // waiting for a wake-up or the timer
    | TakingDue(now: nat)
    | WritingDue(jobs: Jobs)
    | Exiting

  datatype State = State(
    nextVersion: nat,
    clock: nat,
    interval: nat,
    pending: Jobs,
    running: bool,
    flushing: set<Id>,
    closed: bool,
    permit: bool,
    task: Task,
    last: map<Path, nat>,
    workers: Workers,
    flushers: Flushers,
    disk: Jobs,
    // What the proofs follow: failures reported or returned, the newest job each path was given, the
    // newest version executed, and whether a close has taken what was pending.
    failures: set<Job>,
    submitted: Jobs,
    settled: map<Path, nat>,
    sealed: bool)

  datatype Step =
    | Tick
    | Draw(w: Id, path: Path, tag: nat, contents: string)
    | Enter(w: Id, hasRuntime: bool)
    | Spawn(w: Id)
    | Notify(w: Id)
    | CloseNotify(w: Id)
    | CloseBegin(w: Id)
    | DrainBegin(w: Id)
    | Take(w: Id)
    | Write(w: Id, path: Path, succeeds: bool)
    | Leave(w: Id)
    | FlushBegin(f: Id)
    | FlushNotify(f: Id)
    | FlushEnd(f: Id)
    | TaskBegin
    | TaskLook
    | TaskTakeAll
    | TaskWrite(path: Path, succeeds: bool)
    | TaskAnswer
    | TaskDueDone
    | TaskWake
    | TaskTimer
    | TaskTakeDue
    | TaskExit(w: Id)
    | TaskAbort(w: Id)

  function Start(interval: nat): State {
    State(
      1, 0, interval, map[], false, {}, false, false, NoTask, map[], map[], map[], map[], {}, map[], map[], false)
  }

  function VersionOf(jobs: Jobs, path: Path): nat {
    if path in jobs then jobs[path].version else 0
  }

  function Hands(task: Task): Jobs {
    match task
    case WritingAll(_, _, jobs) => jobs
    case WritingDue(jobs) => jobs
    case _ => map[]
  }

  function Answering(task: Task): set<Id> {
    match task
    case Chosen(_, answering) => answering
    case WritingAll(_, answering, _) => answering
    case _ => {}
  }

  // ----- pacing -----

  function DueAt(s: State, path: Path): nat {
    if path in s.last then s.last[path] + s.interval else s.clock
  }

  /** When the next pending job may be written: the earliest of their times. */
  function NextDue(s: State): (due: Option<nat>)
    ensures due.None? <==> s.pending == map[]
    ensures due.Some? ==> forall path :: path in s.pending ==> due.value <= DueAt(s, path)
    ensures due.Some? ==> exists path :: path in s.pending && due.value == DueAt(s, path)
  {
    if s.pending == map[] then None
    else
      var times := set path | path in s.pending :: DueAt(s, path);
      assert times != {} by {
        var path :| path in s.pending;
        assert DueAt(s, path) in times;
      }
      assert forall path :: path in s.pending ==> DueAt(s, path) in times;
      Some(Least(times))
  }

  predicate IsDue(s: State, path: Path, now: nat) {
    path !in s.last || s.last[path] + s.interval <= now
  }

  function DueJobs(s: State, now: nat): Jobs {
    map path | path in s.pending && IsDue(s, path, now) :: s.pending[path]
  }

  // ----- the steps -----

  function WithWorker(s: State, w: Id, worker: Worker): State {
    s.(workers := s.workers[w := worker])
  }

  function WithoutWorker(s: State, w: Id): State {
    s.(workers := s.workers - {w})
  }

  // Rendering a job and writing it with its version: a version at or below the one on disk is
  // dropped, a failure is reported or returned.

  function DiskAfter(disk: Jobs, job: Job, succeeds: bool): Jobs {
    if succeeds && VersionOf(disk, job.path) < job.version then disk[job.path := job] else disk
  }

  function FailuresAfter(failures: set<Job>, job: Job, succeeds: bool): set<Job> {
    if succeeds then failures else failures + {job}
  }

  function SettledAfter(settled: map<Path, nat>, job: Job): map<Path, nat> {
    settled[job.path := if job.path in settled && settled[job.path] > job.version then settled[job.path] else job.version]
  }

  function Executed(s: State, job: Job, succeeds: bool): State {
    s.(disk := DiskAfter(s.disk, job, succeeds), failures := FailuresAfter(s.failures, job, succeeds),
      settled := SettledAfter(s.settled, job))
  }

  /** A write that is not queued supersedes a pending one for its path; its own thread executes it. */
  function EnterInline(s: State, w: Id, job: Job): State {
    s.(submitted := s.submitted[job.path := job], pending := s.pending - {job.path},
      workers := s.workers[w := Holding(map[job.path := job])])
  }

  function EnterQueue(s: State, w: Id, job: Job): State {
    s.(submitted := s.submitted[job.path := job], pending := s.pending[job.path := job], running := true,
      workers := s.workers[w := if s.running then MustNotify else MustStart])
  }

  /** The running mark is dropped: nobody runs, waiting flushes learn they were dropped, and the
      dropping thread writes what is pending. */
  function MarkDropped(s: State, w: Id): State {
    var unanswered := s.flushing + Answering(s.task);
    s.(running := false, flushing := {}, task := NoTask,
      flushers := map f | f in s.flushers ::
        if f in unanswered then s.flushers[f].(reply := Dropped) else s.flushers[f],
      workers := s.workers[w := Entering(false)])
  }

  ghost predicate MayDraw(s: State, path: Path) {
    forall w :: w in s.workers && s.workers[w].Drawn? ==> s.workers[w].job.path != path
  }

  /** `serial` is the callers' side of the contract: between drawing a version for a path and taking
      the lock with it, no other version is drawn for that path. */
  ghost predicate IsEnabled(s: State, step: Step, serial: bool) {
    match step
    case Tick => true
    case Draw(w, path, _, _) => w !in s.workers && w !in s.flushers && (serial ==> MayDraw(s, path))
    case Enter(w, _) => w in s.workers && s.workers[w].Drawn?
    case Spawn(w) => w in s.workers && s.workers[w].MustStart?
    case Notify(w) => w in s.workers && s.workers[w].MustNotify?
    case CloseNotify(w) => w in s.workers && s.workers[w].MustNotifyClosed?
    case CloseBegin(w) => w !in s.workers && w !in s.flushers
    case DrainBegin(w) => w !in s.workers && w !in s.flushers
    case Take(w) => w in s.workers && s.workers[w].Entering?
    case Write(w, path, _) => w in s.workers && s.workers[w].Holding? && path in s.workers[w].jobs
    case Leave(w) => w in s.workers && s.workers[w].Holding? && s.workers[w].jobs == map[]
    case FlushBegin(f) => f !in s.workers && f !in s.flushers
    case FlushNotify(f) => f in s.flushers && !s.flushers[f].notified
    case FlushEnd(f) => f in s.flushers && s.flushers[f].notified && !s.flushers[f].reply.Waiting? && f !in s.workers
    case TaskBegin => s.task.Starting?
    case TaskLook => s.task.Top?
    case TaskTakeAll => s.task.Chosen?
    case TaskWrite(path, _) => path in Hands(s.task)
    case TaskAnswer => s.task.WritingAll? && s.task.jobs == map[]
    case TaskDueDone => s.task.WritingDue? && s.task.jobs == map[]
    case TaskWake => s.task.Selecting? && s.permit
    case TaskTimer => s.task.Selecting? && s.task.timer.Some? && s.task.timer.value <= s.clock
    case TaskTakeDue => s.task.TakingDue?
    case TaskExit(w) => s.task.Exiting? && w !in s.workers && w !in s.flushers
    // A task is only aborted where it waits; waiting for a write in progress is excluded here.
    case TaskAbort(w) => (s.task.Starting? || s.task.Selecting?) && w !in s.workers && w !in s.flushers
  }

  ghost function Apply(s: State, step: Step): State
    requires IsEnabled(s, step, false)
  {
    match step
    case Tick => s.(clock := s.clock + 1)
    case Draw(w, path, tag, contents) =>
      WithWorker(s, w, Drawn(Job(path, s.nextVersion, tag, contents))).(nextVersion := s.nextVersion + 1)
    case Enter(w, hasRuntime) =>
      if s.closed || !(s.running || hasRuntime) then EnterInline(s, w, s.workers[w].job)
      else EnterQueue(s, w, s.workers[w].job)
    case Spawn(w) => WithWorker(s, w, MustNotify).(task := Starting)
    case Notify(w) => WithoutWorker(s, w).(permit := true)
    case CloseNotify(w) => WithWorker(s, w, Entering(true)).(permit := true)
    case CloseBegin(w) => WithWorker(s, w, MustNotifyClosed).(closed := true)
    case DrainBegin(w) => WithWorker(s, w, Entering(false))
    case Take(w) =>
      WithWorker(s, w, Holding(s.pending)).(pending := map[], sealed := s.sealed || s.workers[w].closes)
    case Write(w, path, succeeds) =>
      Executed(WithWorker(s, w, Holding(s.workers[w].jobs - {path})), s.workers[w].jobs[path], succeeds)
    case Leave(w) => WithoutWorker(s, w)
    case FlushBegin(f) =>
      if s.running then
        s.(flushing := s.flushing + {f},
          flushers := s.flushers[f := Flusher(map path | path in s.pending :: s.pending[path].version, false, Waiting)])
      else WithWorker(s, f, Entering(false))
    case FlushNotify(f) => s.(permit := true, flushers := s.flushers[f := s.flushers[f].(notified := true)])
    case FlushEnd(f) =>
      var ended := s.(flushers := s.flushers - {f});
      if s.running then ended else WithWorker(ended, f, Entering(false))
    case TaskBegin => s.(task := Top, last := map[])
    case TaskLook =>
      s.(flushing := {},
        task := if s.closed || s.flushing != {} then Chosen(s.closed, s.flushing) else Selecting(NextDue(s)))
    case TaskTakeAll => s.(pending := map[], task := WritingAll(s.task.closing, s.task.answering, s.pending))
    case TaskWrite(path, succeeds) =>
      var job := Hands(s.task)[path];
      var task :=
        if s.task.WritingAll? then s.task.(jobs := s.task.jobs - {path}) else WritingDue(Hands(s.task) - {path});
      Executed(s.(task := task, last := s.last[path := s.clock]), job, succeeds)
    case TaskAnswer =>
      s.(task := if s.task.closing then Exiting else Top,
        flushers := map f | f in s.flushers ::
          if f in s.task.answering then s.flushers[f].(reply := Answered) else s.flushers[f])
    case TaskDueDone => s.(task := Top)
    case TaskWake => s.(permit := false, task := Top)
    case TaskTimer => s.(task := TakingDue(s.clock))
    case TaskTakeDue =>
      var due := DueJobs(s, s.task.now);
      s.(pending := s.pending - due.Keys, task := WritingDue(due))
    case TaskExit(w) => MarkDropped(s, w)
    case TaskAbort(w) => MarkDropped(s, w)
  }

  ghost predicate IsStep(s: State, step: Step, s': State) {
    IsEnabled(s, step, true) && s' == Apply(s, step)
  }

  ghost predicate IsRun(run: seq<State>, steps: seq<Step>, interval: nat) {
    && |run| == |steps| + 1 && run[0] == Start(interval)
    && forall i :: 0 <= i < |steps| ==> IsStep(run[i], steps[i], run[i + 1])
  }

  // ----- without the callers' side of the contract -----

  ghost predicate IsLooseStep(s: State, step: Step, s': State) {
    IsEnabled(s, step, false) && s' == Apply(s, step)
  }

  ghost predicate IsLooseRun(run: seq<State>, steps: seq<Step>, interval: nat) {
    && |run| == |steps| + 1 && run[0] == Start(interval)
    && forall i :: 0 <= i < |steps| ==> IsLooseStep(run[i], steps[i], run[i + 1])
  }
}
