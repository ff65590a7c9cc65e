/** Left to itself the writer comes to rest: its own steps cannot go on for ever, and where they end
    everything is written or waits for its time. */
module WriterProgress {
  import opened Ordered
  import opened Writer
  import opened WriterVersions
  import opened WriterRuns
  import opened WriterFlush
  import opened WriterSafety

  // ----- sums over maps -----

  ghost function SumOf(m: map<Id, nat>): nat {
    if m == map[] then 0
    else
      var k := Least(m.Keys);
      m[k] + SumOf(m - {k})
  }

  lemma {:induction false} SumWithout(m: map<Id, nat>, k: Id)
    requires k in m
    ensures SumOf(m) == m[k] + SumOf(m - {k})
    decreases |m|
  {
    var least := Least(m.Keys);
    if k == least {
    } else {
      var rest := m - {least};
      SumWithout(rest, k);
      SumWithout(m - {k}, least);
      assert rest - {k} == m - {k} - {least};
    }
  }

  lemma SumWith(m: map<Id, nat>, k: Id, v: nat)
    ensures SumOf(m[k := v]) == v + SumOf(m - {k})
  {
    SumWithout(m[k := v], k);
    assert m[k := v] - {k} == m - {k};
  }

  lemma {:induction false} SumIsMonotone(m: map<Id, nat>, m': map<Id, nat>)
    requires m.Keys == m'.Keys && forall k :: k in m ==> m'[k] <= m[k]
    ensures SumOf(m') <= SumOf(m)
    decreases |m|
  {
    if m == map[] {
    } else {
      var k := Least(m.Keys);
      SumIsMonotone(m - {k}, m' - {k});
    }
  }

  // ----- what each part still has to do -----

  ghost function WorkerWeight(worker: Worker): nat {
    match worker
    case Drawn(_) => 33
    case MustStart => 24
    case MustNotify => 6
    case MustNotifyClosed => 18
    case Entering(_) => 12
    case Holding(jobs) => 1 + |jobs|
  }

  ghost function FlusherWeight(flusher: Flusher): nat {
    13 + (if flusher.reply.Waiting? then 5 else 0) + (if flusher.notified then 0 else 6)
  }

  ghost function TaskWeight(task: Task): nat {
    match task
    case NoTask => 0
    case Starting => 17
    case Top => 16
    case Chosen(_, _) => 15
    case WritingAll(_, _, jobs) => 14 + |jobs|
    case Selecting(_) => 12
    case TakingDue(_) => 11
    case WritingDue(jobs) => 17 + |jobs|
    case Exiting => 13
  }

  ghost predicate NoneDue(pending: Jobs, last: map<Path, nat>, interval: nat, now: nat) {
    forall path :: path in pending ==> path in last && now < last[path] + interval
  }

  /** A timer for a job that somebody else has taken since costs the task a turn for nothing. */
  ghost function Staleness(task: Task, pending: Jobs, last: map<Path, nat>, interval: nat): nat {
    match task
    case Selecting(Some(timer)) => if NoneDue(pending, last, interval, timer) then 10 else 0
    case TakingDue(now) => if NoneDue(pending, last, interval, now) then 10 else 0
    case _ => 0
  }

  ghost function WorkerWeights(workers: Workers): map<Id, nat> {
    map w | w in workers :: WorkerWeight(workers[w])
  }

  ghost function FlusherWeights(flushers: Flushers): map<Id, nat> {
    map f | f in flushers :: FlusherWeight(flushers[f])
  }

  ghost function TaskLoad(s: State): nat {
    TaskWeight(s.task) + Staleness(s.task, s.pending, s.last, s.interval) + if s.permit then 5 else 0
  }

  ghost function WorkerLoad(workers: Workers): nat {
    SumOf(WorkerWeights(workers))
  }

  ghost function FlusherLoad(flushers: Flushers): nat {
    SumOf(FlusherWeights(flushers))
  }

  ghost function Load(s: State): nat {
    TaskLoad(s) + 8 * |s.pending| + WorkerLoad(s.workers) + FlusherLoad(s.flushers)
  }

  lemma WorkerMoved(workers: Workers, w: Id, worker: Worker)
    ensures w in workers ==>
      WorkerLoad(workers[w := worker]) + WorkerWeight(workers[w]) == WorkerLoad(workers) + WorkerWeight(worker)
    ensures w !in workers ==> WorkerLoad(workers[w := worker]) == WorkerLoad(workers) + WorkerWeight(worker)
    ensures w in workers ==> WorkerLoad(workers - {w}) + WorkerWeight(workers[w]) == WorkerLoad(workers)
  {
    var m := WorkerWeights(workers);
    assert WorkerWeights(workers[w := worker]) == m[w := WorkerWeight(worker)];
    assert WorkerWeights(workers - {w}) == m - {w};
    SumWith(m, w, WorkerWeight(worker));
    if w in workers {
      SumWithout(m, w);
    } else {
      assert m - {w} == m;
    }
  }

  lemma FlusherMoved(flushers: Flushers, f: Id, flusher: Flusher)
    requires f in flushers
    ensures FlusherLoad(flushers[f := flusher]) + FlusherWeight(flushers[f]) ==
      FlusherLoad(flushers) + FlusherWeight(flusher)
    ensures FlusherLoad(flushers - {f}) + FlusherWeight(flushers[f]) == FlusherLoad(flushers)
  {
    var m := FlusherWeights(flushers);
    assert FlusherWeights(flushers[f := flusher]) == m[f := FlusherWeight(flusher)];
    assert FlusherWeights(flushers - {f}) == m - {f};
    SumWith(m, f, FlusherWeight(flusher));
    SumWithout(m, f);
  }

  ghost predicate NoneHeavier(flushers: Flushers, flushers': Flushers) {
    flushers'.Keys == flushers.Keys &&
    forall f :: f in flushers ==> FlusherWeight(flushers'[f]) <= FlusherWeight(flushers[f])
  }

  lemma FlushersLighten(flushers: Flushers, flushers': Flushers)
    requires NoneHeavier(flushers, flushers')
    ensures FlusherLoad(flushers') <= FlusherLoad(flushers)
    ensures forall f :: f in flushers && FlusherWeight(flushers'[f]) + 5 <= FlusherWeight(flushers[f]) ==>
      FlusherLoad(flushers') + 5 <= FlusherLoad(flushers)
  {
    var m, m' := FlusherWeights(flushers), FlusherWeights(flushers');
    SumIsMonotone(m, m');
    forall f | f in flushers && FlusherWeight(flushers'[f]) + 5 <= FlusherWeight(flushers[f])
      ensures FlusherLoad(flushers') + 5 <= FlusherLoad(flushers)
    {
      SumIsMonotone(m - {f}, m' - {f});
      SumWithout(m, f);
      SumWithout(m', f);
    }
  }

  lemma SizeWith(jobs: Jobs, path: Path, job: Job)
    ensures |jobs[path := job]| <= |jobs| + 1
    ensures |jobs - {path}| <= |jobs|
    ensures path in jobs ==> |jobs - {path}| + 1 == |jobs|
  {
    assert (jobs - {path}).Keys == jobs.Keys - {path};
    assert jobs[path := job].Keys == jobs.Keys + {path};
  }

  lemma SizeAfterTaking(pending: Jobs, due: Jobs)
    requires due.Keys <= pending.Keys
    ensures |pending - due.Keys| + |due| == |pending|
  {
    assert (pending - due.Keys).Keys == pending.Keys - due.Keys;
  }

  lemma StalenessIsSmall(task: Task, pending: Jobs, last: map<Path, nat>, interval: nat)
    ensures Staleness(task, pending, last, interval) <= 10
    ensures !task.Selecting? && !task.TakingDue? ==> Staleness(task, pending, last, interval) == 0
  {
  }

  lemma MorePendingIsFresher(task: Task, pending: Jobs, pending': Jobs, last: map<Path, nat>, interval: nat)
    requires pending.Keys <= pending'.Keys
    ensures Staleness(task, pending', last, interval) <= Staleness(task, pending, last, interval)
  {
  }

  // ----- every step of the writer's own lessens what is to be done -----

  ghost predicate Shrinks(s: State, s': State) {
    Load(s') < Load(s)
  }

  /** A task that writes everything has a reason: closing, or a flush to answer. */
  ghost predicate ChoiceOk(s: State) {
    && (s.task.Chosen? && !s.task.closing ==> s.task.answering != {})
    && (s.task.WritingAll? && !s.task.closing ==> s.task.answering != {})
  }

  lemma InlineShrinks(s: State, w: Id, job: Job)
    requires w in s.workers && s.workers[w] == Drawn(job)
    ensures Shrinks(s, EnterInline(s, w, job))
  {
    hide Staleness, WorkerLoad, FlusherLoad;
    var s' := EnterInline(s, w, job);
    WorkerMoved(s.workers, w, Holding(map[job.path := job]));
    SizeWith(s.pending, job.path, job);
    StalenessIsSmall(s.task, s'.pending, s.last, s.interval);
  }

  lemma QueueingShrinks(s: State, w: Id, job: Job)
    requires w in s.workers && s.workers[w] == Drawn(job)
    ensures Shrinks(s, EnterQueue(s, w, job))
  {
    hide Staleness, WorkerLoad, FlusherLoad;
    var s' := EnterQueue(s, w, job);
    WorkerMoved(s.workers, w, if s.running then MustNotify else MustStart);
    SizeWith(s.pending, job.path, job);
    MorePendingIsFresher(s.task, s.pending, s'.pending, s.last, s.interval);
  }

  lemma EnterShrinks(s: State, step: Step)
    requires IsEnabled(s, step, true) && step.Enter?
    ensures Shrinks(s, Apply(s, step))
  {
    hide EnterInline, EnterQueue, Shrinks;
    InlineShrinks(s, step.w, s.workers[step.w].job);
    QueueingShrinks(s, step.w, s.workers[step.w].job);
  }

  lemma CallsShrink(s: State, step: Step)
    requires IsEnabled(s, step, true) && (step.Notify? || step.CloseNotify? || step.Leave?)
    ensures Shrinks(s, Apply(s, step))
  {
    hide Staleness, WorkerLoad, FlusherLoad;
    WorkerMoved(s.workers, step.w, Entering(true));
  }

  lemma SpawnShrinks(s: State, step: Step)
    requires IsEnabled(s, step, true) && step.Spawn? && s.task.NoTask?
    ensures Shrinks(s, Apply(s, step))
  {
    hide WorkerLoad, FlusherLoad;
    WorkerMoved(s.workers, step.w, MustNotify);
  }

  lemma TakeShrinks(s: State, step: Step)
    requires IsEnabled(s, step, true) && step.Take?
    ensures Shrinks(s, Apply(s, step))
  {
    hide Staleness, WorkerLoad, FlusherLoad;
    WorkerMoved(s.workers, step.w, Holding(s.pending));
    StalenessIsSmall(s.task, map[], s.last, s.interval);
  }

  lemma WriteShrinks(s: State, step: Step)
    requires IsEnabled(s, step, true) && step.Write?
    ensures Shrinks(s, Apply(s, step))
  {
    hide Staleness, WorkerLoad, FlusherLoad, DiskAfter, FailuresAfter, SettledAfter;
    var jobs := s.workers[step.w].jobs;
    WorkerMoved(s.workers, step.w, Holding(jobs - {step.path}));
    SizeWith(jobs, step.path, jobs[step.path]);
  }

  lemma TaskWriteShrinks(s: State, step: Step)
    requires IsEnabled(s, step, true) && step.TaskWrite?
    ensures Shrinks(s, Apply(s, step))
  {
    hide WorkerLoad, FlusherLoad, DiskAfter, FailuresAfter, SettledAfter, NoneDue;
    SizeWith(Hands(s.task), step.path, Hands(s.task)[step.path]);
  }

  lemma FlushNotifyShrinks(s: State, step: Step)
    requires IsEnabled(s, step, true) && step.FlushNotify?
    ensures Shrinks(s, Apply(s, step))
  {
    hide Staleness, WorkerLoad, FlusherLoad;
    FlusherMoved(s.flushers, step.f, s.flushers[step.f].(notified := true));
  }

  lemma FlushEndShrinks(s: State, step: Step)
    requires IsEnabled(s, step, true) && step.FlushEnd?
    ensures Shrinks(s, Apply(s, step))
  {
    hide Staleness, WorkerLoad, FlusherLoad;
    FlusherMoved(s.flushers, step.f, s.flushers[step.f]);
    WorkerMoved(s.workers, step.f, Entering(false));
  }

  lemma LookShrinks(s: State, step: Step)
    requires IsEnabled(s, step, true) && step.TaskLook?
    ensures Shrinks(s, Apply(s, step))
  {
    hide WorkerLoad, FlusherLoad;
    assert NextDue(s).Some? ==> !NoneDue(s.pending, s.last, s.interval, NextDue(s).value);
    hide NoneDue;
  }

  lemma TakeAllShrinks(s: State, step: Step)
    requires IsEnabled(s, step, true) && step.TaskTakeAll?
    ensures Shrinks(s, Apply(s, step))
  {
    hide WorkerLoad, FlusherLoad;
  }

  lemma NothingDueTaken(s: State, now: nat)
    ensures DueJobs(s, now).Keys <= s.pending.Keys
    ensures |DueJobs(s, now)| == 0 ==> NoneDue(s.pending, s.last, s.interval, now)
  {
    var due := DueJobs(s, now);
    if |due| == 0 {
      assert due.Keys == {};
      forall path | path in s.pending ensures path in s.last && now < s.last[path] + s.interval {
        assert path !in due;
      }
    }
  }

  lemma TakeDueShrinks(s: State, step: Step)
    requires IsEnabled(s, step, true) && step.TaskTakeDue?
    ensures Shrinks(s, Apply(s, step))
  {
    hide WorkerLoad, FlusherLoad, NoneDue, DueJobs;
    NothingDueTaken(s, s.task.now);
    SizeAfterTaking(s.pending, DueJobs(s, s.task.now));
  }

  lemma TimerShrinks(s: State, step: Step)
    requires IsEnabled(s, step, true) && step.TaskTimer?
    ensures Shrinks(s, Apply(s, step))
  {
    hide WorkerLoad, FlusherLoad;
  }

  lemma WaitsShrink(s: State, step: Step)
    requires IsEnabled(s, step, true) && (step.TaskBegin? || step.TaskDueDone? || step.TaskWake?)
    ensures Shrinks(s, Apply(s, step))
  {
    hide WorkerLoad, FlusherLoad, NoneDue;
  }

  lemma AnswerShrinks(s: State, step: Step)
    requires WaitersOk(s) && ChoiceOk(s) && IsEnabled(s, step, true) && step.TaskAnswer?
    ensures Shrinks(s, Apply(s, step))
  {
    hide WorkerLoad, FlusherLoad, NoneDue;
    var s' := Apply(s, step);
    assert NoneHeavier(s.flushers, s'.flushers);
    FlushersLighten(s.flushers, s'.flushers);
    if !s.task.closing {
      var f :| f in s.task.answering;
      assert FlusherWeight(s'.flushers[f]) + 5 <= FlusherWeight(s.flushers[f]);
    }
  }

  lemma ExitShrinks(s: State, step: Step)
    requires IsEnabled(s, step, true) && step.TaskExit?
    ensures Shrinks(s, Apply(s, step))
  {
    hide MarkDropped, Load;
    DroppingShrinks(s, step.w);
  }

  lemma DroppingShrinks(s: State, w: Id)
    requires s.task.Exiting? && w !in s.workers
    ensures Shrinks(s, MarkDropped(s, w))
  {
    hide WorkerLoad, FlusherLoad, NoneDue;
    var s' := MarkDropped(s, w);
    assert NoneHeavier(s.flushers, s'.flushers);
    FlushersLighten(s.flushers, s'.flushers);
    WorkerMoved(s.workers, w, Entering(false));
  }

  lemma OwnStepsShrink(s: State, step: Step)
    requires IsSafe(s) && ChoiceOk(s) && IsOwn(step) && IsEnabled(s, step, true)
    ensures Shrinks(s, Apply(s, step))
  {
    hide Shrinks, Apply;
    match step {
      case Enter(_, _) => EnterShrinks(s, step);
      case Spawn(_) => SpawnFindsNoTask(s, step); SpawnShrinks(s, step);
      case Notify(_) | CloseNotify(_) | Leave(_) => CallsShrink(s, step);
      case Take(_) => TakeShrinks(s, step);
      case Write(_, _, _) => WriteShrinks(s, step);
      case FlushNotify(_) => FlushNotifyShrinks(s, step);
      case FlushEnd(_) => FlushEndShrinks(s, step);
      case TaskLook => LookShrinks(s, step);
      case TaskTakeAll => TakeAllShrinks(s, step);
      case TaskWrite(_, _) => TaskWriteShrinks(s, step);
      case TaskAnswer => AnswerShrinks(s, step);
      case TaskTimer => TimerShrinks(s, step);
      case TaskTakeDue => TakeDueShrinks(s, step);
      case TaskBegin | TaskDueDone | TaskWake => WaitsShrink(s, step);
      case TaskExit(_) => ExitShrinks(s, step);
      case _ =>
    }
  }

  // ----- the choice to write everything always has its reason -----

  lemma CallsKeepChoice(s: State, step: Step)
    requires ChoiceOk(s) && IsEnabled(s, step, true)
    requires step.Draw? || step.Spawn? || step.Notify? || step.CloseNotify? || step.CloseBegin? || step.DrainBegin?
      || step.Take? || step.Leave? || step.FlushBegin? || step.FlushNotify? || step.FlushEnd? || step.Tick?
    ensures ChoiceOk(Apply(s, step))
  {
  }

  lemma EnterKeepsChoice(s: State, step: Step)
    requires ChoiceOk(s) && IsEnabled(s, step, true) && step.Enter?
    ensures ChoiceOk(Apply(s, step))
  {
  }

  lemma WritesKeepChoice(s: State, step: Step)
    requires ChoiceOk(s) && IsEnabled(s, step, true) && (step.Write? || step.TaskWrite?)
    ensures ChoiceOk(Apply(s, step))
  {
    hide DiskAfter, FailuresAfter, SettledAfter;
  }

  lemma TaskStepsKeepChoice(s: State, step: Step)
    requires ChoiceOk(s) && IsEnabled(s, step, true)
    requires step.TaskBegin? || step.TaskLook? || step.TaskTakeAll? || step.TaskAnswer? || step.TaskDueDone?
      || step.TaskWake? || step.TaskTimer? || step.TaskTakeDue? || step.TaskExit? || step.TaskAbort?
    ensures ChoiceOk(Apply(s, step))
  {
    hide NextDue, DueJobs;
  }

  lemma ChoiceKept(s: State, step: Step)
    requires ChoiceOk(s) && IsEnabled(s, step, true)
    ensures ChoiceOk(Apply(s, step))
  {
    hide ChoiceOk, Apply;
    match step {
      case Enter(_, _) => EnterKeepsChoice(s, step);
      case Write(_, _, _) | TaskWrite(_, _) => WritesKeepChoice(s, step);
      case TaskBegin | TaskLook | TaskTakeAll | TaskAnswer | TaskDueDone | TaskWake | TaskTimer | TaskTakeDue
        | TaskExit(_) | TaskAbort(_) => TaskStepsKeepChoice(s, step);
      case _ => CallsKeepChoice(s, step);
    }
  }

  lemma {:induction false} RunsKeepChoice(run: seq<State>, steps: seq<Step>, interval: nat, i: nat)
    requires IsRun(run, steps, interval) && i < |run|
    ensures ChoiceOk(run[i])
  {
    hide Apply, IsEnabled;
    if i == 0 {
    } else {
      RunsKeepChoice(run, steps, interval, i - 1);
      assert IsStep(run[i - 1], steps[i - 1], run[i]);
      ChoiceKept(run[i - 1], steps[i - 1]);
    }
  }

  // ----- no timer is set further ahead than the interval -----

  /** Every recorded write is past, and a timer goes off within the interval. */
  ghost predicate IsWithin(last: map<Path, nat>, clock: nat, interval: nat, task: Task) {
    && (forall path :: path in last ==> last[path] <= clock)
    && (task.Selecting? && task.timer.Some? ==> task.timer.value <= clock + interval)
  }

  ghost predicate PaceOk(s: State) {
    IsWithin(s.last, s.clock, s.interval, s.task)
  }

  lemma CallsKeepPace(s: State, step: Step)
    requires PaceOk(s) && IsEnabled(s, step, true)
    requires step.Draw? || step.Spawn? || step.Notify? || step.CloseNotify? || step.CloseBegin? || step.DrainBegin?
      || step.Take? || step.Leave? || step.FlushBegin? || step.FlushNotify? || step.FlushEnd? || step.Tick?
    ensures PaceOk(Apply(s, step))
  {
  }

  lemma EnterKeepsPace(s: State, step: Step)
    requires PaceOk(s) && IsEnabled(s, step, true) && step.Enter?
    ensures PaceOk(Apply(s, step))
  {
    hide EnterInline, EnterQueue, PaceOk;
    InlineKeepsPace(s, step.w, s.workers[step.w].job);
    QueueingKeepsPace(s, step.w, s.workers[step.w].job);
  }

  lemma InlineKeepsPace(s: State, w: Id, job: Job)
    requires PaceOk(s)
    ensures PaceOk(EnterInline(s, w, job))
  {
    hide IsWithin;
  }

  lemma QueueingKeepsPace(s: State, w: Id, job: Job)
    requires PaceOk(s)
    ensures PaceOk(EnterQueue(s, w, job))
  {
    hide IsWithin;
  }

  lemma WritesKeepPace(s: State, step: Step)
    requires PaceOk(s) && IsEnabled(s, step, true) && (step.Write? || step.TaskWrite?)
    ensures PaceOk(Apply(s, step))
  {
    hide DiskAfter, FailuresAfter, SettledAfter;
  }

  lemma TaskStepsKeepPace(s: State, step: Step)
    requires PaceOk(s) && IsEnabled(s, step, true)
    requires step.TaskBegin? || step.TaskTakeAll? || step.TaskAnswer? || step.TaskDueDone? || step.TaskWake?
      || step.TaskTimer? || step.TaskTakeDue? || step.TaskExit? || step.TaskAbort?
    ensures PaceOk(Apply(s, step))
  {
    hide DueJobs;
  }

  lemma LookKeepsPace(s: State, step: Step)
    requires PaceOk(s) && IsEnabled(s, step, true) && step.TaskLook?
    ensures PaceOk(Apply(s, step))
  {
    assert forall path :: path in s.pending ==> DueAt(s, path) <= s.clock + s.interval;
  }

  lemma PaceKept(s: State, step: Step)
    requires PaceOk(s) && IsEnabled(s, step, true)
    ensures PaceOk(Apply(s, step))
  {
    hide PaceOk, Apply;
    match step {
      case Enter(_, _) => EnterKeepsPace(s, step);
      case Write(_, _, _) | TaskWrite(_, _) => WritesKeepPace(s, step);
      case TaskLook => LookKeepsPace(s, step);
      case TaskBegin | TaskTakeAll | TaskAnswer | TaskDueDone | TaskWake | TaskTimer | TaskTakeDue | TaskExit(_)
        | TaskAbort(_) => TaskStepsKeepPace(s, step);
      case _ => CallsKeepPace(s, step);
    }
  }

  lemma {:induction false} RunsKeepPace(run: seq<State>, steps: seq<Step>, interval: nat, i: nat)
    requires IsRun(run, steps, interval) && i < |run|
    ensures PaceOk(run[i])
  {
    hide Apply, IsEnabled;
    if i == 0 {
    } else {
      RunsKeepPace(run, steps, interval, i - 1);
      assert IsStep(run[i - 1], steps[i - 1], run[i]);
      PaceKept(run[i - 1], steps[i - 1]);
    }
  }

  // ----- the writer comes to rest -----

  /** The writer's own steps end: while no call comes, no time passes and nothing is aborted, at most as
      many steps follow as there is load. */
  lemma {:induction false} OwnStepsEnd(run: seq<State>, steps: seq<Step>, interval: nat, i: nat, j: nat)
    requires IsRun(run, steps, interval) && i <= j < |run|
    requires forall k :: i <= k < j ==> IsOwn(steps[k])
    ensures j - i + Load(run[j]) <= Load(run[i])
    decreases j
  {
    hide Apply, IsEnabled, Load, IsOwn, IsSafe, ChoiceOk;
    if i == j {
    } else {
      OwnStepsEnd(run, steps, interval, i, j - 1);
      assert IsStep(run[j - 1], steps[j - 1], run[j]);
      RunsAreSafe(run, steps, interval, j - 1);
      RunsKeepChoice(run, steps, interval, j - 1);
      OwnStepsShrink(run[j - 1], steps[j - 1]);
    }
  }

  lemma RestingWorkers(s: State)
    requires !CanGoOn(s)
    ensures s.workers == map[]
  {
    if w :| w in s.workers {
      WorkerGoesOn(s, w);
    }
  }

  lemma WorkerGoesOn(s: State, w: Id)
    requires w in s.workers
    ensures CanGoOn(s)
  {
    match s.workers[w] {
      case Drawn(_) => GoesOn(s, Enter(w, true));
      case MustStart => GoesOn(s, Spawn(w));
      case MustNotify => GoesOn(s, Notify(w));
      case MustNotifyClosed => GoesOn(s, CloseNotify(w));
      case Entering(_) => GoesOn(s, Take(w));
      case Holding(jobs) =>
        if jobs == map[] {
          GoesOn(s, Leave(w));
        } else {
          var path :| path in jobs;
          GoesOn(s, Write(w, path, true));
        }
    }
  }

  lemma RestingFlushers(s: State)
    requires !CanGoOn(s) && s.workers == map[]
    ensures forall f :: f in s.flushers ==> s.flushers[f].reply.Waiting?
  {
    forall f | f in s.flushers ensures s.flushers[f].reply.Waiting? {
      if !s.flushers[f].notified {
        GoesOn(s, FlushNotify(f));
      } else if !s.flushers[f].reply.Waiting? {
        GoesOn(s, FlushEnd(f));
      }
    }
  }

  /** The task sleeps until the first pending job may be written, which is within the interval. */
  ghost predicate IsPaced(s: State) {
    WaitsForTimer(s) && s.clock < s.task.timer.value <= s.clock + s.interval
  }

  lemma RestingTask(s: State)
    requires !CanGoOn(s) && PaceOk(s)
    ensures s.task.NoTask? || s.task.Selecting?
    ensures Hands(s.task) == map[] && Answering(s.task) == {}
    ensures WaitsForTimer(s) ==> IsPaced(s)
  {
    if !s.task.NoTask? && !s.task.Selecting? {
      BusyTaskGoesOn(s);
    }
    if WaitsForTimer(s) && s.task.timer.value <= s.clock {
      GoesOn(s, TaskTimer);
    }
  }

  /** Where the writer can make no step by itself, no call is under way, every flush has been answered,
      and nothing pends or the task sleeps until the first job may be written; and every path whose last
      write does not pend holds its contents, or the failure of exactly that write was returned or
      reported. */
  lemma RestIsDone(run: seq<State>, steps: seq<Step>, interval: nat, i: nat)
    requires IsRun(run, steps, interval) && i < |run| && !CanGoOn(run[i])
    ensures run[i].workers == map[] && run[i].flushers == map[]
    ensures run[i].pending == map[] || IsPaced(run[i])
    ensures forall path :: path in run[i].submitted ==>
      || Has(run[i].pending, run[i].submitted[path])
      || Has(run[i].disk, run[i].submitted[path]) || run[i].submitted[path] in run[i].failures
  {
    var s := run[i];
    RunsAreSafe(run, steps, interval, i);
    RunsKeepPace(run, steps, interval, i);
    RestingWorkers(s);
    RestingFlushers(s);
    RestingTask(s);
    hide CanGoOn, IsRun, VersionsOk, SettledOk, RunsOk, SealedOk, WakesOk, FlushesOk;
    NoWaiterRests(s);
    if s.pending != map[] {
      SafeGoesOn(s);
    }
  }

  lemma NoWaiterRests(s: State)
    requires RunsOk(s) && WakesOk(s) && WaitersOk(s) && !CanGoOn(s)
    requires s.workers == map[] && Answering(s.task) == {}
    requires forall f :: f in s.flushers ==> s.flushers[f].reply.Waiting?
    ensures s.flushers == map[]
  {
    hide CanGoOn;
    if f :| f in s.flushers {
      assert f in s.flushing;
      assert s.running;
      assert !SomeStarter(s.workers) && !SomeWaker(s.workers);
      hide RunsOk;
      if !s.task.Selecting? {
        BusyTaskGoesOn(s);
      } else if SomeFlushWaker(s.flushers) {
        FlushersGoOn(s);
      } else if s.permit {
        GoesOn(s, TaskWake);
      }
    }
  }

  /** Every run can be carried on to rest by no more of the writer's own steps than there is load. */
  lemma {:induction false} ComesToRest(run: seq<State>, steps: seq<Step>, interval: nat)
    returns (run': seq<State>, steps': seq<Step>)
    requires IsRun(run, steps, interval)
    ensures IsRun(run', steps', interval) && run <= run' && steps <= steps'
    ensures forall k :: |steps| <= k < |steps'| ==> IsOwn(steps'[k])
    ensures |steps'| <= |steps| + Load(run[|steps|])
    ensures !CanGoOn(run'[|steps'|])
    decreases Load(run[|steps|])
  {
    hide Apply, IsEnabled, Load, IsOwn, IsSafe, ChoiceOk;
    var last := run[|steps|];
    if CanGoOn(last) {
      var step :| IsOwn(step) && IsEnabled(last, step, true);
      RunsAreSafe(run, steps, interval, |steps|);
      RunsKeepChoice(run, steps, interval, |steps|);
      OwnStepsShrink(last, step);
      var longer := LongerRun(run, steps, interval, step);
      run', steps' := ComesToRest(longer, steps + [step], interval);
      assert run <= longer && steps <= steps + [step];
      assert (steps + [step])[|steps|] == step;
    } else {
      run', steps' := run, steps;
    }
  }

  lemma LongerRun(run: seq<State>, steps: seq<Step>, interval: nat, step: Step) returns (run': seq<State>)
    requires IsRun(run, steps, interval) && IsEnabled(run[|steps|], step, true)
    ensures run' == run + [Apply(run[|steps|], step)]
    ensures IsRun(run', steps + [step], interval)
  {
    assert IsEnabled(run[|steps|], step, false);
    hide Apply, IsEnabled;
    run' := run + [Apply(run[|steps|], step)];
    var steps' := steps + [step];
    forall i | 0 <= i < |steps'| ensures IsStep(run'[i], steps'[i], run'[i + 1]) {
      assert i < |steps| ==> IsStep(run[i], steps[i], run[i + 1]);
    }
  }
}
