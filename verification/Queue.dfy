/** The transfer queue (porthmos-core/src/transfer/queue/mod.rs). */
module Queue {
  import opened Ordered
  import opened Jobs
  import opened Rows
  import opened QueueState
  import opened Scheduler
  import opened Merge
  import opened Recount
  import opened Announcements

  const MAX_ATTEMPTS := 3

  function SaturatingSub(a: nat, b: nat): nat {
    if a < b then 0 else a - b
  }

  predicate Retryable(job: Job) {
    job.status.Failed? || job.status.Cancelled?
  }

  function Requeued(job: Job): Job {
    job.(resume := job.attempts > 0, status := JobStatus.Queued, attempts := 0)
  }

  ghost function Elements(ids: seq<nat>): set<nat> {
    set id | id in ids
  }

  ghost function Retried(jobs: JobMap, ids: set<nat>): JobMap {
    map id | id in jobs :: if id in ids && Retryable(jobs[id]) then Requeued(jobs[id]) else jobs[id]
  }

  ghost function RetryableIn(jobs: JobMap, ids: set<nat>): set<nat> {
    set id | id in ids && id in jobs && Retryable(jobs[id])
  }

  lemma RetriedNothing(jobs: JobMap)
    ensures Retried(jobs, Elements([])) == jobs && RetryableIn(jobs, Elements([])) == {}
  {
  }

  /** An id counts once, however often it is listed: the first retry leaves it queued. */
  lemma RetriedStep(jobs: JobMap, ids: seq<nat>, i: nat)
    requires i < |ids|
    ensures var before, id := Retried(jobs, Elements(ids[..i])), ids[i];
            var now := Retried(jobs, Elements(ids[..i + 1]));
            var counted := RetryableIn(jobs, Elements(ids[..i]));
            if id in before && Retryable(before[id]) then
              && now == before[id := Requeued(before[id])]
              && |RetryableIn(jobs, Elements(ids[..i + 1]))| == |counted| + 1
            else
              now == before && RetryableIn(jobs, Elements(ids[..i + 1])) == counted
  {
    assert Elements(ids[..i + 1]) == Elements(ids[..i]) + {ids[i]};
    hide Elements;
    RetriedMore(jobs, Elements(ids[..i]), ids[i]);
    RetryableMore(jobs, Elements(ids[..i]), ids[i]);
  }

  lemma RetriedMore(jobs: JobMap, done: set<nat>, id: nat)
    ensures var before := Retried(jobs, done);
      Retried(jobs, done + {id}) ==
      if id in before && Retryable(before[id]) then before[id := Requeued(before[id])] else before
  {
  }

  lemma RetryableMore(jobs: JobMap, done: set<nat>, id: nat)
    ensures var before := Retried(jobs, done);
      if id in before && Retryable(before[id]) then |RetryableIn(jobs, done + {id})| == |RetryableIn(jobs, done)| + 1
      else RetryableIn(jobs, done + {id}) == RetryableIn(jobs, done)
  {
    var before := Retried(jobs, done);
    if id in before && Retryable(before[id]) {
      assert id !in RetryableIn(jobs, done);
      assert RetryableIn(jobs, done + {id}) == RetryableIn(jobs, done) + {id};
    } else {
      assert RetryableIn(jobs, done + {id}) == RetryableIn(jobs, done);
    }
  }

  ghost function WithStatus(jobs: JobMap, ids: set<nat>, status: JobStatus): JobMap {
    map id | id in jobs :: if id in ids then jobs[id].(status := status) else jobs[id]
  }

  lemma QueuedAgain(job: Job)
    ensures Requeued(job).IsPending() && KindOf(Requeued(job)) == KindOf(job)
  {
  }

  lemma Settled(job: Job, status: JobStatus)
    requires !status.Queued? && !status.InProgress?
    ensures !job.(status := status).IsPending() && KindOf(job.(status := status)) == KindOf(job)
  {
  }

  lemma NewJobIsPending(jobs: JobMap, jobs': JobMap, id: nat)
    requires id !in jobs && id in jobs' && jobs' == jobs[id := jobs'[id]] && jobs'[id].IsPending()
    ensures KindOf(jobs'[id]) !in FinishedIn(jobs')
  {
    assert !IsOver(jobs', KindOf(jobs'[id]));
  }

  lemma StatusStep(jobs: JobMap, ids: seq<nat>, i: nat, status: JobStatus)
    requires i < |ids| && ids[i] in jobs
    ensures ids[i] in WithStatus(jobs, Elements(ids[..i]), status)
    ensures var before := WithStatus(jobs, Elements(ids[..i]), status);
            before[ids[i] := before[ids[i]].(status := status)] == WithStatus(jobs, Elements(ids[..i + 1]), status)
  {
    assert Elements(ids[..i + 1]) == Elements(ids[..i]) + {ids[i]};
  }

  lemma WithStatusOf(jobs: JobMap, ids: seq<nat>, chosen: set<nat>, status: JobStatus)
    requires forall id :: id in ids <==> id in chosen
    ensures Elements(ids[..|ids|]) == chosen
    ensures WithStatus(jobs, Elements([]), status) == jobs
  {
    assert ids[..|ids|] == ids;
  }

  lemma NothingQueued(jobs: JobMap)
    ensures QueuedIds(WithStatus(jobs, QueuedIds(jobs), Cancelled)) == {}
  {
  }

  lemma NothingQueuedIn(jobs: JobMap, session: nat, reason: string)
    ensures var after := WithStatus(jobs, InSession(jobs, QueuedIds(jobs), session), Failed(reason));
            InSession(after, QueuedIds(after), session) == {}
  {
  }

  lemma QueuedAreQueued(jobs: JobMap)
    ensures QueuedShapes(Shapes(jobs)) == QueuedIds(jobs)
    ensures RunningShapes(Shapes(jobs)) == RunningIds(jobs)
  {
  }

  lemma SessionQueue(jobs: JobMap, bySession: map<nat, set<nat>>, session: nat)
    requires SessionsRecounted(Shapes(jobs), bySession)
    ensures (if session in bySession then bySession[session] else {}) == InSession(jobs, QueuedIds(jobs), session)
  {
    assert QueuedIn(Shapes(jobs), session) == InSession(jobs, QueuedIds(jobs), session);
  }

  // ----- what the operations do to the jobs, field by field -----

  /** Each listed job that had failed or was cancelled is queued with no attempts, to resume exactly if it
      had been attempted; nothing else changed, and each such job counts once. */
  ghost predicate AreRetried(was: JobMap, now: JobMap, ids: seq<nat>, count: nat) {
    && now.Keys == was.Keys
    && (forall id :: id in was ==>
          if id in ids && (was[id].status.Failed? || was[id].status.Cancelled?) then
            && now[id].status.Queued? && now[id].attempts == 0 && (now[id].resume <==> was[id].attempts > 0)
            && now[id] == was[id].(status := now[id].status, attempts := now[id].attempts, resume := now[id].resume)
          else now[id] == was[id])
    && count == |set id | id in was && id in ids && (was[id].status.Failed? || was[id].status.Cancelled?)|
  }

  lemma RetriedMeans(jobs: JobMap, ids: seq<nat>)
    ensures AreRetried(jobs, Retried(jobs, Elements(ids)), ids, |RetryableIn(jobs, Elements(ids))|)
  {
    assert RetryableIn(jobs, Elements(ids)) ==
      set id | id in jobs && id in ids && (jobs[id].status.Failed? || jobs[id].status.Cancelled?);
  }

  /** Every queued job is cancelled, and nothing else changed. */
  ghost predicate AreCancelled(was: JobMap, now: JobMap, count: nat) {
    && now.Keys == was.Keys
    && (forall id :: id in was ==>
          now[id] == if was[id].status.Queued? then was[id].(status := Cancelled) else was[id])
    && count == |set id | id in was && was[id].status.Queued?|
  }

  lemma CancelledMeans(jobs: JobMap)
    ensures AreCancelled(jobs, WithStatus(jobs, QueuedIds(jobs), Cancelled), |QueuedIds(jobs)|)
  {
    assert QueuedIds(jobs) == set id | id in jobs && jobs[id].status.Queued?;
  }

  /** Every queued job of the session failed for this reason, and nothing else changed. */
  ghost predicate AreFailed(was: JobMap, now: JobMap, session: nat, reason: string, count: nat) {
    && now.Keys == was.Keys
    && (forall id :: id in was ==>
          now[id] == if was[id].status.Queued? && was[id].session == session then was[id].(status := Failed(reason))
                     else was[id])
    && count == |set id | id in was && was[id].status.Queued? && was[id].session == session|
  }

  lemma FailedMeans(jobs: JobMap, session: nat, reason: string)
    ensures var waiting := InSession(jobs, QueuedIds(jobs), session);
      AreFailed(jobs, WithStatus(jobs, waiting, Failed(reason)), session, reason, |waiting|)
  {
    assert InSession(jobs, QueuedIds(jobs), session) ==
      set id | id in jobs && jobs[id].status.Queued? && jobs[id].session == session;
  }

  /** A batch is forgotten if one of the removed jobs was in it and none of the others is. */
  ghost predicate IsEmptied(was: JobMap, ids: seq<nat>, batch: nat) {
    && (exists id :: id in was && id in ids && was[id].batchId == Some(batch))
    && forall id :: id in was && id !in ids ==> was[id].batchId != Some(batch)
  }

  lemma EmptiedMeans(jobs: JobMap, ids: seq<nat>)
    ensures forall batch :: batch in EmptiedBatches(jobs, Elements(ids)) <==> IsEmptied(jobs, ids, batch)
  {
    forall batch ensures batch in EmptiedBatches(jobs, Elements(ids)) <==> IsEmptied(jobs, ids, batch) {
      if IsEmptied(jobs, ids, batch) {
        var id :| id in jobs && id in ids && jobs[id].batchId == Some(batch);
        assert id in Elements(ids) && jobs[id].batchId.value in BatchesOf(jobs, Elements(ids));
        assert NoJobOf(jobs - Elements(ids), batch);
      }
      if batch in EmptiedBatches(jobs, Elements(ids)) {
        var id :| id in Elements(ids) && id in jobs && jobs[id].batchId.Some? && jobs[id].batchId.value == batch;
        forall other | other in jobs && other !in ids ensures jobs[other].batchId != Some(batch) {
          assert other in jobs - Elements(ids);
        }
      }
    }
  }

  lemma RemovedMeans(jobs: JobMap, ids: seq<nat>)
    ensures forall id :: id in jobs - Elements(ids) <==> id in jobs && id !in ids
  {
  }

  // ----- runs of the queue's operations -----

  datatype Operation =
    | Enqueueing(job: Job)
    | Updating(id: nat, now: Job)
    | Retrying(ids: set<nat>)
    | Settling(ids: set<nat>, status: JobStatus)
    | Removing(ids: set<nat>)
    | Starting(id: nat)

  /** What the contracts of the queue's methods say of the jobs: cancelling and failing are settling. */
  ghost predicate Does(op: Operation, jobs: JobMap, jobs': JobMap) {
    match op
    case Enqueueing(job) => job.id !in jobs && job.status.Queued? && jobs' == jobs[job.id := job]
    case Updating(id, now) => id in jobs && jobs' == jobs[id := now]
    case Retrying(ids) => jobs' == Retried(jobs, ids)
    case Settling(ids, status) => !status.InProgress? && jobs' == WithStatus(jobs, ids, status)
    case Removing(ids) => jobs' == jobs - ids
    case Starting(id) => id in jobs && jobs' == Started(jobs, id)
  }

  /** A job that did not run is started only if it is listed, and none that runs afterwards is moved. */
  ghost predicate StartsAsListed(op: Operation, jobs: JobMap, limit: nat, cap: SessionCap) {
    match op
    case Starting(id) => id in jobs && (jobs[id].status.InProgress? || id in Startable(jobs, limit, cap))
    case Updating(id, now) => id in jobs && now.status.InProgress? ==>
      (jobs[id].status.InProgress? || id in Startable(jobs, limit, cap))
      && now.session == jobs[id].session && now.Destination() == jobs[id].Destination()
    case _ => true
  }

  /** An operation is a scheduler step if and only if it starts jobs as listed only. */
  lemma OperationIsASchedulerStepIff(op: Operation, jobs: JobMap, jobs': JobMap, limit: nat, cap: SessionCap)
    requires Does(op, jobs, jobs')
    ensures SchedulerStep(jobs, jobs', limit, cap) <==> StartsAsListed(op, jobs, limit, cap)
  {
    hide Startable;
    match op {
      case Updating(id, now) => assert id in RunningIds(jobs') <==> now.status.InProgress?;
      case Starting(id) => assert id in RunningIds(jobs');
      case _ =>
    }
  }

  /** Over any run of the queue's operations that starts with nothing running and starts only what the
      scheduler listed, the slot limit, every session's cap and the one-job-per-destination rule hold. */
  lemma OperationsAreSafe(run: seq<JobMap>, ops: seq<Operation>, limit: nat, cap: SessionCap, k: nat)
    requires |run| == |ops| + 1 && k < |run| && RunningIds(run[0]) == {}
    requires forall i :: 0 <= i < |ops| ==> Does(ops[i], run[i], run[i + 1]) && StartsAsListed(ops[i], run[i], limit, cap)
    ensures Safe(run[k], limit, cap)
  {
    forall i | 0 <= i < |run| - 1 ensures SchedulerStep(run[i], run[i + 1], limit, cap) {
      OperationIsASchedulerStepIff(ops[i], run[i], run[i + 1], limit, cap);
    }
    RunsAreSafe(run, limit, cap, k);
  }

  /** In every state of such a run no two running uploads of one session write the same remote file, and no
      two running downloads the same local file. */
  lemma OperationsNeverCollide(
    run: seq<JobMap>, ops: seq<Operation>, limit: nat, cap: SessionCap, k: nat, a: nat, b: nat)
    requires |run| == |ops| + 1 && k < |run| && RunningIds(run[0]) == {}
    requires forall i :: 0 <= i < |ops| ==> Does(ops[i], run[i], run[i + 1]) && StartsAsListed(ops[i], run[i], limit, cap)
    requires a in run[k] && b in run[k] && a != b && run[k][a].status.InProgress? && run[k][b].status.InProgress?
    ensures run[k][a].direction.Upload? && run[k][b].direction.Upload? && run[k][a].session == run[k][b].session ==>
      run[k][a].remotePath != run[k][b].remotePath
    ensures run[k][a].direction.Download? && run[k][b].direction.Download? ==> run[k][a].localPath != run[k][b].localPath
  {
    forall i | 0 <= i < |run| - 1 ensures SchedulerStep(run[i], run[i + 1], limit, cap) {
      OperationIsASchedulerStepIff(ops[i], run[i], run[i + 1], limit, cap);
    }
    RunningJobsNeverCollide(run, limit, cap, k, a, b);
  }

  /** What is left of a row's numbers without one share. */
  ghost function TakenOff(tally: Tally, share: Tally): (rest: Tally)
    requires Covers(tally, share)
    ensures tally == Plus(rest, share)
  {
    Tally(
      tally.queued - share.queued, tally.running - share.running, tally.completed - share.completed,
      tally.failed - share.failed, tally.cancelled - share.cancelled, tally.bytesDone - share.bytesDone,
      tally.bytesTotal - share.bytesTotal)
  }

  /** A row's numbers with one job's share added, or taken away without going below zero. */
  function Adjusted(tally: Tally, shape: Shape, add: bool): Tally {
    var slot := tally.Slot(shape.status);
    var counted := tally.WithSlot(shape.status, if add then slot + 1 else SaturatingSub(slot, 1));
    counted.(bytesDone :=
      if add then counted.bytesDone + shape.transferred else SaturatingSub(counted.bytesDone, shape.transferred))
  }

  /** Taking away never saturates when the share is part of the sum. */
  lemma AdjustedIsExact(tally: Tally, shape: Shape)
    ensures Adjusted(tally, shape, true) == Plus(tally, ShapeTally(shape))
    ensures Covers(tally, ShapeTally(shape)) ==> Plus(Adjusted(tally, shape, false), ShapeTally(shape)) == tally
  {
  }

  class TransferQueue {
    var jobs: JobMap
    var batchLabels: map<nat, string>
    var unkeptTimesFlagged: set<nat>
    var nextId: nat
    var nextBatchId: nat
    var rows: map<nat, RowCounters>
    var rowOf: map<nat, nat>
    var batchRow: map<nat, nat>
    var running: set<nat>
    var queued: set<nat>
    var queuedBySession: map<nat, set<nat>>
    var pending: map<(nat, Direction), nat>
    var changes: seq<RowChange>
    /** Everything TakeChanges has handed out so far. */
    ghost var taken: seq<RowChange>

    /** Every index equals a recount from the jobs, and replaying the change log gives the rows
        that are finished now. */
    ghost predicate Valid()
      reads this
    {
      && IdsInRange()
      && Indexes(jobs)
      && LogAgrees()
    }

    ghost predicate IdsInRange()
      reads this`jobs, this`nextId, this`nextBatchId, this`batchLabels
    {
      JobsWellFormed(jobs, nextId) && LabelsKnown()
    }

    /** Labels are those of batches that were started. */
    ghost predicate LabelsKnown()
      reads this`nextBatchId, this`batchLabels
    {
      forall batch :: batch in batchLabels ==> batch < nextBatchId
    }

    /** The indexes match the given jobs. */
    ghost predicate Indexes(counted: JobMap)
      reads this`running, this`queued, this`queuedBySession, this`pending
      reads this`batchLabels, this`rows, this`rowOf, this`batchRow
    {
      IndexesWhile(counted, counted, {})
    }

    /** The indexes while jobs are being removed: the rows in `dirty` may still list removed jobs of
        `all`. */
    ghost predicate IndexesWhile(counted: JobMap, all: JobMap, dirty: set<nat>)
      reads this`running, this`queued, this`queuedBySession, this`pending
      reads this`batchLabels, this`rows, this`rowOf, this`batchRow
    {
      && Recounted(Shapes(counted), running, queued, queuedBySession, pending)
      && Grouped(counted, all, batchLabels, rows, rowOf, batchRow, dirty)
    }

    ghost predicate LogAgrees()
      reads this`taken, this`changes, this`rows
    {
      Truthful(taken + changes) && Fold(taken + changes) == FinishedKinds(rows)
    }

    constructor ()
      ensures Valid()
      ensures jobs == map[] && batchLabels == map[] && unkeptTimesFlagged == {} && changes == [] && taken == []
      ensures nextId == 0 && nextBatchId == 0
    {
      jobs, batchLabels, unkeptTimesFlagged := map[], map[], {};
      nextId, nextBatchId := 0, 0;
      rows, rowOf, batchRow := map[], map[], map[];
      running, queued, queuedBySession, pending := {}, {}, map[], map[];
      changes, taken := [], [];
      new;
      assert forall k: (nat, Direction) :: PendingIn(Shapes(jobs), k) == {};
    }

    /** Add or take away one job's share of its row and of the indexes by status and session. */
    method Account(id: nat, shape: Shape, add: bool, ghost shapes: map<nat, Shape>)
      requires id in rowOf && rowOf[id] in rows
      requires Recounted(shapes, running, queued, queuedBySession, pending)
      requires if add then id !in shapes
               else id in shapes && shapes[id] == shape && Covers(rows[rowOf[id]].tally, ShapeTally(shape))
      modifies this`rows, this`running, this`queued, this`queuedBySession, this`pending
      ensures Recounted(
                if add then shapes[id := shape] else shapes - {id}, running, queued, queuedBySession, pending)
      ensures rowOf[id] in rows
      ensures rows == old(rows)[rowOf[id] := old(rows)[rowOf[id]].(tally := rows[rowOf[id]].tally)]
      ensures var before, after := old(rows)[rowOf[id]].tally, rows[rowOf[id]].tally;
              if add then after == Plus(before, ShapeTally(shape)) else before == Plus(after, ShapeTally(shape))
    {
      var counters := rows[rowOf[id]];
      AdjustedIsExact(counters.tally, shape);
      rows := rows[rowOf[id] := counters.(tally := Adjusted(counters.tally, shape, add))];
      var key := (shape.session, shape.direction);
      if add {
        RecountedAdd(shapes, id, shape, running, queued, queuedBySession, pending);
        running := if shape.status.InProgress? then running + {id} else running;
        queued := if shape.status.Queued? then queued + {id} else queued;
        queuedBySession := if shape.status.Queued? then WithQueued(queuedBySession, shape.session, id) else queuedBySession;
        pending := if shape.IsPending() then Increment(pending, key) else pending;
      } else {
        assert (shapes - {id})[id := shape] == shapes;
        RecountedRemove(shapes - {id}, id, shape, running, queued, queuedBySession, pending);
        running := if shape.status.InProgress? then running - {id} else running;
        queued := if shape.status.Queued? then queued - {id} else queued;
        queuedBySession := if shape.status.Queued? then WithoutQueued(queuedBySession, shape.session, id) else queuedBySession;
        pending := if shape.IsPending() then Decrement(pending, key) else pending;
      }
    }

    method Announce(change: RowChange)
      requires Truthful(taken + changes) && IsNews(Fold(taken + changes), change)
      modifies this`changes
      ensures changes == old(changes) + [change]
      ensures Truthful(taken + changes)
      ensures Fold(taken + changes) == Replay(Fold(taken + old(changes)), change)
    {
      FoldPush(taken + changes, change);
      changes := changes + [change];
      assert taken + changes == taken + old(changes) + [change];
    }

    /** Move a job's share in every index from its old shape to its new one. */
    method MoveShare(id: nat, before: Shape, after: Shape, ghost was: Job)
      requires id in jobs
      requires before == ShapeOf(was) && after == ShapeOf(jobs[id])
      requires Indexes(jobs[id := was])
      modifies this`rows, this`running, this`queued, this`queuedBySession, this`pending
      ensures id in rowOf && OnlyTallyChanged(old(rows), rows, rowOf[id])
      ensures jobs[id].id == was.id ==>
        (Indexes(jobs) <==> IsTracked(was, jobs[id], id == rowOf[id], batchLabels))
    {
      hide Grouped, Recounted, Covers, Plus, ShapeTally, IsTracked;
      ghost var earlier := jobs[id := was];
      HomeRow(earlier, earlier, batchLabels, rows, rowOf, batchRow, {}, id);
      var key := rowOf[id];
      RowCoversJob(earlier, earlier, batchLabels, rows, rowOf, batchRow, {}, id);
      Account(id, before, false, Shapes(earlier));
      ghost var between := rows[key].tally;
      Account(id, after, true, Shapes(earlier) - {id});
      assert (Shapes(earlier) - {id})[id := after] == Shapes(jobs);
      assert rows == old(rows)[key := old(rows)[key].(tally := rows[key].tally)];
      assert jobs == earlier[id := jobs[id]];
      if jobs[id].id == was.id {
        GroupedAfterChange(earlier, jobs, batchLabels, old(rows), rowOf, batchRow, id, between, rows[key].tally);
      }
    }

    /** Bring the indexes and the change log up to date after the job `id` changed from `was`. The queue is
        valid afterwards if and only if the change is one the indexes follow. */
    method Reconcile(id: nat, before: Shape, ghost was: Job)
      requires id in jobs && before == ShapeOf(was)
      requires JobsWellFormed(jobs[id := was], nextId) && LabelsKnown() && Indexes(jobs[id := was]) && LogAgrees()
      modifies this`rows, this`running, this`queued, this`queuedBySession, this`pending, this`changes
      ensures id in rowOf && (Valid() <==> IsTracked(was, jobs[id], id == rowOf[id], batchLabels))
      ensures var kind := KindOf(was);
        changes == old(changes) + NewsOf(kind, kind in FinishedKinds(old(rows)), kind in FinishedKinds(rows))
    {
      hide Indexes, FinishedKinds, Fold, Truthful, KindsDistinct, KindOf, IsTracked;
      RangeAfterChange(id, was);
      KindsDifferBefore(id, was);
      var after := ShapeOf(jobs[id]);
      if after == before {
        NothingToMove(id, was);
        TrackedKeepsId(was, jobs[id], id == rowOf[id]);
        assert changes == changes + [];
        return;
      }
      var key := rowOf[id];
      var wasFinished := rows[key].tally.IsFinished();
      MoveShare(id, before, after, was);
      TrackedKeepsId(was, jobs[id], id == key);
      assert rows == old(rows)[key := rows[key]];
      FinishedAfterUpdate(old(rows), key, rows[key]);
      var finished := rows[key].tally.IsFinished();
      if !wasFinished && finished {
        Announce(Finished(rows[key].kind));
      } else if wasFinished && !finished {
        Announce(Reopened(rows[key].kind));
      }
    }

    lemma TrackedKeepsId(was: Job, now: Job, isFirst: bool)
      ensures IsTracked(was, now, isFirst, batchLabels) ==> now.id == was.id
    {
    }

    lemma RangeAfterChange(id: nat, was: Job)
      requires id in jobs && JobsWellFormed(jobs[id := was], nextId)
      ensures was.id == id && (JobsWellFormed(jobs, nextId) <==> jobs[id].id == id)
    {
      assert jobs[id := was][id] == was;
      assert forall other :: other in jobs && other != id ==> jobs[id := was][other] == jobs[other];
    }

    lemma NothingToMove(id: nat, was: Job)
      requires id in jobs && ShapeOf(jobs[id]) == ShapeOf(was)
      requires Indexes(jobs[id := was])
      ensures id in rowOf
      ensures jobs[id].id == was.id ==>
        (Indexes(jobs) <==> IsTracked(was, jobs[id], id == rowOf[id], batchLabels))
    {
      hide Grouped, Recounted, IsTracked, Covers, ShapeTally;
      ghost var earlier := jobs[id := was];
      HomeRow(earlier, earlier, batchLabels, rows, rowOf, batchRow, {}, id);
      RowCoversJob(earlier, earlier, batchLabels, rows, rowOf, batchRow, {}, id);
      ghost var tally, share := rows[rowOf[id]].tally, ShapeTally(ShapeOf(was));
      ghost var rest := TakenOff(tally, share);
      assert rows[rowOf[id] := rows[rowOf[id]].(tally := tally)] == rows;
      assert Shapes(jobs) == Shapes(earlier);
      if jobs[id].id == was.id {
        GroupedAfterChange(earlier, jobs, batchLabels, rows, rowOf, batchRow, id, rest, tally);
      }
    }

    lemma KindsDifferBefore(id: nat, was: Job)
      requires id in jobs && JobsWellFormed(jobs[id := was], nextId)
      requires Indexes(jobs[id := was])
      ensures id in rowOf && rowOf[id] in rows && KindsDistinct(rows)
      ensures rows[rowOf[id]].kind == KindOf(was)
    {
      hide Grouped, Recounted, KindsDistinct;
      ghost var earlier := jobs[id := was];
      JobInRow(earlier, batchLabels, rows, rowOf, batchRow, id);
      KindsAreDistinct(earlier, earlier, batchLabels, rows, rowOf, batchRow, {}, nextId);
    }

    /** Apply one atomic change to a job: what dropping a job guard does after its holder edited it. The
        queue stays valid if and only if the change is one the indexes follow. */
    method Update(id: nat, change: Job -> Job)
      requires Valid()
      modifies this`jobs, this`rows, this`running, this`queued, this`queuedBySession, this`pending, this`changes
      ensures jobs == if id in old(jobs) then old(jobs)[id := change(old(jobs)[id])] else old(jobs)
      ensures Valid() <==>
        (id in old(jobs) ==>
           IsTracked(old(jobs)[id], change(old(jobs)[id]), id in Leaders(old(jobs)), batchLabels))
      ensures id !in old(jobs) ==> changes == old(changes)
      ensures id in old(jobs) && Valid() ==>
        var kind := KindOf(old(jobs)[id]);
        changes == old(changes) + NewsOf(kind, kind in FinishedIn(old(jobs)), kind in FinishedIn(jobs))
    {
      hide Valid, FinishedIn, FinishedKinds, Leaders, IsTracked, NewsOf;
      if id in jobs {
        LogTellsFinishedRows();
        LeadersAreFirst(id);
        Change(id, change);
        if Valid() {
          LogTellsFinishedRows();
        }
      }
    }

    method Change(id: nat, change: Job -> Job)
      requires Valid() && id in jobs
      modifies this`jobs, this`rows, this`running, this`queued, this`queuedBySession, this`pending, this`changes
      ensures jobs == old(jobs)[id := change(old(jobs)[id])] && id in rowOf
      ensures Valid() <==> IsTracked(old(jobs)[id], jobs[id], id == rowOf[id], batchLabels)
      ensures var kind := KindOf(old(jobs)[id]);
        changes == old(changes) + NewsOf(kind, kind in FinishedKinds(old(rows)), kind in FinishedKinds(rows))
    {
      hide Indexes, LogAgrees, JobsWellFormed, LabelsKnown, FinishedKinds, IsTracked, NewsOf;
      ghost var was := jobs[id];
      var before := ShapeOf(jobs[id]);
      jobs := jobs[id := change(jobs[id])];
      assert jobs[id := was] == old(jobs);
      hide Valid;
      Reconcile(id, before, was);
    }

    lemma KeepsTrack(id: nat, now: Job, isFirst: bool)
      requires id in jobs
      requires now == jobs[id].(status := now.status, resume := now.resume, attempts := now.attempts)
      ensures IsTracked(jobs[id], now, isFirst, batchLabels)
    {
    }

    /** The first job of a row is the one the row is keyed by. */
    lemma LeadersAreFirst(id: nat)
      requires Valid() && id in jobs
      ensures id in rowOf && (id in Leaders(jobs) <==> id == rowOf[id])
    {
      hide Recounted, RowsAgree, BatchesAgree, LogAgrees, Leaders;
      RowsAreTheGroups();
      HomeRow(jobs, jobs, batchLabels, rows, rowOf, batchRow, {}, id);
      if id in rows {
        RowListsItsKey(id);
      }
    }

    lemma RowListsItsKey(key: nat)
      requires Valid() && key in rows
      ensures key in rows[key].order
    {
      hide Recounted, RowsPartition, BatchesAgree, LogAgrees;
      assert RowAgrees(jobs, jobs, batchLabels, key, rows[key], {});
    }

    lemma QueuedIsRecounted()
      requires Valid()
      ensures queued == QueuedIds(jobs) && running == RunningIds(jobs)
    {
      hide Grouped, SessionsRecounted, PendingRecounted, LogAgrees, IdsInRange;
      QueuedAreQueued(jobs);
    }

    lemma SessionIsRecounted(session: nat)
      requires Valid()
      ensures (if session in queuedBySession then queuedBySession[session] else {}) ==
        InSession(jobs, QueuedIds(jobs), session)
    {
      hide Grouped, PendingRecounted, LogAgrees, IdsInRange;
      SessionQueue(jobs, queuedBySession, session);
    }

    lemma SessionHasQueue(session: nat)
      requires Valid()
      ensures session in queuedBySession ==> queuedBySession[session] != {}
    {
      hide Grouped, PendingRecounted, LogAgrees, IdsInRange;
    }

    /** Put failed and cancelled jobs back in line; a job that was attempted resumes. */
    method RetryJobs(ids: seq<nat>) returns (count: nat)
      requires Valid()
      modifies this`jobs, this`rows, this`running, this`queued, this`queuedBySession, this`pending, this`changes
      ensures Valid()
      ensures jobs == Retried(old(jobs), Elements(ids))
      ensures count == |RetryableIn(old(jobs), Elements(ids))|
      ensures AreRetried(old(jobs), jobs, ids, count)
      ensures TellsSince(old(changes), changes, ReopenedAll(FinishedIn(old(jobs)) - FinishedIn(jobs)))
    {
      hide Valid, Retried, Elements, RetryableIn, AreRetried, TellsSince, FinishedIn, ReopenedAll, NewsOf;
      RetriedMeans(jobs, ids);
      count := 0;
      RetriedNothing(jobs);
      TellsNothing(changes);
      assert FinishedIn(jobs) - FinishedIn(jobs) == {};
      for i := 0 to |ids|
        invariant Valid()
        invariant jobs == Retried(old(jobs), Elements(ids[..i]))
        invariant count == |RetryableIn(old(jobs), Elements(ids[..i]))|
        invariant FinishedIn(jobs) <= FinishedIn(old(jobs))
        invariant TellsSince(old(changes), changes, ReopenedAll(FinishedIn(old(jobs)) - FinishedIn(jobs)))
      {
        var id := ids[i];
        RetriedStep(old(jobs), ids, i);
        if id in jobs && Retryable(jobs[id]) {
          RetryOne(id, old(jobs), old(changes));
          count := count + 1;
        }
      }
      assert ids[..|ids|] == ids;
    }

    method RetryOne(id: nat, ghost first: JobMap, ghost base: seq<RowChange>)
      requires Valid() && id in jobs && FinishedIn(jobs) <= FinishedIn(first)
      requires TellsSince(base, changes, ReopenedAll(FinishedIn(first) - FinishedIn(jobs)))
      modifies this`jobs, this`rows, this`running, this`queued, this`queuedBySession, this`pending, this`changes
      ensures Valid() && jobs == old(jobs)[id := Requeued(old(jobs)[id])] && FinishedIn(jobs) <= FinishedIn(first)
      ensures TellsSince(base, changes, ReopenedAll(FinishedIn(first) - FinishedIn(jobs)))
    {
      hide Valid, TellsSince, FinishedIn, ReopenedAll, NewsOf, KindOf;
      KeepsTrack(id, Requeued(jobs[id]), id in Leaders(jobs));
      Update(id, Requeued);
      QueuedAgain(old(jobs)[id]);
      QueueingReopens(old(jobs), jobs, id);
      ReopenedGrows(
        base, old(changes), FinishedIn(first), FinishedIn(old(jobs)), FinishedIn(jobs), KindOf(old(jobs)[id]));
    }

    /** Give one job a status it will not leave by itself. */
    method SettleOne(id: nat, status: JobStatus, ghost first: JobMap, ghost base: seq<RowChange>)
      requires Valid() && id in jobs && FinishedIn(first) <= FinishedIn(jobs)
      requires !status.Queued? && !status.InProgress?
      requires TellsSince(base, changes, FinishedAll(FinishedIn(jobs) - FinishedIn(first)))
      modifies this`jobs, this`rows, this`running, this`queued, this`queuedBySession, this`pending, this`changes
      ensures Valid() && jobs == old(jobs)[id := old(jobs)[id].(status := status)]
      ensures FinishedIn(first) <= FinishedIn(jobs)
      ensures TellsSince(base, changes, FinishedAll(FinishedIn(jobs) - FinishedIn(first)))
    {
      hide Valid, TellsSince, FinishedIn, FinishedAll, NewsOf, KindOf;
      KeepsTrack(id, jobs[id].(status := status), id in Leaders(jobs));
      Update(id, (job: Job) => job.(status := status));
      Settled(old(jobs)[id], status);
      SettlingFinishes(old(jobs), jobs, id);
      FinishedGrows(
        base, old(changes), FinishedIn(first), FinishedIn(old(jobs)), FinishedIn(jobs), KindOf(old(jobs)[id]));
    }

    method CancelAllQueued() returns (count: nat)
      requires Valid()
      modifies this`jobs, this`rows, this`running, this`queued, this`queuedBySession, this`pending, this`changes
      ensures Valid()
      ensures jobs == WithStatus(old(jobs), QueuedIds(old(jobs)), Cancelled)
      ensures count == |QueuedIds(old(jobs))| && AreCancelled(old(jobs), jobs, count)
      ensures queued == {}
      ensures TellsSince(old(changes), changes, FinishedAll(FinishedIn(jobs) - FinishedIn(old(jobs))))
    {
      hide Valid, WithStatus, Elements, TellsSince, FinishedIn, FinishedAll, AreCancelled;
      CancelledMeans(jobs);
      TellsNothing(changes);
      assert FinishedIn(jobs) - FinishedIn(jobs) == {};
      QueuedIsRecounted();
      var ids := Ascending(queued);
      assert forall id :: id in ids ==> id in jobs;
      WithStatusOf(jobs, ids, queued, Cancelled);
      for i := 0 to |ids|
        invariant Valid()
        invariant jobs == WithStatus(old(jobs), Elements(ids[..i]), Cancelled)
        invariant FinishedIn(old(jobs)) <= FinishedIn(jobs)
        invariant TellsSince(old(changes), changes, FinishedAll(FinishedIn(jobs) - FinishedIn(old(jobs))))
      {
        StatusStep(old(jobs), ids, i, Cancelled);
        SettleOne(ids[i], Cancelled, old(jobs), old(changes));
      }
      QueuedIsRecounted();
      NothingQueued(old(jobs));
      count := |ids|;
    }

    /** Fail the waiting jobs of a session that is gone. */
    method FailQueuedForSession(session: nat, reason: string) returns (count: nat)
      requires Valid()
      modifies this`jobs, this`rows, this`running, this`queued, this`queuedBySession, this`pending, this`changes
      ensures Valid()
      ensures var waiting := InSession(old(jobs), QueuedIds(old(jobs)), session);
              jobs == WithStatus(old(jobs), waiting, Failed(reason)) && count == |waiting|
      ensures AreFailed(old(jobs), jobs, session, reason, count)
      ensures session !in queuedBySession
      ensures TellsSince(old(changes), changes, FinishedAll(FinishedIn(jobs) - FinishedIn(old(jobs))))
    {
      hide Valid, WithStatus, Elements, QueuedIds, TellsSince, FinishedIn, FinishedAll, AreFailed;
      FailedMeans(jobs, session, reason);
      TellsNothing(changes);
      assert FinishedIn(jobs) - FinishedIn(jobs) == {};
      var waiting := if session in queuedBySession then queuedBySession[session] else {};
      SessionIsRecounted(session);
      assert forall id :: id in waiting ==> id in jobs;
      var ids := Ascending(waiting);
      WithStatusOf(jobs, ids, waiting, Failed(reason));
      for i := 0 to |ids|
        invariant Valid()
        invariant jobs == WithStatus(old(jobs), Elements(ids[..i]), Failed(reason))
        invariant FinishedIn(old(jobs)) <= FinishedIn(jobs)
        invariant TellsSince(old(changes), changes, FinishedAll(FinishedIn(jobs) - FinishedIn(old(jobs))))
      {
        StatusStep(old(jobs), ids, i, Failed(reason));
        SettleOne(ids[i], Failed(reason), old(jobs), old(changes));
      }
      SessionIsRecounted(session);
      NothingQueuedIn(old(jobs), session, reason);
      SessionHasQueue(session);
      count := |ids|;
    }

    /** After a failed attempt: queue the job again, to resume, unless its attempts are used up. */
    method RetryOrGiveUp(id: nat) returns (again: bool)
      requires Valid()
      modifies this`jobs, this`rows, this`running, this`queued, this`queuedBySession, this`pending, this`changes
      ensures Valid()
      ensures again == (id in old(jobs) && old(jobs)[id].attempts < MAX_ATTEMPTS)
      ensures jobs == if again then old(jobs)[id := old(jobs)[id].(status := JobStatus.Queued, resume := true)]
                      else old(jobs)
      ensures if again then
          var kind := KindOf(jobs[id]);
          changes == old(changes) + NewsOf(kind, kind in FinishedIn(old(jobs)), kind in FinishedIn(jobs))
        else changes == old(changes)
    {
      hide Valid, FinishedIn, NewsOf;
      again := id in jobs && jobs[id].attempts < MAX_ATTEMPTS;
      if again {
        KeepsTrack(id, jobs[id].(status := JobStatus.Queued, resume := true), id in Leaders(jobs));
        Update(id, (job: Job) => job.(status := JobStatus.Queued, resume := true));
      }
    }

    method Enqueue(
      session: nat, direction: Direction, localPath: string, remotePath: string, displayName: string,
      totalBytes: nat, batchId: Option<nat>)
      returns (id: nat)
      requires Valid()
      modifies this`jobs, this`nextId, this`rows, this`rowOf, this`batchRow, this`queued, this`queuedBySession
      modifies this`running, this`pending, this`changes
      ensures Valid()
      ensures id == old(nextId) && nextId == id + 1
      ensures jobs == old(jobs)[id := Job(id, session, direction, localPath, remotePath, displayName, totalBytes, 0,
                                         JobStatus.Queued, 0, batchId, false, None)]
      ensures var kind := if batchId.Some? then Batch(batchId.value) else Single(id);
        changes == old(changes) + NewsOf(kind, kind in FinishedIn(old(jobs)), kind in FinishedIn(jobs))
    {
      hide Valid, FinishedIn, NewsOf;
      id := nextId;
      Insert(Job(
        id, session, direction, localPath, remotePath, displayName, totalBytes, 0, JobStatus.Queued, 0, batchId, false,
        None));
    }

    method Insert(job: Job)
      requires Valid()
      requires job.id == nextId && job.status.Queued? && job.transferredBytes == 0
      modifies this`jobs, this`nextId, this`rows, this`rowOf, this`batchRow, this`queued, this`queuedBySession
      modifies this`running, this`pending, this`changes
      ensures Valid()
      ensures nextId == old(nextId) + 1 && jobs == old(jobs)[job.id := job]
      ensures var kind := if job.batchId.Some? then Batch(job.batchId.value) else Single(job.id);
        changes == old(changes) + NewsOf(kind, kind in FinishedIn(old(jobs)), kind in FinishedIn(jobs))
    {
      hide Indexes, JobsWellFormed, FinishedKinds, FinishedIn, Fold, Truthful, KindsDistinct;
      LogTellsFinishedRows();
      var id, batch := job.id, job.batchId;
      var caption := if batch.Some? && batch.value in batchLabels then batchLabels[batch.value] else job.displayName;
      var key := if batch.Some? && batch.value in batchRow then batchRow[batch.value] else id;
      var kind := if batch.Some? then Batch(batch.value) else Single(id);
      PlaceForNewJob(id, job);
      var wasFinished := key in rows && rows[key].tally.IsFinished();
      nextId := nextId + 1;
      jobs := jobs[id := job];
      RangeAfterAppend(old(jobs), id);
      ListInRow(id, key, kind, caption, old(jobs));
      QueuedRowIsUnfinished(old(rows), key, rows[key]);
      if wasFinished && !rows[key].tally.IsFinished() {
        Announce(Reopened(kind));
      }
      LogTellsFinishedRows();
      NewJobIsPending(old(jobs), jobs, id);
      assert changes == old(changes) ==> changes == old(changes) + [];
    }

    lemma PlaceForNewJob(id: nat, job: Job)
      requires JobsWellFormed(jobs, id) && Indexes(jobs)
      requires job.id == id
      ensures id !in jobs && id !in rows && KindsDistinct(rows)
      ensures forall x :: x in jobs ==> x < id
      ensures job.batchId.Some? && job.batchId.value in batchRow ==>
        batchRow[job.batchId.value] in rows && rows[batchRow[job.batchId.value]].kind == KindOf(job)
    {
      hide Grouped, Recounted, KindsDistinct;
      KeyForNewJob(jobs, batchLabels, rows, rowOf, batchRow, id, job);
      KindsAreDistinct(jobs, jobs, batchLabels, rows, rowOf, batchRow, {}, id);
    }

    lemma RangeAfterAppend(earlier: JobMap, id: nat)
      requires JobsWellFormed(earlier, id) && nextId == id + 1
      requires LabelsKnown()
      requires id in jobs && jobs == earlier[id := jobs[id]] && jobs[id].id == id
      ensures IdsInRange()
    {
    }

    /** List the new job `id` at the end of the row `key`, making the row if there is none. */
    method ListInRow(id: nat, key: nat, kind: RowKind, caption: string, ghost earlier: JobMap)
      requires id !in earlier && id in jobs && jobs == earlier[id := jobs[id]]
      requires forall x :: x in earlier ==> x < id
      requires Indexes(earlier)
      requires kind == KindOf(jobs[id]) && caption == LabelOf(batchLabels, jobs[id])
      requires jobs[id].status.Queued? && jobs[id].transferredBytes == 0
      requires key == if kind.Batch? && kind.batch in batchRow then batchRow[kind.batch] else id
      requires if key in rows then rows[key].kind == kind else key == id
      modifies this`rows, this`rowOf, this`batchRow, this`queued, this`queuedBySession, this`running, this`pending
      ensures Indexes(jobs)
      ensures key in rows && rows == old(rows)[key := rows[key]]
      ensures rows[key].kind == kind && rows[key].tally.queued > 0
    {
      hide Recounted, Grouped, ShapeTally, JobTally, Plus, Shapes, KindOf, LabelOf;
      ShapesAfterAppend(earlier, jobs, id);
      var job := jobs[id];
      var counters := if key in rows then rows[key] else RowCounters(kind, caption, job.direction, [], NOTHING);
      counters := counters.(order := counters.order + [id],
        tally := counters.tally.(bytesTotal := counters.tally.bytesTotal + job.totalBytes));
      if kind.Batch? {
        batchRow := batchRow[kind.batch := key];
      }
      rows := rows[key := counters];
      rowOf := rowOf[id := key];
      Account(id, ShapeOf(job), true, Shapes(earlier));
      assert rows == old(rows)[key := rows[key]];
      var was := if key in old(rows) then old(rows)[key].tally else NOTHING;
      ShareOfNewJob(was, job, rows[key].tally);
      GroupedAfterAppend(earlier, jobs, batchLabels, old(rows), old(rowOf), old(batchRow), key, rows[key], id);
    }

    /** Hand out a fresh batch id. The queue stays valid if and only if jobs that already carry that id, which
        nobody could have been given, show its label. */
    method StartBatch(caption: string) returns (id: nat)
      requires Valid()
      modifies this`nextBatchId, this`batchLabels
      ensures id == old(nextBatchId) && nextBatchId == id + 1
      ensures batchLabels == old(batchLabels)[id := caption] && id !in old(batchLabels)
      ensures Valid() <==>
        forall first :: first in Leaders(jobs) && first in jobs && jobs[first].batchId == Some(id) ==>
          jobs[first].displayName == caption
    {
      hide Recounted, RowsAgree, RowsPartition, BatchesAgree, LogAgrees, Leaders, JobsWellFormed;
      id := nextBatchId;
      NewLabelFitsIff(id, caption);
      Relabel(id, caption);
    }

    method Relabel(id: nat, caption: string)
      requires Valid() && id == nextBatchId
      modifies this`nextBatchId, this`batchLabels
      ensures nextBatchId == id + 1 && batchLabels == old(batchLabels)[id := caption]
      ensures Valid() <==> RowsAgree(jobs, jobs, batchLabels, rows, {})
    {
      hide Recounted, RowsAgree, RowsPartition, BatchesAgree, LogAgrees, JobsWellFormed;
      nextBatchId := nextBatchId + 1;
      batchLabels := batchLabels[id := caption];
    }

    lemma NewLabelFitsIff(batch: nat, caption: string)
      requires Valid() && batch !in batchLabels
      ensures RowsAgree(jobs, jobs, batchLabels[batch := caption], rows, {}) <==>
        forall first :: first in Leaders(jobs) && first in jobs && jobs[first].batchId == Some(batch) ==>
          jobs[first].displayName == caption
    {
      RowsAreTheGroups();
      hide Recounted, RowsAgree, RowsPartition, BatchesAgree, LogAgrees, Leaders, GroupRow, IdsInRange;
      RelabelledRowsIff(jobs, batchLabels, rows, batch, caption);
    }

    method ForgetBatchIfEmpty(batchId: nat)
      requires Valid()
      modifies this`batchLabels, this`unkeptTimesFlagged
      ensures Valid()
      ensures var empty := forall id :: id in jobs ==> jobs[id].batchId != Some(batchId);
              && batchLabels == (if empty then old(batchLabels) - {batchId} else old(batchLabels))
              && unkeptTimesFlagged == (if empty then old(unkeptTimesFlagged) - {batchId} else old(unkeptTimesFlagged))
    {
      hide Recounted, Grouped, LogAgrees;
      BatchHasRow(batchId);
      if batchId !in batchRow {
        NoRowNoLabel(jobs, batchLabels, rows, rowOf, batchRow, batchId);
        batchLabels := batchLabels - {batchId};
        unkeptTimesFlagged := unkeptTimesFlagged - {batchId};
      }
    }

    lemma BatchHasRow(batch: nat)
      requires Valid()
      ensures batch in batchRow <==> exists id :: id in jobs && jobs[id].batchId == Some(batch)
    {
      hide Recounted, RowsPartition, LogAgrees;
      if batch in batchRow {
        var key := batchRow[batch];
        assert RowAgrees(jobs, jobs, batchLabels, key, rows[key], {});
        RowKeyIsJob(jobs, jobs, batchLabels, key, rows[key], {});
      } else {
        NoRowNoJob(jobs, batchLabels, rows, rowOf, batchRow, batch);
      }
    }

    /** Remember that a batch's file times could not be kept; only the first call says so. */
    method FlagUnkeptTimes(batchId: nat) returns (isFirst: bool)
      requires Valid()
      modifies this`unkeptTimesFlagged
      ensures Valid()
      ensures isFirst == (batchId !in old(unkeptTimesFlagged))
      ensures unkeptTimesFlagged == old(unkeptTimesFlagged) + {batchId}
    {
      hide Recounted, Grouped, LogAgrees;
      isFirst := batchId !in unkeptTimesFlagged;
      unkeptTimesFlagged := unkeptTimesFlagged + {batchId};
    }

    /** Hand out the changes since the last call. */
    method TakeChanges() returns (out: seq<RowChange>)
      requires Valid()
      modifies this`changes, this`taken
      ensures Valid()
      ensures out == old(changes) && changes == [] && taken == old(taken) + out
    {
      hide IdsInRange, Indexes, FinishedKinds, Fold, Truthful;
      out := changes;
      changes := [];
      taken := taken + out;
      assert taken + changes == old(taken + changes);
    }

    // ----- removing jobs -----

    ghost predicate Removing(all: JobMap, removedByRow: map<nat, set<nat>>, was: map<RowKind, bool>)
      reads this
    {
      && JobsWellFormed(all, nextId)
      && (forall id :: id in jobs ==> id in all && jobs[id] == all[id])
      && IndexesWhile(jobs, all, removedByRow.Keys)
      && RemovedAreGone(jobs, rows, removedByRow)
      && Truthful(taken + changes)
      && Tracks(Fold(taken + changes), rows, was)
      && HaveRows(rows, was)
    }

    /** Take one job out of everything except its row's list of ids. */
    method TakeOut(id: nat, ghost all: JobMap, ghost dirty: set<nat>)
      requires id in jobs && IndexesWhile(jobs, all, dirty)
      modifies this`jobs, this`rows, this`rowOf, this`running, this`queued, this`queuedBySession, this`pending
      ensures jobs == old(jobs) - {id}
      ensures id in old(rowOf) && rowOf == old(rowOf) - {id}
      ensures IndexesWhile(jobs, all, dirty + {old(rowOf)[id]})
      ensures var key := old(rowOf)[id];
        && key in old(rows) && key in rows
        && rows == old(rows)[key := old(rows)[key].(tally := rows[key].tally)]
        && Plus(rows[key].tally, JobTally(old(jobs)[id])) == old(rows)[key].tally
    {
      hide Recounted, Grouped, Covers, Plus, ShapeTally, JobTally, Shapes;
      var job := jobs[id];
      HomeRow(jobs, all, batchLabels, rows, rowOf, batchRow, dirty, id);
      RowCoversJob(jobs, all, batchLabels, rows, rowOf, batchRow, dirty, id);
      ShapesAfterRemoval(jobs, id);
      var key := rowOf[id];
      Account(id, ShapeOf(job), false, Shapes(jobs));
      ghost var between := rows[key].tally;
      var total := SaturatingSub(rows[key].tally.bytesTotal, job.totalBytes);
      rows := rows[key := rows[key].(tally := rows[key].tally.(bytesTotal := total))];
      TotalIsExact(old(rows)[key].tally, between, job);
      assert rows == old(rows)[key := old(rows)[key].(tally := rows[key].tally)];
      rowOf := rowOf - {id};
      jobs := jobs - {id};
      GroupedAfterRemoval(
        old(jobs), all, batchLabels, old(rows), old(rowOf), batchRow, dirty, id, rows[key].tally);
    }

    method RekeyRow(oldKey: nat)
      requires oldKey in rows && rows[oldKey].order != [] && rows[oldKey].order[0] in jobs
      requires forall id :: id in rows[oldKey].order ==> id in rowOf
      modifies this`rows, this`rowOf, this`batchRow
      ensures var row := old(rows)[oldKey];
        rows == (old(rows) - {oldKey})[row.order[0] := Rekeyed(row, jobs[row.order[0]], batchLabels)]
      ensures rowOf.Keys == old(rowOf).Keys
      ensures var row := old(rows)[oldKey];
        forall id :: id in rowOf ==> rowOf[id] == if id in row.order then row.order[0] else old(rowOf)[id]
      ensures var row := old(rows)[oldKey];
        batchRow == if row.kind.Batch? then old(batchRow)[row.kind.batch := row.order[0]] else old(batchRow)
    {
      var counters := rows[oldKey];
      rows := rows - {oldKey};
      var newKey := counters.order[0];
      var first := jobs[newKey];
      counters := counters.(direction := first.direction);
      if counters.kind.Batch? && counters.kind.batch !in batchLabels {
        counters := counters.(labelText := first.displayName);
      }
      for i := 0 to |counters.order|
        invariant rows == old(rows) - {oldKey} && batchRow == old(batchRow)
        invariant rowOf.Keys == old(rowOf).Keys
        invariant forall id :: id in rowOf ==>
          rowOf[id] == if id in counters.order[..i] then newKey else old(rowOf)[id]
      {
        rowOf := rowOf[counters.order[i] := newKey];
      }
      assert counters.order[..|counters.order|] == counters.order;
      if counters.kind.Batch? {
        batchRow := batchRow[counters.kind.batch := newKey];
      }
      rows := rows[newKey := counters];
    }

    /** Strike the removed ids off one row; drop the row if none are left, move it if its first job
        went. */
    method PruneRow(
      key: nat, removedByRow: map<nat, set<nat>>, was: map<RowKind, bool>, ghost all: JobMap,
      ghost base: seq<RowChange>, ghost first: set<RowKind>)
      returns (was': map<RowKind, bool>)
      requires Removing(all, removedByRow, was) && key in removedByRow
      requires TellsDropped(base, changes, first, rows)
      modifies this`rows, this`rowOf, this`batchRow, this`changes
      ensures Removing(all, removedByRow - {key}, was')
      ensures TellsDropped(base, changes, first, rows)
    {
      hide Recounted, Grouped, FinishedKinds, Fold, Truthful, Tracks, HaveRows, JobsWellFormed, KindsDistinct, KindsIn,
        TellsDropped;
      if Retain(rows[key].order, removedByRow[key]) == [] {
        was' := DropRow(key, removedByRow, was, all, base, first);
      } else {
        was' := was;
        KeepRow(key, removedByRow, was, all);
        SameKindsTold(base, changes, first, old(rows), rows);
      }
    }

    /** What holds once a row without jobs is dropped. */
    lemma RowToDrop(key: nat, removedByRow: map<nat, set<nat>>, was: map<RowKind, bool>, all: JobMap)
      requires Removing(all, removedByRow, was) && key in removedByRow
      requires Retain(rows[key].order, removedByRow[key]) == []
      ensures key in rows && KindsDistinct(rows)
      ensures var kind := rows[key].kind;
        && Grouped(jobs, all, batchLabels, rows - {key}, rowOf,
             if kind.Batch? then batchRow - {kind.batch} else batchRow, (removedByRow - {key}).Keys)
        && RemovedAreGone(jobs, rows - {key}, removedByRow - {key})
        && Tracks(Fold(taken + changes) - {kind}, rows - {key}, was - {kind})
        && HaveRows(rows - {key}, was - {kind})
    {
      hide Recounted, Grouped, FinishedKinds, Fold, Truthful, Tracks, HaveRows, JobsWellFormed, KindsDistinct;
      KindsAreDistinct(jobs, all, batchLabels, rows, rowOf, batchRow, removedByRow.Keys, nextId);
      GroupedAfterDrop(jobs, all, batchLabels, rows, rowOf, batchRow, removedByRow.Keys, key);
      TracksDrop(Fold(taken + changes), rows, was, key);
      OneRowPruned(jobs, rows, removedByRow, key);
      assert (removedByRow - {key}).Keys == removedByRow.Keys - {key};
    }

    method DropRow(
      key: nat, removedByRow: map<nat, set<nat>>, was: map<RowKind, bool>, ghost all: JobMap,
      ghost base: seq<RowChange>, ghost first: set<RowKind>)
      returns (was': map<RowKind, bool>)
      requires Removing(all, removedByRow, was) && key in removedByRow
      requires Retain(rows[key].order, removedByRow[key]) == []
      requires TellsDropped(base, changes, first, rows)
      modifies this`rows, this`batchRow, this`changes
      ensures Removing(all, removedByRow - {key}, was')
      ensures TellsDropped(base, changes, first, rows)
    {
      hide Recounted, Grouped, FinishedKinds, Fold, Truthful, Tracks, HaveRows, JobsWellFormed, KindsDistinct, KindsIn,
        TellsDropped, RemovedAreGone, Retain;
      RowToDrop(key, removedByRow, was, all);
      var kind := rows[key].kind;
      DroppedGrows(base, changes, first, rows, key);
      rows := rows - {key};
      if kind.Batch? {
        batchRow := batchRow - {kind.batch};
      }
      was' := was - {kind};
      Announce(Removed(kind));
    }

    method KeepRow(key: nat, removedByRow: map<nat, set<nat>>, ghost was: map<RowKind, bool>, ghost all: JobMap)
      requires Removing(all, removedByRow, was) && key in removedByRow
      requires Retain(rows[key].order, removedByRow[key]) != []
      modifies this`rows, this`rowOf, this`batchRow
      ensures Removing(all, removedByRow - {key}, was) && KindsIn(rows) == KindsIn(old(rows))
    {
      hide Recounted, Grouped, FinishedKinds, Fold, Truthful, Tracks, HaveRows, JobsWellFormed, KindsDistinct, KindsIn;
      hide Rekeyed, Retain, Gone;
      ghost var row := RowToKeep(key, removedByRow, was, all);
      var removed := removedByRow[key];
      var counters := rows[key].(order := Retain(rows[key].order, removed));
      rows := rows[key := counters];
      if key in removed {
        RekeyRow(key);
      }
      assert rows == (old(rows) - {key})[row.order[0] := row];
      assert batchRow == if row.kind.Batch? then old(batchRow)[row.kind.batch := row.order[0]] else old(batchRow);
      GroupedAfterRekey(
        jobs, all, batchLabels, old(rows), old(rowOf), rowOf, old(batchRow), removedByRow.Keys, key, row);
      TracksRekey(Fold(taken + changes), old(rows), was, key, row.order[0], row);
      KindsMoved(old(rows), key, row.order[0], row);
      assert (removedByRow - {key}).Keys == removedByRow.Keys - {key};
      assert IndexesWhile(jobs, all, (removedByRow - {key}).Keys);
      assert forall k :: k in removedByRow - {key} ==> k in rows && rows[k] == old(rows)[k];
    }

    /** The row as it must be stored once its removed ids are gone. */
    lemma RowToKeep(key: nat, removedByRow: map<nat, set<nat>>, was: map<RowKind, bool>, all: JobMap)
      returns (row: RowCounters)
      requires Removing(all, removedByRow, was) && key in removedByRow
      requires Retain(rows[key].order, removedByRow[key]) != []
      ensures var kept := Retain(rows[key].order, removedByRow[key]);
        && kept[0] in jobs && kept[0] in all && jobs[kept[0]] == all[kept[0]]
        && row == Rekeyed(rows[key].(order := kept), jobs[kept[0]], batchLabels)
        && row.order == kept && row.kind == rows[key].kind && row.tally == rows[key].tally
        && row.direction == all[kept[0]].direction
        && row.labelText == LabelOf(batchLabels, all[kept[0]])
        && (forall id :: id in kept ==> id in rowOf && rowOf[id] == key)
        && (row.kind.Batch? ==> row.kind.batch in batchRow && batchRow[row.kind.batch] == key)
        && (key !in removedByRow[key] ==> kept[0] == key && row == rows[key].(order := kept))
    {
      hide Recounted, FinishedKinds, Fold, Truthful, Tracks, HaveRows, JobsWellFormed;
      assert RowAgrees(jobs, all, batchLabels, key, rows[key], removedByRow.Keys);
      var kept := Retain(rows[key].order, removedByRow[key]);
      RekeyedIsRight(
        jobs, all, batchLabels, key, rows[key], removedByRow.Keys, kept, nextId);
      row := Rekeyed(rows[key].(order := kept), jobs[kept[0]], batchLabels);
      assert rows[key].order[0] in rows[key].order;
    }

    function RowKey(kind: RowKind): (key: Option<nat>)
      reads this`rows, this`batchRow
    {
      var key := match kind
        case Single(id) => if id in rows then Some(id) else None
        case Batch(batch) => if batch in batchRow then Some(batchRow[batch]) else None;
      if key.Some? && key.value in rows && rows[key.value].kind == kind then key else None
    }

    /** Finding a row by its kind finds it whenever there is one. */
    lemma RowKeyFinds(all: JobMap, dirty: set<nat>, key: nat)
      requires JobsWellFormed(all, nextId) && IndexesWhile(jobs, all, dirty)
      requires key in rows
      ensures RowKey(rows[key].kind) == Some(key)
    {
      hide Recounted, RowsPartition;
      if rows[key].kind.Single? {
        SingleRowKey(jobs, all, batchLabels, key, rows[key], dirty, nextId);
      }
    }

    /** First pass: take every job on the list out of the indexes. */
    method TakeOutAll(ids: seq<nat>)
      returns (touched: set<nat>, removedByRow: map<nat, set<nat>>, was: map<RowKind, bool>)
      requires Valid()
      modifies this`jobs, this`rows, this`rowOf, this`running, this`queued, this`queuedBySession, this`pending
      ensures Removing(old(jobs), removedByRow, was) && KindsIn(rows) == KindsIn(old(rows))
      ensures jobs == old(jobs) - Elements(ids)
      ensures touched == BatchesOf(old(jobs), Elements(ids))
    {
      hide Recounted, Grouped, FinishedKinds, Fold, Truthful, Tracks, JobsWellFormed, KindsDistinct, Elements;
      hide BatchesOf, Gone, KindsIn;
      touched, removedByRow, was := {}, map[], map[];
      ghost var all := jobs;
      TracksFromAgreement(Fold(taken + changes), rows);
      NoIds(all);
      assert removedByRow.Keys == {};
      for i := 0 to |ids|
        invariant Removing(all, removedByRow, was) && KindsIn(rows) == KindsIn(old(rows))
        invariant jobs == all - Elements(ids[..i])
        invariant touched == BatchesOf(all, Elements(ids[..i]))
      {
        hide Removing;
        NextId(all, ids, i);
        var id := ids[i];
        if id in jobs {
          if jobs[id].batchId.Some? {
            touched := touched + {jobs[id].batchId.value};
          }
          removedByRow, was := TakeOutNext(id, removedByRow, was, all);
        }
      }
      assert ids[..|ids|] == ids;
    }

    method TakeOutNext(id: nat, removedByRow: map<nat, set<nat>>, was: map<RowKind, bool>, ghost all: JobMap)
      returns (removedByRow': map<nat, set<nat>>, was': map<RowKind, bool>)
      requires Removing(all, removedByRow, was) && id in jobs
      modifies this`jobs, this`rows, this`rowOf, this`running, this`queued, this`queuedBySession, this`pending
      ensures Removing(all, removedByRow', was') && KindsIn(rows) == KindsIn(old(rows))
      ensures jobs == old(jobs) - {id}
    {
      hide Recounted, Grouped, FinishedKinds, Fold, Truthful, Tracks, HaveRows, JobsWellFormed, KindsDistinct, KindsIn,
        RemovedAreGone;
      HomeRow(jobs, all, batchLabels, rows, rowOf, batchRow, removedByRow.Keys, id);
      KindsAreDistinct(jobs, all, batchLabels, rows, rowOf, batchRow, removedByRow.Keys, nextId);
      var key := rowOf[id];
      var kind, finished := rows[key].kind, rows[key].tally.IsFinished();
      was' := if kind in was then was else was[kind := finished];
      TakeOut(id, all, removedByRow.Keys);
      removedByRow' := removedByRow[key := (if key in removedByRow then removedByRow[key] else {}) + {id}];
      assert removedByRow'.Keys == removedByRow.Keys + {key};
      TracksRemoval(Fold(taken + changes), old(rows), was, key, rows[key]);
      KindsKept(old(rows), key, rows[key]);
      OneMoreGone(old(jobs), all, batchLabels, old(rows), old(rowOf), batchRow, removedByRow, id, rows[key]);
    }

    /** Last pass: announce each touched row that is finished now and was not before. A finished row
        cannot be reopened by removing jobs. */
    method AnnounceFinished(was: map<RowKind, bool>)
      requires Removing(jobs, map[], was)
      requires LabelsKnown()
      modifies this`changes
      ensures Valid()
      ensures TellsSince(old(changes), changes, FinishedAll(FinishedKinds(rows) - Fold(taken + old(changes))))
    {
      hide Recounted, Grouped, FinishedKinds, Fold, Truthful, Tracks, HaveRows, JobsWellFormed, KindsDistinct, TellsSince,
        FinishedAll;
      ghost var clean: map<nat, set<nat>> := map[];
      assert clean.Keys == {};
      KindsAreDistinct(jobs, jobs, batchLabels, rows, rowOf, batchRow, {}, nextId);
      TellsNothing(changes);
      ghost var known := Fold(taken + changes);
      assert known - known == {};
      var rest := was;
      while rest.Keys != {}
        invariant Truthful(taken + changes) && Tracks(Fold(taken + changes), rows, rest) && HaveRows(rows, rest)
        invariant known <= Fold(taken + changes)
        invariant TellsSince(old(changes), changes, FinishedAll(Fold(taken + changes) - known))
        decreases rest.Keys
      {
        var kind :| kind in rest.Keys;
        ghost var home := RowToAnnounce(kind, rest);
        var key := RowKey(kind);
        assert key == Some(home);
        var now := rows[key.value].tally.IsFinished();
        if now && !rest[kind] {
          NotKnownYet(Fold(taken + changes), rows, rest, kind);
          AnnounceNew(kind, old(changes), known);
        } else if !now && rest[kind] {
          assert false;
        }
        rest := rest - {kind};
      }
      assert rest == map[];
      TracksToAgreement(Fold(taken + changes), rows);
    }

    method AnnounceNew(kind: RowKind, ghost base: seq<RowChange>, ghost known: set<RowKind>)
      requires Truthful(taken + changes) && kind !in Fold(taken + changes) && known <= Fold(taken + changes)
      requires TellsSince(base, changes, FinishedAll(Fold(taken + changes) - known))
      modifies this`changes
      ensures Truthful(taken + changes) && Fold(taken + changes) == Fold(taken + old(changes)) + {kind}
      ensures TellsSince(base, changes, FinishedAll(Fold(taken + changes) - known))
    {
      hide Truthful, Fold, TellsSince, FinishedAll;
      ghost var before := Fold(taken + changes);
      FinishedGrows(base, changes, known, before, before + {kind}, kind);
      Announce(Finished(kind));
    }

    lemma NotKnownYet(known: set<RowKind>, rows: map<nat, RowCounters>, rest: map<RowKind, bool>, kind: RowKind)
      requires kind in rest && Tracks(known, rows, rest)
      ensures rest[kind] <==> kind in known
    {
    }

    lemma RowToAnnounce(kind: RowKind, rest: map<RowKind, bool>) returns (key: nat)
      requires JobsWellFormed(jobs, nextId) && IndexesWhile(jobs, jobs, {})
      requires KindsDistinct(rows) && HaveRows(rows, rest) && kind in rest
      requires Tracks(Fold(taken + changes), rows, rest)
      ensures key in rows && rows[key].kind == kind && RowKey(kind) == Some(key)
      ensures HaveRows(rows, rest - {kind})
      ensures var known, now := Fold(taken + changes), rows[key].tally.IsFinished();
        && (rest[kind] ==> now)
        && Tracks(if now then known + {kind} else known, rows, rest - {kind})
        && (now && rest[kind] ==> known + {kind} == known)
    {
      hide Recounted, RowsPartition, BatchesAgree, RowAgrees, Fold, FinishedKinds, Tracks, HaveRows, KindsDistinct;
      key := HaveRowsGives(rows, rest, kind);
      RowKeyFinds(jobs, {}, key);
      assert RowAgrees(jobs, jobs, batchLabels, key, rows[key], {});
      RowHasJobs(jobs, batchLabels, key, rows[key]);
      NotKnownYet(Fold(taken + changes), rows, rest, kind);
      TracksAnnounced(Fold(taken + changes), rows, rest, key);
    }

    /** Remove the listed jobs; rows and batches without jobs go with them. */
    method RemoveJobs(ids: seq<nat>)
      requires Valid()
      modifies this
      ensures Valid()
      ensures jobs == old(jobs) - Elements(ids)
      ensures var emptied := EmptiedBatches(old(jobs), Elements(ids));
              batchLabels == old(batchLabels) - emptied && unkeptTimesFlagged == old(unkeptTimesFlagged) - emptied
      ensures forall id :: id in jobs <==> id in old(jobs) && id !in ids
      ensures forall batch :: batch in EmptiedBatches(old(jobs), Elements(ids)) <==> IsEmptied(old(jobs), ids, batch)
      ensures nextId == old(nextId) && nextBatchId == old(nextBatchId) && taken == old(taken)
      ensures TellsSince(old(changes), changes,
        RemovedAll(KindsOf(old(jobs)) - KindsOf(jobs)) + FinishedAll(FinishedIn(jobs) - FinishedIn(old(jobs))))
    {
      hide Removing, LogAgrees, IndexesWhile, Indexes, JobsWellFormed, Elements, BatchesOf, Emptied, TellsSince, KindsIn,
        KindsOf, FinishedIn, FinishedKinds, Fold, RemovedAll, FinishedAll, IsEmptied;
      EmptiedMeans(jobs, ids);
      RemovedMeans(jobs, ids);
      LogTellsFinishedRows();
      var touched, removedByRow, was := TakeOutAll(ids);
      PruneRows(removedByRow, was, old(jobs));
      LogTellsFinishedRows();
      hide Valid;
      ForgetEmptied(touched);
    }

    method ForgetEmptied(touched: set<nat>)
      requires Valid()
      modifies this`batchLabels, this`unkeptTimesFlagged
      ensures Valid()
      ensures batchLabels == old(batchLabels) - Emptied(jobs, touched)
      ensures unkeptTimesFlagged == old(unkeptTimesFlagged) - Emptied(jobs, touched)
    {
      hide Valid, Emptied;
      var todo := touched;
      assert touched - todo == {};
      EmptiedNothing(jobs);
      while todo != {}
        invariant Valid()
        invariant todo <= touched
        invariant batchLabels == old(batchLabels) - Emptied(jobs, touched - todo)
        invariant unkeptTimesFlagged == old(unkeptTimesFlagged) - Emptied(jobs, touched - todo)
        decreases todo
      {
        var batch :| batch in todo;
        EmptiedStep(jobs, touched - todo, batch);
        ForgetBatchIfEmpty(batch);
        assert touched - (todo - {batch}) == (touched - todo) + {batch};
        todo := todo - {batch};
      }
      assert touched - todo == touched;
    }

    method PruneRows(removedByRow: map<nat, set<nat>>, was: map<RowKind, bool>, ghost all: JobMap)
      requires Removing(all, removedByRow, was)
      requires LabelsKnown()
      modifies this`rows, this`rowOf, this`batchRow, this`changes
      ensures Valid()
      ensures var gone := KindsIn(old(rows)) - KindsIn(rows);
        TellsSince(old(changes), changes,
          RemovedAll(gone) + FinishedAll(FinishedKinds(rows) - Fold(taken + old(changes))))
    {
      hide Removing, Valid, TellsDropped, TellsSince, KindsIn, FinishedKinds, Fold;
      ghost var first := KindsIn(rows);
      var kinds := PruneEach(removedByRow, was, all);
      AllClean(all, kinds);
      ghost var mid := changes;
      FoldAfterDropping(taken, old(changes), changes, first, rows);
      AnnounceFinished(kinds);
      FinishedHaveRows();
      DroppedIsTold(old(changes), mid, first, rows);
      RemovalIsTold(
        old(changes), mid, changes, first, KindsIn(rows), Fold(taken + old(changes)), FinishedKinds(rows));
    }

    lemma FinishedHaveRows()
      ensures FinishedKinds(rows) <= KindsIn(rows)
    {
    }

    method PruneEach(removedByRow: map<nat, set<nat>>, was: map<RowKind, bool>, ghost all: JobMap)
      returns (kinds: map<RowKind, bool>)
      requires Removing(all, removedByRow, was)
      modifies this`rows, this`rowOf, this`batchRow, this`changes
      ensures Removing(all, map[], kinds)
      ensures TellsDropped(old(changes), changes, KindsIn(old(rows)), rows)
    {
      hide Removing, TellsDropped, KindsIn;
      ghost var base, first := changes, KindsIn(rows);
      var keys := Ascending(removedByRow.Keys);
      var left := removedByRow;
      kinds := was;
      NothingDropped(changes, rows);
      hide Ascending, Increasing, AreLeft;
      AllAreLeft(keys, left);
      for i := 0 to |keys|
        invariant Removing(all, left, kinds)
        invariant AreLeft(keys, i, left)
        invariant TellsDropped(base, changes, first, rows)
      {
        StillListed(keys, i, left);
        kinds := PruneRow(keys[i], left, kinds, all, base, first);
        left := left - {keys[i]};
      }
      NoneIsLeft(keys, left);
    }

    lemma AllClean(all: JobMap, was: map<RowKind, bool>)
      requires Removing(all, map[], was)
      ensures Removing(jobs, map[], was)
    {
      hide Recounted, Grouped, FinishedKinds, Fold, Truthful, Tracks, HaveRows;
      ghost var clean: map<nat, set<nat>> := map[];
      assert clean.Keys == {};
      GroupedWhenClean(jobs, all, batchLabels, rows, rowOf, batchRow);
    }

    // ----- what may start now -----

    method CountActive() returns (perSession: map<nat, nat>, busy: set<Destination>)
      requires Valid()
      ensures CountsOk(jobs, RunningIds(jobs), perSession) && BusyOk(jobs, RunningIds(jobs), busy)
    {
      hide Valid, CountsOk, BusyOk, Busy, InSession;
      QueuedIsRecounted();
      perSession, busy := map[], {};
      var rest := running;
      NothingActive(jobs);
      assert running - rest == {};
      while rest != {}
        invariant rest <= running
        invariant CountsOk(jobs, running - rest, perSession) && BusyOk(jobs, running - rest, busy)
        decreases rest
      {
        var id := Least(rest);
        CountsAfterStart(jobs, running - rest, perSession, id);
        BusyAfterStart(jobs, running - rest, busy, id);
        assert running - (rest - {id}) == (running - rest) + {id};
        var session := jobs[id].session;
        perSession := perSession[session := Count(perSession, session) + 1];
        busy := busy + {jobs[id].Destination()};
        rest := rest - {id};
      }
      assert running - rest == running;
    }

    /** Put the queue of every session that is below its cap on the heap. */
    method FillHeap(cap: SessionCap, perSession: map<nat, nat>)
      returns (heads: set<(nat, nat)>, iterators: map<nat, seq<nat>>, ghost live: set<nat>)
      requires Valid()
      requires CountsOk(jobs, RunningIds(jobs), perSession)
      ensures HeapOk(jobs, live, heads, iterators)
      ensures live <= QueuedIds(jobs)
      ensures forall id :: id in QueuedIds(jobs) - live ==> Capped(jobs, cap, RunningIds(jobs), jobs[id].session)
    {
      hide Valid, HeapOk, Capped, CountsOk;
      heads, iterators, live := {}, map[], {};
      NothingActive(jobs);
      var sessions := queuedBySession.Keys;
      while sessions != {}
        invariant sessions <= queuedBySession.Keys
        invariant HeapOk(jobs, live, heads, iterators)
        invariant live <= QueuedIds(jobs)
        invariant forall id :: id in live ==> jobs[id].session !in sessions
        invariant forall id :: id in QueuedIds(jobs) - live ==>
          jobs[id].session in sessions || Capped(jobs, cap, RunningIds(jobs), jobs[id].session)
          || jobs[id].session !in queuedBySession
        decreases sessions
      {
        var session :| session in sessions;
        SessionIsRecounted(session);
        SessionHasQueue(session);
        CapIsCounted(cap, RunningIds(jobs), perSession, session);
        if cap(session).Some? && Count(perSession, session) >= cap(session).value {
        } else {
          var queue := Ascending(queuedBySession[session]);
          HeapAfterPush(jobs, live, heads, iterators, session, queuedBySession[session]);
          heads := heads + {(queue[0], session)};
          iterators := iterators[session := queue[1..]];
          live := live + queuedBySession[session];
        }
        sessions := sessions - {session};
      }
      forall id | id in QueuedIds(jobs) - live ensures Capped(jobs, cap, RunningIds(jobs), jobs[id].session) {
        SessionIsRecounted(jobs[id].session);
        assert id in InSession(jobs, QueuedIds(jobs), jobs[id].session);
      }
    }

    lemma CapIsCounted(cap: SessionCap, active: set<nat>, perSession: map<nat, nat>, session: nat)
      requires CountsOk(jobs, active, perSession)
      ensures (cap(session).Some? && Count(perSession, session) >= cap(session).value) <==>
        Capped(jobs, cap, active, session)
    {
    }

    /** The jobs to start now: a merge of the per-session queues through a heap, which drops a
        session the moment it is capped. It returns the list of the plain scan in id order. */
    method StartableLimited(limit: nat, cap: SessionCap) returns (startable: seq<nat>)
      requires Valid()
      ensures startable == Startable(jobs, limit, cap)
      ensures ListsThoseWithRoom(jobs, limit, cap, startable)
    {
      StartableHasRoom(jobs, limit, cap);
      hide Valid, HeapOk, MergeOk, Capped, CountsOk, Busy, BusyOk, IsTop, Scan, ListsThoseWithRoom;
      QueuedIsRecounted();
      var freeSlots := SaturatingSub(limit, |running|);
      startable := [];
      if freeSlots == 0 || queued == {} {
        NothingToStart(jobs, limit, cap);
        return;
      }
      var perSession: map<nat, nat>, busy: set<Destination>;
      perSession, busy := CountActive();
      var heads, iterators;
      ghost var live;
      heads, iterators, live := FillHeap(cap, perSession);
      ghost var active := running;
      MergeStart(jobs, limit, cap, live);
      while |startable| < freeSlots && heads != {}
        invariant HeapOk(jobs, live, heads, iterators)
        invariant MergeOk(jobs, limit, cap, live, active, startable)
        invariant CountsOk(jobs, active, perSession) && BusyOk(jobs, active, busy)
        decreases live
      {
        TopExists(heads);
        var top :| IsTop(heads, top);
        var (id, session) := top;
        PoppedHead(live, active, heads, iterators, top, limit, cap, startable);
        CapIsCounted(cap, active, perSession, session);
        if cap(session).Some? && Count(perSession, session) >= cap(session).value {
          HeapAfterDrop(jobs, live, heads, iterators, top);
          MergeDrop(jobs, limit, cap, live, active, startable, session);
          live := live - InSession(jobs, live, session);
          heads := heads - {top};
          continue;
        }
        HeapAfterAdvance(jobs, live, heads, iterators, top);
        heads := heads - {top};
        if iterators[session] != [] {
          var next := iterators[session][0];
          iterators := iterators[session := iterators[session][1..]];
          heads := heads + {(next, session)};
        }
        var destination := jobs[id].Destination();
        BusyIsKnown(jobs, active, busy, destination);
        if destination !in busy {
          MergeTake(jobs, limit, cap, live, active, startable);
          CountsAfterStart(jobs, active, perSession, id);
          BusyAfterStart(jobs, active, busy, id);
          busy := busy + {destination};
          perSession := perSession[session := Count(perSession, session) + 1];
          startable := startable + [id];
          active := active + {id};
        } else {
          MergeSkip(jobs, limit, cap, live, active, startable);
        }
        live := live - {id};
      }
      MergeDone(live, active, heads, iterators, limit, cap, startable);
    }

    lemma PoppedHead(
      live: set<nat>, active: set<nat>, heads: set<(nat, nat)>, iterators: map<nat, seq<nat>>, top: (nat, nat),
      limit: nat, cap: SessionCap, startable: seq<nat>)
      requires HeapOk(jobs, live, heads, iterators) && IsTop(heads, top)
      requires MergeOk(jobs, limit, cap, live, active, startable)
      ensures top in heads && live != {} && top.0 == Least(live)
      ensures top.0 in jobs && top.0 !in active && jobs[top.0].session == top.1
      ensures top.0 in InSession(jobs, live, top.1)
      ensures |active| == |RunningIds(jobs)| + |startable|
      ensures live <= jobs.Keys
    {
      TopIsLeast(jobs, live, heads, top);
    }

    lemma MergeDone(
      live: set<nat>, active: set<nat>, heads: set<(nat, nat)>, iterators: map<nat, seq<nat>>,
      limit: nat, cap: SessionCap, startable: seq<nat>)
      requires HeapOk(jobs, live, heads, iterators)
      requires MergeOk(jobs, limit, cap, live, active, startable)
      requires heads == {} || |RunningIds(jobs)| + |startable| >= limit
      ensures startable == Startable(jobs, limit, cap)
    {
      if heads == {} {
        EmptyHeap(jobs, live, heads);
      }
      MergeEnd(jobs, limit, cap, live, active, startable);
    }

    /** Whether a session still has work in a direction, as its pending count says. */
    method HasPending(session: nat, direction: Direction) returns (found: bool)
      requires Valid()
      ensures found <==> exists id :: id in jobs && jobs[id].IsPending()
                                      && jobs[id].session == session && jobs[id].direction == direction
    {
      hide Grouped, LogAgrees, IdsInRange, SessionsRecounted;
      var key := (session, direction);
      found := (if key in pending then pending[key] else 0) > 0;
      ghost var waiting := PendingIn(Shapes(jobs), key);
      if found {
        assert waiting != {};
        ghost var id :| id in waiting;
        assert jobs[id].IsPending();
      } else {
        assert waiting == {};
        forall id | id in jobs && jobs[id].IsPending()
          ensures jobs[id].session != session || jobs[id].direction != direction
        {
          assert id !in waiting;
        }
      }
    }

    // ----- the rows -----

    /** One row per group of jobs, in the order of the groups' first jobs, each as a recount of its
        jobs would show it. */
    method Rows() returns (shown: seq<QueueRow>)
      requires Valid()
      ensures |shown| == |Leaders(jobs)|
      ensures forall i :: 0 <= i < |shown| ==>
        && Ascending(Leaders(jobs))[i] in jobs
        && shown[i] == GroupRow(jobs, batchLabels, Ascending(Leaders(jobs))[i])
    {
      hide Valid, Leaders, GroupRow;
      RowsAreTheGroups();
      var keys := Ascending(rows.Keys);
      shown := [];
      for i := 0 to |keys|
        invariant |shown| == i
        invariant forall k :: 0 <= k < i ==>
          keys[k] in jobs && shown[k] == GroupRow(jobs, batchLabels, keys[k])
      {
        assert keys[i] in rows;
        shown := shown + [rows[keys[i]].ToRow()];
      }
    }

    /** The stored rows are the regrouped jobs. */
    lemma RowsAreTheGroups()
      requires Valid()
      ensures rows.Keys == Leaders(jobs)
      ensures forall key :: key in rows ==> key in jobs && rows[key].ToRow() == GroupRow(jobs, batchLabels, key)
    {
      hide Recounted, RowsPartition, BatchesAgree, LogAgrees, RowAgrees, GroupRow;
      KeysAreLeaders(jobs, batchLabels, rows, rowOf, batchRow, nextId);
      forall key | key in rows
        ensures key in jobs && rows[key].ToRow() == GroupRow(jobs, batchLabels, key)
      {
        RowListsItsGroup(jobs, batchLabels, rows, rowOf, batchRow, nextId, key);
        RowIsItsGroup(jobs, batchLabels, key, rows[key]);
      }
    }

    method BatchProgress(batch: nat) returns (totalFiles: nat, completedFiles: nat, totalBytes: nat, doneBytes: nat)
      requires Valid()
      ensures var ids := InBatch(jobs, batch);
        && totalFiles == |ids| && completedFiles == |WithStatusIn(jobs, ids, Completed)|
        && totalBytes == BytesTotal(jobs, Ascending(ids)) && doneBytes == BytesDone(jobs, Ascending(ids))
    {
      hide Valid, WithStatusIn, InBatch, BytesTotal, BytesDone;
      BatchIsRecounted(batch);
      if batch in batchRow {
        var tally := rows[batchRow[batch]].tally;
        return tally.Total(), tally.completed, tally.bytesTotal, tally.bytesDone;
      }
      NothingIn(jobs);
      return 0, 0, 0, 0;
    }

    lemma BatchIsRecounted(batch: nat)
      requires Valid()
      ensures var ids := InBatch(jobs, batch);
        if batch in batchRow then
          && batchRow[batch] in rows
          && var tally := rows[batchRow[batch]].tally;
             && tally.Total() == |ids| && tally.completed == |WithStatusIn(jobs, ids, Completed)|
             && tally.bytesTotal == BytesTotal(jobs, Ascending(ids))
             && tally.bytesDone == BytesDone(jobs, Ascending(ids))
        else ids == {}
    {
      hide Valid, WithStatusIn, BytesTotal, BytesDone, GroupState, Leaders, Group;
      BatchHasRow(batch);
      if batch in batchRow {
        BatchIsItsGroup(batch);
        RowsAreTheGroups();
        ghost var key := batchRow[batch];
        assert rows[key].ToRow() == GroupRow(jobs, batchLabels, key);
      }
    }

    lemma BatchIsItsGroup(batch: nat)
      requires Valid() && batch in batchRow
      ensures batchRow[batch] in rows && batchRow[batch] in jobs
      ensures Group(jobs, batchRow[batch]) == InBatch(jobs, batch)
    {
      hide Recounted, RowsPartition, LogAgrees;
      var key := batchRow[batch];
      assert RowAgrees(jobs, jobs, batchLabels, key, rows[key], {});
      RowKeyIsJob(jobs, jobs, batchLabels, key, rows[key], {});
    }

    /** Replaying every change ever announced gives exactly the kinds of row that are over now. */
    lemma LogTellsFinishedRows()
      requires Valid()
      ensures FinishedKinds(rows) == FinishedIn(jobs) && KindsIn(rows) == KindsOf(jobs)
      ensures Fold(taken + changes) == FinishedIn(jobs)
    {
      RowsFinishTogether();
      hide Recounted, Grouped, Truthful, Fold, GroupIsOver, FinishedIn, FinishedKinds, KindOf, JobsWellFormed;
      FinishedRowsAreOver(jobs, batchLabels, rows, rowOf, batchRow, nextId);
    }

    lemma RowsFinishTogether()
      requires Valid()
      ensures rows.Keys == Leaders(jobs)
      ensures forall key :: key in rows ==>
        key in jobs && rows[key].kind == KindOf(jobs[key]) && (rows[key].tally.IsFinished() <==> GroupIsOver(jobs, key))
    {
      hide Valid, Leaders, Group, GroupState, GroupIsOver, WithStatusIn, BytesTotal, BytesDone;
      RowsAreTheGroups();
      forall key | key in rows
        ensures rows[key].kind == KindOf(jobs[key])
        ensures rows[key].tally.IsFinished() <==> GroupIsOver(jobs, key)
      {
        assert rows[key].ToRow() == GroupRow(jobs, batchLabels, key);
        FinishedByState(jobs, rows[key].tally, key);
      }
    }
  }

  ghost function InBatch(jobs: JobMap, batch: nat): set<nat> {
    set id | id in jobs && jobs[id].batchId == Some(batch)
  }

  lemma NothingIn(jobs: JobMap)
    ensures WithStatusIn(jobs, {}, Completed) == {}
    ensures BytesTotal(jobs, Ascending({})) == 0 && BytesDone(jobs, Ascending({})) == 0
  {
  }

  lemma FinishedByState(jobs: JobMap, tally: Tally, first: nat)
    requires first in jobs
    requires tally.State() == GroupState(jobs, Group(jobs, first)) && tally.Total() == |Group(jobs, first)|
    ensures tally.IsFinished() <==> GroupIsOver(jobs, first)
  {
    var ids := Group(jobs, first);
    assert first in ids;
    if AnyWith(jobs, ids, InProgress) {
      var id :| id in ids && id in jobs && SameStatus(jobs[id].status, InProgress);
      assert jobs[id].IsPending();
    } else if AnyWith(jobs, ids, JobStatus.Queued) {
      var id :| id in ids && id in jobs && SameStatus(jobs[id].status, JobStatus.Queued);
      assert jobs[id].IsPending();
    } else {
      forall id | id in ids ensures !jobs[id].IsPending() {
        assert !SameStatus(jobs[id].status, InProgress) && !SameStatus(jobs[id].status, JobStatus.Queued);
      }
    }
  }

  lemma NothingToStart(jobs: JobMap, limit: nat, cap: SessionCap)
    requires limit <= |RunningIds(jobs)| || QueuedIds(jobs) == {}
    ensures Startable(jobs, limit, cap) == []
  {
  }

  lemma NothingDropped(log: seq<RowChange>, rows: map<nat, RowCounters>)
    ensures TellsDropped(log, log, KindsIn(rows), rows)
  {
    TellsNothing(log);
    assert KindsIn(rows) - KindsIn(rows) == {};
  }

  lemma SameKindsTold(
    base: seq<RowChange>, log: seq<RowChange>, first: set<RowKind>, rows: map<nat, RowCounters>,
    rows': map<nat, RowCounters>)
    requires TellsDropped(base, log, first, rows) && KindsIn(rows') == KindsIn(rows)
    ensures TellsDropped(base, log, first, rows')
  {
  }

  lemma DroppedIsTold(base: seq<RowChange>, log: seq<RowChange>, first: set<RowKind>, rows: map<nat, RowCounters>)
    requires TellsDropped(base, log, first, rows)
    ensures TellsSince(base, log, RemovedAll(first - KindsIn(rows)))
  {
  }

  /** The keys not yet visited. */
  ghost predicate AreLeft(keys: seq<nat>, i: nat, left: map<nat, set<nat>>) {
    i <= |keys| && forall key :: key in left <==> key in keys[i..]
  }

  lemma AllAreLeft(keys: seq<nat>, left: map<nat, set<nat>>)
    requires ListsExactly(keys, left.Keys)
    ensures AreLeft(keys, 0, left)
  {
    assert keys[0..] == keys;
  }

  lemma NoneIsLeft(keys: seq<nat>, left: map<nat, set<nat>>)
    requires AreLeft(keys, |keys|, left)
    ensures left == map[]
  {
    assert keys[|keys|..] == [];
  }

  lemma StillListed(keys: seq<nat>, i: nat, left: map<nat, set<nat>>)
    requires i < |keys| && Increasing(keys) && AreLeft(keys, i, left)
    ensures keys[i] in left && AreLeft(keys, i + 1, left - {keys[i]})
  {
    assert keys[i..][0] == keys[i];
    forall key | key in keys[i..] && key != keys[i] ensures key in keys[i + 1..] {
      var k :| 0 <= k < |keys[i..]| && keys[i..][k] == key;
      assert keys[i + 1..][k - 1] == key;
    }
    forall key | key in keys[i + 1..] ensures key in keys[i..] && key != keys[i] {
      var k :| 0 <= k < |keys[i + 1..]| && keys[i + 1..][k] == key;
      assert keys[i..][k + 1] == key;
    }
  }

  ghost function BatchesOf(jobs: JobMap, ids: set<nat>): set<nat> {
    set id | id in ids && id in jobs && jobs[id].batchId.Some? :: jobs[id].batchId.value
  }

  ghost predicate NoJobOf(jobs: JobMap, batch: nat) {
    forall id :: id in jobs ==> jobs[id].batchId != Some(batch)
  }

  ghost function Emptied(jobs: JobMap, batches: set<nat>): set<nat> {
    set batch | batch in batches && NoJobOf(jobs, batch)
  }

  /** The batches that lose their last job when `ids` go. */
  ghost function EmptiedBatches(jobs: JobMap, ids: set<nat>): set<nat> {
    Emptied(jobs - ids, BatchesOf(jobs, ids))
  }

  lemma EmptiedNothing(jobs: JobMap)
    ensures Emptied(jobs, {}) == {}
  {
  }

  lemma EmptiedStep(jobs: JobMap, batches: set<nat>, batch: nat)
    ensures Emptied(jobs, batches + {batch}) ==
      Emptied(jobs, batches) + (if NoJobOf(jobs, batch) then {batch} else {})
  {
  }

  lemma NoIds(jobs: JobMap)
    ensures jobs - Elements([]) == jobs && BatchesOf(jobs, Elements([])) == {}
  {
  }

  lemma NextId(all: JobMap, ids: seq<nat>, i: nat)
    requires i < |ids|
    ensures var before, after := Elements(ids[..i]), Elements(ids[..i + 1]);
      && after == before + {ids[i]}
      && all - after == (all - before) - {ids[i]}
      && (ids[i] !in all - before ==> all - after == all - before && BatchesOf(all, after) == BatchesOf(all, before))
      && (ids[i] in all - before ==>
            && ids[i] in all
            && BatchesOf(all, after) ==
                 BatchesOf(all, before) + (if all[ids[i]].batchId.Some? then {all[ids[i]].batchId.value} else {}))
  {
    var before, after := Elements(ids[..i]), Elements(ids[..i + 1]);
    assert after == before + {ids[i]};
    if ids[i] in all {
      assert BatchesOf(all, after) ==
        BatchesOf(all, before) + (if all[ids[i]].batchId.Some? then {all[ids[i]].batchId.value} else {});
    } else {
      assert BatchesOf(all, after) == BatchesOf(all, before);
    }
  }

  lemma ShapesAfterRemoval(jobs: JobMap, id: nat)
    requires id in jobs
    ensures id in Shapes(jobs) && Shapes(jobs)[id] == ShapeOf(jobs[id]) && Shapes(jobs) - {id} == Shapes(jobs - {id})
  {
  }

  /** The total of a row covers the total of each of its jobs, so this subtraction is exact too. */
  lemma TotalIsExact(before: Tally, between: Tally, job: Job)
    requires Covers(before, JobTally(job)) && before == Plus(between, ShapeTally(ShapeOf(job)))
    ensures var now := between.(bytesTotal := SaturatingSub(between.bytesTotal, job.totalBytes));
            Plus(now, JobTally(job)) == before
  {
  }

  lemma ShapesAfterAppend(jobs: JobMap, jobs': JobMap, id: nat)
    requires id !in jobs && id in jobs' && jobs' == jobs[id := jobs'[id]]
    ensures id !in Shapes(jobs) && Shapes(jobs)[id := ShapeOf(jobs'[id])] == Shapes(jobs')
  {
  }

  lemma ShareOfNewJob(was: Tally, job: Job, now: Tally)
    requires job.status.Queued?
    requires now == Plus(was.(bytesTotal := was.bytesTotal + job.totalBytes), ShapeTally(ShapeOf(job)))
    ensures now == Plus(was, JobTally(job)) && now.queued > 0
  {
  }
}
