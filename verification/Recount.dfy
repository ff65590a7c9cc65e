/** The rows as a plain regrouping of the jobs, without any stored counter: jobs in id order, one row
    per batch at the place of its first job, one row per job outside a batch. */
module Recount {
  import opened Ordered
  import opened Jobs
  import opened Rows
  import opened QueueState

  ghost predicate SameGroup(a: Job, b: Job) {
    a.id == b.id || (a.batchId.Some? && a.batchId == b.batchId)
  }

  ghost function Group(jobs: JobMap, id: nat): set<nat>
    requires id in jobs
  {
    set other | other in jobs && SameGroup(jobs[id], jobs[other])
  }

  /** The jobs that come first in their group. */
  ghost function Leaders(jobs: JobMap): set<nat> {
    set id | id in jobs && forall other :: other in Group(jobs, id) ==> id <= other
  }

  ghost predicate SameStatus(a: JobStatus, b: JobStatus) {
    a == b || (a.Failed? && b.Failed?)
  }

  ghost function WithStatusIn(jobs: JobMap, ids: set<nat>, status: JobStatus): set<nat> {
    set id | id in ids && id in jobs && SameStatus(jobs[id].status, status)
  }

  ghost function BytesDone(jobs: JobMap, order: seq<nat>): nat {
    if order == [] then 0
    else (if order[0] in jobs then jobs[order[0]].transferredBytes else 0) + BytesDone(jobs, order[1..])
  }

  ghost function BytesTotal(jobs: JobMap, order: seq<nat>): nat {
    if order == [] then 0
    else (if order[0] in jobs then jobs[order[0]].totalBytes else 0) + BytesTotal(jobs, order[1..])
  }

  ghost predicate AnyWith(jobs: JobMap, ids: set<nat>, status: JobStatus) {
    exists id :: id in ids && id in jobs && SameStatus(jobs[id].status, status)
  }

  ghost predicate AllWith(jobs: JobMap, ids: set<nat>, status: JobStatus) {
    forall id :: id in ids && id in jobs ==> SameStatus(jobs[id].status, status)
  }

  /** What a group shows: running before queued, done only if everything completed, partly failed
      only if something failed and something completed. */
  ghost function GroupState(jobs: JobMap, ids: set<nat>): RowState {
    if AnyWith(jobs, ids, InProgress) then RowRunning
    else if AnyWith(jobs, ids, JobStatus.Queued) then RowQueued
    else if AllWith(jobs, ids, Completed) then RowDone
    else if !AnyWith(jobs, ids, Failed("")) then RowCancelled
    else if AnyWith(jobs, ids, Completed) then RowPartlyFailed(|WithStatusIn(jobs, ids, Failed(""))|)
    else RowFailed
  }

  ghost function GroupRow(jobs: JobMap, labels: map<nat, string>, first: nat): QueueRow
    requires first in jobs
  {
    var ids := Group(jobs, first);
    QueueRow(
      KindOf(jobs[first]), LabelOf(labels, jobs[first]), jobs[first].direction,
      |WithStatusIn(jobs, ids, Completed)|, |ids|,
      BytesDone(jobs, Ascending(ids)), BytesTotal(jobs, Ascending(ids)), GroupState(jobs, ids))
  }

  /** What each state says of the jobs of the group. */
  ghost predicate StateSays(jobs: JobMap, ids: set<nat>, state: RowState)
    requires ids <= jobs.Keys
  {
    match state
    case RowRunning => exists id :: id in ids && jobs[id].status.InProgress?
    case RowQueued => NoneRuns(jobs, ids) && exists id :: id in ids && jobs[id].status.Queued?
    case RowDone => forall id :: id in ids ==> jobs[id].status.Completed?
    case RowCancelled =>
      NonePends(jobs, ids) && NoneFailed(jobs, ids) && exists id :: id in ids && jobs[id].status.Cancelled?
    case RowPartlyFailed(failed) =>
      && NonePends(jobs, ids) && failed == |set id | id in ids && jobs[id].status.Failed?| > 0
      && exists id :: id in ids && jobs[id].status.Completed?
    case RowFailed =>
      && NonePends(jobs, ids) && !NoneFailed(jobs, ids)
      && forall id :: id in ids ==> !jobs[id].status.Completed?
  }

  ghost predicate NoneRuns(jobs: JobMap, ids: set<nat>)
    requires ids <= jobs.Keys
  {
    forall id :: id in ids ==> !jobs[id].status.InProgress?
  }

  ghost predicate NonePends(jobs: JobMap, ids: set<nat>)
    requires ids <= jobs.Keys
  {
    NoneRuns(jobs, ids) && forall id :: id in ids ==> !jobs[id].status.Queued?
  }

  ghost predicate NoneFailed(jobs: JobMap, ids: set<nat>)
    requires ids <= jobs.Keys
  {
    forall id :: id in ids ==> !jobs[id].status.Failed?
  }

  /** The shown row in plain terms: kind and label, the direction of the first job, how many jobs there are
      and how many completed, and a state that says what is true of them. */
  lemma GroupRowSays(jobs: JobMap, labels: map<nat, string>, first: nat)
    requires first in jobs
    ensures var row, job := GroupRow(jobs, labels, first), jobs[first];
      var ids := set id | id in jobs && (jobs[id].id == job.id || (job.batchId.Some? && jobs[id].batchId == job.batchId));
      && (job.batchId.Some? ==> row.kind == Batch(job.batchId.value)) && (job.batchId.None? ==> row.kind == Single(job.id))
      && row.labelText == (if job.batchId.Some? && job.batchId.value in labels then labels[job.batchId.value]
                           else job.displayName)
      && row.direction == job.direction && row.filesTotal == |ids|
      && row.filesDone == |set id | id in ids && jobs[id].status.Completed?|
      && StateSays(jobs, ids, row.state)
  {
    var job := jobs[first];
    var ids := set id | id in jobs && (jobs[id].id == job.id || (job.batchId.Some? && jobs[id].batchId == job.batchId));
    assert ids == Group(jobs, first);
    assert WithStatusIn(jobs, ids, Completed) == set id | id in ids && jobs[id].status.Completed?;
    GroupStateSays(jobs, ids);
    hide GroupState, StateSays, BytesDone, BytesTotal;
  }

  lemma GroupStateSays(jobs: JobMap, ids: set<nat>)
    requires ids <= jobs.Keys
    ensures StateSays(jobs, ids, GroupState(jobs, ids))
  {
    var failed := set id | id in ids && jobs[id].status.Failed?;
    assert WithStatusIn(jobs, ids, Failed("")) == failed;
    if AnyWith(jobs, ids, Failed("")) {
      var id :| id in ids && id in jobs && SameStatus(jobs[id].status, Failed(""));
      assert id in failed;
    }
    if !AllWith(jobs, ids, Completed) && !AnyWith(jobs, ids, Failed("")) {
      var id :| id in ids && id in jobs && !SameStatus(jobs[id].status, Completed);
      assert !AnyWith(jobs, ids, InProgress) && !AnyWith(jobs, ids, JobStatus.Queued) ==> jobs[id].status.Cancelled?;
    }
  }

  // ----- a row's stored numbers are its group's -----

  lemma {:induction false} SlotCounts(order: seq<nat>, ids: set<nat>, jobs: JobMap, status: JobStatus)
    requires Increasing(order) && ListsExactly(order, ids)
    ensures Sum(order, Contributions(jobs)).Slot(status) == |WithStatusIn(jobs, ids, status)|
  {
    if order == [] {
      assert forall id :: id !in ids;
      assert WithStatusIn(jobs, ids, status) == {};
    } else {
      TailListsTheRest(order, ids);
      var rest := ids - {order[0]};
      SlotCounts(order[1..], rest, jobs, status);
      assert order[0] in ids;
      OneMoreWithStatus(jobs, ids, order[0], status);
      SlotOfFirst(order, jobs, status);
    }
  }

  lemma OneMoreWithStatus(jobs: JobMap, ids: set<nat>, id: nat, status: JobStatus)
    requires id in ids
    ensures |WithStatusIn(jobs, ids, status)| == |WithStatusIn(jobs, ids - {id}, status)| +
      if id in jobs && SameStatus(jobs[id].status, status) then 1 else 0
  {
    assert WithStatusIn(jobs, ids, status) == WithStatusIn(jobs, ids - {id}, status) +
      (if id in jobs && SameStatus(jobs[id].status, status) then {id} else {});
  }

  lemma SlotOfFirst(order: seq<nat>, jobs: JobMap, status: JobStatus)
    requires order != []
    ensures Sum(order, Contributions(jobs)).Slot(status) ==
      (if order[0] in jobs && SameStatus(jobs[order[0]].status, status) then 1 else 0)
      + Sum(order[1..], Contributions(jobs)).Slot(status)
  {
  }

  lemma ShareBytes(jobs: JobMap, id: nat)
    ensures At(Contributions(jobs), id).bytesDone == if id in jobs then jobs[id].transferredBytes else 0
    ensures At(Contributions(jobs), id).bytesTotal == if id in jobs then jobs[id].totalBytes else 0
  {
  }

  lemma {:induction false} BytesAddUp(order: seq<nat>, jobs: JobMap)
    ensures Sum(order, Contributions(jobs)).bytesDone == BytesDone(jobs, order)
    ensures Sum(order, Contributions(jobs)).bytesTotal == BytesTotal(jobs, order)
  {
    if order == [] {
    } else {
      BytesAddUp(order[1..], jobs);
      ShareBytes(jobs, order[0]);
      hide Contributions, At;
    }
  }

  lemma RowListsItsGroup(
    jobs: JobMap, labels: map<nat, string>, rows: map<nat, RowCounters>, rowOf: map<nat, nat>,
    batchRow: map<nat, nat>, nextId: nat, key: nat)
    requires JobsWellFormed(jobs, nextId)
    requires Grouped(jobs, jobs, labels, rows, rowOf, batchRow, {})
    requires key in rows
    ensures key in jobs && ListsExactly(rows[key].order, Group(jobs, key))
  {
    hide RowsPartition, BatchesAgree;
    var row := rows[key];
    assert RowAgrees(jobs, jobs, labels, key, row, {});
    RowKeyIsJob(jobs, jobs, labels, key, row, {});
    KindsAreDistinct(jobs, jobs, labels, rows, rowOf, batchRow, {}, nextId);
    forall id ensures id in row.order <==> id in Group(jobs, key) {
      if id in Group(jobs, key) {
        JobInRow(jobs, labels, rows, rowOf, batchRow, id);
        assert KindOf(jobs[id]) == KindOf(jobs[key]);
        HomeRow(jobs, jobs, labels, rows, rowOf, batchRow, {}, id);
      }
    }
  }

  lemma StateFromCounts(jobs: JobMap, ids: set<nat>, t: Tally)
    requires ids <= jobs.Keys
    requires t.Total() == |ids|
    requires forall status: JobStatus :: t.Slot(status) == |WithStatusIn(jobs, ids, status)|
    ensures t.State() == GroupState(jobs, ids)
  {
    CountAndAny(jobs, ids, t, InProgress);
    CountAndAny(jobs, ids, t, JobStatus.Queued);
    CountAndAny(jobs, ids, t, Completed);
    CountAndAny(jobs, ids, t, Failed(""));
    var completed := WithStatusIn(jobs, ids, Completed);
    if AllWith(jobs, ids, Completed) {
      assert completed == ids;
    } else {
      var id :| id in ids && id in jobs && !SameStatus(jobs[id].status, Completed);
      assert completed <= ids - {id};
      SubsetIsSmaller(completed, ids - {id});
    }
  }

  lemma CountAndAny(jobs: JobMap, ids: set<nat>, t: Tally, status: JobStatus)
    requires t.Slot(status) == |WithStatusIn(jobs, ids, status)|
    ensures t.Slot(status) > 0 <==> AnyWith(jobs, ids, status)
  {
    var found := WithStatusIn(jobs, ids, status);
    if t.Slot(status) > 0 {
      var id :| id in found;
    } else {
      assert found == {};
      forall id | id in ids && id in jobs ensures !SameStatus(jobs[id].status, status) {
        assert id !in found;
      }
    }
  }

  lemma SumIsItsGroup(jobs: JobMap, order: seq<nat>, ids: set<nat>)
    requires Increasing(order) && ListsExactly(order, ids) && ids <= jobs.Keys
    ensures var t := Sum(order, Contributions(jobs));
      && t.completed == |WithStatusIn(jobs, ids, Completed)|
      && t.Total() == |ids|
      && t.State() == GroupState(jobs, ids)
  {
    hide WithStatusIn, GroupState, AnyWith, AllWith, Sum;
    var t := Sum(order, Contributions(jobs));
    AscendingUnique(order, ids);
    forall status: JobStatus ensures t.Slot(status) == |WithStatusIn(jobs, ids, status)| {
      SlotCounts(order, ids, jobs, status);
    }
    SumTotal(order, jobs);
    StateFromCounts(jobs, ids, t);
    assert t.completed == t.Slot(Completed);
  }

  /** A stored row shows exactly what a recount of its group would. */
  lemma RowIsItsGroup(jobs: JobMap, labels: map<nat, string>, key: nat, row: RowCounters)
    requires RowAgrees(jobs, jobs, labels, key, row, {})
    requires key in jobs && ListsExactly(row.order, Group(jobs, key))
    ensures row.ToRow() == GroupRow(jobs, labels, key)
  {
    hide WithStatusIn, GroupState, Sum, Group, Increasing, ListsExactly, BytesDone, BytesTotal;
    RowKeyIsJob(jobs, jobs, labels, key, row, {});
    GroupIsJobs(jobs, key);
    AscendingUnique(row.order, Group(jobs, key));
    SumIsItsGroup(jobs, row.order, Group(jobs, key));
    BytesAddUp(row.order, jobs);
  }

  lemma GroupIsJobs(jobs: JobMap, key: nat)
    requires key in jobs
    ensures Group(jobs, key) <= jobs.Keys
  {
  }

  /** The rows are keyed by the first jobs of the groups. */
  lemma KeysAreLeaders(
    jobs: JobMap, labels: map<nat, string>, rows: map<nat, RowCounters>, rowOf: map<nat, nat>,
    batchRow: map<nat, nat>, nextId: nat)
    requires JobsWellFormed(jobs, nextId)
    requires Grouped(jobs, jobs, labels, rows, rowOf, batchRow, {})
    ensures rows.Keys == Leaders(jobs)
  {
    hide RowsAgree, RowsPartition, BatchesAgree;
    forall key | key in rows ensures key in Leaders(jobs) {
      RowListsItsGroup(jobs, labels, rows, rowOf, batchRow, nextId, key);
      KeyComesFirst(jobs, labels, rows, key);
    }
    forall id | id in Leaders(jobs) ensures id in rows {
      HomeRow(jobs, jobs, labels, rows, rowOf, batchRow, {}, id);
      var key := rowOf[id];
      RowListsItsGroup(jobs, labels, rows, rowOf, batchRow, nextId, key);
      KeyComesFirst(jobs, labels, rows, key);
      assert id in Group(jobs, key);
      assert key in Group(jobs, id);
    }
  }

  lemma KeyComesFirst(jobs: JobMap, labels: map<nat, string>, rows: map<nat, RowCounters>, key: nat)
    requires RowsAgree(jobs, jobs, labels, rows, {}) && key in rows && key in jobs
    requires ListsExactly(rows[key].order, Group(jobs, key))
    ensures forall other :: other in Group(jobs, key) ==> key <= other
  {
    var row := rows[key];
    assert RowAgrees(jobs, jobs, labels, key, row, {});
    forall other | other in Group(jobs, key) ensures key <= other {
      assert other in row.order;
      var k :| 0 <= k < |row.order| && row.order[k] == other;
    }
  }
}
