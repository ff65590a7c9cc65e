/** What the queue's derived indexes must equal, stated on values. */
module QueueState {
  import opened Ordered
  import opened Jobs
  import opened Rows

  // ----- the indexes by status and session -----

  ghost function Shapes(jobs: JobMap): map<nat, Shape> {
    map id | id in jobs :: ShapeOf(jobs[id])
  }

  ghost function RunningShapes(shapes: map<nat, Shape>): set<nat> {
    set id | id in shapes && shapes[id].status.InProgress?
  }

  ghost function QueuedShapes(shapes: map<nat, Shape>): set<nat> {
    set id | id in shapes && shapes[id].status.Queued?
  }

  ghost function QueuedIn(shapes: map<nat, Shape>, session: nat): set<nat> {
    set id | id in shapes && shapes[id].status.Queued? && shapes[id].session == session
  }

  ghost function PendingIn(shapes: map<nat, Shape>, key: (nat, Direction)): set<nat> {
    set id | id in shapes && shapes[id].IsPending() && (shapes[id].session, shapes[id].direction) == key
  }

  ghost predicate SessionsRecounted(shapes: map<nat, Shape>, bySession: map<nat, set<nat>>) {
    forall s: nat ::
      if s in bySession then bySession[s] == QueuedIn(shapes, s) != {} else QueuedIn(shapes, s) == {}
  }

  ghost predicate PendingRecounted(shapes: map<nat, Shape>, pending: map<(nat, Direction), nat>) {
    forall k: (nat, Direction) ::
      && (if k in pending then pending[k] else 0) == |PendingIn(shapes, k)|
      && (k in pending ==> pending[k] > 0)
  }

  /** The four indexes are exactly a recount of the given shapes: no stale entry, no empty set, no
      zero count. */
  ghost predicate Recounted(
    shapes: map<nat, Shape>, running: set<nat>, queued: set<nat>, bySession: map<nat, set<nat>>,
    pending: map<(nat, Direction), nat>)
  {
    && running == RunningShapes(shapes)
    && queued == QueuedShapes(shapes)
    && SessionsRecounted(shapes, bySession)
    && PendingRecounted(shapes, pending)
  }

  function WithQueued(bySession: map<nat, set<nat>>, session: nat, id: nat): map<nat, set<nat>> {
    bySession[session := (if session in bySession then bySession[session] else {}) + {id}]
  }

  function WithoutQueued(bySession: map<nat, set<nat>>, session: nat, id: nat): map<nat, set<nat>> {
    if session !in bySession then bySession
    else if bySession[session] - {id} == {} then bySession - {session}
    else bySession[session := bySession[session] - {id}]
  }

  function Increment(pending: map<(nat, Direction), nat>, key: (nat, Direction)): map<(nat, Direction), nat> {
    pending[key := (if key in pending then pending[key] else 0) + 1]
  }

  function Decrement(pending: map<(nat, Direction), nat>, key: (nat, Direction)): map<(nat, Direction), nat> {
    if key !in pending then pending
    else if pending[key] <= 1 then pending - {key}
    else pending[key := pending[key] - 1]
  }

  lemma RunningFollows(shapes: map<nat, Shape>, id: nat, shape: Shape)
    requires id !in shapes
    ensures RunningShapes(shapes[id := shape]) ==
      RunningShapes(shapes) + (if shape.status.InProgress? then {id} else {})
    ensures QueuedShapes(shapes[id := shape]) ==
      QueuedShapes(shapes) + (if shape.status.Queued? then {id} else {})
    ensures id !in RunningShapes(shapes) && id !in QueuedShapes(shapes)
  {
  }

  lemma QueuedGrows(shapes: map<nat, Shape>, id: nat, shape: Shape)
    requires id !in shapes
    ensures forall s: nat :: id !in QueuedIn(shapes, s)
    ensures forall s: nat ::
      QueuedIn(shapes[id := shape], s) ==
      QueuedIn(shapes, s) + (if shape.status.Queued? && shape.session == s then {id} else {})
  {
  }

  lemma SessionsAdded(shapes: map<nat, Shape>, id: nat, shape: Shape, bySession: map<nat, set<nat>>)
    requires id !in shapes && SessionsRecounted(shapes, bySession)
    ensures SessionsRecounted(
      shapes[id := shape], if shape.status.Queued? then WithQueued(bySession, shape.session, id) else bySession)
  {
    QueuedGrows(shapes, id, shape);
    hide QueuedIn;
  }

  lemma SessionsTakenOff(shapes: map<nat, Shape>, id: nat, shape: Shape, bySession: map<nat, set<nat>>)
    requires id !in shapes && SessionsRecounted(shapes[id := shape], bySession)
    ensures SessionsRecounted(
      shapes, if shape.status.Queued? then WithoutQueued(bySession, shape.session, id) else bySession)
  {
    QueuedGrows(shapes, id, shape);
    hide QueuedIn;
  }

  ghost function Share(shape: Shape, key: (nat, Direction)): nat {
    if shape.IsPending() && (shape.session, shape.direction) == key then 1 else 0
  }

  lemma PendingGrows(shapes: map<nat, Shape>, id: nat, shape: Shape, key: (nat, Direction))
    requires id !in shapes
    ensures |PendingIn(shapes[id := shape], key)| == |PendingIn(shapes, key)| + Share(shape, key)
  {
    assert PendingIn(shapes[id := shape], key) ==
      PendingIn(shapes, key) + (if Share(shape, key) == 1 then {id} else {});
  }

  lemma PendingAdded(shapes: map<nat, Shape>, id: nat, shape: Shape, pending: map<(nat, Direction), nat>)
    requires id !in shapes && PendingRecounted(shapes, pending)
    ensures PendingRecounted(
      shapes[id := shape],
      if shape.IsPending() then Increment(pending, (shape.session, shape.direction)) else pending)
  {
    hide PendingIn;
    forall k: (nat, Direction) ensures |PendingIn(shapes[id := shape], k)| == |PendingIn(shapes, k)| + Share(shape, k) {
      PendingGrows(shapes, id, shape, k);
    }
  }

  lemma PendingTakenOff(shapes: map<nat, Shape>, id: nat, shape: Shape, pending: map<(nat, Direction), nat>)
    requires id !in shapes && PendingRecounted(shapes[id := shape], pending)
    ensures PendingRecounted(
      shapes, if shape.IsPending() then Decrement(pending, (shape.session, shape.direction)) else pending)
  {
    hide PendingIn;
    forall k: (nat, Direction) ensures |PendingIn(shapes[id := shape], k)| == |PendingIn(shapes, k)| + Share(shape, k) {
      PendingGrows(shapes, id, shape, k);
    }
  }

  /** Adding one shape, index by index. */
  lemma RecountedAdd(
    shapes: map<nat, Shape>, id: nat, shape: Shape, running: set<nat>, queued: set<nat>,
    bySession: map<nat, set<nat>>, pending: map<(nat, Direction), nat>)
    requires id !in shapes
    requires Recounted(shapes, running, queued, bySession, pending)
    ensures Recounted(
      shapes[id := shape],
      if shape.status.InProgress? then running + {id} else running,
      if shape.status.Queued? then queued + {id} else queued,
      if shape.status.Queued? then WithQueued(bySession, shape.session, id) else bySession,
      if shape.IsPending() then Increment(pending, (shape.session, shape.direction)) else pending)
  {
    RunningFollows(shapes, id, shape);
    SessionsAdded(shapes, id, shape, bySession);
    PendingAdded(shapes, id, shape, pending);
    hide SessionsRecounted, PendingRecounted;
  }

  /** Taking one shape away undoes exactly that. */
  lemma RecountedRemove(
    shapes: map<nat, Shape>, id: nat, shape: Shape, running: set<nat>, queued: set<nat>,
    bySession: map<nat, set<nat>>, pending: map<(nat, Direction), nat>)
    requires id !in shapes
    requires Recounted(shapes[id := shape], running, queued, bySession, pending)
    ensures Recounted(
      shapes,
      if shape.status.InProgress? then running - {id} else running,
      if shape.status.Queued? then queued - {id} else queued,
      if shape.status.Queued? then WithoutQueued(bySession, shape.session, id) else bySession,
      if shape.IsPending() then Decrement(pending, (shape.session, shape.direction)) else pending)
  {
    RunningFollows(shapes, id, shape);
    SessionsTakenOff(shapes, id, shape, bySession);
    PendingTakenOff(shapes, id, shape, pending);
    hide SessionsRecounted, PendingRecounted;
  }

  // ----- the rows -----

  ghost function KindOf(job: Job): RowKind {
    match job.batchId
    case None => Single(job.id)
    case Some(batch) => Batch(batch)
  }

  ghost function LabelOf(labels: map<nat, string>, job: Job): string {
    if job.batchId.Some? && job.batchId.value in labels then labels[job.batchId.value] else job.displayName
  }

  /** A row's stored fields agree with the jobs. While jobs are being removed, `all` still has the
      removed ones and the rows in `dirty` may still list them. */
  ghost predicate RowAgrees(
    jobs: JobMap, all: JobMap, labels: map<nat, string>, key: nat, row: RowCounters, dirty: set<nat>)
  {
    && row.order != [] && Increasing(row.order) && row.order[0] == key
    && (forall id :: id in row.order ==> id in all && KindOf(all[id]) == row.kind)
    && (key !in dirty ==> forall id :: id in row.order ==> id in jobs)
    && row.direction == all[key].direction
    && row.labelText == LabelOf(labels, all[key])
    && row.tally == Sum(row.order, Contributions(jobs))
  }

  ghost predicate RowsAgree(
    jobs: JobMap, all: JobMap, labels: map<nat, string>, rows: map<nat, RowCounters>, dirty: set<nat>)
  {
    forall key :: key in rows ==> RowAgrees(jobs, all, labels, key, rows[key], dirty)
  }

  /** Every job is listed in exactly the row that `rowOf` names. */
  ghost predicate RowsPartition(jobs: JobMap, rows: map<nat, RowCounters>, rowOf: map<nat, nat>) {
    && rowOf.Keys == jobs.Keys
    && (forall id :: id in jobs ==> rowOf[id] in rows && id in rows[rowOf[id]].order)
    && (forall key, id :: key in rows && id in rows[key].order && id in jobs ==> rowOf[id] == key)
  }

  ghost predicate BatchesAgree(rows: map<nat, RowCounters>, batchRow: map<nat, nat>) {
    && (forall key :: key in rows && rows[key].kind.Batch? ==>
          rows[key].kind.batch in batchRow && batchRow[rows[key].kind.batch] == key)
    && (forall batch :: batch in batchRow ==>
          batchRow[batch] in rows && rows[batchRow[batch]].kind == Batch(batch))
  }

  ghost predicate JobsWellFormed(jobs: JobMap, nextId: nat) {
    forall id :: id in jobs ==> jobs[id].id == id < nextId
  }

  /** Two rows never show the same kind. */
  lemma KindsAreDistinct(
    jobs: JobMap, all: JobMap, labels: map<nat, string>, rows: map<nat, RowCounters>, rowOf: map<nat, nat>,
    batchRow: map<nat, nat>, dirty: set<nat>, nextId: nat)
    requires JobsWellFormed(all, nextId)
    requires Grouped(jobs, all, labels, rows, rowOf, batchRow, dirty)
    ensures KindsDistinct(rows)
  {
    forall a, b | a in rows && b in rows && rows[a].kind == rows[b].kind ensures a == b {
      if rows[a].kind.Single? {
        SingleRowKey(jobs, all, labels, a, rows[a], dirty, nextId);
        SingleRowKey(jobs, all, labels, b, rows[b], dirty, nextId);
      }
    }
  }

  lemma SingleRowKey(
    jobs: JobMap, all: JobMap, labels: map<nat, string>, key: nat, row: RowCounters, dirty: set<nat>, nextId: nat)
    requires JobsWellFormed(all, nextId)
    requires RowAgrees(jobs, all, labels, key, row, dirty) && row.kind.Single?
    ensures row.kind == Single(key)
  {
    RowKeyIsJob(jobs, all, labels, key, row, dirty);
  }

  ghost predicate Grouped(
    jobs: JobMap, all: JobMap, labels: map<nat, string>, rows: map<nat, RowCounters>, rowOf: map<nat, nat>,
    batchRow: map<nat, nat>, dirty: set<nat>)
  {
    && RowsPartition(jobs, rows, rowOf)
    && RowsAgree(jobs, all, labels, rows, dirty)
    && BatchesAgree(rows, batchRow)
  }

  // ----- one job changes -----

  /** What the indexes follow of a changed job: not its id, batch or total, and of the first job of a row
      neither direction nor label. */
  ghost predicate IsTracked(was: Job, now: Job, isFirst: bool, labels: map<nat, string>) {
    && now.id == was.id && now.batchId == was.batchId && now.totalBytes == was.totalBytes
    && (isFirst ==> now.direction == was.direction && LabelOf(labels, now) == LabelOf(labels, was))
  }

  ghost predicate OnlyTallyChanged(rows: map<nat, RowCounters>, rows': map<nat, RowCounters>, key: nat) {
    key in rows && key in rows' && rows' == rows[key := rows[key].(tally := rows'[key].tally)]
  }

  lemma OrderCovers(jobs: JobMap, order: seq<nat>, id: nat)
    requires id in jobs && id in order
    ensures Covers(Sum(order, Contributions(jobs)), JobTally(jobs[id]))
  {
    var k :| 0 <= k < |order| && order[k] == id;
    SumCovers(order, Contributions(jobs), k);
  }

  lemma RowCovers(
    jobs: JobMap, all: JobMap, labels: map<nat, string>, key: nat, row: RowCounters, dirty: set<nat>, id: nat)
    requires RowAgrees(jobs, all, labels, key, row, dirty)
    requires id in jobs && id in row.order
    ensures Covers(row.tally, JobTally(jobs[id]))
  {
    OrderCovers(jobs, row.order, id);
  }

  /** A row's numbers always include the share of each of its jobs, so subtracting it is exact. */
  lemma RowCoversJob(
    jobs: JobMap, all: JobMap, labels: map<nat, string>, rows: map<nat, RowCounters>, rowOf: map<nat, nat>,
    batchRow: map<nat, nat>, dirty: set<nat>, id: nat)
    requires Grouped(jobs, all, labels, rows, rowOf, batchRow, dirty)
    requires id in jobs
    ensures id in rowOf && rowOf[id] in rows
    ensures Covers(rows[rowOf[id]].tally, JobTally(jobs[id]))
    ensures Covers(rows[rowOf[id]].tally, ShapeTally(ShapeOf(jobs[id])))
  {
    hide Covers, JobTally, ShapeTally;
    assert RowsPartition(jobs, rows, rowOf);
    RowCovers(jobs, all, labels, rowOf[id], rows[rowOf[id]], dirty, id);
    JobCoversShape(rows[rowOf[id]].tally, jobs[id]);
  }

  lemma JobCoversShape(tally: Tally, job: Job)
    requires Covers(tally, JobTally(job))
    ensures Covers(tally, ShapeTally(ShapeOf(job)))
  {
    hide ShapeTally;
    assert ShapeTally(ShapeOf(job)).bytesTotal == 0 by { ShapeHasNoTotal(ShapeOf(job)); }
  }

  lemma ShapeHasNoTotal(shape: Shape)
    ensures ShapeTally(shape).bytesTotal == 0
  {
  }

  lemma Exchange(was: Job, now: Job, t0: Tally, t1: Tally, t2: Tally, sum: Tally)
    requires t0 == Plus(t1, ShapeTally(ShapeOf(was))) && t2 == Plus(t1, ShapeTally(ShapeOf(now)))
    requires Plus(sum, JobTally(was)) == Plus(t0, JobTally(now))
    ensures sum == t2 <==> was.totalBytes == now.totalBytes
  {
  }

  lemma TallyAfterChange(order: seq<nat>, jobs: JobMap, jobs': JobMap, id: nat, t1: Tally, t2: Tally)
    requires Increasing(order) && id in order && id in jobs && id in jobs'
    requires jobs' == jobs[id := jobs'[id]]
    requires Sum(order, Contributions(jobs)) == Plus(t1, ShapeTally(ShapeOf(jobs[id])))
    requires t2 == Plus(t1, ShapeTally(ShapeOf(jobs'[id])))
    ensures t2 == Sum(order, Contributions(jobs')) <==> jobs'[id].totalBytes == jobs[id].totalBytes
  {
    var k :| 0 <= k < |order| && order[k] == id;
    SumPointChange(order, Contributions(jobs), Contributions(jobs'), k);
    Exchange(
      jobs[id], jobs'[id], Sum(order, Contributions(jobs)), t1, t2, Sum(order, Contributions(jobs')));
  }

  lemma RowAfterChange(
    jobs: JobMap, jobs': JobMap, labels: map<nat, string>, key: nat, row: RowCounters, id: nat, t1: Tally, t2: Tally)
    requires RowAgrees(jobs, jobs, labels, key, row, {})
    requires id in jobs && id in jobs' && jobs' == jobs[id := jobs'[id]] && jobs'[id].id == jobs[id].id
    requires id in row.order
    requires row.tally == Plus(t1, ShapeTally(ShapeOf(jobs[id])))
    requires t2 == Plus(t1, ShapeTally(ShapeOf(jobs'[id])))
    ensures RowAgrees(jobs', jobs', labels, key, row.(tally := t2), {}) <==>
      IsTracked(jobs[id], jobs'[id], id == key, labels)
  {
    TallyAfterChange(row.order, jobs, jobs', id, t1, t2);
    hide Sum, Contributions, Plus, ShapeTally, ShapeOf;
    KindIsIdAndBatch(jobs[id], jobs'[id]);
    assert row.order[0] in row.order;
    hide KindOf, LabelOf;
  }

  lemma KindIsIdAndBatch(a: Job, b: Job)
    requires a.id == b.id
    ensures KindOf(a) == KindOf(b) <==> a.batchId == b.batchId
  {
  }

  lemma OtherRowAfterChange(jobs: JobMap, jobs': JobMap, labels: map<nat, string>, key: nat, row: RowCounters, id: nat)
    requires RowAgrees(jobs, jobs, labels, key, row, {})
    requires id in jobs && id in jobs' && jobs' == jobs[id := jobs'[id]]
    requires id !in row.order
    ensures RowAgrees(jobs', jobs', labels, key, row, {})
  {
    SumSame(row.order, Contributions(jobs), Contributions(jobs'));
  }

  lemma RowsAfterChange(
    jobs: JobMap, jobs': JobMap, labels: map<nat, string>, rows: map<nat, RowCounters>, home: nat, id: nat, t1: Tally,
    t2: Tally)
    requires RowsAgree(jobs, jobs, labels, rows, {})
    requires home in rows && forall key :: key in rows ==> (id in rows[key].order <==> key == home)
    requires id in jobs && id in jobs' && jobs' == jobs[id := jobs'[id]] && jobs'[id].id == jobs[id].id
    requires rows[home].tally == Plus(t1, ShapeTally(ShapeOf(jobs[id])))
    requires t2 == Plus(t1, ShapeTally(ShapeOf(jobs'[id])))
    ensures RowsAgree(jobs', jobs', labels, rows[home := rows[home].(tally := t2)], {}) <==>
      IsTracked(jobs[id], jobs'[id], id == home, labels)
  {
    hide RowAgrees, IsTracked, Plus, ShapeTally, ShapeOf;
    var rows' := rows[home := rows[home].(tally := t2)];
    RowAfterChange(jobs, jobs', labels, home, rows[home], id, t1, t2);
    assert rows'[home] == rows[home].(tally := t2);
    forall key | key in rows && key != home ensures RowAgrees(jobs', jobs', labels, key, rows'[key], {}) {
      OtherRowAfterChange(jobs, jobs', labels, key, rows[key], id);
    }
  }

  lemma HomeRow(
    jobs: JobMap, all: JobMap, labels: map<nat, string>, rows: map<nat, RowCounters>, rowOf: map<nat, nat>,
    batchRow: map<nat, nat>, dirty: set<nat>, id: nat)
    requires Grouped(jobs, all, labels, rows, rowOf, batchRow, dirty) && id in jobs
    ensures id in rowOf && rowOf[id] in rows
    ensures forall key :: key in rows ==> (id in rows[key].order <==> key == rowOf[id])
  {
    hide RowsAgree, BatchesAgree;
  }

  /** Moving one job's share from its old shape to its new one keeps every row in agreement, if and only if
      the change is one the rows follow. */
  lemma GroupedAfterChange(
    jobs: JobMap, jobs': JobMap, labels: map<nat, string>, rows: map<nat, RowCounters>, rowOf: map<nat, nat>,
    batchRow: map<nat, nat>, id: nat, t1: Tally, t2: Tally)
    requires Grouped(jobs, jobs, labels, rows, rowOf, batchRow, {})
    requires id in jobs && id in jobs' && jobs' == jobs[id := jobs'[id]] && jobs'[id].id == jobs[id].id
    requires id in rowOf && rowOf[id] in rows && rows[rowOf[id]].tally == Plus(t1, ShapeTally(ShapeOf(jobs[id])))
    requires t2 == Plus(t1, ShapeTally(ShapeOf(jobs'[id])))
    ensures Grouped(jobs', jobs', labels, rows[rowOf[id] := rows[rowOf[id]].(tally := t2)], rowOf, batchRow, {}) <==>
      IsTracked(jobs[id], jobs'[id], id == rowOf[id], labels)
  {
    hide RowsAgree, RowsPartition, BatchesAgree, IsTracked, Plus, ShapeTally;
    HomeRow(jobs, jobs, labels, rows, rowOf, batchRow, {}, id);
    var rows' := rows[rowOf[id] := rows[rowOf[id]].(tally := t2)];
    RowsAfterChange(jobs, jobs', labels, rows, rowOf[id], id, t1, t2);
    PartitionKept(jobs, jobs', rows, rows', rowOf);
    BatchesKept(rows, rows', batchRow);
  }

  ghost predicate SameOrders(rows: map<nat, RowCounters>, rows': map<nat, RowCounters>) {
    rows.Keys == rows'.Keys
    && forall key :: key in rows ==> rows[key].order == rows'[key].order && rows[key].kind == rows'[key].kind
  }

  lemma PartitionKept(
    jobs: JobMap, jobs': JobMap, rows: map<nat, RowCounters>, rows': map<nat, RowCounters>, rowOf: map<nat, nat>)
    requires RowsPartition(jobs, rows, rowOf) && jobs.Keys == jobs'.Keys && SameOrders(rows, rows')
    ensures RowsPartition(jobs', rows', rowOf)
  {
  }

  lemma BatchesKept(rows: map<nat, RowCounters>, rows': map<nat, RowCounters>, batchRow: map<nat, nat>)
    requires BatchesAgree(rows, batchRow) && SameOrders(rows, rows')
    ensures BatchesAgree(rows', batchRow)
  {
  }

  ghost predicate KindsDistinct(rows: map<nat, RowCounters>) {
    forall a, b :: a in rows && b in rows && rows[a].kind == rows[b].kind ==> a == b
  }

  lemma FinishedAfterUpdate(rows: map<nat, RowCounters>, key: nat, row: RowCounters)
    requires KindsDistinct(rows)
    requires key in rows && row.kind == rows[key].kind
    ensures FinishedKinds(rows[key := row]) ==
      if row.tally.IsFinished() then FinishedKinds(rows) + {row.kind} else FinishedKinds(rows) - {row.kind}
    ensures rows[key].tally.IsFinished() <==> row.kind in FinishedKinds(rows)
  {
    var rows' := rows[key := row];
    forall kind ensures kind in FinishedKinds(rows') <==>
      if kind == row.kind then row.tally.IsFinished() else kind in FinishedKinds(rows)
    {
      if kind in FinishedKinds(rows') {
        var k :| k in rows' && rows'[k].tally.IsFinished() && rows'[k].kind == kind;
        assert k in rows;
      }
      if kind in FinishedKinds(rows) && kind != row.kind {
        var k :| k in rows && rows[k].tally.IsFinished() && rows[k].kind == kind;
        assert k in rows' && rows'[k] == rows[k];
      }
      if kind == row.kind && row.tally.IsFinished() {
        assert key in rows' && rows'[key] == row;
      }
    }
  }

  // ----- a job is added -----

  lemma RowAfterAppend(
    jobs: JobMap, jobs': JobMap, labels: map<nat, string>, key: nat, row: RowCounters, id: nat, tally: Tally)
    requires RowAgrees(jobs, jobs, labels, key, row, {})
    requires id !in jobs && id in jobs' && jobs' == jobs[id := jobs'[id]]
    requires KindOf(jobs'[id]) == row.kind && forall x :: x in row.order ==> x < id
    requires tally == Plus(row.tally, JobTally(jobs'[id]))
    ensures RowAgrees(jobs', jobs', labels, key, row.(order := row.order + [id], tally := tally), {})
  {
    SumSame(row.order, Contributions(jobs), Contributions(jobs'));
    SumAppend(row.order, id, Contributions(jobs'));
    var order := row.order + [id];
    forall i, j | 0 <= i < j < |order| ensures order[i] < order[j] {
      assert order[i] in row.order;
    }
  }

  lemma OtherRowAfterAppend(jobs: JobMap, jobs': JobMap, labels: map<nat, string>, key: nat, row: RowCounters, id: nat)
    requires RowAgrees(jobs, jobs, labels, key, row, {})
    requires id !in jobs && id in jobs' && jobs' == jobs[id := jobs'[id]]
    ensures RowAgrees(jobs', jobs', labels, key, row, {})
  {
    SumSame(row.order, Contributions(jobs), Contributions(jobs'));
  }

  lemma NewRow(jobs': JobMap, labels: map<nat, string>, id: nat, row: RowCounters)
    requires id in jobs'
    requires row == RowCounters(
      KindOf(jobs'[id]), LabelOf(labels, jobs'[id]), jobs'[id].direction, [id], Plus(NOTHING, JobTally(jobs'[id])))
    ensures RowAgrees(jobs', jobs', labels, id, row, {})
  {
    SumAppend([], id, Contributions(jobs'));
    assert [] + [id] == [id];
  }

  /** The rows after `id` was appended to the row `key`, new or existing. */
  lemma RowsAfterAppend(
    jobs: JobMap, jobs': JobMap, labels: map<nat, string>, rows: map<nat, RowCounters>, key: nat, row: RowCounters,
    id: nat)
    requires RowsAgree(jobs, jobs, labels, rows, {})
    requires id !in jobs && id in jobs' && jobs' == jobs[id := jobs'[id]]
    requires forall x :: x in jobs ==> x < id
    requires row.kind == KindOf(jobs'[id])
    requires if key in rows then
               && row.kind == rows[key].kind
               && row == rows[key].(order := rows[key].order + [id], tally := row.tally)
               && row.tally == Plus(rows[key].tally, JobTally(jobs'[id]))
             else
               && key == id
               && row == RowCounters(
                    KindOf(jobs'[id]), LabelOf(labels, jobs'[id]), jobs'[id].direction, [id],
                    Plus(NOTHING, JobTally(jobs'[id])))
    ensures RowsAgree(jobs', jobs', labels, rows[key := row], {})
  {
    var rows' := rows[key := row];
    forall k | k in rows' ensures RowAgrees(jobs', jobs', labels, k, rows'[k], {}) {
      if k != key {
        OtherRowAfterAppend(jobs, jobs', labels, k, rows[k], id);
      } else if key in rows {
        RowAfterAppend(jobs, jobs', labels, key, rows[key], id, row.tally);
      } else {
        NewRow(jobs', labels, id, row);
      }
    }
  }

  lemma NewJobIsNowhere(jobs: JobMap, labels: map<nat, string>, rows: map<nat, RowCounters>, id: nat)
    requires RowsAgree(jobs, jobs, labels, rows, {}) && id !in jobs
    ensures forall k :: k in rows ==> id !in rows[k].order
  {
    forall k | k in rows ensures id !in rows[k].order {
      assert RowAgrees(jobs, jobs, labels, k, rows[k], {});
    }
  }

  lemma PartitionAfterAppend(
    jobs: JobMap, jobs': JobMap, rows: map<nat, RowCounters>, rowOf: map<nat, nat>, key: nat, row: RowCounters,
    id: nat)
    requires RowsPartition(jobs, rows, rowOf)
    requires forall k :: k in rows ==> id !in rows[k].order
    requires id !in jobs && jobs'.Keys == jobs.Keys + {id}
    requires row.order == (if key in rows then rows[key].order else []) + [id]
    ensures RowsPartition(jobs', rows[key := row], rowOf[id := key])
  {
    var rows', rowOf' := rows[key := row], rowOf[id := key];
    forall x | x in jobs' ensures rowOf'[x] in rows' && x in rows'[rowOf'[x]].order {
    }
    forall k, x | k in rows' && x in rows'[k].order && x in jobs' ensures rowOf'[x] == k {
      if k == key && x != id {
        assert key in rows && x in rows[key].order;
      }
    }
  }

  lemma BatchesAfterAppend(rows: map<nat, RowCounters>, batchRow: map<nat, nat>, key: nat, row: RowCounters)
    requires BatchesAgree(rows, batchRow)
    requires key in rows ==> row.kind == rows[key].kind
    requires row.kind.Batch? ==> (row.kind.batch in batchRow ==> batchRow[row.kind.batch] == key)
    ensures BatchesAgree(rows[key := row], if row.kind.Batch? then batchRow[row.kind.batch := key] else batchRow)
  {
  }

  lemma UnfinishedRowAdded(rows: map<nat, RowCounters>, key: nat, row: RowCounters)
    requires key !in rows && !row.tally.IsFinished()
    ensures FinishedKinds(rows[key := row]) == FinishedKinds(rows)
  {
    var rows' := rows[key := row];
    forall kind ensures kind in FinishedKinds(rows') <==> kind in FinishedKinds(rows) {
      if kind in FinishedKinds(rows) {
        var k :| k in rows && rows[k].tally.IsFinished() && rows[k].kind == kind;
        assert k in rows' && rows'[k] == rows[k];
      }
    }
  }

  /** Where a new job goes: its batch's row if there is one, else a row of its own. */
  lemma KeyForNewJob(
    jobs: JobMap, labels: map<nat, string>, rows: map<nat, RowCounters>, rowOf: map<nat, nat>, batchRow: map<nat, nat>,
    id: nat, job: Job)
    requires Grouped(jobs, jobs, labels, rows, rowOf, batchRow, {})
    requires id !in jobs && job.id == id
    ensures id !in rows
    ensures job.batchId.Some? && job.batchId.value in batchRow ==>
      batchRow[job.batchId.value] in rows && rows[batchRow[job.batchId.value]].kind == KindOf(job)
  {
    forall key | key in rows ensures key in jobs {
      RowKeyIsJob(jobs, jobs, labels, key, rows[key], {});
    }
  }

  lemma RowKeyIsJob(jobs: JobMap, all: JobMap, labels: map<nat, string>, key: nat, row: RowCounters, dirty: set<nat>)
    requires RowAgrees(jobs, all, labels, key, row, dirty)
    ensures key in all && KindOf(all[key]) == row.kind
  {
    assert row.order[0] in row.order;
  }

  lemma GroupedAfterAppend(
    jobs: JobMap, jobs': JobMap, labels: map<nat, string>, rows: map<nat, RowCounters>, rowOf: map<nat, nat>,
    batchRow: map<nat, nat>, key: nat, row: RowCounters, id: nat)
    requires Grouped(jobs, jobs, labels, rows, rowOf, batchRow, {})
    requires id !in jobs && id in jobs' && jobs' == jobs[id := jobs'[id]]
    requires forall x :: x in jobs ==> x < id
    requires row.kind == KindOf(jobs'[id])
    requires row.kind.Batch? ==> (row.kind.batch in batchRow ==> batchRow[row.kind.batch] == key)
    requires if key in rows then
               && row.kind == rows[key].kind
               && row == rows[key].(order := rows[key].order + [id], tally := row.tally)
               && row.tally == Plus(rows[key].tally, JobTally(jobs'[id]))
             else
               && key == id
               && row == RowCounters(
                    KindOf(jobs'[id]), LabelOf(labels, jobs'[id]), jobs'[id].direction, [id],
                    Plus(NOTHING, JobTally(jobs'[id])))
    ensures Grouped(
      jobs', jobs', labels, rows[key := row], rowOf[id := key],
      if row.kind.Batch? then batchRow[row.kind.batch := key] else batchRow, {})
  {
    hide RowsAgree, RowsPartition, BatchesAgree;
    RowsAfterAppend(jobs, jobs', labels, rows, key, row, id);
    NewJobIsNowhere(jobs, labels, rows, id);
    PartitionAfterAppend(jobs, jobs', rows, rowOf, key, row, id);
    BatchesAfterAppend(rows, batchRow, key, row);
  }

  lemma QueuedRowIsUnfinished(rows: map<nat, RowCounters>, key: nat, row: RowCounters)
    requires KindsDistinct(rows)
    requires row.tally.queued > 0
    requires key in rows ==> row.kind == rows[key].kind
    ensures !row.tally.IsFinished()
    ensures FinishedKinds(rows[key := row]) == FinishedKinds(rows) - (if key in rows then {row.kind} else {})
    ensures key in rows ==> (rows[key].tally.IsFinished() <==> row.kind in FinishedKinds(rows))
  {
    if key in rows {
      FinishedAfterUpdate(rows, key, row);
    } else {
      UnfinishedRowAdded(rows, key, row);
    }
  }

  // ----- labels change -----

  /** A new batch id may already be in use by jobs that came with it. Then its label must be the one their
      row shows. */
  lemma RelabelledRowsIff(
    jobs: JobMap, labels: map<nat, string>, rows: map<nat, RowCounters>, batch: nat, caption: string)
    requires RowsAgree(jobs, jobs, labels, rows, {}) && batch !in labels
    ensures RowsAgree(jobs, jobs, labels[batch := caption], rows, {}) <==>
      forall key :: key in rows && key in jobs && jobs[key].batchId == Some(batch) ==> jobs[key].displayName == caption
  {
    var labels' := labels[batch := caption];
    forall key | key in rows
      ensures key in jobs
      ensures RowAgrees(jobs, jobs, labels', key, rows[key], {}) <==>
        (jobs[key].batchId == Some(batch) ==> jobs[key].displayName == caption)
    {
      assert RowAgrees(jobs, jobs, labels, key, rows[key], {});
      assert rows[key].order[0] in rows[key].order;
    }
    hide RowAgrees;
  }

  lemma RelabelledRows(
    jobs: JobMap, labels: map<nat, string>, labels': map<nat, string>, rows: map<nat, RowCounters>)
    requires RowsAgree(jobs, jobs, labels, rows, {})
    requires forall id :: id in jobs && id in rows ==> LabelOf(labels, jobs[id]) == LabelOf(labels', jobs[id])
    ensures RowsAgree(jobs, jobs, labels', rows, {})
  {
    forall key | key in rows ensures RowAgrees(jobs, jobs, labels', key, rows[key], {}) {
      assert RowAgrees(jobs, jobs, labels, key, rows[key], {});
      assert rows[key].order[0] in rows[key].order;
    }
  }

  lemma JobInRow(
    jobs: JobMap, labels: map<nat, string>, rows: map<nat, RowCounters>, rowOf: map<nat, nat>,
    batchRow: map<nat, nat>, id: nat)
    requires Grouped(jobs, jobs, labels, rows, rowOf, batchRow, {}) && id in jobs
    ensures id in rowOf && rowOf[id] in rows && rows[rowOf[id]].kind == KindOf(jobs[id])
  {
    hide BatchesAgree;
    HomeRow(jobs, jobs, labels, rows, rowOf, batchRow, {}, id);
    assert RowAgrees(jobs, jobs, labels, rowOf[id], rows[rowOf[id]], {});
  }

  /** A batch without a row has no job. */
  lemma NoRowNoJob(
    jobs: JobMap, labels: map<nat, string>, rows: map<nat, RowCounters>, rowOf: map<nat, nat>,
    batchRow: map<nat, nat>, batch: nat)
    requires Grouped(jobs, jobs, labels, rows, rowOf, batchRow, {})
    requires batch !in batchRow
    ensures forall id :: id in jobs ==> jobs[id].batchId != Some(batch)
  {
    hide RowsAgree, RowsPartition;
    forall id | id in jobs ensures jobs[id].batchId != Some(batch) {
      JobInRow(jobs, labels, rows, rowOf, batchRow, id);
    }
  }

  /** ... so its label can go. */
  lemma NoRowNoLabel(
    jobs: JobMap, labels: map<nat, string>, rows: map<nat, RowCounters>, rowOf: map<nat, nat>,
    batchRow: map<nat, nat>, batch: nat)
    requires Grouped(jobs, jobs, labels, rows, rowOf, batchRow, {})
    requires batch !in batchRow
    ensures Grouped(jobs, jobs, labels - {batch}, rows, rowOf, batchRow, {})
  {
    hide RowsAgree, RowsPartition, BatchesAgree;
    NoRowNoJob(jobs, labels, rows, rowOf, batchRow, batch);
    RelabelledRows(jobs, labels, labels - {batch}, rows);
  }

  // ----- jobs are removed -----

  lemma RemovedShare(order: seq<nat>, jobs: JobMap, id: nat, t: Tally)
    requires Increasing(order) && id in order && id in jobs
    requires Plus(t, JobTally(jobs[id])) == Sum(order, Contributions(jobs))
    ensures t == Sum(order, Contributions(jobs - {id}))
  {
    var k :| 0 <= k < |order| && order[k] == id;
    var sum := Sum(order, Contributions(jobs - {id}));
    SumPointChange(order, Contributions(jobs), Contributions(jobs - {id}), k);
    assert Plus(sum, JobTally(jobs[id])) == Plus(Sum(order, Contributions(jobs)), NOTHING);
    PlusCancels(t, sum, JobTally(jobs[id]), Sum(order, Contributions(jobs)));
  }

  lemma PlusCancels(a: Tally, b: Tally, share: Tally, total: Tally)
    requires Plus(a, share) == total && Plus(b, share) == Plus(total, NOTHING)
    ensures a == b
  {
  }

  lemma RowAfterRemoval(
    jobs: JobMap, all: JobMap, labels: map<nat, string>, key: nat, row: RowCounters, dirty: set<nat>, id: nat, t: Tally)
    requires RowAgrees(jobs, all, labels, key, row, dirty)
    requires id in jobs && id in row.order
    requires Plus(t, JobTally(jobs[id])) == row.tally
    ensures RowAgrees(jobs - {id}, all, labels, key, row.(tally := t), dirty + {key})
  {
    RemovedShare(row.order, jobs, id, t);
  }

  lemma OtherRowAfterRemoval(
    jobs: JobMap, all: JobMap, labels: map<nat, string>, key: nat, row: RowCounters, dirty: set<nat>, id: nat)
    requires RowAgrees(jobs, all, labels, key, row, dirty)
    requires id !in row.order
    ensures forall other: nat :: RowAgrees(jobs - {id}, all, labels, key, row, dirty + {other})
  {
    SumSame(row.order, Contributions(jobs), Contributions(jobs - {id}));
  }

  lemma RowsAfterRemoval(
    jobs: JobMap, all: JobMap, labels: map<nat, string>, rows: map<nat, RowCounters>, dirty: set<nat>, home: nat,
    id: nat, t: Tally)
    requires RowsAgree(jobs, all, labels, rows, dirty)
    requires home in rows && forall key :: key in rows ==> (id in rows[key].order <==> key == home)
    requires id in jobs && Plus(t, JobTally(jobs[id])) == rows[home].tally
    ensures RowsAgree(jobs - {id}, all, labels, rows[home := rows[home].(tally := t)], dirty + {home})
  {
    var rows' := rows[home := rows[home].(tally := t)];
    forall key | key in rows' ensures RowAgrees(jobs - {id}, all, labels, key, rows'[key], dirty + {home}) {
      if key == home {
        RowAfterRemoval(jobs, all, labels, key, rows[key], dirty, id, t);
      } else {
        OtherRowAfterRemoval(jobs, all, labels, key, rows[key], dirty, id);
      }
    }
  }

  lemma PartitionAfterRemoval(
    jobs: JobMap, rows: map<nat, RowCounters>, rows': map<nat, RowCounters>, rowOf: map<nat, nat>, id: nat)
    requires RowsPartition(jobs, rows, rowOf) && SameOrders(rows, rows')
    ensures RowsPartition(jobs - {id}, rows', rowOf - {id})
  {
  }

  /** Taking a job out leaves its row listing it for now: the row becomes dirty. */
  lemma GroupedAfterRemoval(
    jobs: JobMap, all: JobMap, labels: map<nat, string>, rows: map<nat, RowCounters>, rowOf: map<nat, nat>,
    batchRow: map<nat, nat>, dirty: set<nat>, id: nat, t: Tally)
    requires Grouped(jobs, all, labels, rows, rowOf, batchRow, dirty)
    requires id in jobs && id in rowOf && rowOf[id] in rows && Plus(t, JobTally(jobs[id])) == rows[rowOf[id]].tally
    ensures Grouped(
      jobs - {id}, all, labels, rows[rowOf[id] := rows[rowOf[id]].(tally := t)], rowOf - {id}, batchRow,
      dirty + {rowOf[id]})
  {
    hide RowsAgree, RowsPartition, BatchesAgree;
    HomeRow(jobs, all, labels, rows, rowOf, batchRow, dirty, id);
    var rows' := rows[rowOf[id] := rows[rowOf[id]].(tally := t)];
    RowsAfterRemoval(jobs, all, labels, rows, dirty, rowOf[id], id, t);
    PartitionAfterRemoval(jobs, rows, rows', rowOf, id);
    BatchesKept(rows, rows', batchRow);
  }

  // ----- dirty rows are cleaned -----

  /** The ids still listed in a row whose jobs are gone. */
  ghost function Gone(jobs: JobMap, order: seq<nat>): set<nat> {
    set id | id in order && id !in jobs
  }

  lemma GoneAfterRemoval(
    jobs: JobMap, all: JobMap, labels: map<nat, string>, rows: map<nat, RowCounters>, rowOf: map<nat, nat>,
    batchRow: map<nat, nat>, dirty: set<nat>, id: nat)
    requires Grouped(jobs, all, labels, rows, rowOf, batchRow, dirty)
    requires id in jobs && id in rowOf
    ensures forall key :: key in rows ==>
      Gone(jobs - {id}, rows[key].order) == Gone(jobs, rows[key].order) + (if key == rowOf[id] then {id} else {})
    ensures rowOf[id] in rows && (rowOf[id] !in dirty ==> Gone(jobs, rows[rowOf[id]].order) == {})
  {
    hide BatchesAgree;
    HomeRow(jobs, all, labels, rows, rowOf, batchRow, dirty, id);
    assert RowAgrees(jobs, all, labels, rowOf[id], rows[rowOf[id]], dirty);
  }

  /** Each touched row lists exactly these removed ids. */
  ghost predicate RemovedAreGone(jobs: JobMap, rows: map<nat, RowCounters>, removedByRow: map<nat, set<nat>>) {
    forall key :: key in removedByRow ==> key in rows && removedByRow[key] == Gone(jobs, rows[key].order)
  }

  lemma OneMoreGone(
    jobs: JobMap, all: JobMap, labels: map<nat, string>, rows: map<nat, RowCounters>, rowOf: map<nat, nat>,
    batchRow: map<nat, nat>, removedByRow: map<nat, set<nat>>, id: nat, row: RowCounters)
    requires Grouped(jobs, all, labels, rows, rowOf, batchRow, removedByRow.Keys)
    requires RemovedAreGone(jobs, rows, removedByRow) && id in jobs && id in rowOf
    requires rowOf[id] in rows && row.order == rows[rowOf[id]].order
    ensures var key := rowOf[id];
      var removed := (if key in removedByRow then removedByRow[key] else {}) + {id};
      RemovedAreGone(jobs - {id}, rows[key := row], removedByRow[key := removed])
  {
    hide Gone, Grouped, RemovedAreGone;
    GoneAfterRemoval(jobs, all, labels, rows, rowOf, batchRow, removedByRow.Keys, id);
    GoneStep(jobs, rows, removedByRow, rowOf[id], id, row);
  }

  lemma OneRowPruned(jobs: JobMap, rows: map<nat, RowCounters>, removedByRow: map<nat, set<nat>>, key: nat)
    requires RemovedAreGone(jobs, rows, removedByRow)
    ensures RemovedAreGone(jobs, rows - {key}, removedByRow - {key})
  {
    hide Gone;
  }

  lemma GoneStep(
    jobs: JobMap, rows: map<nat, RowCounters>, removedByRow: map<nat, set<nat>>, key: nat, id: nat, row: RowCounters)
    requires RemovedAreGone(jobs, rows, removedByRow) && key in rows && row.order == rows[key].order
    requires forall k :: k in rows ==>
      Gone(jobs - {id}, rows[k].order) == Gone(jobs, rows[k].order) + (if k == key then {id} else {})
    requires key !in removedByRow ==> Gone(jobs, rows[key].order) == {}
    ensures var removed := (if key in removedByRow then removedByRow[key] else {}) + {id};
      RemovedAreGone(jobs - {id}, rows[key := row], removedByRow[key := removed])
  {
    hide Gone;
  }

  lemma RetainedRow(jobs: JobMap, order: seq<nat>, removed: set<nat>)
    requires Increasing(order) && removed == Gone(jobs, order)
    ensures var kept := Retain(order, removed);
      && Increasing(kept)
      && (forall id :: id in kept <==> id in order && id in jobs)
      && Sum(kept, Contributions(jobs)) == Sum(order, Contributions(jobs))
  {
    RetainIncreasing(order, removed);
    SumRetain(order, removed, Contributions(jobs));
  }

  lemma OtherRowsClean(
    jobs: JobMap, all: JobMap, labels: map<nat, string>, key: nat, row: RowCounters, dirty: set<nat>, cleaned: nat)
    requires RowAgrees(jobs, all, labels, key, row, dirty) && key != cleaned
    ensures RowAgrees(jobs, all, labels, key, row, dirty - {cleaned})
  {
  }

  /** A row whose jobs are all gone disappears, and its batch with it. */
  lemma GroupedAfterDrop(
    jobs: JobMap, all: JobMap, labels: map<nat, string>, rows: map<nat, RowCounters>, rowOf: map<nat, nat>,
    batchRow: map<nat, nat>, dirty: set<nat>, key: nat)
    requires Grouped(jobs, all, labels, rows, rowOf, batchRow, dirty)
    requires key in rows && forall id :: id in rows[key].order ==> id !in jobs
    ensures Grouped(
      jobs, all, labels, rows - {key}, rowOf,
      if rows[key].kind.Batch? then batchRow - {rows[key].kind.batch} else batchRow, dirty - {key})
  {
    hide RowAgrees;
    assert RowsAgree(jobs, all, labels, rows - {key}, dirty - {key}) by {
      hide RowsPartition, BatchesAgree;
      forall k | k in rows - {key} ensures RowAgrees(jobs, all, labels, k, (rows - {key})[k], dirty - {key}) {
        assert RowAgrees(jobs, all, labels, k, rows[k], dirty);
        OtherRowsClean(jobs, all, labels, k, rows[k], dirty, key);
      }
    }
    DropPartition(jobs, rows, rowOf, key);
    DropBatch(rows, batchRow, key);
  }

  lemma DropPartition(jobs: JobMap, rows: map<nat, RowCounters>, rowOf: map<nat, nat>, key: nat)
    requires RowsPartition(jobs, rows, rowOf)
    requires key in rows && forall id :: id in rows[key].order ==> id !in jobs
    ensures RowsPartition(jobs, rows - {key}, rowOf)
  {
  }

  lemma DropBatch(rows: map<nat, RowCounters>, batchRow: map<nat, nat>, key: nat)
    requires BatchesAgree(rows, batchRow) && key in rows
    ensures BatchesAgree(
      rows - {key}, if rows[key].kind.Batch? then batchRow - {rows[key].kind.batch} else batchRow)
  {
  }

  /** A row that keeps some jobs is listed under the first of them. */
  lemma GroupedAfterRekey(
    jobs: JobMap, all: JobMap, labels: map<nat, string>, rows: map<nat, RowCounters>, rowOf: map<nat, nat>,
    rowOf': map<nat, nat>, batchRow: map<nat, nat>, dirty: set<nat>, key: nat, row: RowCounters)
    requires Grouped(jobs, all, labels, rows, rowOf, batchRow, dirty)
    requires jobs.Keys <= all.Keys && key in rows
    requires row.order == Retain(rows[key].order, Gone(jobs, rows[key].order)) && row.order != []
    requires row.kind == rows[key].kind && row.tally == rows[key].tally
    requires row.order[0] in all && row.direction == all[row.order[0]].direction
    requires row.labelText == LabelOf(labels, all[row.order[0]])
    requires rowOf'.Keys == rowOf.Keys
    requires forall id :: id in rowOf ==> rowOf'[id] == if id in row.order then row.order[0] else rowOf[id]
    ensures row.order[0] !in rows || row.order[0] == key
    ensures Grouped(
      jobs, all, labels, (rows - {key})[row.order[0] := row], rowOf',
      if row.kind.Batch? then batchRow[row.kind.batch := row.order[0]] else batchRow, dirty - {key})
  {
    hide RowAgrees;
    var newKey := row.order[0];
    assert RowAgrees(jobs, all, labels, key, rows[key], dirty);
    RekeyedRow(jobs, all, labels, key, rows[key], dirty, row);
    KeyMovesFreely(jobs, all, labels, rows, rowOf, dirty, key, newKey);
    var rows' := (rows - {key})[newKey := row];
    assert RowsAgree(jobs, all, labels, rows', dirty - {key}) by {
      hide RowsPartition, BatchesAgree;
      forall k | k in rows' ensures RowAgrees(jobs, all, labels, k, rows'[k], dirty - {key}) {
        if k != newKey {
          assert RowAgrees(jobs, all, labels, k, rows[k], dirty);
          OtherRowsClean(jobs, all, labels, k, rows[k], dirty, key);
        }
      }
    }
    RekeyPartition(jobs, rows, rowOf, rowOf', key, row);
    RekeyBatch(rows, batchRow, key, row);
  }

  lemma RekeyedRow(
    jobs: JobMap, all: JobMap, labels: map<nat, string>, key: nat, was: RowCounters, dirty: set<nat>, row: RowCounters)
    requires RowAgrees(jobs, all, labels, key, was, dirty)
    requires row.order == Retain(was.order, Gone(jobs, was.order)) && row.order != []
    requires row.kind == was.kind && row.tally == was.tally
    requires row.order[0] in all && row.direction == all[row.order[0]].direction
    requires row.labelText == LabelOf(labels, all[row.order[0]])
    ensures RowAgrees(jobs, all, labels, row.order[0], row, dirty - {key})
    ensures forall id :: id in row.order <==> id in was.order && id in jobs
  {
    RetainedRow(jobs, was.order, Gone(jobs, was.order));
  }

  lemma KeyMovesFreely(
    jobs: JobMap, all: JobMap, labels: map<nat, string>, rows: map<nat, RowCounters>, rowOf: map<nat, nat>,
    dirty: set<nat>, key: nat, newKey: nat)
    requires RowsAgree(jobs, all, labels, rows, dirty) && RowsPartition(jobs, rows, rowOf)
    requires key in rows && newKey in rows[key].order && newKey in jobs
    ensures newKey in rows ==> newKey == key
  {
    if newKey in rows {
      assert RowAgrees(jobs, all, labels, newKey, rows[newKey], dirty);
      assert rows[newKey].order[0] in rows[newKey].order;
    }
  }

  lemma RekeyPartition(
    jobs: JobMap, rows: map<nat, RowCounters>, rowOf: map<nat, nat>, rowOf': map<nat, nat>, key: nat, row: RowCounters)
    requires RowsPartition(jobs, rows, rowOf) && key in rows
    requires row.order != [] && forall id :: id in row.order <==> id in rows[key].order && id in jobs
    requires row.order[0] in rows ==> row.order[0] == key
    requires rowOf'.Keys == rowOf.Keys
    requires forall id :: id in rowOf ==> rowOf'[id] == if id in row.order then row.order[0] else rowOf[id]
    ensures RowsPartition(jobs, (rows - {key})[row.order[0] := row], rowOf')
  {
    var rows' := (rows - {key})[row.order[0] := row];
    forall id | id in jobs ensures rowOf'[id] in rows' && id in rows'[rowOf'[id]].order {
      assert id in rows[rowOf[id]].order;
    }
    forall k, id | k in rows' && id in rows'[k].order && id in jobs ensures rowOf'[id] == k {
      if k != row.order[0] {
        assert k in rows && id in rows[k].order;
      }
    }
  }

  lemma RekeyBatch(rows: map<nat, RowCounters>, batchRow: map<nat, nat>, key: nat, row: RowCounters)
    requires BatchesAgree(rows, batchRow) && key in rows
    requires row.order != [] && row.kind == rows[key].kind
    requires row.order[0] in rows ==> row.order[0] == key
    ensures BatchesAgree(
      (rows - {key})[row.order[0] := row],
      if row.kind.Batch? then batchRow[row.kind.batch := row.order[0]] else batchRow)
  {
  }

  // ----- the change log while jobs are removed -----

  ghost predicate Idle(tally: Tally) {
    tally.queued == 0 && tally.running == 0
  }

  /** `known` is what the log says is finished. For the kinds in `was` the rows may have moved on
      already, and `was` holds the answer from before; for all others the log is up to date. */
  ghost predicate Tracks(known: set<RowKind>, rows: map<nat, RowCounters>, was: map<RowKind, bool>) {
    && (forall kind :: kind in was ==> (was[kind] <==> kind in known))
    && (forall kind :: kind !in was ==> (kind in FinishedKinds(rows) <==> kind in known))
    && (forall key :: key in rows && rows[key].kind in was && was[rows[key].kind] ==> Idle(rows[key].tally))
  }

  ghost predicate HasRow(rows: map<nat, RowCounters>, kind: RowKind) {
    exists key :: key in rows && rows[key].kind == kind
  }

  ghost predicate HaveRows(rows: map<nat, RowCounters>, was: map<RowKind, bool>) {
    forall kind :: kind in was ==> HasRow(rows, kind)
  }

  lemma HaveRowsGives(rows: map<nat, RowCounters>, was: map<RowKind, bool>, kind: RowKind) returns (key: nat)
    requires HaveRows(rows, was) && kind in was
    ensures key in rows && rows[key].kind == kind
    ensures HaveRows(rows, was - {kind})
  {
    assert HasRow(rows, kind);
    key :| key in rows && rows[key].kind == kind;
  }

  lemma TracksFromAgreement(known: set<RowKind>, rows: map<nat, RowCounters>)
    requires known == FinishedKinds(rows)
    ensures Tracks(known, rows, map[])
  {
  }

  lemma TracksToAgreement(known: set<RowKind>, rows: map<nat, RowCounters>)
    requires Tracks(known, rows, map[])
    ensures known == FinishedKinds(rows)
  {
  }

  lemma TracksRemoval(
    known: set<RowKind>, rows: map<nat, RowCounters>, was: map<RowKind, bool>, key: nat, row: RowCounters)
    requires KindsDistinct(rows) && Tracks(known, rows, was) && HaveRows(rows, was)
    requires key in rows && row == rows[key].(tally := row.tally)
    requires row.tally.queued <= rows[key].tally.queued && row.tally.running <= rows[key].tally.running
    ensures var was' := if row.kind in was then was else was[row.kind := rows[key].tally.IsFinished()];
            Tracks(known, rows[key := row], was') && HaveRows(rows[key := row], was')
  {
    FinishedAfterUpdate(rows, key, row);
    var was' := if row.kind in was then was else was[row.kind := rows[key].tally.IsFinished()];
    var rows' := rows[key := row];
    forall kind | kind in was' ensures HasRow(rows', kind) {
      if kind == row.kind {
        assert key in rows' && rows'[key].kind == kind;
      } else {
        var k :| k in rows && rows[k].kind == kind;
        assert k in rows' && rows'[k].kind == kind;
      }
    }
    forall k | k in rows' && rows'[k].kind in was' && was'[rows'[k].kind] ensures Idle(rows'[k].tally) {
      if k == key && row.kind !in was {
        assert rows[key].tally.IsFinished();
      }
    }
  }

  lemma TracksDrop(
    known: set<RowKind>, rows: map<nat, RowCounters>, was: map<RowKind, bool>, key: nat)
    requires KindsDistinct(rows) && Tracks(known, rows, was) && HaveRows(rows, was) && key in rows
    ensures Tracks(known - {rows[key].kind}, rows - {key}, was - {rows[key].kind})
    ensures HaveRows(rows - {key}, was - {rows[key].kind})
  {
    var rows', was' := rows - {key}, was - {rows[key].kind};
    forall kind ensures kind in FinishedKinds(rows') <==> kind in FinishedKinds(rows) && kind != rows[key].kind {
      if kind in FinishedKinds(rows) && kind != rows[key].kind {
        var k :| k in rows && rows[k].tally.IsFinished() && rows[k].kind == kind;
        assert k in rows' && rows'[k] == rows[k];
      }
      if kind in FinishedKinds(rows') {
        var k :| k in rows' && rows'[k].tally.IsFinished() && rows'[k].kind == kind;
        assert k in rows;
      }
    }
    forall kind | kind in was' ensures HasRow(rows', kind) {
      var k :| k in rows && rows[k].kind == kind;
      assert k in rows' && rows'[k].kind == kind;
    }
  }

  lemma TracksRekey(
    known: set<RowKind>, rows: map<nat, RowCounters>, was: map<RowKind, bool>, key: nat, newKey: nat, row: RowCounters)
    requires Tracks(known, rows, was) && HaveRows(rows, was) && key in rows
    requires newKey !in rows || newKey == key
    requires row.kind == rows[key].kind && row.tally == rows[key].tally
    ensures Tracks(known, (rows - {key})[newKey := row], was) && HaveRows((rows - {key})[newKey := row], was)
  {
    var rows' := (rows - {key})[newKey := row];
    forall kind ensures kind in FinishedKinds(rows') <==> kind in FinishedKinds(rows) {
      if kind in FinishedKinds(rows) {
        var k :| k in rows && rows[k].tally.IsFinished() && rows[k].kind == kind;
        var k' := if k == key then newKey else k;
        assert k' in rows' && rows'[k'].tally.IsFinished() && rows'[k'].kind == kind;
      }
      if kind in FinishedKinds(rows') {
        var k :| k in rows' && rows'[k].tally.IsFinished() && rows'[k].kind == kind;
        var k' := if k == newKey then key else k;
        assert k' in rows && rows[k'].tally.IsFinished() && rows[k'].kind == kind;
      }
    }
    forall kind | kind in was ensures HasRow(rows', kind) {
      var k :| k in rows && rows[k].kind == kind;
      var k' := if k == key then newKey else k;
      assert k' in rows' && rows'[k'].kind == kind;
    }
  }

  lemma TracksAnnounced(known: set<RowKind>, rows: map<nat, RowCounters>, was: map<RowKind, bool>, key: nat)
    requires KindsDistinct(rows) && Tracks(known, rows, was)
    requires key in rows && rows[key].kind in was
    requires rows[key].tally.Total() > 0
    ensures var kind, now := rows[key].kind, rows[key].tally.IsFinished();
      && (was[kind] ==> now)
      && Tracks(if now then known + {kind} else known, rows, was - {kind})
  {
    FinishedAfterUpdate(rows, key, rows[key]);
    assert rows[key := rows[key]] == rows;
  }

  lemma {:induction false} SumTotal(order: seq<nat>, jobs: JobMap)
    requires forall id :: id in order ==> id in jobs
    ensures Sum(order, Contributions(jobs)).Total() == |order|
  {
    if order == [] {
    } else {
      assert order[0] in order;
      SumTotal(order[1..], jobs);
    }
  }

  lemma RowHasJobs(jobs: JobMap, labels: map<nat, string>, key: nat, row: RowCounters)
    requires RowAgrees(jobs, jobs, labels, key, row, {})
    ensures row.tally.Total() > 0
  {
    SumTotal(row.order, jobs);
  }

  /** With every row clean, the removed jobs can be forgotten. */
  lemma GroupedWhenClean(
    jobs: JobMap, all: JobMap, labels: map<nat, string>, rows: map<nat, RowCounters>, rowOf: map<nat, nat>,
    batchRow: map<nat, nat>)
    requires Grouped(jobs, all, labels, rows, rowOf, batchRow, {})
    requires forall id :: id in jobs ==> id in all && jobs[id] == all[id]
    ensures Grouped(jobs, jobs, labels, rows, rowOf, batchRow, {})
  {
    hide RowsPartition, BatchesAgree;
    forall key | key in rows ensures RowAgrees(jobs, jobs, labels, key, rows[key], {}) {
      assert RowAgrees(jobs, all, labels, key, rows[key], {});
      assert rows[key].order[0] in rows[key].order;
    }
  }

  /** A row moved under its new first job. */
  function Rekeyed(row: RowCounters, first: Job, labels: map<nat, string>): RowCounters {
    row.(
      direction := first.direction,
      labelText :=
        if row.kind.Batch? && row.kind.batch !in labels then first.displayName else row.labelText)
  }

  lemma RekeyedIsRight(
    jobs: JobMap, all: JobMap, labels: map<nat, string>, key: nat, row: RowCounters, dirty: set<nat>,
    kept: seq<nat>, nextId: nat)
    requires JobsWellFormed(all, nextId)
    requires RowAgrees(jobs, all, labels, key, row, dirty)
    requires kept == Retain(row.order, Gone(jobs, row.order)) && kept != []
    ensures kept[0] in row.order && kept[0] in jobs && kept[0] in all
    ensures Rekeyed(row, all[kept[0]], labels).labelText == LabelOf(labels, all[kept[0]])
    ensures key in jobs ==> kept[0] == key && Rekeyed(row, all[key], labels) == row
  {
    assert kept[0] in kept;
    RowKeyIsJob(jobs, all, labels, key, row, dirty);
    SameKindSameLabel(labels, all[key], all[kept[0]]);
    if key in jobs {
      assert row.order[0] !in Gone(jobs, row.order);
    }
  }

  lemma SameKindSameLabel(labels: map<nat, string>, a: Job, b: Job)
    requires KindOf(a) == KindOf(b)
    ensures KindOf(a).Single? ==> a.id == b.id
    ensures KindOf(a).Batch? && KindOf(a).batch in labels ==> LabelOf(labels, a) == LabelOf(labels, b)
    ensures KindOf(a).Batch? && KindOf(a).batch !in labels ==>
      LabelOf(labels, a) == a.displayName && LabelOf(labels, b) == b.displayName
  {
  }
}
