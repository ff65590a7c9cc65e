/** Row counters and the change log (porthmos-core/src/transfer/rows/mod.rs and the private types of
    porthmos-core/src/transfer/queue/mod.rs). */
module Rows {
  import opened Ordered
  import opened Jobs

  datatype RowKind = Single(id: nat) | Batch(batch: nat)

  datatype RowState =
    | RowRunning | RowQueued | RowDone | RowPartlyFailed(failed: nat) | RowFailed | RowCancelled

  datatype RowChange = Finished(kind: RowKind) | Reopened(kind: RowKind) | Removed(kind: RowKind)

  datatype QueueRow = QueueRow(
    kind: RowKind,
    labelText: string,
    direction: Direction,
    filesDone: nat,
    filesTotal: nat,
    bytesDone: nat,
    bytesTotal: nat,
    state: RowState)

  /** The numbers a row keeps about its jobs. */
  datatype Tally = Tally(
    queued: nat, running: nat, completed: nat, failed: nat, cancelled: nat, bytesDone: nat, bytesTotal: nat)
  {
    function Total(): nat {
      queued + running + completed + failed + cancelled
    }

    predicate IsFinished() {
      Total() > 0 && queued == 0 && running == 0
    }

    function State(): RowState {
      if running > 0 then RowRunning
      else if queued > 0 then RowQueued
      else if completed == Total() then RowDone
      else if failed == 0 then RowCancelled
      else if completed > 0 then RowPartlyFailed(failed)
      else RowFailed
    }

    function Slot(status: JobStatus): nat {
      match status
      case Queued => queued
      case InProgress => running
      case Completed => completed
      case Failed(_) => failed
      case Cancelled => cancelled
    }

    function WithSlot(status: JobStatus, count: nat): Tally {
      match status
      case Queued => this.(queued := count)
      case InProgress => this.(running := count)
      case Completed => this.(completed := count)
      case Failed(_) => this.(failed := count)
      case Cancelled => this.(cancelled := count)
    }
  }

  const NOTHING := Tally(0, 0, 0, 0, 0, 0, 0)

  ghost function Plus(t: Tally, u: Tally): Tally {
    Tally(
      t.queued + u.queued, t.running + u.running, t.completed + u.completed, t.failed + u.failed,
      t.cancelled + u.cancelled, t.bytesDone + u.bytesDone, t.bytesTotal + u.bytesTotal)
  }

  lemma PlusSwap(a: Tally, b: Tally, rest: Tally)
    ensures Plus(Plus(b, rest), a) == Plus(Plus(a, rest), b)
  {
  }

  lemma PlusShift(first: Tally, a: Tally, b: Tally, c: Tally, d: Tally)
    requires Plus(a, b) == Plus(c, d)
    ensures Plus(Plus(first, a), b) == Plus(Plus(first, c), d)
  {
  }

  lemma PlusNothing(t: Tally)
    ensures Plus(NOTHING, t) == t
  {
  }

  datatype RowCounters = RowCounters(
    kind: RowKind, labelText: string, direction: Direction, order: seq<nat>, tally: Tally)
  {
    function ToRow(): QueueRow {
      QueueRow(
        kind, labelText, direction, tally.completed, tally.Total(), tally.bytesDone, tally.bytesTotal, tally.State())
    }
  }

  /** The part of a job that the counters and indexes follow. */
  datatype Shape = Shape(status: JobStatus, transferred: nat, session: nat, direction: Direction) {
    predicate IsPending() {
      status.Queued? || status.InProgress?
    }
  }

  function ShapeOf(job: Job): Shape {
    Shape(job.status, job.transferredBytes, job.session, job.direction)
  }

  ghost function ShapeTally(shape: Shape): Tally {
    NOTHING.WithSlot(shape.status, 1).(bytesDone := shape.transferred)
  }

  ghost function JobTally(job: Job): Tally {
    ShapeTally(ShapeOf(job)).(bytesTotal := job.totalBytes)
  }

  ghost function Contributions(jobs: JobMap): map<nat, Tally> {
    map id | id in jobs :: JobTally(jobs[id])
  }

  ghost function At(c: map<nat, Tally>, id: nat): Tally {
    if id in c then c[id] else NOTHING
  }

  /** What the listed jobs add up to; an id that is no longer a job adds nothing. */
  ghost function Sum(order: seq<nat>, c: map<nat, Tally>): Tally {
    if order == [] then NOTHING else Plus(At(c, order[0]), Sum(order[1..], c))
  }

  lemma {:induction false} SumAppend(order: seq<nat>, id: nat, c: map<nat, Tally>)
    ensures Sum(order + [id], c) == Plus(Sum(order, c), At(c, id))
  {
    if order == [] {
      assert order + [id] == [id];
    } else {
      assert (order + [id])[1..] == order[1..] + [id];
      SumAppend(order[1..], id, c);
    }
  }

  lemma {:induction false} SumSame(order: seq<nat>, c: map<nat, Tally>, c': map<nat, Tally>)
    requires forall i :: 0 <= i < |order| ==> At(c, order[i]) == At(c', order[i])
    ensures Sum(order, c) == Sum(order, c')
  {
    if order == [] {
    } else {
      forall i | 0 <= i < |order[1..]| ensures At(c, order[1..][i]) == At(c', order[1..][i]) {
        assert order[1..][i] == order[i + 1];
      }
      SumSame(order[1..], c, c');
    }
  }

  /** Changing the contribution of one listed job changes the sum by exactly that much. */
  lemma {:induction false} SumPointChange(order: seq<nat>, c: map<nat, Tally>, c': map<nat, Tally>, k: nat)
    requires k < |order|
    requires forall i :: 0 <= i < |order| && i != k ==> At(c, order[i]) == At(c', order[i])
    ensures Plus(Sum(order, c'), At(c, order[k])) == Plus(Sum(order, c), At(c', order[k]))
  {
    var rest := order[1..];
    forall i | 0 <= i < |rest| && i != k - 1 ensures At(c, rest[i]) == At(c', rest[i]) {
      assert rest[i] == order[i + 1];
    }
    var first, first' := At(c, order[0]), At(c', order[0]);
    if k == 0 {
      SumSame(rest, c, c');
      PlusSwap(first, first', Sum(rest, c));
    } else {
      assert rest[k - 1] == order[k];
      SumPointChange(rest, c, c', k - 1);
      PlusShift(first, Sum(rest, c'), At(c, order[k]), Sum(rest, c), At(c', order[k]));
    }
  }

  function Retain(order: seq<nat>, removed: set<nat>): (kept: seq<nat>)
    ensures forall x :: x in kept <==> x in order && x !in removed
  {
    if order == [] then []
    else if order[0] in removed then Retain(order[1..], removed)
    else [order[0]] + Retain(order[1..], removed)
  }

  lemma {:induction false} RetainIncreasing(order: seq<nat>, removed: set<nat>)
    requires Increasing(order)
    ensures Increasing(Retain(order, removed))
  {
    if order == [] {
    } else {
      var rest := Retain(order[1..], removed);
      RetainIncreasing(order[1..], removed);
      if order[0] !in removed {
        forall i | 0 <= i < |rest| ensures order[0] < rest[i] {
          assert rest[i] in order[1..];
        }
      }
    }
  }

  lemma {:induction false} SumRetain(order: seq<nat>, removed: set<nat>, c: map<nat, Tally>)
    requires removed !! c.Keys
    ensures Sum(Retain(order, removed), c) == Sum(order, c)
  {
    if order == [] {
    } else {
      SumRetain(order[1..], removed, c);
      if order[0] in removed {
        PlusNothing(Sum(order[1..], c));
      } else {
        assert Retain(order, removed)[1..] == Retain(order[1..], removed);
      }
    }
  }

  lemma {:induction false} SumCovers(order: seq<nat>, c: map<nat, Tally>, k: nat)
    requires k < |order|
    ensures Covers(Sum(order, c), At(c, order[k]))
  {
    if k == 0 {
    } else {
      SumCovers(order[1..], c, k - 1);
    }
  }

  ghost predicate Covers(t: Tally, part: Tally) {
    && t.queued >= part.queued && t.running >= part.running && t.completed >= part.completed
    && t.failed >= part.failed && t.cancelled >= part.cancelled
    && t.bytesDone >= part.bytesDone && t.bytesTotal >= part.bytesTotal
  }

  // ----- the change log -----

  /** What a listener knows about finished rows after one more change. */
  ghost function Replay(known: set<RowKind>, change: RowChange): set<RowKind> {
    if change.Finished? then known + {change.kind} else known - {change.kind}
  }

  /** Finished is only announced for a row not known as finished, Reopened only for one that is. */
  ghost predicate IsNews(known: set<RowKind>, change: RowChange) {
    && (change.Finished? ==> change.kind !in known)
    && (change.Reopened? ==> change.kind in known)
  }

  ghost function Fold(log: seq<RowChange>): set<RowKind> {
    if log == [] then {} else Replay(Fold(log[..|log| - 1]), log[|log| - 1])
  }

  ghost predicate Truthful(log: seq<RowChange>) {
    log == [] || (Truthful(log[..|log| - 1]) && IsNews(Fold(log[..|log| - 1]), log[|log| - 1]))
  }

  lemma FoldPush(log: seq<RowChange>, change: RowChange)
    ensures Fold(log + [change]) == Replay(Fold(log), change)
    ensures Truthful(log + [change]) <==> Truthful(log) && IsNews(Fold(log), change)
  {
    assert (log + [change])[..|log|] == log;
  }

  ghost function FinishedKinds(rows: map<nat, RowCounters>): set<RowKind> {
    set key | key in rows && rows[key].tally.IsFinished() :: rows[key].kind
  }
}
