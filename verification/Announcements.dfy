/** What the change log of the transfer queue has to tell, said in terms of the jobs only. */
module Announcements {
  import opened Jobs
  import opened Rows
  import opened QueueState
  import opened Recount

  /** The kinds of row the jobs fall into. */
  ghost function KindsOf(jobs: JobMap): set<RowKind> {
    set id | id in jobs :: KindOf(jobs[id])
  }

  ghost predicate IsOver(jobs: JobMap, kind: RowKind) {
    forall id :: id in jobs && KindOf(jobs[id]) == kind ==> !jobs[id].IsPending()
  }

  /** The kinds of row that have no queued or running job left. */
  ghost function FinishedIn(jobs: JobMap): set<RowKind> {
    set kind | kind in KindsOf(jobs) && IsOver(jobs, kind)
  }

  /** What a row that was or was not finished before, and is or is not now, has to say. */
  ghost function NewsOf(kind: RowKind, was: bool, now: bool): seq<RowChange> {
    if was == now then [] else if now then [Finished(kind)] else [Reopened(kind)]
  }

  /** The log tells each of these changes once and nothing else. */
  ghost predicate Tells(log: seq<RowChange>, told: set<RowChange>) {
    |log| == |told| && forall change :: change in log <==> change in told
  }

  ghost function RemovedAll(kinds: set<RowKind>): set<RowChange> {
    set kind | kind in kinds :: Removed(kind)
  }

  ghost function FinishedAll(kinds: set<RowKind>): set<RowChange> {
    set kind | kind in kinds :: Finished(kind)
  }

  ghost function ReopenedAll(kinds: set<RowKind>): set<RowChange> {
    set kind | kind in kinds :: Reopened(kind)
  }

  /** What the log tells beyond an earlier state of it. */
  ghost predicate TellsSince(base: seq<RowChange>, log: seq<RowChange>, told: set<RowChange>) {
    base <= log && Tells(log[|base|..], told)
  }

  lemma TellsPush(base: seq<RowChange>, log: seq<RowChange>, told: set<RowChange>, change: RowChange)
    requires TellsSince(base, log, told) && change !in told
    ensures TellsSince(base, log + [change], told + {change})
  {
    assert (log + [change])[|base|..] == log[|base|..] + [change];
  }

  lemma TellsBoth(
    base: seq<RowChange>, mid: seq<RowChange>, log: seq<RowChange>, told: set<RowChange>, alsoTold: set<RowChange>)
    requires TellsSince(base, mid, told) && TellsSince(mid, log, alsoTold) && told !! alsoTold
    ensures TellsSince(base, log, told + alsoTold)
  {
    assert log[|base|..] == mid[|base|..] + log[|mid|..];
  }

  lemma TellsNothing(log: seq<RowChange>)
    ensures TellsSince(log, log, {}) && RemovedAll({}) == {} && FinishedAll({}) == {} && ReopenedAll({}) == {}
  {
    assert log[|log|..] == [];
  }

  /** A changed job can only finish or reopen its own row. */
  lemma OtherKindsKeep(jobs: JobMap, jobs': JobMap, id: nat, kind: RowKind)
    requires id in jobs && id in jobs' && jobs' == jobs[id := jobs'[id]] && KindOf(jobs'[id]) == KindOf(jobs[id])
    requires kind != KindOf(jobs[id])
    ensures kind in FinishedIn(jobs') <==> kind in FinishedIn(jobs)
  {
    if kind in KindsOf(jobs) {
      var x :| x in jobs && KindOf(jobs[x]) == kind;
      assert x in jobs' && KindOf(jobs'[x]) == kind;
    }
    if kind in KindsOf(jobs') {
      var x :| x in jobs' && KindOf(jobs'[x]) == kind;
      assert x in jobs && KindOf(jobs[x]) == kind;
    }
    assert forall x :: x in jobs && KindOf(jobs[x]) == kind ==> jobs'[x] == jobs[x];
  }

  /** A job that stops being pending reopens nothing. */
  lemma SettlingFinishes(jobs: JobMap, jobs': JobMap, id: nat)
    requires id in jobs && id in jobs' && jobs' == jobs[id := jobs'[id]] && KindOf(jobs'[id]) == KindOf(jobs[id])
    requires !jobs'[id].IsPending()
    ensures FinishedIn(jobs) <= FinishedIn(jobs')
    ensures FinishedIn(jobs') - FinishedIn(jobs) <= {KindOf(jobs[id])}
  {
    var own := KindOf(jobs[id]);
    forall kind | kind != own ensures kind in FinishedIn(jobs') <==> kind in FinishedIn(jobs) {
      OtherKindsKeep(jobs, jobs', id, kind);
    }
    if own in FinishedIn(jobs) {
      assert own in KindsOf(jobs');
      assert forall x :: x in jobs' ==> x == id || jobs'[x] == jobs[x];
    }
  }

  /** A job that becomes pending finishes nothing. */
  lemma QueueingReopens(jobs: JobMap, jobs': JobMap, id: nat)
    requires id in jobs && id in jobs' && jobs' == jobs[id := jobs'[id]] && KindOf(jobs'[id]) == KindOf(jobs[id])
    requires jobs'[id].IsPending()
    ensures FinishedIn(jobs') <= FinishedIn(jobs)
    ensures FinishedIn(jobs) - FinishedIn(jobs') <= {KindOf(jobs[id])}
  {
    var own := KindOf(jobs[id]);
    forall kind | kind != own ensures kind in FinishedIn(jobs') <==> kind in FinishedIn(jobs) {
      OtherKindsKeep(jobs, jobs', id, kind);
    }
    assert !IsOver(jobs', own);
  }

  /** A log of rows that finished, one step further. */
  lemma FinishedGrows(
    base: seq<RowChange>, log: seq<RowChange>, first: set<RowKind>, before: set<RowKind>, after: set<RowKind>,
    kind: RowKind)
    requires TellsSince(base, log, FinishedAll(before - first)) && first <= before <= after && after - before <= {kind}
    ensures TellsSince(base, log + NewsOf(kind, kind in before, kind in after), FinishedAll(after - first))
  {
    assert forall k :: k in after && k !in before ==> k in after - before;
    if kind in after && kind !in before {
      TellsPush(base, log, FinishedAll(before - first), Finished(kind));
      assert FinishedAll(after - first) == FinishedAll(before - first) + {Finished(kind)};
    } else {
      assert after == before;
      assert log + [] == log;
    }
  }

  /** A log of rows that were reopened, one step further. */
  lemma ReopenedGrows(
    base: seq<RowChange>, log: seq<RowChange>, first: set<RowKind>, before: set<RowKind>, after: set<RowKind>,
    kind: RowKind)
    requires TellsSince(base, log, ReopenedAll(first - before)) && after <= before <= first && before - after <= {kind}
    ensures TellsSince(base, log + NewsOf(kind, kind in before, kind in after), ReopenedAll(first - after))
  {
    assert forall k :: k in before && k !in after ==> k in before - after;
    if kind in before && kind !in after {
      TellsPush(base, log, ReopenedAll(first - before), Reopened(kind));
      assert ReopenedAll(first - after) == ReopenedAll(first - before) + {Reopened(kind)};
    } else {
      assert after == before;
      assert log + [] == log;
    }
  }

  // ----- rows that went -----

  ghost function KindsIn(rows: map<nat, RowCounters>): set<RowKind> {
    set key | key in rows :: rows[key].kind
  }

  lemma KindsKept(rows: map<nat, RowCounters>, key: nat, row: RowCounters)
    requires key in rows && row.kind == rows[key].kind
    ensures KindsIn(rows[key := row]) == KindsIn(rows)
  {
    KindsMoved(rows, key, key, row);
    assert (rows - {key})[key := row] == rows[key := row];
  }

  lemma KindsMoved(rows: map<nat, RowCounters>, key: nat, newKey: nat, row: RowCounters)
    requires key in rows && row.kind == rows[key].kind && (newKey !in rows || newKey == key)
    ensures KindsIn((rows - {key})[newKey := row]) == KindsIn(rows)
  {
    var moved := (rows - {key})[newKey := row];
    forall kind | kind in KindsIn(rows) ensures kind in KindsIn(moved) {
      var k :| k in rows && rows[k].kind == kind;
      var k' := if k == key then newKey else k;
      assert k' in moved && moved[k'].kind == kind;
    }
  }

  lemma KindsDropped(rows: map<nat, RowCounters>, key: nat)
    requires key in rows && KindsDistinct(rows)
    ensures KindsIn(rows - {key}) == KindsIn(rows) - {rows[key].kind}
  {
    var less := rows - {key};
    forall kind | kind in KindsIn(rows) && kind != rows[key].kind ensures kind in KindsIn(less) {
      var k :| k in rows && rows[k].kind == kind;
      assert k in less && less[k].kind == kind;
    }
  }

  /** Since `base` the log tells exactly that the kinds of `first` that have no row any more went. */
  ghost predicate TellsDropped(
    base: seq<RowChange>, log: seq<RowChange>, first: set<RowKind>, rows: map<nat, RowCounters>)
  {
    KindsIn(rows) <= first && TellsSince(base, log, RemovedAll(first - KindsIn(rows)))
  }

  lemma DroppedGrows(
    base: seq<RowChange>, log: seq<RowChange>, first: set<RowKind>, rows: map<nat, RowCounters>, key: nat)
    requires TellsDropped(base, log, first, rows) && key in rows && KindsDistinct(rows)
    ensures TellsDropped(base, log + [Removed(rows[key].kind)], first, rows - {key})
  {
    var kind, gone := rows[key].kind, first - KindsIn(rows);
    KindsDropped(rows, key);
    assert kind in KindsIn(rows);
    TellsPush(base, log, RemovedAll(gone), Removed(kind));
    assert first - KindsIn(rows - {key}) == gone + {kind};
    assert RemovedAll(gone + {kind}) == RemovedAll(gone) + {Removed(kind)};
  }

  ghost function KindsTold(log: seq<RowChange>): set<RowKind> {
    set change | change in log :: change.kind
  }

  lemma {:induction false} FoldOfRemovals(log: seq<RowChange>, more: seq<RowChange>)
    requires forall change :: change in more ==> change.Removed?
    ensures Fold(log + more) == Fold(log) - KindsTold(more)
    decreases |more|
  {
    if more == [] {
      assert log + more == log;
    } else {
      var init, last := more[..|more| - 1], more[|more| - 1];
      FoldOfRemovals(log, init);
      FoldPush(log + init, last);
      assert more == init + [last];
      assert last in more;
      assert KindsTold(more) == KindsTold(init) + {last.kind};
      assert log + more == log + init + [last];
    }
  }

  lemma FoldAfterDropping(
    taken: seq<RowChange>, base: seq<RowChange>, log: seq<RowChange>, first: set<RowKind>, rows: map<nat, RowCounters>)
    requires TellsDropped(base, log, first, rows)
    ensures Fold(taken + log) == Fold(taken + base) - (first - KindsIn(rows))
  {
    var more, gone := log[|base|..], first - KindsIn(rows);
    assert taken + log == taken + base + more;
    FoldOfRemovals(taken + base, more);
    forall kind ensures kind in gone <==> kind in KindsTold(more) {
      if kind in gone {
        assert Removed(kind) in RemovedAll(gone);
      }
    }
  }

  /** Removals first, then the rows that finished because of them: all that a removal has to tell. */
  lemma RemovalIsTold(
    base: seq<RowChange>, mid: seq<RowChange>, log: seq<RowChange>, kinds: set<RowKind>, kinds': set<RowKind>,
    finished: set<RowKind>, finished': set<RowKind>)
    requires TellsSince(base, mid, RemovedAll(kinds - kinds'))
    requires TellsSince(mid, log, FinishedAll(finished' - (finished - (kinds - kinds')))) && finished' <= kinds'
    ensures TellsSince(base, log, RemovedAll(kinds - kinds') + FinishedAll(finished' - finished))
  {
    assert finished' - (finished - (kinds - kinds')) == finished' - finished;
    TellsBoth(base, mid, log, RemovedAll(kinds - kinds'), FinishedAll(finished' - finished));
  }

  ghost predicate GroupIsOver(jobs: JobMap, key: nat)
    requires key in jobs
  {
    forall id :: id in Group(jobs, key) ==> !jobs[id].IsPending()
  }

  lemma GroupIsKind(jobs: JobMap, nextId: nat, key: nat)
    requires JobsWellFormed(jobs, nextId) && key in jobs
    ensures GroupIsOver(jobs, key) <==> IsOver(jobs, KindOf(jobs[key]))
  {
    assert forall id :: id in jobs ==> (id in Group(jobs, key) <==> KindOf(jobs[id]) == KindOf(jobs[key]));
  }

  /** The rows that are finished are the kinds that are over. */
  lemma FinishedRowsAreOver(
    jobs: JobMap, labels: map<nat, string>, rows: map<nat, RowCounters>, rowOf: map<nat, nat>,
    batchRow: map<nat, nat>, nextId: nat)
    requires JobsWellFormed(jobs, nextId)
    requires Grouped(jobs, jobs, labels, rows, rowOf, batchRow, {})
    requires forall key :: key in rows ==>
      && key in jobs && rows[key].kind == KindOf(jobs[key]) && (rows[key].tally.IsFinished() <==> GroupIsOver(jobs, key))
    ensures FinishedKinds(rows) == FinishedIn(jobs) && KindsIn(rows) == KindsOf(jobs)
  {
    hide Grouped, JobsWellFormed, IsOver, GroupIsOver, KindOf;
    forall kind | kind in FinishedKinds(rows) ensures kind in FinishedIn(jobs) {
      var key :| key in rows && rows[key].tally.IsFinished() && rows[key].kind == kind;
      assert kind in KindsOf(jobs);
      GroupIsKind(jobs, nextId, key);
    }
    forall kind | kind in FinishedIn(jobs) ensures kind in FinishedKinds(rows) {
      var id :| id in jobs && KindOf(jobs[id]) == kind;
      JobInRow(jobs, labels, rows, rowOf, batchRow, id);
      GroupIsKind(jobs, nextId, rowOf[id]);
    }
    forall id | id in jobs ensures KindOf(jobs[id]) in KindsIn(rows) {
      JobInRow(jobs, labels, rows, rowOf, batchRow, id);
    }
  }
}
