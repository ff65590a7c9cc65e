/** The heap of session queues that the scheduler merges. `live` is the set of queued jobs it still
    stands for. */
module Merge {
  import opened Ordered
  import opened Jobs
  import opened Scheduler

  /** One head (id, session) per session that has live jobs, its smallest. */
  ghost predicate HeadsOk(jobs: JobMap, live: set<nat>, heads: set<(nat, nat)>) {
    forall h: (nat, nat) ::
      h in heads <==> InSession(jobs, live, h.1) != {} && h.0 == Least(InSession(jobs, live, h.1))
  }

  /** A session's iterator yields the live jobs after its head. */
  ghost predicate IteratorsOk(
    jobs: JobMap, live: set<nat>, heads: set<(nat, nat)>, iterators: map<nat, seq<nat>>)
  {
    forall h :: h in heads ==>
      h.1 in iterators && Ascending(InSession(jobs, live, h.1)) == [h.0] + iterators[h.1]
  }

  ghost predicate HeapOk(jobs: JobMap, live: set<nat>, heads: set<(nat, nat)>, iterators: map<nat, seq<nat>>) {
    live <= jobs.Keys && HeadsOk(jobs, live, heads) && IteratorsOk(jobs, live, heads, iterators)
  }

  lemma HeadOfLive(jobs: JobMap, live: set<nat>, heads: set<(nat, nat)>, id: nat)
    requires live <= jobs.Keys && HeadsOk(jobs, live, heads) && id in live
    ensures var s := jobs[id].session;
      InSession(jobs, live, s) != {} && (Least(InSession(jobs, live, s)), s) in heads &&
      Least(InSession(jobs, live, s)) <= id
  {
    var s := jobs[id].session;
    assert id in InSession(jobs, live, s);
    var h := (Least(InSession(jobs, live, s)), s);
    assert h in heads;
  }

  lemma EmptyHeap(jobs: JobMap, live: set<nat>, heads: set<(nat, nat)>)
    requires live <= jobs.Keys && HeadsOk(jobs, live, heads) && heads == {}
    ensures live == {}
  {
    if live != {} {
      var id :| id in live;
      HeadOfLive(jobs, live, heads, id);
    }
  }

  predicate IsTop(heads: set<(nat, nat)>, h: (nat, nat)) {
    h in heads && forall g :: g in heads ==> h.0 <= g.0
  }

  lemma {:induction false} TopExists(heads: set<(nat, nat)>)
    requires heads != {}
    ensures exists h :: IsTop(heads, h)
  {
    var ids := set h | h in heads :: h.0;
    var g :| g in heads;
    assert g.0 in ids;
    var least := Least(ids);
    var h :| h in heads && h.0 == least;
    forall g | g in heads ensures h.0 <= g.0 {
      assert g.0 in ids;
    }
    assert IsTop(heads, h);
  }

  /** The top of the heap is the smallest live id. */
  lemma TopIsLeast(jobs: JobMap, live: set<nat>, heads: set<(nat, nat)>, h: (nat, nat))
    requires live <= jobs.Keys && HeadsOk(jobs, live, heads) && IsTop(heads, h)
    ensures live != {} && h.0 == Least(live) && jobs[h.0].session == h.1
  {
    assert h.0 in InSession(jobs, live, h.1);
    HeadOfLive(jobs, live, heads, Least(live));
  }

  ghost predicate SameElsewhere(jobs: JobMap, live: set<nat>, live': set<nat>, session: nat) {
    forall s: nat :: s != session ==> InSession(jobs, live', s) == InSession(jobs, live, s)
  }

  /** A change that touches one session's entries only. */
  lemma HeapChange(
    jobs: JobMap, live: set<nat>, heads: set<(nat, nat)>, iterators: map<nat, seq<nat>>,
    live': set<nat>, heads': set<(nat, nat)>, iterators': map<nat, seq<nat>>, session: nat)
    requires HeapOk(jobs, live, heads, iterators) && live' <= jobs.Keys
    requires SameElsewhere(jobs, live, live', session)
    requires forall h: (nat, nat) :: h.1 != session ==> (h in heads' <==> h in heads)
    requires forall h :: h in heads' && h.1 == session ==>
      InSession(jobs, live', session) != {} && h.0 == Least(InSession(jobs, live', session))
    requires InSession(jobs, live', session) != {} ==> (Least(InSession(jobs, live', session)), session) in heads'
    requires forall s: nat :: s != session && s in iterators ==> s in iterators' && iterators'[s] == iterators[s]
    requires InSession(jobs, live', session) != {} ==>
      session in iterators' &&
      Ascending(InSession(jobs, live', session)) == [Least(InSession(jobs, live', session))] + iterators'[session]
    ensures HeapOk(jobs, live', heads', iterators')
  {
    hide InSession;
    assert HeadsOk(jobs, live', heads');
    forall h | h in heads'
      ensures h.1 in iterators' && Ascending(InSession(jobs, live', h.1)) == [h.0] + iterators'[h.1]
    {
      if h.1 != session {
        assert h in heads;
      }
    }
  }

  lemma OtherSessions(jobs: JobMap, live: set<nat>, gone: set<nat>, session: nat)
    requires gone <= InSession(jobs, live, session)
    ensures SameElsewhere(jobs, live, live - gone, session)
    ensures InSession(jobs, live - gone, session) == InSession(jobs, live, session) - gone
  {
  }

  /** A popped head that is not replaced takes its session's other jobs with it. */
  lemma HeapAfterDrop(
    jobs: JobMap, live: set<nat>, heads: set<(nat, nat)>, iterators: map<nat, seq<nat>>, h: (nat, nat))
    requires HeapOk(jobs, live, heads, iterators) && h in heads
    ensures HeapOk(jobs, live - InSession(jobs, live, h.1), heads - {h}, iterators)
  {
    hide InSession;
    var gone := InSession(jobs, live, h.1);
    OtherSessions(jobs, live, gone, h.1);
    HeapChange(jobs, live, heads, iterators, live - gone, heads - {h}, iterators, h.1);
  }

  lemma HeapIsOfJobs(jobs: JobMap, live: set<nat>, heads: set<(nat, nat)>, iterators: map<nat, seq<nat>>)
    requires HeapOk(jobs, live, heads, iterators)
    ensures live <= jobs.Keys
  {
  }

  /** Replacing a popped head by its iterator's next id takes out just the popped job. */
  lemma HeapAfterAdvance(
    jobs: JobMap, live: set<nat>, heads: set<(nat, nat)>, iterators: map<nat, seq<nat>>, h: (nat, nat))
    requires HeapOk(jobs, live, heads, iterators) && h in heads
    ensures h.1 in iterators
    ensures var queue := iterators[h.1];
      if queue == [] then HeapOk(jobs, live - {h.0}, heads - {h}, iterators)
      else HeapOk(jobs, live - {h.0}, heads - {h} + {(queue[0], h.1)}, iterators[h.1 := queue[1..]])
  {
    hide InSession, HeapOk, HeadsOk, Least, Ascending, SameElsewhere;
    AdvancedQueue(jobs, live, heads, iterators, h);
    assert live - {h.0} <= jobs.Keys by { HeapIsOfJobs(jobs, live, heads, iterators); }
    var queue := iterators[h.1];
    if queue == [] {
      HeapChange(jobs, live, heads, iterators, live - {h.0}, heads - {h}, iterators, h.1);
    } else {
      HeapChange(
        jobs, live, heads, iterators, live - {h.0}, heads - {h} + {(queue[0], h.1)},
        iterators[h.1 := queue[1..]], h.1);
    }
  }

  lemma AdvancedQueue(
    jobs: JobMap, live: set<nat>, heads: set<(nat, nat)>, iterators: map<nat, seq<nat>>, h: (nat, nat))
    requires HeapOk(jobs, live, heads, iterators) && h in heads
    ensures h.1 in iterators
    ensures forall g :: g in heads && g.1 == h.1 ==> g == h
    ensures SameElsewhere(jobs, live, live - {h.0}, h.1)
    ensures var queue, rest := iterators[h.1], InSession(jobs, live - {h.0}, h.1);
      if queue == [] then rest == {}
      else rest != {} && queue[0] == Least(rest) && Ascending(rest) == [queue[0]] + queue[1..]
  {
    OtherSessions(jobs, live, {h.0}, h.1);
    QueueTail(InSession(jobs, live, h.1), iterators[h.1]);
  }

  lemma QueueTail(ids: set<nat>, queue: seq<nat>)
    requires ids != {} && Ascending(ids) == [Least(ids)] + queue
    ensures queue == Ascending(ids - {Least(ids)})
    ensures queue != [] ==>
      ids - {Least(ids)} != {} && queue[0] == Least(ids - {Least(ids)}) && queue == [queue[0]] + queue[1..]
    ensures queue == [] ==> ids - {Least(ids)} == {}
  {
    assert ([Least(ids)] + queue)[1..] == queue;
  }

  /** Putting one session's whole queue on the heap. */
  lemma HeapAfterPush(
    jobs: JobMap, live: set<nat>, heads: set<(nat, nat)>, iterators: map<nat, seq<nat>>, session: nat, ids: set<nat>)
    requires HeapOk(jobs, live, heads, iterators)
    requires InSession(jobs, live, session) == {} && ids != {}
    requires forall id :: id in ids ==> id in jobs && jobs[id].session == session
    ensures var queue := Ascending(ids);
      HeapOk(jobs, live + ids, heads + {(queue[0], session)}, iterators[session := queue[1..]])
  {
    SessionsAfterPush(jobs, live, session, ids);
    HeapIsOfJobs(jobs, live, heads, iterators);
    NotOnHeap(jobs, live, heads, iterators, session);
    var queue := Ascending(ids);
    assert queue == [Least(ids)] + queue[1..];
    PushQueue(jobs, live, heads, iterators, session, ids, queue[1..]);
  }

  lemma PushQueue(
    jobs: JobMap, live: set<nat>, heads: set<(nat, nat)>, iterators: map<nat, seq<nat>>, session: nat, ids: set<nat>,
    rest: seq<nat>)
    requires HeapOk(jobs, live, heads, iterators) && live + ids <= jobs.Keys && ids != {}
    requires SameElsewhere(jobs, live, live + ids, session) && InSession(jobs, live + ids, session) == ids
    requires (forall h :: h in heads ==> h.1 != session) && Ascending(ids) == [Least(ids)] + rest
    ensures HeapOk(jobs, live + ids, heads + {(Least(ids), session)}, iterators[session := rest])
  {
    hide InSession, HeapOk, HeadsOk, Least, Ascending, SameElsewhere;
    HeapChange(
      jobs, live, heads, iterators, live + ids, heads + {(Least(ids), session)}, iterators[session := rest], session);
  }

  lemma NotOnHeap(
    jobs: JobMap, live: set<nat>, heads: set<(nat, nat)>, iterators: map<nat, seq<nat>>, session: nat)
    requires HeapOk(jobs, live, heads, iterators) && InSession(jobs, live, session) == {}
    ensures forall h :: h in heads ==> h.1 != session
  {
    hide InSession;
  }

  lemma SessionsAfterPush(jobs: JobMap, live: set<nat>, session: nat, ids: set<nat>)
    requires InSession(jobs, live, session) == {}
    requires forall id :: id in ids ==> id in jobs && jobs[id].session == session
    ensures InSession(jobs, live + ids, session) == ids
    ensures SameElsewhere(jobs, live, live + ids, session)
  {
    forall id | id in InSession(jobs, live + ids, session) ensures id in ids {
      assert id in live ==> id in InSession(jobs, live, session);
    }
  }

  // ----- what the merge loop keeps beside the heap -----

  ghost predicate CountsOk(jobs: JobMap, active: set<nat>, perSession: map<nat, nat>) {
    forall s: nat :: Count(perSession, s) == |InSession(jobs, active, s)|
  }

  function Count(perSession: map<nat, nat>, session: nat): nat {
    if session in perSession then perSession[session] else 0
  }

  ghost predicate BusyOk(jobs: JobMap, active: set<nat>, busy: set<Destination>) {
    forall d: Destination :: d in busy <==> Busy(jobs, active, d)
  }

  lemma OneMoreInSession(jobs: JobMap, active: set<nat>, id: nat, s: nat)
    requires id in jobs && id !in active
    ensures |InSession(jobs, active + {id}, s)| ==
      |InSession(jobs, active, s)| + if s == jobs[id].session then 1 else 0
  {
    assert InSession(jobs, active + {id}, s) ==
      InSession(jobs, active, s) + (if s == jobs[id].session then {id} else {});
  }

  lemma BusyIsKnown(jobs: JobMap, active: set<nat>, busy: set<Destination>, destination: Destination)
    requires BusyOk(jobs, active, busy)
    ensures destination in busy <==> Busy(jobs, active, destination)
  {
  }

  lemma CountsAfterStart(jobs: JobMap, active: set<nat>, perSession: map<nat, nat>, id: nat)
    requires CountsOk(jobs, active, perSession) && id in jobs && id !in active
    ensures CountsOk(
      jobs, active + {id}, perSession[jobs[id].session := Count(perSession, jobs[id].session) + 1])
  {
    hide InSession;
    forall s: nat
      ensures |InSession(jobs, active + {id}, s)| ==
        |InSession(jobs, active, s)| + if s == jobs[id].session then 1 else 0
    {
      OneMoreInSession(jobs, active, id, s);
    }
  }

  lemma BusyAfterStart(jobs: JobMap, active: set<nat>, busy: set<Destination>, id: nat)
    requires BusyOk(jobs, active, busy) && id in jobs
    ensures BusyOk(jobs, active + {id}, busy + {jobs[id].Destination()})
  {
    forall d: Destination ensures Busy(jobs, active + {id}, d) <==> Busy(jobs, active, d) || d == jobs[id].Destination()
    {
      if d == jobs[id].Destination() {
        assert id in active + {id};
      }
      if Busy(jobs, active, d) {
        var x :| x in active && x in jobs && jobs[x].Destination() == d;
        assert x in active + {id};
      }
    }
  }

  lemma NothingActive(jobs: JobMap)
    ensures CountsOk(jobs, {}, map[]) && BusyOk(jobs, {}, {})
    ensures HeapOk(jobs, {}, {}, map[])
  {
    assert forall s: nat :: InSession(jobs, {}, s) == {};
  }

  ghost function Listed(ids: seq<nat>): set<nat> {
    set id | id in ids
  }

  /** How the list so far, the running jobs and the live jobs add up to the promised choice. */
  ghost predicate MergeOk(
    jobs: JobMap, limit: nat, cap: SessionCap, live: set<nat>, active: set<nat>, startable: seq<nat>)
  {
    && live <= QueuedIds(jobs) && live !! active
    && (forall x :: x in startable ==> x in active && forall y :: y in live ==> x < y)
    && Increasing(startable)
    && Listed(startable) + Scan(jobs, cap, limit, live, active) == Chosen(jobs, limit, cap)
    && |active| == |RunningIds(jobs)| + |startable|
  }

  lemma MergeStart(jobs: JobMap, limit: nat, cap: SessionCap, live: set<nat>)
    requires live <= QueuedIds(jobs)
    requires forall id :: id in QueuedIds(jobs) - live ==> Capped(jobs, cap, RunningIds(jobs), jobs[id].session)
    ensures MergeOk(jobs, limit, cap, live, RunningIds(jobs), [])
  {
    var dropped := QueuedIds(jobs) - live;
    DropCapped(jobs, cap, limit, QueuedIds(jobs), RunningIds(jobs), dropped);
    assert QueuedIds(jobs) - dropped == live;
  }

  lemma MergeDrop(
    jobs: JobMap, limit: nat, cap: SessionCap, live: set<nat>, active: set<nat>, startable: seq<nat>, session: nat)
    requires MergeOk(jobs, limit, cap, live, active, startable) && Capped(jobs, cap, active, session)
    ensures MergeOk(jobs, limit, cap, live - InSession(jobs, live, session), active, startable)
  {
    DropCapped(jobs, cap, limit, live, active, InSession(jobs, live, session));
  }

  lemma MergeSkip(
    jobs: JobMap, limit: nat, cap: SessionCap, live: set<nat>, active: set<nat>, startable: seq<nat>)
    requires MergeOk(jobs, limit, cap, live, active, startable)
    requires live != {} && |active| < limit
    requires Busy(jobs, active, jobs[Least(live)].Destination())
    ensures MergeOk(jobs, limit, cap, live - {Least(live)}, active, startable)
  {
  }

  lemma MergeTake(
    jobs: JobMap, limit: nat, cap: SessionCap, live: set<nat>, active: set<nat>, startable: seq<nat>)
    requires MergeOk(jobs, limit, cap, live, active, startable)
    requires live != {} && |active| < limit
    requires !Busy(jobs, active, jobs[Least(live)].Destination())
    requires !Capped(jobs, cap, active, jobs[Least(live)].session)
    ensures MergeOk(jobs, limit, cap, live - {Least(live)}, active + {Least(live)}, startable + [Least(live)])
  {
    hide Capped, Busy, Chosen, RunningIds, QueuedIds, Increasing, Listed;
    LiveAreJobs(jobs, live);
    ScanTakes(jobs, limit, cap, live, active);
    IncreasingPush(startable, Least(live));
  }

  lemma ScanTakes(jobs: JobMap, limit: nat, cap: SessionCap, live: set<nat>, active: set<nat>)
    requires live <= jobs.Keys && live != {} && |active| < limit
    requires !Busy(jobs, active, jobs[Least(live)].Destination())
    requires !Capped(jobs, cap, active, jobs[Least(live)].session)
    ensures var id := Least(live);
      Scan(jobs, cap, limit, live, active) == {id} + Scan(jobs, cap, limit, live - {id}, active + {id})
  {
  }

  lemma LiveAreJobs(jobs: JobMap, live: set<nat>)
    requires live <= QueuedIds(jobs)
    ensures live <= jobs.Keys
  {
  }

  lemma IncreasingPush(xs: seq<nat>, id: nat)
    requires Increasing(xs) && forall x :: x in xs ==> x < id
    ensures Increasing(xs + [id]) && Listed(xs + [id]) == Listed(xs) + {id}
  {
    var more := xs + [id];
    forall i, j | 0 <= i < j < |more| ensures more[i] < more[j] {
      assert more[i] in xs;
    }
  }

  lemma MergeEnd(
    jobs: JobMap, limit: nat, cap: SessionCap, live: set<nat>, active: set<nat>, startable: seq<nat>)
    requires MergeOk(jobs, limit, cap, live, active, startable)
    requires live == {} || |active| >= limit
    ensures startable == Startable(jobs, limit, cap)
  {
    assert Scan(jobs, cap, limit, live, active) == {};
    assert Listed(startable) == Chosen(jobs, limit, cap);
    AscendingUnique(startable, Chosen(jobs, limit, cap));
  }
}
