/** What the scheduler promises: the plain scan of queued jobs in id order, and why it is safe.
    The heap merge that computes the same list is TransferQueue.StartableLimited. */
module Scheduler {
  import opened Ordered
  import opened Jobs

  /** The most jobs a session may run at once; None means no limit. */
  type SessionCap = nat -> Option<nat>

  ghost function InSession(jobs: JobMap, active: set<nat>, session: nat): set<nat> {
    set id | id in active && id in jobs && jobs[id].session == session
  }

  ghost predicate Capped(jobs: JobMap, cap: SessionCap, active: set<nat>, session: nat) {
    cap(session).Some? && |InSession(jobs, active, session)| >= cap(session).value
  }

  ghost predicate Busy(jobs: JobMap, active: set<nat>, destination: Destination) {
    exists id :: id in active && id in jobs && jobs[id].Destination() == destination
  }

  /** Why job `id` may not start while the jobs of `active` run. */
  ghost predicate Blocked(jobs: JobMap, cap: SessionCap, limit: nat, active: set<nat>, id: nat)
    requires id in jobs
  {
    || |active| >= limit
    || Capped(jobs, cap, active, jobs[id].session)
    || Busy(jobs, active, jobs[id].Destination())
  }

  /** One pass over `live` in id order, choosing every job that nothing blocks. */
  ghost function Scan(jobs: JobMap, cap: SessionCap, limit: nat, live: set<nat>, active: set<nat>): set<nat>
    requires live <= jobs.Keys
    decreases |live|
  {
    if live == {} || |active| >= limit then {} else
      var id := Least(live);
      if Blocked(jobs, cap, limit, active, id) then
        Scan(jobs, cap, limit, live - {id}, active)
      else
        {id} + Scan(jobs, cap, limit, live - {id}, active + {id})
  }

  ghost function Chosen(jobs: JobMap, limit: nat, cap: SessionCap): set<nat> {
    Scan(jobs, cap, limit, QueuedIds(jobs), RunningIds(jobs))
  }

  /** The ids to start now, smallest first. */
  ghost function Startable(jobs: JobMap, limit: nat, cap: SessionCap): seq<nat> {
    Ascending(Chosen(jobs, limit, cap))
  }

  // ----- the list is exactly the greedy choice -----

  ghost function Below(ids: set<nat>, id: nat): set<nat> {
    set x | x in ids && x < id
  }

  /** A choice is greedy when a live job is in it exactly if the running jobs and the chosen jobs
      with smaller ids do not block it. */
  ghost predicate Greedy(
    jobs: JobMap, cap: SessionCap, limit: nat, live: set<nat>, active: set<nat>, chosen: set<nat>)
    requires live <= jobs.Keys
  {
    && chosen <= live
    && forall id :: id in live ==>
         (id in chosen <==> !Blocked(jobs, cap, limit, active + Below(chosen, id), id))
  }

  lemma BlockedIsMonotone(
    jobs: JobMap, cap: SessionCap, limit: nat, active: set<nat>, more: set<nat>, id: nat)
    requires id in jobs && active <= more
    requires Blocked(jobs, cap, limit, active, id)
    ensures Blocked(jobs, cap, limit, more, id)
  {
    SubsetIsSmaller(active, more);
    SubsetIsSmaller(InSession(jobs, active, jobs[id].session), InSession(jobs, more, jobs[id].session));
  }

  lemma {:induction false} ScanStaysInside(jobs: JobMap, cap: SessionCap, limit: nat, live: set<nat>, active: set<nat>)
    requires live <= jobs.Keys
    ensures Scan(jobs, cap, limit, live, active) <= live
    decreases |live|
  {
    if live == {} || |active| >= limit {
    } else {
      var id := Least(live);
      ScanStaysInside(jobs, cap, limit, live - {id}, active);
      ScanStaysInside(jobs, cap, limit, live - {id}, active + {id});
    }
  }

  lemma FullIsGreedy(jobs: JobMap, cap: SessionCap, limit: nat, live: set<nat>, active: set<nat>)
    requires live <= jobs.Keys && |active| >= limit
    ensures Greedy(jobs, cap, limit, live, active, {})
  {
    forall id | id in live ensures Blocked(jobs, cap, limit, active + Below({}, id), id) {
      SubsetIsSmaller(active, active + Below({}, id));
    }
  }

  /** Deciding about the least id first and then greedily about the rest is greedy. */
  lemma GreedyWithLeast(
    jobs: JobMap, cap: SessionCap, limit: nat, live: set<nat>, active: set<nat>, least: nat, picked: set<nat>,
    tail: set<nat>)
    requires live <= jobs.Keys && live != {} && least == Least(live)
    requires picked == if Blocked(jobs, cap, limit, active, least) then {} else {least}
    requires Greedy(jobs, cap, limit, live - {least}, active + picked, tail)
    ensures Greedy(jobs, cap, limit, live, active, picked + tail)
  {
    hide Blocked, Below;
    forall id | id in live
      ensures id in picked + tail <==> !Blocked(jobs, cap, limit, active + Below(picked + tail, id), id)
    {
      BelowWithLeast(live, active, picked, tail, id);
    }
  }

  /** What is below an id, when the least id may have joined the running ones. */
  lemma BelowWithLeast(live: set<nat>, active: set<nat>, picked: set<nat>, tail: set<nat>, id: nat)
    requires live != {} && id in live && tail <= live - {Least(live)} && picked <= {Least(live)}
    ensures id == Least(live) ==> active + Below(picked + tail, id) == active
    ensures id != Least(live) ==> active + Below(picked + tail, id) == active + picked + Below(tail, id)
  {
  }

  /** Each queued job is chosen exactly when nothing running or chosen earlier blocks it. */
  lemma {:induction false} ScanIsGreedy(jobs: JobMap, cap: SessionCap, limit: nat, live: set<nat>, active: set<nat>)
    requires live <= jobs.Keys
    ensures Greedy(jobs, cap, limit, live, active, Scan(jobs, cap, limit, live, active))
    decreases |live|
  {
    hide Greedy, Blocked;
    if live == {} {
      NothingIsGreedy(jobs, cap, limit, active);
    } else if |active| >= limit {
      FullIsGreedy(jobs, cap, limit, live, active);
    } else {
      var least := Least(live);
      var picked := if Blocked(jobs, cap, limit, active, least) then {} else {least};
      ScanIsGreedy(jobs, cap, limit, live - {least}, active + picked);
      assert active + {} == active;
      var tail := Scan(jobs, cap, limit, live - {least}, active + picked);
      assert {} + tail == tail;
      GreedyWithLeast(jobs, cap, limit, live, active, least, picked, tail);
    }
  }

  lemma NothingIsGreedy(jobs: JobMap, cap: SessionCap, limit: nat, active: set<nat>)
    ensures Greedy(jobs, cap, limit, {}, active, {})
  {
  }

  /** ... and no other choice is greedy, so Greedy says exactly what the scheduler computes. */
  lemma GreedyIsUnique(
    jobs: JobMap, cap: SessionCap, limit: nat, live: set<nat>, active: set<nat>, xs: set<nat>, ys: set<nat>)
    requires live <= jobs.Keys
    requires Greedy(jobs, cap, limit, live, active, xs)
    requires Greedy(jobs, cap, limit, live, active, ys)
    ensures xs == ys
  {
    forall id: nat ensures id in xs <==> id in ys {
      SameMembership(jobs, cap, limit, live, active, xs, ys, id);
    }
  }

  lemma {:induction false} SameMembership(
    jobs: JobMap, cap: SessionCap, limit: nat, live: set<nat>, active: set<nat>, xs: set<nat>, ys: set<nat>, id: nat)
    requires live <= jobs.Keys
    requires Greedy(jobs, cap, limit, live, active, xs)
    requires Greedy(jobs, cap, limit, live, active, ys)
    ensures id in xs <==> id in ys
    decreases id
  {
    if id !in live {
    } else {
      forall x: nat | x < id ensures x in xs <==> x in ys {
        SameMembership(jobs, cap, limit, live, active, xs, ys, x);
      }
      assert Below(xs, id) == Below(ys, id);
    }
  }

  /** The choice is maximal: any queued job left out is blocked by slots, its session's cap or a
      busy destination once the chosen jobs run. */
  lemma StartableIsMaximal(jobs: JobMap, limit: nat, cap: SessionCap, id: nat)
    requires id in QueuedIds(jobs) && id !in Startable(jobs, limit, cap)
    ensures Blocked(jobs, cap, limit, RunningIds(jobs) + Chosen(jobs, limit, cap), id)
  {
    var chosen := Chosen(jobs, limit, cap);
    ScanIsGreedy(jobs, cap, limit, QueuedIds(jobs), RunningIds(jobs));
    BlockedIsMonotone(
      jobs, cap, limit, RunningIds(jobs) + Below(chosen, id), RunningIds(jobs) + chosen, id);
  }

  // ----- the same in plain terms -----

  /** The two jobs would write the same file. */
  ghost predicate Collide(a: Job, b: Job) {
    a.direction == b.direction &&
    if a.direction.Upload? then a.session == b.session && a.remotePath == b.remotePath else a.localPath == b.localPath
  }

  /** The job may run beside the others: a slot is free, its session is below its cap, and none of them
      writes the same file. */
  ghost predicate HasRoom(jobs: JobMap, limit: nat, cap: SessionCap, others: set<nat>, id: nat)
    requires id in jobs && others <= jobs.Keys
  {
    && |others| < limit
    && (cap(jobs[id].session).Some? ==>
          |set x | x in others && jobs[x].session == jobs[id].session| < cap(jobs[id].session).value)
    && forall x :: x in others ==> !Collide(jobs[x], jobs[id])
  }

  /** The running jobs and those of the list with smaller ids. */
  ghost function Before(jobs: JobMap, list: seq<nat>, id: nat): set<nat> {
    set x | x in jobs && (jobs[x].status.InProgress? || (x in list && x < id))
  }

  /** The list has, in order of their ids, exactly the queued jobs that have room beside the running jobs
      and those listed before them. */
  ghost predicate ListsThoseWithRoom(jobs: JobMap, limit: nat, cap: SessionCap, list: seq<nat>) {
    && Increasing(list)
    && forall id :: id in list <==>
         id in jobs && jobs[id].status.Queued? && HasRoom(jobs, limit, cap, Before(jobs, list, id), id)
  }

  lemma CollideIsSameDestination(a: Job, b: Job)
    ensures Collide(a, b) <==> a.Destination() == b.Destination()
  {
  }

  lemma RoomIsNotBlocked(jobs: JobMap, limit: nat, cap: SessionCap, others: set<nat>, id: nat)
    requires id in jobs && others <= jobs.Keys
    ensures HasRoom(jobs, limit, cap, others, id) <==> !Blocked(jobs, cap, limit, others, id)
  {
    forall x | x in others ensures Collide(jobs[x], jobs[id]) <==> jobs[x].Destination() == jobs[id].Destination() {
      CollideIsSameDestination(jobs[x], jobs[id]);
    }
    assert (set x | x in others && jobs[x].session == jobs[id].session) == InSession(jobs, others, jobs[id].session);
    hide Collide;
  }

  lemma StartableHasRoom(jobs: JobMap, limit: nat, cap: SessionCap)
    ensures ListsThoseWithRoom(jobs, limit, cap, Startable(jobs, limit, cap))
  {
    var list, chosen := Startable(jobs, limit, cap), Chosen(jobs, limit, cap);
    ScanIsGreedy(jobs, cap, limit, QueuedIds(jobs), RunningIds(jobs));
    assert chosen <= QueuedIds(jobs) && forall id :: id in list <==> id in chosen;
    hide HasRoom, Blocked, Chosen;
    forall id | id in jobs && jobs[id].status.Queued?
      ensures id in list <==> HasRoom(jobs, limit, cap, Before(jobs, list, id), id)
    {
      assert id in QueuedIds(jobs);
      assert Before(jobs, list, id) == RunningIds(jobs) + Below(chosen, id);
      RoomIsNotBlocked(jobs, limit, cap, Before(jobs, list, id), id);
    }
  }

  /** All slots are taken, the session's cap is reached, or one of the others writes the same file. */
  ghost predicate HasReason(jobs: JobMap, limit: nat, cap: SessionCap, others: set<nat>, id: nat)
    requires id in jobs && others <= jobs.Keys
  {
    || |others| >= limit
    || (cap(jobs[id].session).Some? &&
        |set x | x in others && jobs[x].session == jobs[id].session| >= cap(jobs[id].session).value)
    || exists x :: x in others && jobs[x].direction == jobs[id].direction &&
         if jobs[id].direction.Upload? then jobs[x].session == jobs[id].session && jobs[x].remotePath == jobs[id].remotePath
         else jobs[x].localPath == jobs[id].localPath
  }

  lemma NoRoomHasReason(jobs: JobMap, limit: nat, cap: SessionCap, others: set<nat>, id: nat)
    requires id in jobs && others <= jobs.Keys && !HasRoom(jobs, limit, cap, others, id)
    ensures HasReason(jobs, limit, cap, others, id)
  {
    if x :| x in others && Collide(jobs[x], jobs[id]) {
      assert jobs[x].direction == jobs[id].direction;
    }
  }

  /** A queued job is left out for a reason that lies with the running and the listed jobs. */
  lemma LeftOutForAReason(jobs: JobMap, limit: nat, cap: SessionCap, id: nat)
    requires id in jobs && jobs[id].status.Queued? && id !in Startable(jobs, limit, cap)
    ensures var active := set x | x in jobs && (jobs[x].status.InProgress? || x in Startable(jobs, limit, cap));
      HasReason(jobs, limit, cap, active, id)
  {
    var list, chosen := Startable(jobs, limit, cap), Chosen(jobs, limit, cap);
    var active := set x | x in jobs && (jobs[x].status.InProgress? || x in list);
    StartableIsMaximal(jobs, limit, cap, id);
    ScanStaysInside(jobs, cap, limit, QueuedIds(jobs), RunningIds(jobs));
    assert forall x :: x in list <==> x in chosen;
    hide Blocked, Chosen, Startable, HasReason, HasRoom;
    assert active == RunningIds(jobs) + chosen;
    RoomIsNotBlocked(jobs, limit, cap, active, id);
    NoRoomHasReason(jobs, limit, cap, active, id);
  }

  lemma CappedIsMonotone(jobs: JobMap, cap: SessionCap, active: set<nat>, more: set<nat>, session: nat)
    requires active <= more && Capped(jobs, cap, active, session)
    ensures Capped(jobs, cap, more, session)
  {
    SubsetIsSmaller(InSession(jobs, active, session), InSession(jobs, more, session));
  }

  /** A capped session stays capped while the scan goes on, so all its jobs can be left out. */
  lemma {:induction false} DropCapped(
    jobs: JobMap, cap: SessionCap, limit: nat, live: set<nat>, active: set<nat>, dropped: set<nat>)
    requires live <= jobs.Keys && dropped <= live
    requires forall id :: id in dropped ==> Capped(jobs, cap, active, jobs[id].session)
    ensures Scan(jobs, cap, limit, live, active) == Scan(jobs, cap, limit, live - dropped, active)
    decreases |live|
  {
    if live == {} || |active| >= limit {
    } else {
      var id := Least(live);
      if id in dropped {
        DropCapped(jobs, cap, limit, live - {id}, active, dropped - {id});
        assert live - {id} - (dropped - {id}) == live - dropped;
      } else {
        assert id in live - dropped && Least(live - dropped) == id;
        assert live - {id} - dropped == live - dropped - {id};
        DropCapped(jobs, cap, limit, live - {id}, active, dropped);
        forall x | x in dropped ensures Capped(jobs, cap, active + {id}, jobs[x].session) {
          CappedIsMonotone(jobs, cap, active, active + {id}, jobs[x].session);
        }
        DropCapped(jobs, cap, limit, live - {id}, active + {id}, dropped);
      }
    }
  }

  // ----- safety over whole runs -----

  ghost predicate Safe(jobs: JobMap, limit: nat, cap: SessionCap) {
    SafeSet(jobs, RunningIds(jobs), limit, cap)
  }

  ghost predicate SafeSet(jobs: JobMap, active: set<nat>, limit: nat, cap: SessionCap) {
    && active <= jobs.Keys
    && |active| <= limit
    && (forall s: nat :: cap(s).Some? ==> |InSession(jobs, active, s)| <= cap(s).value)
    && forall a, b :: a in active && b in active && a != b ==> jobs[a].Destination() != jobs[b].Destination()
  }

  /** Any change in which a job is running afterwards only if it ran before, or was started because
      the scheduler returned it, and which moves no running job. Queue.OperationsAreSafe speaks
      of its operations. */
  ghost predicate SchedulerStep(jobs: JobMap, jobs': JobMap, limit: nat, cap: SessionCap) {
    forall id :: id in RunningIds(jobs') ==>
      && (id in RunningIds(jobs) || id in Startable(jobs, limit, cap))
      && id in jobs
      && jobs'[id].session == jobs[id].session
      && jobs'[id].Destination() == jobs[id].Destination()
  }

  lemma AddingUnblockedKeepsSafe(jobs: JobMap, active: set<nat>, limit: nat, cap: SessionCap, id: nat)
    requires id in jobs && id !in active
    requires SafeSet(jobs, active, limit, cap)
    requires !Blocked(jobs, cap, limit, active, id)
    ensures SafeSet(jobs, active + {id}, limit, cap)
  {
    forall s: nat | cap(s).Some?
      ensures |InSession(jobs, active + {id}, s)| <= cap(s).value
    {
      if s == jobs[id].session {
        assert InSession(jobs, active + {id}, s) == InSession(jobs, active, s) + {id};
      } else {
        assert InSession(jobs, active + {id}, s) == InSession(jobs, active, s);
      }
    }
  }

  lemma {:induction false} ScanKeepsSafe(jobs: JobMap, cap: SessionCap, limit: nat, live: set<nat>, active: set<nat>)
    requires live <= jobs.Keys && live !! active
    requires SafeSet(jobs, active, limit, cap)
    ensures SafeSet(jobs, active + Scan(jobs, cap, limit, live, active), limit, cap)
    decreases |live|
  {
    hide SafeSet;
    if live == {} || |active| >= limit {
      assert active + Scan(jobs, cap, limit, live, active) == active;
    } else {
      var id := Least(live);
      if Blocked(jobs, cap, limit, active, id) {
        ScanKeepsSafe(jobs, cap, limit, live - {id}, active);
      } else {
        AddingUnblockedKeepsSafe(jobs, active, limit, cap, id);
        ScanKeepsSafe(jobs, cap, limit, live - {id}, active + {id});
        var rest := Scan(jobs, cap, limit, live - {id}, active + {id});
        assert active + Scan(jobs, cap, limit, live, active) == active + {id} + rest;
      }
    }
  }

  lemma StepKeepsSafe(jobs: JobMap, jobs': JobMap, limit: nat, cap: SessionCap)
    requires Safe(jobs, limit, cap)
    requires SchedulerStep(jobs, jobs', limit, cap)
    ensures Safe(jobs', limit, cap)
  {
    ScanKeepsSafe(jobs, cap, limit, QueuedIds(jobs), RunningIds(jobs));
    var allowed := RunningIds(jobs) + Chosen(jobs, limit, cap);
    assert RunningIds(jobs') <= allowed;
    SubsetIsSmaller(RunningIds(jobs'), allowed);
    forall s: nat | cap(s).Some?
      ensures |InSession(jobs', RunningIds(jobs'), s)| <= cap(s).value
    {
      SubsetIsSmaller(InSession(jobs', RunningIds(jobs'), s), InSession(jobs, allowed, s));
    }
  }

  /** Over any run that starts with nothing running, the slot limit, every session's cap and the
      one-job-per-destination rule hold in every state. */
  lemma {:induction false} RunsAreSafe(run: seq<JobMap>, limit: nat, cap: SessionCap, k: nat)
    requires k < |run|
    requires RunningIds(run[0]) == {}
    requires forall i :: 0 <= i < |run| - 1 ==> SchedulerStep(run[i], run[i + 1], limit, cap)
    ensures Safe(run[k], limit, cap)
  {
    if k == 0 {
      assert forall s: nat :: InSession(run[0], {}, s) == {};
    } else {
      RunsAreSafe(run, limit, cap, k - 1);
      assert SchedulerStep(run[k - 1], run[k - 1 + 1], limit, cap);
      StepKeepsSafe(run[k - 1], run[k], limit, cap);
    }
  }

  /** In every state of every run two different running uploads of one session write different remote
      files, and two different running downloads different local files. */
  lemma RunningJobsNeverCollide(run: seq<JobMap>, limit: nat, cap: SessionCap, k: nat, a: nat, b: nat)
    requires k < |run|
    requires RunningIds(run[0]) == {}
    requires forall i :: 0 <= i < |run| - 1 ==> SchedulerStep(run[i], run[i + 1], limit, cap)
    requires a in run[k] && b in run[k] && a != b && run[k][a].status.InProgress? && run[k][b].status.InProgress?
    ensures run[k][a].direction.Upload? && run[k][b].direction.Upload? && run[k][a].session == run[k][b].session ==>
      run[k][a].remotePath != run[k][b].remotePath
    ensures run[k][a].direction.Download? && run[k][b].direction.Download? ==> run[k][a].localPath != run[k][b].localPath
  {
    RunsAreSafe(run, limit, cap, k);
    assert a in RunningIds(run[k]) && b in RunningIds(run[k]);
  }

  ghost function Started(jobs: JobMap, id: nat): JobMap
    requires id in jobs
  {
    jobs[id := jobs[id].(status := InProgress, attempts := jobs[id].attempts + 1)]
  }

  /** The engine starts the list one job at a time; after the first has started, the rest of the
      old list is what a fresh call would return. */
  lemma StartingTheFirstKeepsTheRest(jobs: JobMap, limit: nat, cap: SessionCap)
    requires Startable(jobs, limit, cap) != []
    ensures var id := Startable(jobs, limit, cap)[0];
            && id in jobs
            && Startable(Started(jobs, id), limit, cap) == Startable(jobs, limit, cap)[1..]
  {
    var queued, running := QueuedIds(jobs), RunningIds(jobs);
    ScanStaysInside(jobs, cap, limit, queued, running);
    var id := Least(Scan(jobs, cap, limit, queued, running));
    StartedMoves(jobs, id);
    ScanAfterLeast(jobs, Started(jobs, id), cap, limit, queued, running);
  }

  /** The jobs after the ids were started one by one. */
  ghost function StartedAll(jobs: JobMap, ids: seq<nat>): JobMap {
    if ids == [] || ids[0] !in jobs then jobs else StartedAll(Started(jobs, ids[0]), ids[1..])
  }

  /** However many of the list have been started, a fresh call returns exactly the rest of the old list;
      so starting all of it is sound, and afterwards nothing more may start. */
  lemma {:induction false} StartingTheListIsSound(jobs: JobMap, limit: nat, cap: SessionCap, k: nat)
    requires k <= |Startable(jobs, limit, cap)|
    ensures var ids := Startable(jobs, limit, cap);
      Startable(StartedAll(jobs, ids[..k]), limit, cap) == ids[k..]
    decreases k
  {
    hide Startable, Started, StartedAll;
    var ids := Startable(jobs, limit, cap);
    if k == 0 {
      NoneStarted(jobs, ids);
    } else {
      StartingTheFirstKeepsTheRest(jobs, limit, cap);
      StartingTheListIsSound(Started(jobs, ids[0]), limit, cap, k - 1);
      OneStarted(jobs, ids, k);
    }
  }

  lemma NoneStarted(jobs: JobMap, ids: seq<nat>)
    ensures StartedAll(jobs, ids[..0]) == jobs && ids[0..] == ids
  {
  }

  lemma OneStarted(jobs: JobMap, ids: seq<nat>, k: nat)
    requires 0 < k <= |ids| && ids[0] in jobs
    ensures StartedAll(jobs, ids[..k]) == StartedAll(Started(jobs, ids[0]), ids[1..][..k - 1])
    ensures ids[1..][k - 1..] == ids[k..]
  {
    assert ids[..k][1..] == ids[1..][..k - 1];
  }

  lemma ScanAfterLeast(jobs: JobMap, jobs': JobMap, cap: SessionCap, limit: nat, live: set<nat>, active: set<nat>)
    requires live <= jobs.Keys && SamePlaces(jobs, jobs')
    requires Scan(jobs, cap, limit, live, active) != {}
    ensures var chosen := Scan(jobs, cap, limit, live, active);
            var id := Least(chosen);
            Scan(jobs', cap, limit, live - {id}, active + {id}) == chosen - {id}
  {
    var chosen := Scan(jobs, cap, limit, live, active);
    var id := Least(chosen);
    ScanIsGreedy(jobs, cap, limit, live, active);
    RestIsGreedy(jobs, jobs', cap, limit, live, active, chosen);
    ScanIsGreedy(jobs', cap, limit, live - {id}, active + {id});
    GreedyIsUnique(
      jobs', cap, limit, live - {id}, active + {id}, chosen - {id},
      Scan(jobs', cap, limit, live - {id}, active + {id}));
  }

  lemma StartedMoves(jobs: JobMap, id: nat)
    requires id in QueuedIds(jobs)
    ensures QueuedIds(Started(jobs, id)) == QueuedIds(jobs) - {id}
    ensures RunningIds(Started(jobs, id)) == RunningIds(jobs) + {id}
  {
  }

  ghost predicate SamePlaces(jobs: JobMap, jobs': JobMap) {
    && jobs.Keys == jobs'.Keys
    && forall i :: i in jobs ==>
         jobs[i].session == jobs'[i].session && jobs[i].Destination() == jobs'[i].Destination()
  }

  lemma RestIsGreedy(
    jobs: JobMap, jobs': JobMap, cap: SessionCap, limit: nat, live: set<nat>, active: set<nat>, chosen: set<nat>)
    requires live <= jobs.Keys && SamePlaces(jobs, jobs')
    requires Greedy(jobs, cap, limit, live, active, chosen)
    requires chosen != {}
    ensures var id := Least(chosen);
            Greedy(jobs', cap, limit, live - {id}, active + {id}, chosen - {id})
  {
    var id := Least(chosen);
    forall x | x in live - {id}
      ensures x in chosen - {id} <==> !Blocked(jobs', cap, limit, active + {id} + Below(chosen - {id}, x), x)
    {
      RestIsGreedyAt(jobs, jobs', cap, limit, active, chosen, x);
    }
  }

  lemma RestIsGreedyAt(
    jobs: JobMap, jobs': JobMap, cap: SessionCap, limit: nat, active: set<nat>, chosen: set<nat>, x: nat)
    requires SamePlaces(jobs, jobs') && x in jobs
    requires chosen != {} && x != Least(chosen)
    requires x in chosen <==> !Blocked(jobs, cap, limit, active + Below(chosen, x), x)
    ensures var id := Least(chosen);
            x in chosen <==> !Blocked(jobs', cap, limit, active + {id} + Below(chosen - {id}, x), x)
  {
    var id := Least(chosen);
    var before := active + Below(chosen, x);
    var after := active + {id} + Below(chosen - {id}, x);
    BelowAfterLeast(active, chosen, x);
    SameBlocked(jobs, jobs', cap, limit, after, x);
    if x < id {
      BlockedIsMonotone(jobs, cap, limit, before, after, x);
    } else {
      assert before == after;
    }
  }

  lemma BelowAfterLeast(active: set<nat>, chosen: set<nat>, x: nat)
    requires chosen != {}
    ensures var id := Least(chosen);
            && (id < x ==> active + Below(chosen, x) == active + {id} + Below(chosen - {id}, x))
            && (x <= id ==> active + Below(chosen, x) == active)
  {
  }

  lemma SameBlocked(jobs: JobMap, jobs': JobMap, cap: SessionCap, limit: nat, active: set<nat>, x: nat)
    requires x in jobs && SamePlaces(jobs, jobs')
    ensures Blocked(jobs, cap, limit, active, x) <==> Blocked(jobs', cap, limit, active, x)
  {
    assert InSession(jobs, active, jobs[x].session) == InSession(jobs', active, jobs[x].session);
  }
}
