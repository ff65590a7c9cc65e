/** Single steps of the persist writer, written out. */
module WriterSteps {
  import opened Writer

  lemma Draws(s: State, w: Id, path: Path, tag: nat, contents: string)
    requires w !in s.workers && w !in s.flushers
    ensures IsEnabled(s, Draw(w, path, tag, contents), false)
    ensures IsEnabled(s, Draw(w, path, tag, contents), true) <==> MayDraw(s, path)
    ensures Apply(s, Draw(w, path, tag, contents)) ==
      s.(nextVersion := s.nextVersion + 1, workers := s.workers[w := Drawn(Job(path, s.nextVersion, tag, contents))])
  {
  }

  lemma Enters(s: State, w: Id, job: Job, hasRuntime: bool)
    requires w in s.workers && s.workers[w] == Drawn(job)
    ensures IsStep(s, Enter(w, hasRuntime),
      if s.closed || !(s.running || hasRuntime) then EnterInline(s, w, job) else EnterQueue(s, w, job))
  {
    hide EnterInline, EnterQueue;
  }

  lemma Spawns(s: State, w: Id)
    requires w in s.workers && s.workers[w].MustStart?
    ensures IsStep(s, Spawn(w), s.(task := Starting, workers := s.workers[w := MustNotify]))
  {
  }

  lemma Drains(s: State, w: Id)
    requires w !in s.workers && w !in s.flushers
    ensures IsStep(s, DrainBegin(w), s.(workers := s.workers[w := Entering(false)]))
  {
  }

  lemma Takes(s: State, w: Id)
    requires w in s.workers && s.workers[w] == Entering(false)
    ensures IsStep(s, Take(w), s.(pending := map[], workers := s.workers[w := Holding(s.pending)]))
  {
  }

  lemma Writes(s: State, w: Id, jobs: Jobs, path: Path)
    requires w in s.workers && s.workers[w] == Holding(jobs) && path in jobs
    ensures IsStep(s, Write(w, path, true),
      s.(disk := DiskAfter(s.disk, jobs[path], true), settled := SettledAfter(s.settled, jobs[path]),
        workers := s.workers[w := Holding(jobs - {path})]))
  {
    hide DiskAfter, SettledAfter;
  }

  lemma Aborts(s: State, w: Id)
    requires s.task.Starting? || s.task.Selecting?
    requires w !in s.workers && w !in s.flushers
    ensures IsStep(s, TaskAbort(w), MarkDropped(s, w))
  {
    hide MarkDropped;
  }

  lemma FlushBegins(s: State, f: Id)
    requires s.running && f !in s.workers && f !in s.flushers
    ensures IsStep(s, FlushBegin(f), s.(flushing := s.flushing + {f},
      flushers := s.flushers[f := Flusher(map path | path in s.pending :: s.pending[path].version, false, Waiting)]))
  {
  }

  lemma FlushNotifies(s: State, f: Id)
    requires f in s.flushers && !s.flushers[f].notified
    ensures IsStep(s, FlushNotify(f),
      s.(permit := true, flushers := s.flushers[f := s.flushers[f].(notified := true)]))
  {
  }

  lemma FlushReturns(s: State, f: Id)
    requires f in s.flushers && s.flushers[f].notified && !s.flushers[f].reply.Waiting? && f !in s.workers && s.running
    ensures IsStep(s, FlushEnd(f), s.(flushers := s.flushers - {f}))
  {
  }

  // ----- runs that go on from a state -----

  ghost predicate Continues(s: State, run: seq<State>, steps: seq<Step>) {
    && |run| == |steps| + 1 && run[0] == s
    && forall i :: 0 <= i < |steps| ==> IsStep(run[i], steps[i], run[i + 1])
  }

  lemma OneMore(s: State, run: seq<State>, steps: seq<Step>, step: Step, s': State)
    requires Continues(s, run, steps) && IsStep(run[|steps|], step, s')
    ensures Continues(s, run + [s'], steps + [step])
  {
    hide IsStep;
    var run', steps' := run + [s'], steps + [step];
    forall i | 0 <= i < |steps'| ensures IsStep(run'[i], steps'[i], run'[i + 1]) {
      assert i < |steps| ==> IsStep(run[i], steps[i], run[i + 1]);
    }
  }

  lemma Joined(s: State, run: seq<State>, steps: seq<Step>, tail: seq<State>, more: seq<Step>)
    requires Continues(s, run, steps) && Continues(run[|steps|], tail, more)
    ensures Continues(s, run[..|steps|] + tail, steps + more)
  {
    hide IsStep;
    var run', steps' := run[..|steps|] + tail, steps + more;
    forall i | 0 <= i < |steps'| ensures IsStep(run'[i], steps'[i], run'[i + 1]) {
      if i < |steps| {
        assert IsStep(run[i], steps[i], run[i + 1]);
        assert run'[i + 1] == run[i + 1];
      } else {
        assert IsStep(tail[i - |steps|], more[i - |steps|], tail[i - |steps| + 1]);
      }
    }
  }
}
