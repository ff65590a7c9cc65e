# Porthmos: verified models of its core

Porthmos is a file manager that copies files between a local and a remote side. This project models
the parts of `porthmos-core`, `porthmos-vfs` and `porthmos-ssh` whose correctness rests on state that
is kept up to date piece by piece, on interleavings, or on an argument that no single function shows,
and proves what they promise.

* **Transfer queue** (`Jobs`, `Rows`, `QueueState`, `Recount`, `Announcements`, `Scheduler`, `Merge`,
  `Queue`). `Queue.TransferQueue` is a class with the jobs, the seven derived indexes and the change
  log. `Valid()` says that every index equals a recount of the jobs and that replaying all changes
  gives the finished rows; every method keeps it, says what becomes of the jobs, and says exactly which
  changes it announces. The scheduler's heap merge is proved to return the list of a plain scan.
* **Persist writer** (`Writer`, `WriterVersions`, `WriterRuns`, `WriterFlush`, `WriterSteps`,
  `WriterSafety`, `WriterBarrier`, `WriterOverlap`, `WriterOnce`, `WriterProgress`, `WriterPacing`) and its
  **lock table** (`Locks`). State machines over all interleavings of callers, the background task,
  inline writers, flushes and closing; the results are about every state of every run, and the writer is
  proved to come to rest by its own steps with everything written.
* **Glob matcher and search walk** (`Glob`, `Walk`), **resumable copy** (`Resume`), **two-way
  synchronisation** (`Paths`, `Sync`, `SyncLaws`, `SyncTable`, `Scan`), **conflict resolution** (`FreshNames`,
  `Conflicts`), and the **command splitter against the shell quoter** (`Words`, section 2.2 of the POSIX
  Shell Command Language).

How the source is rendered:

* Numbers are natural numbers. `saturating_sub` is modelled as such and proved never to saturate.
* Names, paths and file contents are sequences; a path in a tree is a sequence of components, a path in
  a job is a string. Lower-casing in the search is a parameter `fold`.
* Outcomes of I/O, sizes of reads, cancel flags and clocks are parameters (`Resume.Env`, `cancelled`)
  or steps that may go either way (`succeeds`).
* `Queue.TransferQueue.Update` is what holding and dropping a job guard does, with any change at all. The
  rows do not follow every field (`Shape`, porthmos-core/src/transfer/queue/mod.rs:111-128), so its contract
  says which changes keep the queue valid: exactly those of `QueueState.IsTracked`. Likewise `Enqueue` takes
  any batch id; jobs that carry an id nobody was given are only a problem when `StartBatch` hands it out, and
  its contract says exactly when.
* Early returns for a missing row or counter are left out where the invariant shows they cannot happen;
  the arm of `remove_jobs` that would reopen a row is kept and proved dead.
* `next_version` is drawn before the queue's lock is taken (porthmos-core/src/persist/writer/mod.rs:135-136).
  `Writer.IsEnabled` therefore has a flag `serial`: no second version of a path is drawn while one is
  drawn and not yet submitted. The results hold for serial runs, and
  `WriterOverlap.DrawLosesNothingIffSerial` shows that a draw against the rule is exactly what can lose a write.
* In the writer executing a job is one step: `Locks.StepsAreAtomicWrites` shows that a whole locked write
  acts on the disk as one versioned write. A drop of the background task is a step where it waits and
  holds no taken jobs; `WriterOnce.DroppingLosesTheNewestInHands` says what a drop in the middle of writing loses.
* A resumed copy builds on what a part file holds without comparing it. The queue asks for a resume after
  any failed attempt (porthmos-core/src/transfer/queue/mod.rs:568-581), also after one that never opened the
  part file, so a part file left by another copy can end up in the destination (`Resume.ForeignPartIsBuiltOn`);
  `Resume.ExactlyWhenSoundOrStartedOver` gives the exact condition, file times included, under which the copy is
  right.
* In the glob matcher the test for an equal character comes before the test for a star
  (porthmos-vfs/src/search/mod.rs:50-53), so pattern `*` refuses the name `*a`. The documented meaning is
  kept as `Glob.Matches`, and it is proved for which names and for which patterns the matcher agrees with it.

## Model

| member | source | states |
|---|---|---|
| Queue.AdjustedIsExact | porthmos-core/src/transfer/queue/mod.rs:302-347 | taking a share that a row covers off the row and adding it back gives the row: no counter saturates |
| Queue.TransferQueue.constructor | porthmos-core/src/transfer/queue/mod.rs:183-186 | a new queue is empty and valid |
| Queue.TransferQueue.Account | porthmos-core/src/transfer/queue/mod.rs:302-347 | from indexes that are a recount of some jobs' shapes to a recount with one shape more or fewer; the row changes by exactly that share |
| Queue.TransferQueue.MoveShare | porthmos-core/src/transfer/queue/mod.rs:349-356 | removing the old shape and adding the new one makes all indexes agree with the changed job if and only if the change is one the rows follow; it touches one row's numbers only |
| Queue.TransferQueue.Reconcile | porthmos-core/src/transfer/queue/mod.rs:349-370 | after any change of one job the queue is valid if and only if the rows follow the change; announces exactly the change of its row between finished and unfinished |
| Queue.TransferQueue.Update | porthmos-core/src/transfer/queue/mod.rs:156-180 | after any guarded change the queue is valid if and only if id, batch and total stayed and, for the first job of a row, direction and label; an unknown id changes nothing; then at most one change is announced, and which one is determined by the jobs before and after |
| Queue.TransferQueue.Enqueue | porthmos-core/src/transfer/queue/mod.rs:188-233 | adds one queued job under a fresh id, with any batch id, keeps every index a recount, and announces a reopened row exactly if the job's row was finished |
| Queue.TransferQueue.StartBatch | porthmos-core/src/transfer/queue/mod.rs:235-240 | a fresh batch id with its label; the queue stays valid if and only if no row already carries that id under another label, which holds while callers use ids they were given |
| Queue.TransferQueue.ForgetBatchIfEmpty | porthmos-core/src/transfer/queue/mod.rs:246-251 | label and flag of a batch go exactly when no job of it is left, whatever the row index says |
| Queue.TransferQueue.FlagUnkeptTimes | porthmos-core/src/transfer/queue/mod.rs:253-255 | only the first call for a batch reports true |
| Queue.TransferQueue.RowKeyFinds | porthmos-core/src/transfer/queue/mod.rs:269-276 | looking a row up by its kind finds every row there is, even in the middle of a removal |
| Queue.TransferQueue.TakeChanges | porthmos-core/src/transfer/queue/mod.rs:289-291 | hands out what was logged since the last call; the whole history stays truthful |
| Queue.TransferQueue.RetryJobs | porthmos-core/src/transfer/queue/mod.rs:381-394 | each listed failed or cancelled job is queued with no attempts, to resume exactly if it had been attempted, its other fields as before; every other job is unchanged; the count is the number of these jobs, however often listed; announces exactly the rows that are no longer finished as reopened |
| Queue.TransferQueue.RemoveJobs | porthmos-core/src/transfer/queue/mod.rs:396-452 | exactly the listed jobs go; every index is a recount of the rest; a batch is forgotten exactly if a removed job was in it and no other is; announces each row that went once and each row that finished by it once, nothing else, and never a reopening |
| Queue.TransferQueue.TakeOut | porthmos-core/src/transfer/queue/mod.rs:400-424 | one job leaves all indexes while its row still lists it; the row's numbers lose exactly its share |
| Queue.TransferQueue.PruneRow | porthmos-core/src/transfer/queue/mod.rs:425-440 | a row without jobs is dropped and announced as removed, a row with jobs is kept under its new first job; the other touched rows stay pending |
| Queue.TransferQueue.RekeyRow | porthmos-core/src/transfer/queue/mod.rs:454-476 | the row, its jobs and its batch move to the first remaining job together |
| Queue.TransferQueue.AnnounceFinished | porthmos-core/src/transfer/queue/mod.rs:441-448 | announces exactly the rows that finished and were not known as finished; the reopening arm is unreachable |
| Queue.TransferQueue.StartableLimited | porthmos-core/src/transfer/queue/mod.rs:494-537 | for every valid queue, limit and cap function the heap merge returns the list of the plain scan in id order: exactly the queued jobs for which, beside the running jobs and the listed ones with smaller ids, a slot is free, the session is below its cap, and no upload of the session has the remote path, or no download the local path |
| Queue.TransferQueue.HasPending | porthmos-core/src/transfer/queue/mod.rs:543-545 | true exactly if some queued or running job has this session and direction |
| Queue.TransferQueue.CancelAllQueued | porthmos-core/src/transfer/queue/mod.rs:547-553 | each queued job becomes cancelled and nothing else changes; counts them, and announces exactly the rows that thereby finished |
| Queue.TransferQueue.FailQueuedForSession | porthmos-core/src/transfer/queue/mod.rs:559-566 | each queued job of the session fails with the reason and nothing else changes; leaves the session no queue, and announces exactly the rows that thereby finished |
| Queue.TransferQueue.RetryOrGiveUp | porthmos-core/src/transfer/queue/mod.rs:568-581 | queues a job again to resume while attempts are left and says so; else changes nothing |
| Queue.TransferQueue.Rows | porthmos-core/src/transfer/queue/mod.rs:265-267 | one row per group of jobs, in the order of the groups' first ids, each with kind, label, direction, counts, bytes and state recomputed from its jobs |
| Queue.TransferQueue.RowsAreTheGroups | porthmos-core/src/transfer/queue/mod.rs:604-665 | the stored rows are keyed by the first jobs of the groups and show what regrouping the jobs shows |
| Queue.TransferQueue.BatchProgress | porthmos-core/src/transfer/queue/mod.rs:583-594 | files, completed files and bytes of a batch as counted over its jobs, zero without jobs |
| Queue.TransferQueue.LogTellsFinishedRows | porthmos-core/src/transfer/queue/mod.rs:349-370 | replaying every change ever announced gives exactly the kinds of row that have jobs and none queued or running |
| QueueState.GroupedAfterChange | porthmos-core/src/transfer/queue/mod.rs:349-356 | moving one job's share keeps all rows in agreement with the jobs if and only if the change is one they follow |
| QueueState.GroupedAfterRekey | porthmos-core/src/transfer/queue/mod.rs:454-476 | a row that lost its first job agrees with the jobs again under its new key, past other rows |
| QueueState.RecountedAdd | porthmos-core/src/transfer/queue/mod.rs:317-330 | the four indexes by status and session stay a recount when a shape is added |
| QueueState.RecountedRemove | porthmos-core/src/transfer/queue/mod.rs:331-346 | and when one is removed, without leaving empty entries |
| QueueState.RowCoversJob | porthmos-core/src/transfer/queue/mod.rs:302-316 | a row's numbers always include each of its jobs' shares, so the subtractions are exact |
| QueueState.KindsAreDistinct | porthmos-core/src/transfer/queue/mod.rs:269-276 | no two rows show the same kind |
| Rows.SumRetain | porthmos-core/src/transfer/queue/mod.rs:425-429 | striking ids that contribute nothing off a row leaves its sums |
| Recount.RowIsItsGroup | porthmos-core/src/transfer/queue/mod.rs:71-98 | a row whose numbers add up shows the state, counts and bytes its jobs have |
| Recount.GroupRowSays | porthmos-core/src/transfer/queue/mod.rs:71-98 | in terms of the jobs alone, what a row shows: kind and label, the direction of the first job, how many jobs there are and how many completed, and exactly when it counts as running, queued, failed, cancelled or completed |
| Recount.KeysAreLeaders | porthmos-core/src/transfer/queue/tests.rs:474-526 | the row keys are exactly the smallest ids of the groups |
| Announcements.FinishedRowsAreOver | porthmos-core/src/transfer/queue/mod.rs:67-69 | the rows finished by their counters are the kinds with jobs and none pending, and every kind of job has a row |
| Announcements.FoldAfterDropping | porthmos-core/src/transfer/queue/mod.rs:425-440 | after announcing rows that went, a listener knows exactly the other finished rows |
| Scheduler.ScanIsGreedy | porthmos-core/src/transfer/queue/tests.rs:549-573 | the scan chooses a queued job exactly if the running jobs and the chosen jobs with smaller ids leave it a slot, its session cap and its destination |
| Scheduler.GreedyIsUnique | porthmos-core/src/transfer/queue/tests.rs:549-573 | no other choice has that property |
| Scheduler.DropCapped | porthmos-core/src/transfer/queue/mod.rs:516-520 | dropping the whole queue of a session at its cap loses nothing, since counts only grow |
| Scheduler.StartableIsMaximal | porthmos-core/src/transfer/queue/mod.rs:494-537 | a queued job that is left out is blocked by slots, cap or destination even after everything chosen has started |
| Scheduler.LeftOutForAReason | porthmos-core/src/transfer/queue/mod.rs:494-537 | a queued job that is not listed has its reason among the running and listed jobs: as many as the limit, as many in its session as its cap, an upload of its session with its remote path, or a download with its local path |
| Scheduler.StepKeepsSafe | porthmos-core/src/transfer/queue/mod.rs:494-537 | starting some of the chosen jobs, and any jobs leaving, respects limit, caps and destinations |
| Scheduler.RunsAreSafe | porthmos-core/src/transfer/job.rs:59-64 | over whole runs running jobs never exceed the limit or a cap and never share a destination |
| Scheduler.RunningJobsNeverCollide | porthmos-core/src/transfer/job.rs:59-64 | in every state of every run two different running uploads of one session write different remote paths, and two different running downloads different local paths |
| Queue.OperationIsASchedulerStepIff | porthmos-core/src/transfer/queue/mod.rs:156-580 | each operation of the queue (enqueueing, a guarded change, retrying, cancelling or failing, removing, starting) is a scheduler step if and only if every job that runs afterwards ran before or was listed to start, in the same session with the same destination |
| Queue.OperationsAreSafe | porthmos-core/src/transfer/queue/mod.rs:156-580 | over any run of these operations that starts only what was listed, running jobs never exceed the limit or a cap and never share a destination |
| Queue.OperationsNeverCollide | porthmos-core/src/transfer/job.rs:59-64 | the same in every state of every run of the queue's operations that starts only what was listed |
| Scheduler.StartingTheFirstKeepsTheRest | porthmos-core/src/engine/handlers/transfer/mod.rs:80-95 | once the first of the list has started, a fresh call returns the rest, so starting one by one from an old list is sound |
| Scheduler.StartingTheListIsSound | porthmos-core/src/engine/handlers/transfer/mod.rs:80-95 | however many of the old list have been started, a fresh call returns exactly the rest of it; after all of them nothing more may start |
| Merge.TopIsLeast | porthmos-core/src/transfer/queue/mod.rs:505-516 | the top of the heap of session heads is the smallest id still open |
| Merge.HeapAfterAdvance | porthmos-core/src/transfer/queue/mod.rs:521-525 | replacing a popped head by its session's next id takes exactly the popped job out |
| Merge.HeapAfterPush | porthmos-core/src/transfer/queue/mod.rs:505-512 | putting a session's queue on the heap opens exactly its jobs |
| Writer.NextDue | porthmos-core/src/persist/writer/mod.rs:237-239 | none exactly if nothing pends, else the earliest time any pending job may be written |
| WriterVersions.VersionsKept | porthmos-core/src/persist/writer/mod.rs:134-154 | in serial runs nobody, nor the disk, holds a newer version of a path than the newest submitted, and equal versions are equal jobs |
| WriterVersions.AccountsKept | porthmos-core/src/persist/writer/mod.rs:134-284 | every step keeps the newest job of each path queued, in hands, on disk or reported as failed |
| WriterVersions.NewestIsExecuted | porthmos-core/src/persist/mod.rs:62-80 | executing the newest job of a path puts it on disk or reports its failure |
| WriterOnce.JobsAreInOnePlace | porthmos-core/src/persist/writer/mod.rs:134-284 | in every state of every run a job is queued, in the task's hands or with one worker, never in two places, and nowhere once it was executed |
| WriterOnce.DroppingLosesTheNewestInHands | porthmos-core/src/persist/writer/mod.rs:248-272 | in every state of every run: dropping the task in the middle of its writing loses nothing if and only if no job in its hands is the newest submitted for its path |
| WriterVersions.ExecutingIsOneWrite | porthmos-core/src/persist/mod.rs:62-80 | executing a job does to the disk what one locked, versioned write does |
| WriterRuns.RunsKept | porthmos-core/src/persist/writer/mod.rs:74-85 | `running` is set exactly while a task exists or one caller must start it, flushes wait only then, and what pends always has somebody who will take it |
| WriterRuns.SpawnKeepsRuns | porthmos-core/src/persist/writer/mod.rs:148-163 | the task is started only where there is none |
| WriterRuns.SealedKept | porthmos-core/src/persist/writer/mod.rs:188-195 | once a close has taken the queue, closed and empty stay true through every step |
| WriterRuns.WakesKept | porthmos-core/src/persist/writer/mod.rs:209-235 | a waiting task has a wake-up stored or on its way, or there is nothing to do before its timer |
| WriterFlush.WaitersKept | porthmos-core/src/persist/writer/mod.rs:165-186 | the flushes that wait are exactly those in the list and those the task is about to answer |
| WriterFlush.FlushesKept | porthmos-core/src/persist/writer/mod.rs:209-235 | nothing a flush waits for is lost before it is executed, and it is out of the task's hands when the flush is answered |
| WriterSafety.SettledKept | porthmos-core/src/persist/writer/mod.rs:274-284 | the newest version executed for a path is on disk, or a newer one, or its write failed |
| WriterSafety.RunsAreSafe | porthmos-core/src/persist/writer/mod.rs:134-284 | all of these invariants hold in every state of every run |
| WriterSafety.VersionsOnDiskNeverDecrease | porthmos-core/src/persist/mod.rs:62-80 | along every run, overlapping draws included, the version a path has on disk never goes back |
| WriterSafety.LastSubmittedIsOnDisk | porthmos-core/src/persist/writer/mod.rs:134-207 | when nothing is queued or in hands, each path holds the last contents submitted for it or the failure of exactly that write was returned or reported |
| WriterSafety.OneTaskAtATime | porthmos-core/src/persist/writer/mod.rs:148-163 | over every run at most one task exists, and it is spawned only where there is none |
| WriterSafety.NothingPendsOnceClosed | porthmos-core/src/persist/writer/mod.rs:188-207 | from the moment close takes the queue, in every later state nothing pends |
| WriterSafety.WorkIsNeverStuck | porthmos-core/src/persist/writer/mod.rs:209-246 | while something pends or a flush waits, the writer can make a step by itself, or its task waits for a timer set no later than any pending job may be written: no wake-up is lost |
| WriterSafety.FlushIsABarrier | porthmos-core/src/persist/writer/mod.rs:165-186 | when the task has answered a flush, each job that pended at the call, or a newer one for its path, has been executed, unless a caller writing inline still holds it |
| WriterSafety.FlushedIsOnDisk | porthmos-core/src/persist/writer/mod.rs:165-186 | without such a caller that version or a newer one is on disk, or the write of that or a newer version failed |
| WriterBarrier.FlushCallIsABarrier | porthmos-core/src/persist/writer/mod.rs:165-186 | when a whole flush call returns, answered, dropped or without a task, everything pending when it was called has left the queue, unless it was dropped and finds another task running |
| WriterBarrier.FlushCallWrites | porthmos-core/src/persist/writer/mod.rs:165-207 | if nobody is writing the path then, that version or a newer one is on disk or its write failed |
| WriterBarrier.DroppedFlushReturnsEarly | porthmos-core/src/persist/writer/mod.rs:177-183 | a run from the start in which a dropped flush finds another task running and returns with what it wanted still pending |
| WriterBarrier.DroppedFlushMayReturnEarlyIff | porthmos-core/src/persist/writer/mod.rs:165-186 | in every state of every run: a dropped flush can return early, leaving something it wanted in the queue, if and only if something it wanted is in the queue and a task runs or can still be started |
| WriterOverlap.DrawLosesNothingIffSerial | porthmos-core/src/persist/writer/mod.rs:134-154 | in every state of every serial run: drawing a version of a path can lead to no lost write, however serially the callers go on, if and only if no other version of that path is drawn and not yet submitted |
| WriterOverlap.OverlappingDrawLoses | porthmos-core/src/persist/writer/mod.rs:134-154 | from any state with such a version the two callers can go on so that the job submitted last is not queued, not in hands, not on disk and not reported as failed |
| WriterOverlap.OverlappingWritesLoseTheLast | porthmos-core/src/persist/writer/mod.rs:135-136 | one such run from the start, ending with nothing queued and no failure |
| WriterProgress.OwnStepsShrink | porthmos-core/src/persist/writer/mod.rs:134-284 | every step the writer makes by itself lessens a weighted count of what callers, task, queue, wake-up and flushes still have to do, a stale timer included |
| WriterProgress.OwnStepsEnd | porthmos-core/src/persist/writer/mod.rs:209-235 | while no call comes and no time passes at most that many steps follow: the loop never spins |
| WriterProgress.RestIsDone | porthmos-core/src/persist/writer/mod.rs:165-246 | where no such step is left no call is under way, no flush waits, and each path holds its last contents, or that write's failure is known, or it pends while the task sleeps until the first job may be written, at most the interval ahead |
| WriterProgress.ComesToRest | porthmos-core/src/persist/writer/mod.rs:134-284 | every run can be carried on to such a state by the writer's own steps, within that count |
| WriterPacing.DueWritesKeepTheirDistance | porthmos-core/src/persist/writer/mod.rs:248-264 | over every run: if one task writes a path twice and the second write was taken as due, the clock has advanced by at least the interval between the two |
| WriterPacing.TakesWhatWasNotWrittenLately | porthmos-core/src/persist/writer/mod.rs:248-260 | over every run: when the task takes what is due it takes, of the pending paths, exactly those it has not written less than the interval before the time it looked at, and leaves the others pending unchanged |
| WriterPacing.LooksAtTheClock | porthmos-core/src/persist/writer/mod.rs:237-246 | that time is what the clock showed when the task's timer went off, since when the task did nothing |
| WriterPacing.PendingAtRestWasWrittenLately | porthmos-core/src/persist/writer/mod.rs:237-246 | where the writer has come to rest, a path that still pends was written by the task less than the interval ago |
| Locks.StepKeepsInv | porthmos-core/src/persist/mod.rs:33-43 | threads at work on a path use the table's lock for it, a lock has one holder, and it knows the version on disk |
| Locks.OneWriterPerPath | porthmos-core/src/persist/mod.rs:62-92 | over every run two threads on one path have the same lock and only one is inside, so the temporary file has one user |
| Locks.StepsAreAtomicWrites | porthmos-core/src/persist/mod.rs:62-80 | a locked write acts on the disk as nothing or as one versioned write compared with the disk itself, although the code compares with the lock |
| Locks.WritesTakeEffect | porthmos-core/src/persist/mod.rs:62-80 | a write that succeeds and is not outdated is what the disk then holds of its path, under its version if it has one; one that fails or is outdated leaves the disk alone; other paths are untouched |
| Locks.VersionsNeverDecrease | porthmos-core/src/persist/mod.rs:62-80 | along every run the version on disk never goes back, pruning included |
| Locks.VersionIsRemembered | porthmos-core/src/persist/mod.rs:38-43 | a path with a version on disk keeps its lock, with that version, in the table |
| Locks.UnversionedIsPruned | porthmos-core/src/persist/mod.rs:38-43 | pruning does drop the lock of a path without a version that nobody uses |
| Glob.MatchFrom | porthmos-vfs/src/search/mod.rs:45-70 | the loop is sound for every name, exact for names without a star, and ends within (name length + 2)(pattern length + 1) turns |
| Glob.GreedyIsSound | porthmos-vfs/src/search/mod.rs:45-70 | whatever the loop accepts the glob meaning accepts |
| Glob.GreedyIsComplete | porthmos-vfs/src/search/mod.rs:45-70 | for names without a star it accepts all that the meaning accepts |
| Glob.StarKeepsGoal | porthmos-vfs/src/search/mod.rs:53-61 | at a new star the earlier star may be forgotten: the earliest alignment of a star-free segment is always enough |
| Glob.StarRefusesStarA | porthmos-vfs/src/search/mod.rs:50-53 | counterexample: the pattern `*` refuses the name `*a` |
| Glob.AgreesOnName | porthmos-vfs/src/search/mod.rs:50-53 | for a name the loop agrees with the meaning on all patterns if and only if the name has no star |
| Glob.AgreesForPattern | porthmos-vfs/src/search/mod.rs:50-53 | for a pattern the loop agrees with the meaning on all names if and only if the pattern has no star |
| Walk.WalkSearch | porthmos-vfs/src/search/mod.rs:72-136 | reports the first `max_results` entries of the full report and says whether it has at least that many; a cancelled walk reports some beginning and no end; an unreadable root fails |
| Walk.ReportItems | porthmos-vfs/src/search/mod.rs:97-128 | one folder's hits in order up to the limit, its folders pushed with their depth |
| Walk.FullReportIsComplete | porthmos-vfs/src/search/mod.rs:72-136 | the full report is, with multiplicities, every match of every readable folder down to the depth limit, by plain recursion over the tree |
| Walk.ReportedMeansReachable | porthmos-vfs/src/search/mod.rs:72-136 | an entry is reported if and only if a chain of readable folders from the root, within the depth limit, lists it and it matches |
| Walk.ReportedPlainly | porthmos-vfs/src/search/mod.rs:72-136 | whatever is reported shows the name, path and size of an item in reach whose folded name the pattern's glob meaning matches, marked as a folder exactly if it is one; and every such item is reported if its folded name has no star |
| Resume.ResumeOffset | porthmos-core/src/transfer/execute/mod.rs:73-83 | a part is built on exactly if both times are known, it is no longer than the source, the source is no newer beyond the skew, and it is longer than the backoff; then up to the backoff before its end |
| Resume.FileStore.CopyWithProgress | porthmos-core/src/transfer/execute/mod.rs:85-120 | for all read sizes, cancellations and failing writes the part grows by exactly what the source has from the offset to where the copy ends, all of it if completed; progress never decreases and ends at the full size |
| Resume.FileStore.Execute | porthmos-core/src/transfer/execute/mod.rs:34-71 | one attempt leaves part file, destination and outcome exactly as `Resume.Executed` says, keeping the part up to where the writer opens, and touches nothing else; the requested time is kept unless setting it fails, which is reported |
| Resume.UnusablePartIsIgnored | porthmos-core/src/transfer/execute/mod.rs:43-57 | a completed attempt that is not to resume, or whose part is absent, too long, stale or of unknown time, leaves the source as the destination |
| Resume.AttemptStaysSound | porthmos-core/src/transfer/execute/mod.rs:38-71 | an attempt that opens a sound part, or starts over, leaves a sound part, and the source as the destination if it completes; a part is sound if it is absent, its time or the source's is unknown, it is stale, or it agrees with the source wherever an attempt could build on it |
| Resume.BrokenOffLeavesABeginning | porthmos-core/src/transfer/execute/mod.rs:38-71 | an attempt that opens a sound part, or starts over, and does not complete leaves a part file that is a beginning of the source, no shorter than what it kept of the part, and the destination alone |
| Resume.CancelledWorkIsBuiltOn | porthmos-core/src/transfer/execute/mod.rs:43-71 | after a cancelled attempt whose part is dated no earlier than the source, give or take the skew, the next attempt to resume completes with the source or leaves a beginning of it that is shorter by at most the backoff |
| Resume.CopyEndsForAReason | porthmos-core/src/transfer/execute/mod.rs:94-120 | a copy goes on, by at least one byte a turn, to the first turn in which the cancel flag is seen, a call fails or nothing is left, and its outcome says which |
| Resume.UndisturbedAttemptCompletes | porthmos-core/src/transfer/execute/mod.rs:34-71 | an attempt in which no call fails and no cancel is seen completes |
| Resume.InterruptionsAreHarmless | porthmos-core/src/transfer/execute/mod.rs:38-83 | attempts that do not complete never touch the destination, whatever the part file held; from a sound part, or once one of them has started over, they leave a sound part, with damage to its end before each |
| Resume.CopyIsExactAfterInterruptions | porthmos-core/src/transfer/execute/mod.rs:38-83 | if the part file was sound at first or some attempt that was not to resume opened it, the first attempt that completes makes the destination equal to the source |
| Resume.ExactlyWhenSoundOrStartedOver | porthmos-core/src/transfer/execute/mod.rs:38-83 | for every source, part file and sequence of attempts: the part was sound at first or some attempt that was not to resume opened it, if and only if every way these attempts can go, as the code executes them and with damage to the part's end before each, ends with the source as the destination |
| Resume.ForeignPartIsBuiltOn | porthmos-core/src/transfer/execute/mod.rs:38-57 | an attempt not to resume that fails before opening the part, then one that resumes: source 1 2 of time 1000, foreign part 9 of time 2000, destination 9 2 |
| Sync.Compare | porthmos-core/src/sync/mod.rs:222-264 | lists exactly the paths with a verdict and no proper ancestor of mismatched kind, in path order, numbered from zero, though the loop remembers only visible mismatches |
| Sync.HiddenByVisible | porthmos-core/src/sync/mod.rs:235-247 | of the mismatches above a path the topmost is itself visible, so remembering visible ones is enough |
| SyncTable.OutOfSightIsUnlisted | porthmos-core/src/sync/mod.rs:225-233 | with settings that do not go together, or below a path that is of different kinds on the two sides, nothing is listed |
| SyncTable.NewLocalFile | porthmos-core/src/sync/mod.rs:156-164 | a local file without a counterpart is a ticked upload, reason only local, unless only downloads are wanted; then it is not listed |
| SyncTable.NewRemoteFile | porthmos-core/src/sync/mod.rs:156-164 | a remote file without a counterpart is a ticked download, reason only remote, unless only uploads are wanted |
| SyncTable.NothingToCopy | porthmos-core/src/sync/mod.rs:244-246 | folders and links on one side only are not listed |
| SyncTable.DifferentKinds | porthmos-core/src/sync/mod.rs:234-239 | a path of different kinds on the two sides is listed as skipped for that reason, unticked and not to be flipped |
| SyncTable.SameFoldersOrLinks | porthmos-core/src/sync/mod.rs:240-246 | folders on both sides and links on both sides are not listed |
| SyncTable.FilesBySize | porthmos-core/src/sync/mod.rs:176-185 | by size, files are copied in the plan's direction exactly if their sizes differ, and not listed otherwise |
| SyncTable.FilesOfUnknownTime | porthmos-core/src/sync/mod.rs:187-200 | by time with a time unknown, files of equal size are not listed; others are copied in the plan's direction, or left as a question where it has none |
| SyncTable.FilesOfTheSameTime | porthmos-core/src/sync/mod.rs:187-212 | by time and within the tolerance, files of equal size are not listed and others are left as a question |
| SyncTable.NewerLocalFile | porthmos-core/src/sync/mod.rs:187-212 | a local file newer beyond the tolerance is uploaded; against the direction it is left as a question, or not listed exactly if the sizes agree and times are not kept |
| SyncTable.NewerRemoteFile | porthmos-core/src/sync/mod.rs:187-212 | and so for a newer remote file |
| SyncTable.ChosenByCycling | porthmos-core/src/sync/mod.rs:76-106 | from what is proposed for a path, cycling at most twice reaches exactly skipping and each copy whose source is there, which the direction permits, of a path that is not of different kinds |
| SyncLaws.ListedActionsAreAllowed | porthmos-core/src/sync/mod.rs:76-90 | every proposed action is one the user may choose, ticked means a copy, and only open questions about two files can be flipped |
| SyncLaws.OnlyTheNewerIsCopied | porthmos-core/src/sync/mod.rs:187-212 | by time a file is proposed to be overwritten exactly by one that is newer beyond the tolerance, where the direction permits |
| SyncLaws.CyclingReachesTheAllowed | porthmos-core/src/sync/mod.rs:96-106 | cycling from an allowed action leads to exactly the allowed ones, each in fewer steps than there are |
| SyncLaws.ComparisonMirrors | porthmos-core/src/sync/mod.rs:148-264 | swapping the trees and the direction mirrors every item and their order |
| SyncLaws.RecomparingLeavesTheUntickedIff | porthmos-core/src/sync/mod.rs:148-264 | after carrying out every ticked item a second comparison lists exactly the unticked items renumbered, in every direction and mode, if and only if no copy got a time that makes it differ again; comparing by size any times do |
| Scan.BuildTree | porthmos-core/src/sync/scan/mod.rs:61-80 | a discovered tree is accepted if and only if all its paths are plain, none is listed twice, every parent is listed as a folder and the depth fits; the tree then holds exactly the entries |
| Scan.AncestorsAreFolders | porthmos-core/src/sync/scan/mod.rs:27-38 | in an accepted tree everything above an entry is a folder of the tree |
| Scan.CopiesAreNotBlocked | porthmos-core/src/sync/mod.rs:222-264 | for accepted trees no ticked copy has a non-folder above its target |
| Scan.PlanCanBeCarriedOut | porthmos-core/src/sync/scan/mod.rs:61-80 | for accepted trees making folders and copying the ticked files carries the plan out, so the second comparison lists what was left unticked if and only if the times the copies got do not make them differ again |
| Paths.SortedIsUnique | porthmos-core/src/sync/mod.rs:234-236 | a set of paths has one sorted list, so the order of the items is determined |
| Paths.PathLessMeans | porthmos-core/src/sync/mod.rs:234-236 | the order of paths: at the first component in which two differ the smaller name comes first, compared character by character, and a path comes before what is below it |
| FreshNames.UniqueName | porthmos-core/src/transfer/conflicts/mod.rs:38-44 | the loop ends, with the name of the least free counter, which is at most the number of taken names plus one |
| FreshNames.TakenOutnumber | porthmos-core/src/transfer/conflicts/mod.rs:38-44 | if all candidates below a counter are taken there are that many taken names |
| FreshNames.CandidatesDiffer | porthmos-core/src/transfer/conflicts/mod.rs:38-44 | different counters give different names, also where the name has an extension |
| FreshNames.CandidateKeepsTheEnding | porthmos-core/src/transfer/conflicts/mod.rs:164-169 | a candidate is the name with a space and the counter in brackets, in decimal without leading zeros, put before its ending: the text from the last dot on, unless that dot comes first |
| Conflicts.MarkConflicts | porthmos-core/src/transfer/plan/mod.rs:231-243 | in place, each file gets what its folder's listing holds under its name and, unless it is a folder, under its part name |
| Conflicts.CollectTakenNames | porthmos-core/src/transfer/plan/mod.rs:245-256 | per folder exactly the listed and the planned names |
| Conflicts.Resolve | porthmos-core/src/transfer/conflicts/mod.rs:113-150 | the k-th conflict gets the k-th answer, missing answers skip; a file is returned exactly if it is no conflict, is renamed, or is overwritten or resumed where no folder is, in input order and changed only as answered; the counters are the numbers of files skipped over a file, skipped over a part, and aimed at a folder |
| Conflicts.EveryFileIsAccountedFor | porthmos-core/src/transfer/conflicts/mod.rs:113-150 | returned files and the three counters add up to the inputs |
| Conflicts.KeptInOrder | porthmos-core/src/transfer/conflicts/mod.rs:113-150 | the returned files are the kept inputs in input order, each once |
| Conflicts.KeptFilesFollowTheirAnswers | porthmos-core/src/transfer/conflicts/mod.rs:113-162 | non-conflicts pass unchanged and others change only as answered: the resume flag, and the name within the folder for a renamed file |
| Conflicts.NothingKeptIsAimedAtAFolder | porthmos-core/src/transfer/conflicts/mod.rs:113-162 | whatever the answers, no returned file is aimed at an existing folder |
| Conflicts.RenamedDestinationsAreFree | porthmos-core/src/transfer/conflicts/mod.rs:152-162 | a renamed file's destination is not listed, not planned and not given to any other returned file |
| Conflicts.SafePoliciesOverwriteNothing | porthmos-core/src/transfer/conflicts/mod.rs:24-36 | with answers from policy Skip or Rename no returned destination is a listed name |
| Conflicts.PolicyOutcome | porthmos-core/src/transfer/conflicts/mod.rs:24-36 | what the policies come to: overwriting leaves out exactly the files aimed at a folder, skipping exactly those with something at their destination, renaming none; a part is resumed unless the file is renamed, or nothing but a part no shorter than the file is there |
| Words.SplitCommand | porthmos-core/src/edit/mod.rs:43-91 | the loop computes the splitting by recursion on the text, with its two errors |
| Words.LineIsSplit | porthmos-core/src/edit/mod.rs:43-91 | a line of words and blanks, each word of bare and escaped characters and single- and double-quoted texts, is split into the contents of its words; between double quotes a backslash escapes a double quote and a backslash and otherwise stays; a line that breaks off inside a quote or on a backslash gives that error |
| Words.EveryTextIsALine | porthmos-core/src/edit/mod.rs:43-91 | every text is such a line, complete or broken off |
| Words.SplitsAsRead | porthmos-core/src/edit/mod.rs:43-91 | for every text: splitting gives some words if and only if the text reads as a complete line of these words, and each error if and only if it reads as a line that breaks off in that way |
| Words.SplitUndoesQuote | porthmos-core/src/edit/mod.rs:43-91 | splitting the space-joined quoted words of any list gives back the list |
| Words.QuotedWordsSplitOff | porthmos-ssh/src/quote/mod.rs:1-3 | quoted words in front of any text are split off unchanged, and the text is split as it would be alone |
| Words.QuotedLineIsInjective | porthmos-ssh/src/quote/mod.rs:1-3 | two lists that print alike are the same list |

## Left out

- Queue.TransferQueue.StartableLimited: `startable` is the same call without caps; ties on the heap cannot occur because ids are unique, so the heap is a set with a least element.
- Writer.NextDue: the clock is an abstract counter that only moves forward; a task that is slow to act on its timer is the timer step coming late.
- WriterSafety.LastSubmittedIsOnDisk: runs that go on after two versions of one path were drawn at once, or after the task was dropped while it held taken jobs; what such a step loses is stated on its own.
- WriterBarrier.FlushCallIsABarrier: a flush that was dropped and finds another task running, which returns early.
- Locks.StepsAreAtomicWrites: writing the temporary file and renaming it is one succeed-or-fail step; permissions and clean-up of the temporary file are not modelled.
- Resume.FileStore.Execute: read and write errors are parameters; `open_write` truncates to the offset it reports, as porthmos-lfs/src/lib.rs:119-130 does.
- Sync.Compare: the saturating addition of times at the top of 64 bits.
- Glob.MatchFrom: lower-casing, which `glob_match` does before the loop.
- Scan.BuildTree: a path is a list of components of which some are not plain names; lossy conversion of names is not modelled.
- Conflicts.Resolve: display names are component lists.
- Walking a source tree and planning a copy (`discover_tree_into`, `plan_copy`, `parents_needing_listing`), `fits_the_rest` and `conflict_indices`: easy members beside the ones above.
- Rows for running scans (`queue_rows`), percent displays, `jobs_of`, `row` and the other plain look-ups of the queue.
- `conflict_copy_name`, `printable`, `resolve_editor` and the helpers for broken settings files.
- Network protocols, TLS, SSH sessions, the key ring, the terminal interface, settings and profiles.
- That an enabled step of the writer is eventually taken is left to the runtime.
