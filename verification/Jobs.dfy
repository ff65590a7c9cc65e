/** Transfer jobs (porthmos-core/src/transfer/job.rs). */
module Jobs {
  import opened Ordered

  datatype Direction = Upload | Download

  datatype JobStatus = Queued | InProgress | Completed | Failed(reason: string) | Cancelled

  datatype Destination = Local(path: string) | Remote(session: nat, remote: string)

  datatype Job = Job(
    id: nat,
    session: nat,
    direction: Direction,
    localPath: string,
    remotePath: string,
    displayName: string,
    totalBytes: nat,
    transferredBytes: nat,
    status: JobStatus,
    attempts: nat,
    batchId: Option<nat>,
    resume: bool,
    modified: Option<nat>)
  {
    function Destination(): Destination {
      match direction
      case Upload => Remote(session, remotePath)
      case Download => Local(localPath)
    }

    /** Still queued or running, so its session is still needed. */
    predicate IsPending() {
      status.Queued? || status.InProgress?
    }
  }

  type JobMap = map<nat, Job>

  ghost function RunningIds(jobs: JobMap): set<nat> {
    set id | id in jobs && jobs[id].status.InProgress?
  }

  ghost function QueuedIds(jobs: JobMap): set<nat> {
    set id | id in jobs && jobs[id].status.Queued?
  }
}
