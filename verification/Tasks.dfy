/** The write transactions of task admission (alphapilot/research/tasks.py). */
module Tasks {
  import opened Wrappers
  import opened Schema

  /** `max_queued` and `max_running` after the source's `max(1, ...)`. */
  datatype Limits = Limits(maxQueued: nat, maxRunning: nat)

  predicate SameKey(job: Job, client: string, key: string) {
    job.client == client && job.key == key
  }

  /** The row that the UNIQUE(client_id, idem_key) lookup would return. */
  ghost predicate KeyTaken(jobs: map<JobId, Job>, client: string, key: string) {
    exists j :: j in jobs && SameKey(jobs[j], client, key)
  }

  function NewJob(created: nat, client: string, key: string, digest: string, resources: seq<Request>): Job {
    Job(Queued, created, client, key, digest, resources, None, None, None, None, false)
  }

  /** The insert of `submit`, once the key is free and the queue has room. */
  function Submit(db: Db, j: JobId, created: nat, client: string, key: string, digest: string,
                  resources: seq<Request>): Db {
    db.(jobs := db.jobs[j := NewJob(created, client, key, digest, resources)])
  }

  ghost predicate CanSubmit(db: Db, limits: Limits, j: JobId, client: string, key: string) {
    j !in db.jobs && !KeyTaken(db.jobs, client, key) && |QueuedJobs(db.jobs)| < limits.maxQueued
  }

  /** `_replay`: same request under a used key, original not deleted. */
  predicate CanReplay(db: Db, j: JobId, client: string, key: string, digest: string) {
    j in db.jobs && SameKey(db.jobs[j], client, key) && db.jobs[j].digest == digest && !db.jobs[j].deleted
  }

  /** INSERT OR IGNORE of the notification row. */
  function WithNote(notes: map<JobId, Note>, j: JobId, status: Status): map<JobId, Note> {
    if j in notes then notes else notes[j := Note(status, false)]
  }

  /** `cancel`: a queued job is finished on the spot, a running one is only
      marked; a terminal job is left alone. */
  function Cancel(db: Db, j: JobId): Db
    requires j in db.jobs
  {
    var job := db.jobs[j];
    if Terminal(job.status) then db
    else if job.status.Queued? then
      db.(jobs := db.jobs[j := job.(status := Cancelled)], notes := WithNote(db.notes, j, Cancelled))
    else
      db.(jobs := db.jobs[j := job.(status := Cancelling)])
  }

  ghost predicate CanDelete(db: Db, j: JobId) {
    && j in db.jobs && !db.jobs[j].deleted && Terminal(db.jobs[j].status)
    && !exists a :: a in db.execs && db.execs[a].job == Some(j) && !db.execs[a].finished
  }

  /** `delete` hides the job; the row and its idempotency key stay. */
  function Delete(db: Db, j: JobId): Db
    requires j in db.jobs
  {
    db.(jobs := db.jobs[j := db.jobs[j].(deleted := true)])
  }
}
