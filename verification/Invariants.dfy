/** What holds in every reachable state of the protocol. */
module Invariants {
  import opened Wrappers
  import opened Schema
  import opened Locks
  import opened Tasks
  import opened Runtime
  import opened Protocol

  /** What an execution is entitled to hold: its declared resources while it is
      unfinished, and the requests of its open scopes. */
  ghost function Wants(db: Db, o: ExecId): set<Request>
    requires o in db.execs
  {
    (if db.execs[o].finished then {} else Items(db.execs[o].resources)) + ScopeWants(db.scopes, o)
  }

  ghost predicate JobOk(db: Db, j: JobId)
    requires j in db.jobs
  {
    var job := db.jobs[j];
    && (job.status.Queued? ==> job.attempt.None?)
    && (InFlight(job.status) ==>
          job.attempt.Some? && job.attempt.value in db.execs && !db.execs[job.attempt.value].finished)
    && (job.attempt.Some? ==>
          job.attempt.value in db.execs && db.execs[job.attempt.value].job == Some(j)
          && db.execs[job.attempt.value].resources == job.resources)
    && (job.status.Running? ==> db.execs[job.attempt.value].identity.Some?)
    && (job.stopFinal.Some? ==> job.status.Cancelling? && job.stopFinal.value in {Queued, Failed, Lost})
    && (job.completion.Some? ==> job.status in {Running, Cancelling} && job.completion.value in {Succeeded, Failed})
    && (job.deleted ==> Terminal(job.status))
  }

  ghost predicate JobsOk(db: Db) {
    forall j :: j in db.jobs ==> JobOk(db, j)
  }

  ghost predicate ExecOk(s: Sys, a: ExecId)
    requires a in s.db.execs
  {
    var exec := s.db.execs[a];
    && (exec.identity.Some? ==> exec.identity.value in s.born)
    && (exec.job.None? ==> exec.resources == [])
    && (exec.job.Some? ==> exec.job.value in s.db.jobs)
    && (exec.job.Some? && !exec.finished ==>
          Current(s.db, exec.job.value, a) && InFlight(s.db.jobs[exec.job.value].status))
    && (exec.job.Some? && exec.finished ==> ScopesClosed(s.db, a))
  }

  ghost predicate ScopesClosed(db: Db, a: ExecId) {
    forall sc :: sc in db.scopes ==> db.scopes[sc].owner != a
  }

  ghost predicate ExecsOk(s: Sys) {
    && (forall a :: a in s.db.execs ==> ExecOk(s, a))
    && s.db.cleanup <= s.db.execs.Keys
  }

  ghost predicate LocksOk(db: Db) {
    && Compatible(db.locks)
    && db.locks.Keys <= db.execs.Keys
    && (forall sc :: sc in db.scopes ==> db.scopes[sc].owner in db.execs)
    && (forall o :: o in db.execs ==> IsJoin(Held(db.locks, o), Wants(db, o)))
  }

  ghost predicate RoleOk(s: Sys, p: ProcId)
    requires p in s.procs && s.procs[p].owner in s.db.execs
  {
    var proc := s.procs[p];
    var exec := s.db.execs[proc.owner];
    match proc.role
    case Worker(j, phase) =>
      && exec.job == Some(j)
      && (phase.Launched? ==> proc.open == {})
      && (!phase.Launched? ==> exec.identity == Some(p) && !exec.finished && PastStart(s.db, j, proc.owner))
    case Wrapper => proc.open == {}
    case Child => ChildRow(proc.owner, p) in s.db.children && (exec.job.Some? ==> !exec.finished)
    case Foreground(base) =>
      exec.job.None? && exec.identity == Some(p) && !exec.finished && proc.owner !in s.db.cleanup && base in proc.open
  }

  /** Once attempt `a` has left `starting` it never returns to it. */
  ghost predicate PastStart(db: Db, j: JobId, a: ExecId) {
    Current(db, j, a) ==> !db.jobs[j].status.Starting?
  }

  ghost predicate ProcOk(s: Sys, p: ProcId)
    requires p in s.procs
  {
    && p in s.born && s.procs[p].owner in s.db.execs && RoleOk(s, p)
    && (forall sc :: sc in s.procs[p].open ==> sc in s.db.scopes && s.db.scopes[sc].owner == s.procs[p].owner)
  }

  ghost predicate ProcsOk(s: Sys) {
    forall p :: p in s.procs ==> ProcOk(s, p)
  }

  /** A scope is entered and left by one process. */
  ghost predicate OpenOk(s: Sys) {
    && (forall p, q :: p in s.procs && q in s.procs && p != q ==> s.procs[p].open !! s.procs[q].open)
    && (forall p, sc :: p in s.procs && sc in s.procs[p].open ==> sc in s.db.scopes)
  }

  ghost predicate RowOk(s: Sys, row: Row) {
    && row.job in s.db.jobs && row.attempt in s.db.execs && s.db.execs[row.attempt].job == Some(row.job)
    && InFlight(row.status)
    && (row.status.Starting? ==> row.completion.None?)
    && (!row.status.Starting? ==> PastStart(s.db, row.job, row.attempt))
    && (row.status.Cancelling? && Current(s.db, row.job, row.attempt) ==> !s.db.jobs[row.job].status.Running?)
    && (row.completion.Some? ==> row.completion.value in {Succeeded, Failed})
  }

  ghost predicate RowsOk(s: Sys) {
    forall row :: row in s.rows ==> RowOk(s, row)
  }

  /** Nothing of execution `o` can come to life any more: its own process is
      gone, it can neither start nor admit, and its children were all listed. */
  ghost predicate StopOk(s: Sys, o: ExecId)
    requires o in s.stops
  {
    && o in s.db.execs
    && (forall p :: p in s.procs && s.procs[p].owner == o ==> !Registrant(s.procs[p]) && !s.procs[p].role.Foreground?)
    && ChildrenOf(s.db, o) <= s.stops[o]
    && (s.db.execs[o].job.None? ==> o in s.db.cleanup || IdentityDead(s, o))
    && (s.db.execs[o].job.Some? ==>
          && PastStart(s.db, s.db.execs[o].job.value, o)
          && (Current(s.db, s.db.execs[o].job.value, o) && s.db.jobs[s.db.execs[o].job.value].status.Running? ==>
                IdentityDead(s, o)))
  }

  ghost predicate StopsOk(s: Sys) {
    forall o :: o in s.stops ==> StopOk(s, o)
  }

  ghost predicate EntryOk(s: Sys) {
    && (forall j :: s.entered[j] <= 1)
    && (forall j :: j !in s.db.jobs ==> s.entered[j] == 0)
    && (forall j :: j in s.db.jobs && NotEntered(s.db.jobs[j]) ==> s.entered[j] == 0)
    && (forall p :: p in s.procs && Registrant(s.procs[p]) ==> EnteredOk(s, p))
  }

  /** A worker that passed the start check has decided its job's fate: the job
      can no longer be requeued, and its body is entered at most by this worker. */
  predicate EnteredOk(s: Sys, p: ProcId)
    requires p in s.procs && Registrant(s.procs[p])
  {
    && (s.procs[p].role.phase.Registered? ==> s.entered[s.procs[p].role.job] == 0)
    && s.procs[p].role.job in s.db.jobs && !NotEntered(s.db.jobs[s.procs[p].role.job])
  }

  /** The statuses from which a job may still go back to the queue. */
  predicate NotEntered(job: Job) {
    job.status.Queued? || job.status.Starting? || (job.status.Cancelling? && job.stopFinal == Some(Queued))
  }

  ghost predicate CancelOk(s: Sys) {
    forall j :: j in s.cancelled ==> j in s.db.jobs && CancelSticks(s.db.jobs[j])
  }

  predicate CancelSticks(job: Job) {
    job.status.Cancelled? || (job.status.Cancelling? && job.stopFinal.None?)
  }

  ghost predicate NotesOk(db: Db) {
    && (forall j :: j in db.notes ==> j in db.jobs)
    && (forall j :: j in db.jobs ==> (j in db.notes <==> Terminal(db.jobs[j].status)))
    && (forall j :: j in db.notes ==> db.notes[j].status == db.jobs[j].status)
  }

  ghost predicate DeliveryOk(s: Sys) {
    && (forall j :: s.delivered[j] <= 1)
    && (forall j :: s.delivered[j] > 0 || j in s.outbox ==> j in s.db.notes && s.db.notes[j].sent)
    && (forall j :: j in s.outbox ==> s.delivered[j] == 0)
  }

  ghost predicate KeysOk(s: Sys) {
    && (forall j, k :: j in s.db.jobs && k in s.db.jobs && j != k ==>
          !SameKey(s.db.jobs[j], s.db.jobs[k].client, s.db.jobs[k].key))
    && (forall reply :: reply in s.replies ==> ReplyOk(s.db, reply))
  }

  predicate ReplyOk(db: Db, reply: Reply) {
    && reply.job in db.jobs && SameKey(db.jobs[reply.job], reply.client, reply.key)
    && db.jobs[reply.job].digest == reply.digest
  }

  /** A succeeded job shows the existing result file of its own last attempt. */
  predicate ResultOk(s: Sys, j: JobId)
    requires j in s.db.jobs
  {
    var job := s.db.jobs[j];
    && (job.status.Succeeded? ==> job.published.Some?)
    && (job.published.Some? ==>
          Terminal(job.status) && job.published == job.attempt && job.published.value in s.results)
  }

  ghost predicate ResultsOk(s: Sys) {
    forall j :: j in s.db.jobs ==> ResultOk(s, j)
  }

  /** A worker past the start check that has not reported leaves no outcome. */
  predicate Unreported(s: Sys, p: ProcId)
    requires p in s.procs && Registrant(s.procs[p])
  {
    var proc := s.procs[p];
    !proc.role.phase.Reported? && Current(s.db, proc.role.job, proc.owner) ==>
      s.db.jobs[proc.role.job].completion.None?
  }

  /** An outcome the daemon has read is the outcome of the attempt while it runs. */
  predicate ReadOutcome(s: Sys, row: Row) {
    row.completion.Some? && Current(s.db, row.job, row.attempt) ==>
      && !s.db.jobs[row.job].status.Starting?
      && (s.db.jobs[row.job].status.Running? ==> s.db.jobs[row.job].completion == row.completion)
  }

  /** A reported success has its file. */
  predicate SuccessStaged(s: Sys, j: JobId)
    requires j in s.db.jobs
  {
    s.db.jobs[j].status.Running? && s.db.jobs[j].completion == Some(Succeeded) ==>
      s.db.jobs[j].attempt.Some? && s.db.jobs[j].attempt.value in s.results
  }

  ghost predicate CompletionsOk(s: Sys) {
    && (forall p :: p in s.procs && Registrant(s.procs[p]) ==> Unreported(s, p))
    && (forall row :: row in s.rows ==> ReadOutcome(s, row))
    && (forall j :: j in s.db.jobs ==> SuccessStaged(s, j))
  }

  ghost predicate CapacityOk(limits: Limits, db: Db) {
    && |ActiveJobs(db.jobs)| <= limits.maxRunning
    && |QueuedJobs(db.jobs)| + |ActiveJobs(db.jobs)| <= limits.maxQueued + limits.maxRunning
  }

  ghost predicate Inv(limits: Limits, s: Sys) {
    && JobsOk(s.db) && ExecsOk(s) && LocksOk(s.db)
    && ProcsOk(s) && OpenOk(s) && RowsOk(s) && StopsOk(s)
    && EntryOk(s) && CancelOk(s) && NotesOk(s.db) && DeliveryOk(s)
    && KeysOk(s) && ResultsOk(s) && CompletionsOk(s) && CapacityOk(limits, s.db)
  }
}
