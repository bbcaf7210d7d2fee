/** The write transactions of the daemon and of its workers
    (alphapilot/research/runtime.py, alphapilot/research/process.py) and of the
    lock scopes (alphapilot/research/execution.py). */
module Runtime {
  import opened Wrappers
  import opened Schema
  import opened Locks
  import opened Tasks

  // ---------------------------------------------------------------- claim

  /** Queue order: oldest first, ties by id. */
  predicate Before(jobs: map<JobId, Job>, j: JobId, k: JobId)
    requires j in jobs && k in jobs
  {
    jobs[j].created < jobs[k].created || (jobs[j].created == jobs[k].created && j <= k)
  }

  ghost predicate FirstQueued(jobs: map<JobId, Job>, j: JobId) {
    && j in jobs && jobs[j].status.Queued?
    && forall k :: k in jobs && jobs[k].status.Queued? ==> Before(jobs, j, k)
  }

  ghost predicate CanClaim(db: Db, limits: Limits, j: JobId, a: ExecId) {
    && |ActiveJobs(db.jobs)| < limits.maxRunning
    && FirstQueued(db.jobs, j)
    && a !in db.execs
    && !Blocked(db.locks, a, Merged(Items(db.jobs[j].resources)))
  }

  function Claim(db: Db, j: JobId, a: ExecId): Db
    requires j in db.jobs
  {
    var job := db.jobs[j];
    db.(jobs := db.jobs[j := job.(status := Starting, attempt := Some(a))],
        execs := db.execs[a := Execution(Some(j), None, job.resources, false)],
        locks := Granted(db.locks, a, Items(job.resources)))
  }

  /** The launcher fills in the worker's identity unless the worker already did. */
  function RecordIdentity(db: Db, a: ExecId, p: ProcId): Db {
    if a in db.execs && db.execs[a].identity.None?
    then db.(execs := db.execs[a := db.execs[a].(identity := Some(p))]) else db
  }

  // ------------------------------------------------------------ stopping

  predicate Current(db: Db, j: JobId, a: ExecId) {
    j in db.jobs && db.jobs[j].attempt == Some(a)
  }

  /** `_request_stop`: the first reason to stop wins. */
  function RequestStop(db: Db, j: JobId, a: ExecId, final: Status): Db {
    if !Current(db, j, a) || Terminal(db.jobs[j].status) then db
    else
      var job := db.jobs[j];
      db.(jobs := db.jobs[j := job.(status := Cancelling,
                                    stopFinal := if job.status.Cancelling? then job.stopFinal else Some(final))])
  }

  /** A row of the reconcile query; it may be stale when it is used. */
  datatype Row = Row(job: JobId, attempt: ExecId, status: Status, completion: Option<Status>, stopFinal: Option<Status>)

  function RowOf(db: Db, j: JobId): Row
    requires j in db.jobs && db.jobs[j].attempt.Some?
  {
    var job := db.jobs[j];
    Row(j, job.attempt.value, job.status, job.completion, job.stopFinal)
  }

  /** A start that took too long is invalidated before cleanup.  The `execution`
      column is written back from the row read earlier. */
  function StartTimeout(db: Db, row: Row): Db {
    if !Current(db, row.job, row.attempt) || !db.jobs[row.job].status.Starting? then db
    else
      var job := db.jobs[row.job];
      var next := job.(status := Cancelling, completion := row.completion, stopFinal := Some(Queued));
      db.(jobs := db.jobs[row.job := next])
  }

  // ------------------------------------------------------------ finalize

  function RowFinal(row: Row): Status {
    if row.status.Cancelling? then (if row.stopFinal.Some? then row.stopFinal.value else Cancelled)
    else if row.completion.Some? then row.completion.value else Lost
  }

  function RowCompletion(row: Row): Option<Status> {
    if row.status.Cancelling? then None else row.completion
  }

  /** finalize returns False and changes nothing. */
  predicate FinalizeRefused(db: Db, j: JobId, a: ExecId, final: Status) {
    || !Current(db, j, a) || Terminal(db.jobs[j].status)
    || (db.jobs[j].status.Cancelling? && final !in {Cancelled, Queued, Lost, Failed})
  }

  /** The status finalize writes, given what the daemon asked for. */
  function FinalStatus(job: Job, final: Status, completion: Option<Status>, staged: bool): Status {
    if job.status.Cancelling? then (if job.stopFinal.Some? then job.stopFinal.value else Cancelled)
    else if completion == Some(Succeeded) && !staged then Failed
    else final
  }

  /** A result reference is published only with a completion and an existing file. */
  function Publishes(job: Job, completion: Option<Status>, staged: bool): bool {
    !job.status.Cancelling? && completion.Some? && staged
  }

  function FinalJob(job: Job, a: ExecId, final: Status, completion: Option<Status>, staged: bool): Job {
    var status := FinalStatus(job, final, completion, staged);
    job.(status := status,
         attempt := if status.Queued? then None else Some(a),
         published := if Publishes(job, completion, staged) then Some(a) else job.published,
         completion := None,
         stopFinal := None)
  }

  function ScopesWithout(scopes: map<ScopeId, Scope>, owner: ExecId): map<ScopeId, Scope> {
    map s | s in scopes && scopes[s].owner != owner :: scopes[s]
  }

  /** Drop every lock and scope row of an owner and mark its execution finished. */
  function Released(db: Db, owner: ExecId): Db
    requires owner in db.execs
  {
    db.(locks := db.locks - {owner},
        scopes := ScopesWithout(db.scopes, owner),
        execs := db.execs[owner := db.execs[owner].(finished := true)])
  }

  function Finalize(db: Db, staged: set<ExecId>, j: JobId, a: ExecId, final: Status, completion: Option<Status>): Db
    requires a in db.execs
  {
    if FinalizeRefused(db, j, a, final) then db
    else
      var job := FinalJob(db.jobs[j], a, final, completion, a in staged);
      Released(db, a).(jobs := db.jobs[j := job],
                       notes := if job.status.Queued? then db.notes else WithNote(db.notes, j, job.status))
  }

  // ------------------------------------------------------------- worker

  predicate CanStart(db: Db, j: JobId, a: ExecId) {
    Current(db, j, a) && db.jobs[j].status.Starting?
  }

  /** The worker's compare-and-set: only the current starting attempt may run. */
  function WorkerStart(db: Db, j: JobId, a: ExecId, p: ProcId): Db
    requires CanStart(db, j, a) && a in db.execs
  {
    db.(jobs := db.jobs[j := db.jobs[j].(status := Running)],
        execs := db.execs[a := db.execs[a].(identity := Some(p))])
  }

  /** The worker reports its outcome; only the running current attempt may. */
  function WorkerComplete(db: Db, j: JobId, a: ExecId, outcome: Status): Db {
    if Current(db, j, a) && db.jobs[j].status.Running?
    then db.(jobs := db.jobs[j := db.jobs[j].(completion := Some(outcome))]) else db
  }

  // ------------------------------------------------------ child admission

  /** The check made before a local command may replace its wrapper. */
  predicate CanAdmit(db: Db, live: set<ProcId>, owner: ExecId) {
    && owner !in db.cleanup
    && owner in db.execs && !db.execs[owner].finished
    && db.execs[owner].identity.Some? && db.execs[owner].identity.value in live
    && (db.execs[owner].job.Some? ==>
          Current(db, db.execs[owner].job.value, owner) && db.jobs[db.execs[owner].job.value].status.Running?)
  }

  function Admit(db: Db, owner: ExecId, p: ProcId): Db {
    db.(children := db.children + {ChildRow(owner, p)})
  }

  // --------------------------------------------------------- lock scopes

  /** What the scope rows of an owner ask for. */
  function ScopeWants(scopes: map<ScopeId, Scope>, owner: ExecId): set<Request> {
    set s, q | s in scopes && scopes[s].owner == owner && q in scopes[s].resources :: q
  }

  /** `hold` entered inside an execution. */
  ghost predicate CanOpen(db: Db, owner: ExecId, scope: ScopeId, resources: seq<Request>) {
    && owner in db.execs && !db.execs[owner].finished
    && scope !in db.scopes
    && !Blocked(db.locks, owner, Merged(Items(resources)))
  }

  function Open(db: Db, owner: ExecId, scope: ScopeId, resources: seq<Request>): Db {
    db.(locks := Granted(db.locks, owner, Items(resources)),
        scopes := db.scopes[scope := Scope(owner, resources)])
  }

  /** `hold` entered from the command line: it also creates its execution. */
  function OpenForeground(db: Db, owner: ExecId, p: ProcId, scope: ScopeId, resources: seq<Request>): Db {
    Open(db.(execs := db.execs[owner := Execution(None, Some(p), [], false)]), owner, scope, resources)
  }

  /** `hold` left: forget the scope, drop all rows of the owner, ask again for
      the rest.  The result of that second acquire is ignored. */
  ghost function Close(db: Db, owner: ExecId, scope: ScopeId, nested: bool): Db
    requires owner in db.execs
  {
    var rest := db.scopes - {scope};
    var base := if nested then Items(db.execs[owner].resources) else {};
    var keep := base + ScopeWants(rest, owner);
    db.(scopes := rest,
        locks := Acquire(db.locks - {owner}, owner, keep),
        execs := if nested then db.execs else db.execs[owner := db.execs[owner].(finished := true)])
  }
}
