/** The rows of the research store (alphapilot/research/store.py) that the task
    runtime reads and writes.  One map per table; `Db` is one committed database
    state.  Identifiers are uuids in the source, so natural numbers here.
    JSON columns keep only the fields the runtime decides on. */
module Schema {
  import opened Wrappers

  type JobId = nat
  type ExecId = nat
  type ScopeId = nat
  type ProcId = nat

  datatype Mode = Read | Write

  /** One `{"resource": ..., "mode": ...}` item of a resource list. */
  datatype Request = Request(resource: string, mode: Mode)

  datatype Status = Queued | Starting | Running | Cancelling | Succeeded | Failed | Cancelled | Lost

  predicate Terminal(s: Status) {
    s.Succeeded? || s.Failed? || s.Cancelled? || s.Lost?
  }

  /** The statuses that count against the running capacity and keep locks. */
  predicate InFlight(s: Status) {
    s.Starting? || s.Running? || s.Cancelling?
  }

  /** A row of `jobs`.  `completion`, `stopFinal` and `published` are fields of
      the `execution` column, `deleted` is the tombstone mark of the payload. */
  datatype Job = Job(
    status: Status,
    created: nat,
    client: string,
    key: string,
    digest: string,
    resources: seq<Request>,
    attempt: Option<ExecId>,
    completion: Option<Status>,
    stopFinal: Option<Status>,
    published: Option<ExecId>,
    deleted: bool)

  /** A row of `executions`; `job` is absent for a foreground CLI execution. */
  datatype Execution = Execution(
    job: Option<JobId>,
    identity: Option<ProcId>,
    resources: seq<Request>,
    finished: bool)

  datatype Scope = Scope(owner: ExecId, resources: seq<Request>)

  datatype ChildRow = ChildRow(owner: ExecId, process: ProcId)

  datatype Note = Note(status: Status, sent: bool)

  /** Lock rows are grouped by owner; an owner without an entry has no rows. */
  type LockTable = map<ExecId, map<string, Mode>>

  datatype Db = Db(
    jobs: map<JobId, Job>,
    execs: map<ExecId, Execution>,
    locks: LockTable,
    scopes: map<ScopeId, Scope>,
    children: set<ChildRow>,
    notes: map<JobId, Note>,
    cleanup: set<ExecId>)

  function EmptyDb(): Db {
    Db(map[], map[], map[], map[], {}, map[], {})
  }

  function Items(requests: seq<Request>): set<Request> {
    set q | q in requests
  }

  function JobsWith(jobs: map<JobId, Job>, which: set<Status>): set<JobId> {
    set j | j in jobs && jobs[j].status in which
  }

  function QueuedJobs(jobs: map<JobId, Job>): set<JobId> {
    JobsWith(jobs, {Queued})
  }

  function ActiveJobs(jobs: map<JobId, Job>): set<JobId> {
    JobsWith(jobs, {Starting, Running, Cancelling})
  }
}
