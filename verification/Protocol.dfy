/** Every actor of the task runtime as one state machine.

    A step is one committed write transaction, one stale read of the daemon, or
    one event of the operating system.  Workers, child wrappers, foreground
    holders, API clients and the daemon interleave freely; any process may die
    at any moment.  Process identities contain birth time and boot time in the
    source, so they are never reused: `born` remembers all of them. */
module Protocol {
  import opened Wrappers
  import opened Schema
  import opened Locks
  import opened Tasks
  import opened Runtime

  /** Where a worker process is: before its start check, after it, inside the
      executor body, after reporting its outcome. */
  datatype Phase = Launched | Registered | Executing | Reported

  datatype Role =
    | Worker(job: JobId, phase: Phase)
    | Wrapper                       // a local command waiting for admission
    | Child                         // an admitted local command
    | Foreground(base: ScopeId)     // a command line hold

  /** `open` are the scopes this process has entered and not left. */
  datatype Proc = Proc(owner: ExecId, role: Role, open: set<ScopeId>)

  datatype Reply = Reply(client: string, key: string, digest: string, job: JobId)

  datatype Sys = Sys(
    db: Db,
    procs: map<ProcId, Proc>,              // live processes
    results: set<ExecId>,                  // attempts whose result file exists
    rows: set<Row>,                        // daemon: rows read by reconcile
    stops: map<ExecId, set<ProcId>>,       // daemon: children listed by `stop`
    outbox: set<JobId>,                    // daemon: notifications marked sent, not yet delivered
    listed: map<ProcId, set<ProcId>>,      // foreground holders: children listed before leaving
    born: set<ProcId>,                     // history: all process identities
    entered: multiset<JobId>,              // history: executor bodies entered
    cancelled: set<JobId>,                 // history: cancels accepted before cancelling
    delivered: multiset<JobId>,            // history: notifications delivered
    replies: set<Reply>)                   // history: accepted submissions

  /** API clients (alphapilot/research/tasks.py). */
  datatype ClientStep =
    | SubmitNew(j: JobId, created: nat, client: string, key: string, digest: string, resources: seq<Request>)
    | Replay(j: JobId, client: string, key: string, digest: string)
    | CancelJob(j: JobId)
    | DeleteJob(j: JobId)

  /** The dispatching half of the daemon (alphapilot/research/runtime.py). */
  datatype DispatchStep =
    | ClaimJob(j: JobId, a: ExecId)
    | Launch(p: ProcId, j: JobId, a: ExecId)
    | Identify(a: ExecId, p: ProcId)
    | AskStop(j: JobId, a: ExecId, final: Status)

  /** Reconciliation: stale reads, confirmed stops, finalization. */
  datatype ReconcileStep =
    | ReadRow(j: JobId)
    | TimeoutStart(row: Row)
    | ListChildren(row: Row)
    | FinalizeRow(row: Row)
    | ListStandalone(o: ExecId)
    | ReleaseStandalone(o: ExecId)

  /** Notification delivery, and the loss of all daemon memory. */
  datatype NotifyStep =
    | TakeNotes
    | Deliver(j: JobId)
    | Restart

  datatype WorkerStep =
    | StartWorker(p: ProcId)
    | EnterBody(p: ProcId)
    | WriteResult(p: ProcId)
    | Report(p: ProcId, outcome: Status)

  /** Local commands, and the death of any process. */
  datatype ChildStep =
    | Spawn(p: ProcId, q: ProcId)
    | AdmitChild(q: ProcId)
    | Die(p: ProcId)

  /** Entering and leaving `hold` (alphapilot/research/execution.py). */
  datatype ScopeStep =
    | OpenScope(p: ProcId, scope: ScopeId, resources: seq<Request>)
    | CloseScope(p: ProcId, scope: ScopeId)
    | OpenHold(p: ProcId, o: ExecId, scope: ScopeId, resources: seq<Request>)
    | ListHold(p: ProcId)
    | CloseHold(p: ProcId)
    | AbandonHold(p: ProcId)

  datatype Step =
    | ByClient(client: ClientStep)
    | ByDispatch(dispatch: DispatchStep)
    | ByReconcile(reconcile: ReconcileStep)
    | ByNotify(notify: NotifyStep)
    | ByWorker(worker: WorkerStep)
    | ByChild(child: ChildStep)
    | ByScope(scope: ScopeStep)

  function Initial(): Sys {
    Sys(EmptyDb(), map[], {}, {}, map[], {}, map[], {}, multiset{}, {}, multiset{}, {})
  }

  /** Processes that run research code for their execution. */
  predicate Working(proc: Proc) {
    match proc.role
    case Worker(_, phase) => !phase.Launched?
    case Wrapper => false
    case Child => true
    case Foreground(_) => true
  }

  predicate Registrant(proc: Proc) {
    proc.role.Worker? && !proc.role.phase.Launched?
  }

  predicate Unsent(notes: map<JobId, Note>, j: JobId) {
    j in notes && !notes[j].sent
  }

  function AllSent(notes: map<JobId, Note>): map<JobId, Note> {
    map j | j in notes :: notes[j].(sent := true)
  }

  function ChildrenOf(db: Db, o: ExecId): set<ProcId> {
    set c | c in db.children && c.owner == o :: c.process
  }

  predicate IdentityDead(s: Sys, o: ExecId)
    requires o in s.db.execs
  {
    s.db.execs[o].identity.Some? ==> s.db.execs[o].identity.value !in s.procs
  }

  // ------------------------------------------------------------- clients

  ghost predicate ClientEnabled(limits: Limits, s: Sys, step: ClientStep) {
    match step
    case SubmitNew(j, _, client, key, _, _) => CanSubmit(s.db, limits, j, client, key)
    case Replay(j, client, key, digest) => CanReplay(s.db, j, client, key, digest)
    case CancelJob(j) => j in s.db.jobs && !s.db.jobs[j].deleted
    case DeleteJob(j) => CanDelete(s.db, j)
  }

  ghost function ClientApply(limits: Limits, s: Sys, step: ClientStep): Sys
    requires ClientEnabled(limits, s, step)
  {
    match step
    case SubmitNew(j, created, client, key, digest, resources) =>
      s.(db := Submit(s.db, j, created, client, key, digest, resources),
         replies := s.replies + {Reply(client, key, digest, j)})
    case Replay(j, client, key, digest) =>
      s.(replies := s.replies + {Reply(client, key, digest, j)})
    case CancelJob(j) =>
      s.(db := Cancel(s.db, j),
         cancelled := if s.db.jobs[j].status in {Queued, Starting, Running} then s.cancelled + {j} else s.cancelled)
    case DeleteJob(j) => s.(db := Delete(s.db, j))
  }

  // ------------------------------------------------------------ dispatch

  ghost predicate DispatchEnabled(limits: Limits, s: Sys, step: DispatchStep) {
    match step
    case ClaimJob(j, a) => CanClaim(s.db, limits, j, a)
    // However often the launcher runs for a claimed attempt, and however late.
    case Launch(p, j, a) => p !in s.born && a in s.db.execs && s.db.execs[a].job == Some(j)
    case Identify(a, p) => p in s.born && a in s.db.execs && s.db.execs[a].job.Some?
    case AskStop(_, _, final) => final == Failed || final == Lost
  }

  ghost function DispatchApply(limits: Limits, s: Sys, step: DispatchStep): Sys
    requires DispatchEnabled(limits, s, step)
  {
    match step
    case ClaimJob(j, a) => s.(db := Claim(s.db, j, a))
    case Launch(p, j, a) =>
      s.(procs := s.procs[p := Proc(a, Worker(j, Launched), {})], born := s.born + {p})
    case Identify(a, p) => s.(db := RecordIdentity(s.db, a, p))
    case AskStop(j, a, final) => s.(db := RequestStop(s.db, j, a, final))
  }

  // ----------------------------------------------------------- reconcile

  ghost predicate ReconcileEnabled(s: Sys, step: ReconcileStep) {
    match step
    case ReadRow(j) => j in s.db.jobs && InFlight(s.db.jobs[j].status) && s.db.jobs[j].attempt.Some?
    case TimeoutStart(row) => row in s.rows && row.status.Starting?
    // stop(): the recorded process is gone, then the registered children are read.
    case ListChildren(row) =>
      row in s.rows && !row.status.Starting? && row.attempt in s.db.execs && IdentityDead(s, row.attempt)
    // The stop was confirmed: every listed child is gone.
    case FinalizeRow(row) =>
      && row in s.rows && !row.status.Starting? && row.attempt in s.db.execs
      && row.attempt in s.stops && s.stops[row.attempt] !! s.procs.Keys
    case ListStandalone(o) =>
      && o in s.db.execs && s.db.execs[o].job.None? && !s.db.execs[o].finished
      && (o in s.db.cleanup || IdentityDead(s, o))
    case ReleaseStandalone(o) =>
      o in s.db.execs && s.db.execs[o].job.None? && o in s.stops && s.stops[o] !! s.procs.Keys
  }

  ghost function ReconcileApply(s: Sys, step: ReconcileStep): Sys
    requires ReconcileEnabled(s, step)
  {
    match step
    case ReadRow(j) => s.(rows := s.rows + {RowOf(s.db, j)})
    case TimeoutStart(row) => s.(db := StartTimeout(s.db, row))
    case ListChildren(row) => s.(stops := s.stops[row.attempt := ChildrenOf(s.db, row.attempt)])
    case FinalizeRow(row) =>
      s.(db := Finalize(s.db, s.results, row.job, row.attempt, RowFinal(row), RowCompletion(row)))
    case ListStandalone(o) => s.(stops := s.stops[o := ChildrenOf(s.db, o)])
    case ReleaseStandalone(o) => s.(db := Released(s.db, o))
  }

  // -------------------------------------------------------------- notify

  predicate NotifyEnabled(s: Sys, step: NotifyStep) {
    step.Deliver? ==> step.j in s.outbox
  }

  ghost function NotifyApply(s: Sys, step: NotifyStep): Sys
    requires NotifyEnabled(s, step)
  {
    match step
    case TakeNotes =>
      s.(db := s.db.(notes := AllSent(s.db.notes)),
         outbox := s.outbox + set j | j in s.db.notes && Unsent(s.db.notes, j))
    case Deliver(j) => s.(outbox := s.outbox - {j}, delivered := s.delivered + multiset{j})
    case Restart => s.(rows := {}, stops := map[], outbox := {})
  }

  // ------------------------------------------------------------- workers

  predicate InPhase(s: Sys, p: ProcId, phase: Phase) {
    p in s.procs && s.procs[p].role.Worker? && s.procs[p].role.phase == phase
  }

  predicate WorkerEnabled(s: Sys, step: WorkerStep) {
    match step
    case StartWorker(p) => InPhase(s, p, Launched) && s.procs[p].owner in s.db.execs
    case EnterBody(p) => InPhase(s, p, Registered)
    case WriteResult(p) => InPhase(s, p, Executing)
    case Report(p, outcome) =>
      InPhase(s, p, Executing) && (outcome == Failed || (outcome == Succeeded && s.procs[p].owner in s.results))
  }

  function WithPhase(proc: Proc, phase: Phase): Proc
    requires proc.role.Worker?
  {
    proc.(role := Worker(proc.role.job, phase))
  }

  ghost function WorkerApply(s: Sys, step: WorkerStep): Sys
    requires WorkerEnabled(s, step)
  {
    match step
    case StartWorker(p) =>
      var proc := s.procs[p];
      if CanStart(s.db, proc.role.job, proc.owner)
      then s.(db := WorkerStart(s.db, proc.role.job, proc.owner, p), procs := s.procs[p := WithPhase(proc, Registered)])
      else s.(procs := s.procs - {p})
    case EnterBody(p) =>
      s.(procs := s.procs[p := WithPhase(s.procs[p], Executing)],
         entered := s.entered + multiset{s.procs[p].role.job})
    case WriteResult(p) => s.(results := s.results + {s.procs[p].owner})
    case Report(p, outcome) =>
      s.(db := WorkerComplete(s.db, s.procs[p].role.job, s.procs[p].owner, outcome),
         procs := s.procs[p := WithPhase(s.procs[p], Reported)])
  }

  // ------------------------------------------------------------ children

  predicate ChildEnabled(s: Sys, step: ChildStep) {
    match step
    case Spawn(p, q) => p in s.procs && Working(s.procs[p]) && q !in s.born
    case AdmitChild(q) => q in s.procs && s.procs[q].role.Wrapper?
    case Die(p) => p in s.procs
  }

  ghost function ChildApply(s: Sys, step: ChildStep): Sys
    requires ChildEnabled(s, step)
  {
    match step
    case Spawn(p, q) =>
      s.(procs := s.procs[q := Proc(s.procs[p].owner, Wrapper, {})], born := s.born + {q})
    case AdmitChild(q) =>
      var proc := s.procs[q];
      if CanAdmit(s.db, s.procs.Keys, proc.owner)
      then s.(db := Admit(s.db, proc.owner, q), procs := s.procs[q := proc.(role := Child)])
      else s.(procs := s.procs - {q})
    case Die(p) => s.(procs := s.procs - {p})
  }

  // -------------------------------------------------------------- scopes

  predicate AtBase(s: Sys, p: ProcId) {
    p in s.procs && s.procs[p].role.Foreground? && s.procs[p].open == {s.procs[p].role.base}
  }

  ghost predicate ScopeEnabled(s: Sys, step: ScopeStep) {
    match step
    case OpenScope(p, scope, resources) =>
      p in s.procs && Working(s.procs[p]) && CanOpen(s.db, s.procs[p].owner, scope, resources)
    case CloseScope(p, scope) =>
      && p in s.procs && Working(s.procs[p]) && scope in s.procs[p].open && s.procs[p].owner in s.db.execs
      && (s.procs[p].role.Foreground? ==> scope != s.procs[p].role.base)
    case OpenHold(p, o, scope, resources) =>
      p !in s.born && o !in s.db.execs && scope !in s.db.scopes && !Blocked(s.db.locks, o, Merged(Items(resources)))
    case ListHold(p) => AtBase(s, p)
    // The holder stopped its children first: every child it listed is gone.
    case CloseHold(p) =>
      AtBase(s, p) && s.procs[p].owner in s.db.execs && p in s.listed && s.listed[p] !! s.procs.Keys
    // The hold could not confirm that its children stopped: its locks stay.
    case AbandonHold(p) => AtBase(s, p)
  }

  ghost function ScopeApply(s: Sys, step: ScopeStep): Sys
    requires ScopeEnabled(s, step)
  {
    match step
    case OpenScope(p, scope, resources) =>
      s.(db := Open(s.db, s.procs[p].owner, scope, resources),
         procs := s.procs[p := s.procs[p].(open := s.procs[p].open + {scope})])
    case CloseScope(p, scope) =>
      s.(db := Close(s.db, s.procs[p].owner, scope, true),
         procs := s.procs[p := s.procs[p].(open := s.procs[p].open - {scope})])
    case OpenHold(p, o, scope, resources) =>
      s.(db := OpenForeground(s.db, o, p, scope, resources),
         procs := s.procs[p := Proc(o, Foreground(scope), {scope})], born := s.born + {p})
    case ListHold(p) => s.(listed := s.listed[p := ChildrenOf(s.db, s.procs[p].owner)])
    case CloseHold(p) =>
      s.(db := Close(s.db, s.procs[p].owner, s.procs[p].role.base, false), procs := s.procs - {p})
    case AbandonHold(p) =>
      s.(db := s.db.(cleanup := s.db.cleanup + {s.procs[p].owner}), procs := s.procs - {p})
  }

  // ---------------------------------------------------------------- runs

  ghost predicate Enabled(limits: Limits, s: Sys, step: Step) {
    match step
    case ByClient(c) => ClientEnabled(limits, s, c)
    case ByDispatch(d) => DispatchEnabled(limits, s, d)
    case ByReconcile(r) => ReconcileEnabled(s, r)
    case ByNotify(n) => NotifyEnabled(s, n)
    case ByWorker(w) => WorkerEnabled(s, w)
    case ByChild(k) => ChildEnabled(s, k)
    case ByScope(h) => ScopeEnabled(s, h)
  }

  ghost function Apply(limits: Limits, s: Sys, step: Step): Sys
    requires Enabled(limits, s, step)
  {
    match step
    case ByClient(c) => ClientApply(limits, s, c)
    case ByDispatch(d) => DispatchApply(limits, s, d)
    case ByReconcile(r) => ReconcileApply(s, r)
    case ByNotify(n) => NotifyApply(s, n)
    case ByWorker(w) => WorkerApply(s, w)
    case ByChild(k) => ChildApply(s, k)
    case ByScope(h) => ScopeApply(s, h)
  }

  /** A run: any finite sequence of enabled steps from the empty store. */
  ghost predicate IsRun(limits: Limits, run: seq<Sys>, steps: seq<Step>) {
    && |run| == |steps| + 1 && run[0] == Initial()
    && forall i :: 0 <= i < |steps| ==>
         Enabled(limits, run[i], steps[i]) && run[i + 1] == Apply(limits, run[i], steps[i])
  }
}
