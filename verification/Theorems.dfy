/** What the runtime promises, over all runs. */
module Theorems {
  import opened Wrappers
  import opened Schema
  import opened Locks
  import opened Tasks
  import opened Runtime
  import opened Protocol
  import opened Invariants
  import opened JobMoves
  import opened Preservation
  import opened Inductive

  // ----------------------------------------------------- mutual exclusion

  /** Execution `o` is relying on request `q` right now: it is the attempt of an
      in-flight job that declared `q`, or one of its live processes is inside a
      scope that asked for `q`. */
  ghost predicate Relies(s: Sys, o: ExecId, q: Request) {
    || (exists j :: Current(s.db, j, o) && InFlight(s.db.jobs[j].status) && q in s.db.jobs[j].resources)
    || (exists p, sc ::
          && p in s.procs && s.procs[p].owner == o && sc in s.procs[p].open
          && sc in s.db.scopes && q in s.db.scopes[sc].resources)
  }

  /** Whatever an execution relies on, its lock rows cover. */
  lemma ReliedIsHeld(limits: Limits, s: Sys, o: ExecId, q: Request)
    requires Inv(limits, s) && Relies(s, o, q)
    ensures o in s.db.locks && q.resource in s.db.locks[o] && (q.mode.Write? ==> s.db.locks[o][q.resource].Write?)
  {
    hide StopOk, RowOk, EnteredOk, ReplyOk, ResultOk, SameKey, Compatible;
    if j :| Current(s.db, j, o) && InFlight(s.db.jobs[j].status) && q in s.db.jobs[j].resources {
      assert JobOk(s.db, j);
      assert q in Wants(s.db, o);
    } else {
      var p, sc :|
        && p in s.procs && s.procs[p].owner == o && sc in s.procs[p].open
        && sc in s.db.scopes && q in s.db.scopes[sc].resources;
      assert ProcOk(s, p);
      assert q in Wants(s.db, o);
    }
    assert IsJoin(Held(s.db.locks, o), Wants(s.db, o));
    assert q.resource in Resources(Wants(s.db, o));
    assert q.mode.Write? ==> q == Request(q.resource, Write);
  }

  /** Two executions never rely on excluding modes of one resource, whatever
      nested scopes they open and close and whoever crashes. */
  lemma MutualExclusion(limits: Limits, run: seq<Sys>, steps: seq<Step>, i: nat, o: ExecId, p: ExecId, q: Request,
                        r: Request)
    requires IsRun(limits, run, steps) && i < |run| && o != p
    requires Relies(run[i], o, q) && Relies(run[i], p, r) && q.resource == r.resource
    ensures q.mode.Read? && r.mode.Read?
  {
    RunHolds(limits, run, steps, i);
    ReliedIsHeld(limits, run[i], o, q);
    ReliedIsHeld(limits, run[i], p, r);
    assert Compatible(run[i].db.locks);
    assert !Clash(run[i].db.locks[o][q.resource], run[i].db.locks[p][q.resource]);
  }

  /** In particular: jobs in flight never conflict. */
  lemma JobsExclude(limits: Limits, run: seq<Sys>, steps: seq<Step>, i: nat, j: JobId, k: JobId, q: Request, r: Request)
    requires IsRun(limits, run, steps) && i < |run|
    requires j in run[i].db.jobs && k in run[i].db.jobs && j != k
    requires InFlight(run[i].db.jobs[j].status) && InFlight(run[i].db.jobs[k].status)
    requires q in run[i].db.jobs[j].resources && r in run[i].db.jobs[k].resources && q.resource == r.resource
    ensures q.mode.Read? && r.mode.Read?
  {
    var s := run[i];
    RunHolds(limits, run, steps, i);
    assert JobOk(s.db, j) && JobOk(s.db, k);
    var a, b := s.db.jobs[j].attempt.value, s.db.jobs[k].attempt.value;
    assert Current(s.db, j, a) && Current(s.db, k, b);
    MutualExclusion(limits, run, steps, i, a, b, q, r);
  }

  /** A live process keeps the scope row of every scope it is inside, and the
      lock table of every execution is the join of what it is entitled to. */
  lemma LockTableIsJoin(limits: Limits, run: seq<Sys>, steps: seq<Step>, i: nat, o: ExecId)
    requires IsRun(limits, run, steps) && i < |run| && o in run[i].db.execs
    ensures Held(run[i].db.locks, o) == Merged(Wants(run[i].db, o))
    ensures forall p, sc :: p in run[i].procs && run[i].procs[p].owner == o && sc in run[i].procs[p].open ==>
      sc in run[i].db.scopes && run[i].db.scopes[sc].owner == o
  {
    RunHolds(limits, run, steps, i);
    assert IsJoin(Held(run[i].db.locks, o), Wants(run[i].db, o));
    JoinIsUnique(Held(run[i].db.locks, o), Wants(run[i].db, o));
    forall p | p in run[i].procs ensures ProcOk(run[i], p) {}
  }

  /** Leaving any scope in any reachable state: the owner can get back all of what
      remains, so the second acquire was granted in full. */
  lemma CloseKeepsTheRest(limits: Limits, run: seq<Sys>, steps: seq<Step>, i: nat, p: ProcId, scope: ScopeId)
    requires IsRun(limits, run, steps) && i < |run| && ScopeEnabled(run[i], CloseScope(p, scope))
    ensures var s := run[i]; var o := s.procs[p].owner;
      !Blocked(s.db.locks - {o}, o, Merged(Items(s.db.execs[o].resources) + ScopeWants(s.db.scopes - {scope}, o)))
  {
    var s := run[i];
    RunHolds(limits, run, steps, i);
    assert ProcOk(s, p) && ExecOk(s, s.procs[p].owner);
    RestIsFree(s, s.procs[p].owner, scope, Items(s.db.execs[s.procs[p].owner].resources));
  }

  /** The same for leaving the outermost hold of a foreground command. */
  lemma CloseHoldKeepsTheRest(limits: Limits, run: seq<Sys>, steps: seq<Step>, i: nat, p: ProcId)
    requires IsRun(limits, run, steps) && i < |run| && ScopeEnabled(run[i], CloseHold(p))
    ensures var s := run[i]; var o := s.procs[p].owner;
      !Blocked(s.db.locks - {o}, o, Merged(ScopeWants(s.db.scopes - {s.procs[p].role.base}, o)))
  {
    var s := run[i];
    var o, base := s.procs[p].owner, s.procs[p].role.base;
    RunHolds(limits, run, steps, i);
    RestIsFree(s, o, base, {});
    assert {} + ScopeWants(s.db.scopes - {base}, o) == ScopeWants(s.db.scopes - {base}, o);
  }

  lemma RestIsFree(s: Sys, o: ExecId, scope: ScopeId, own: set<Request>)
    requires LocksOk(s.db) && o in s.db.execs
    requires own == {} || (!s.db.execs[o].finished && own == Items(s.db.execs[o].resources))
    ensures !Blocked(s.db.locks - {o}, o, Merged(own + ScopeWants(s.db.scopes - {scope}, o)))
  {
    ScopesDropped(s.db.scopes, scope, o);
    assert IsJoin(Held(s.db.locks, o), Wants(s.db, o));
    ReacquireNeverBlocked(s.db.locks, o, Wants(s.db, o), own + ScopeWants(s.db.scopes - {scope}, o));
  }

  lemma ScopesDropped(scopes: map<ScopeId, Scope>, scope: ScopeId, o: ExecId)
    ensures ScopeWants(scopes - {scope}, o) <= ScopeWants(scopes, o)
  {
  }

  /** A finished attempt of a job owns nothing. */
  lemma FinishedOwnsNothing(limits: Limits, run: seq<Sys>, steps: seq<Step>, i: nat, a: ExecId)
    requires IsRun(limits, run, steps) && i < |run|
    requires a in run[i].db.execs && run[i].db.execs[a].finished && run[i].db.execs[a].job.Some?
    ensures Held(run[i].db.locks, a) == map[]
    ensures forall sc :: sc in run[i].db.scopes ==> run[i].db.scopes[sc].owner != a
  {
    RunHolds(limits, run, steps, i);
    assert ExecOk(run[i], a);
    assert Wants(run[i].db, a) == {};
    LockTableIsJoin(limits, run, steps, i, a);
  }

  // ------------------------------------------------------------ histories

  lemma StepMoves(limits: Limits, s: Sys, step: Step)
    requires JobsOk(s.db) && NotesOk(s.db) && RowsOk(s) && Enabled(limits, s, step)
    ensures Moves(s, Apply(limits, s, step))
  {
    hide JobsOk, NotesOk, RowsOk, Moves, ClientApply;
    hide DispatchApply, ReconcileApply, NotifyApply, WorkerApply, ChildApply, ScopeApply;
    hide ClientEnabled, DispatchEnabled, ReconcileEnabled, NotifyEnabled, WorkerEnabled, ChildEnabled, ScopeEnabled;
    match step
    case ByClient(c) => ClientMoves(limits, s, c);
    case ByDispatch(d) => DispatchMoves(limits, s, d);
    case ByReconcile(r) => ReconcileMoves(s, r);
    case ByNotify(n) => NotifyMoves(s, n);
    case ByWorker(w) => WorkerMoves(s, w);
    case ByChild(k) => ChildMoves(s, k);
    case ByScope(h) => ScopeMoves(s, h);
  }

  /** Every job row of a run moves along the edges of the job state machine. */
  lemma RunMoves(limits: Limits, run: seq<Sys>, steps: seq<Step>, i: nat)
    requires IsRun(limits, run, steps) && i < |steps|
    ensures Moves(run[i], run[i + 1]) && JobsOk(run[i].db)
  {
    RunHolds(limits, run, steps, i);
    StepMoves(limits, run[i], steps[i]);
  }

  lemma RunEdge(limits: Limits, run: seq<Sys>, steps: seq<Step>, i: nat, j: JobId)
    requires IsRun(limits, run, steps) && i < |steps| && j in run[i].db.jobs
    ensures JobOk(run[i].db, j) && j in run[i + 1].db.jobs && JobEdge(run[i], run[i].db.jobs[j], run[i + 1].db.jobs[j])
  {
    hide IsRun, JobOk, JobEdge;
    RunMoves(limits, run, steps, i);
  }

  // ------------------------------------------------------- at most once

  /** The executor body of a job is entered at most once, however many attempts,
      launches, timeouts, requeues and crashes there are. */
  lemma EnteredAtMostOnce(limits: Limits, run: seq<Sys>, steps: seq<Step>, i: nat, j: JobId)
    requires IsRun(limits, run, steps) && i < |run|
    ensures run[i].entered[j] <= 1
  {
    RunHolds(limits, run, steps, i);
  }

  /** A job that was running, or that is being stopped without a requeue mark,
      is never queued or started again. */
  lemma {:induction false} NeverRequeued(limits: Limits, run: seq<Sys>, steps: seq<Step>, i: nat, k: nat, j: JobId)
    requires IsRun(limits, run, steps) && i <= k < |run|
    requires j in run[i].db.jobs && !NotEntered(run[i].db.jobs[j])
    ensures j in run[k].db.jobs && !NotEntered(run[k].db.jobs[j])
  {
    hide Enabled, Apply;
    if i < k {
      NeverRequeued(limits, run, steps, i, k - 1, j);
      RunEdge(limits, run, steps, k - 1, j);
      if NotEntered(run[k].db.jobs[j]) { UndecidedBefore(run[k - 1], run[k], j); }
    }
  }

  // -------------------------------------------------------- idempotency

  lemma {:induction false} TaskNeverChanges(limits: Limits, run: seq<Sys>, steps: seq<Step>, i: nat, k: nat, j: JobId)
    requires IsRun(limits, run, steps) && i <= k < |run| && j in run[i].db.jobs
    ensures j in run[k].db.jobs && SameTask(run[i].db.jobs[j], run[k].db.jobs[j])
  {
    hide Enabled, Apply;
    if i < k {
      TaskNeverChanges(limits, run, steps, i, k - 1, j);
      RunEdge(limits, run, steps, k - 1, j);
      TaskKept(run[k - 1], run[k - 1].db.jobs[j], run[k].db.jobs[j]);
    }
  }

  /** An admitted job keeps for ever exactly what it was submitted with. */
  lemma SubmittedStays(limits: Limits, run: seq<Sys>, steps: seq<Step>, i: nat, k: nat, j: JobId, created: nat,
                       client: string, key: string, digest: string, resources: seq<Request>)
    requires IsRun(limits, run, steps) && i < k < |run|
    requires steps[i] == ByClient(SubmitNew(j, created, client, key, digest, resources))
    ensures j in run[k].db.jobs && var job := run[k].db.jobs[j];
      && job.created == created && job.client == client && job.key == key && job.digest == digest
      && job.resources == resources
  {
    TaskNeverChanges(limits, run, steps, i + 1, k, j);
  }

  /** So the locks are those asked for at submission: while the job is in flight its
      attempt holds every resource it was submitted with, for writing if it asked so; and
      no other job in flight was submitted with a request that excludes one of its own. */
  lemma SubmittedIsHeld(limits: Limits, run: seq<Sys>, steps: seq<Step>, i: nat, k: nat, j: JobId, created: nat,
                        client: string, key: string, digest: string, resources: seq<Request>, q: Request)
    requires IsRun(limits, run, steps) && i < k < |run| && q in resources
    requires steps[i] == ByClient(SubmitNew(j, created, client, key, digest, resources))
    requires j in run[k].db.jobs && run[k].db.jobs[j].status in {Starting, Running, Cancelling}
    ensures var job := run[k].db.jobs[j];
      && job.attempt.Some? && job.attempt.value in run[k].db.locks
      && q.resource in run[k].db.locks[job.attempt.value]
      && (q.mode == Write ==> run[k].db.locks[job.attempt.value][q.resource] == Write)
  {
    SubmittedStays(limits, run, steps, i, k, j, created, client, key, digest, resources);
    RunHolds(limits, run, steps, k);
    assert JobOk(run[k].db, j);
    ReliedIsHeld(limits, run[k], run[k].db.jobs[j].attempt.value, q);
  }

  lemma SubmittedExclude(limits: Limits, run: seq<Sys>, steps: seq<Step>, i: nat, h: nat, k: nat, j: JobId, l: JobId,
                         first: ClientStep, second: ClientStep, q: Request, r: Request)
    requires IsRun(limits, run, steps) && i < k < |run| && h < k && j != l
    requires first.SubmitNew? && first.j == j && steps[i] == ByClient(first) && q in first.resources
    requires second.SubmitNew? && second.j == l && steps[h] == ByClient(second) && r in second.resources
    requires j in run[k].db.jobs && run[k].db.jobs[j].status in {Starting, Running, Cancelling}
    requires l in run[k].db.jobs && run[k].db.jobs[l].status in {Starting, Running, Cancelling}
    requires q.resource == r.resource
    ensures q.mode == Read && r.mode == Read
  {
    SubmittedStays(limits, run, steps, i, k, j, first.created, first.client, first.key, first.digest, first.resources);
    SubmittedStays(limits, run, steps, h, k, l, second.created, second.client, second.key, second.digest,
                   second.resources);
    JobsExclude(limits, run, steps, k, j, l, q, r);
  }

  /** For one client and key: at most one job ever, the same in every state, and
      deletion does not free the key. */
  lemma OneJobPerKey(limits: Limits, run: seq<Sys>, steps: seq<Step>, i: nat, k: nat, j: JobId, l: JobId,
                     client: string, key: string)
    requires IsRun(limits, run, steps) && i <= k < |run|
    requires j in run[i].db.jobs && run[i].db.jobs[j].client == client && run[i].db.jobs[j].key == key
    requires l in run[k].db.jobs && run[k].db.jobs[l].client == client && run[k].db.jobs[l].key == key
    ensures l == j
  {
    TaskNeverChanges(limits, run, steps, i, k, j);
    RunHolds(limits, run, steps, k);
  }

  /** All accepted answers for one key name the same job and the same request. */
  lemma RepliesAgree(limits: Limits, run: seq<Sys>, steps: seq<Step>, i: nat, a: Reply, b: Reply)
    requires IsRun(limits, run, steps) && i < |run|
    requires a in run[i].replies && b in run[i].replies && a.client == b.client && a.key == b.key
    ensures a.job == b.job && a.digest == b.digest
    ensures run[i].entered[a.job] <= 1
  {
    RunHolds(limits, run, steps, i);
    assert ReplyOk(run[i].db, a) && ReplyOk(run[i].db, b);
  }

  // ------------------------------------------------------- cancellation

  /** A cancel accepted before the job was cancelling sticks: from then on the
      job is cancelling or cancelled, so no completion and no requeue can win. */
  lemma {:induction false} AcceptedCancelSticks(limits: Limits, run: seq<Sys>, steps: seq<Step>, i: nat, k: nat,
                                                j: JobId)
    requires IsRun(limits, run, steps) && i < k < |run| && steps[i] == ByClient(CancelJob(j))
    requires run[i].db.jobs[j].status in {Queued, Starting, Running}
    ensures j in run[k].db.jobs && (run[k].db.jobs[j].status.Cancelling? || run[k].db.jobs[j].status.Cancelled?)
  {
    RunHolds(limits, run, steps, k);
    CancelledGrows(limits, run, steps, i + 1, k);
  }

  lemma {:induction false} CancelledGrows(limits: Limits, run: seq<Sys>, steps: seq<Step>, i: nat, k: nat)
    requires IsRun(limits, run, steps) && i <= k < |run|
    ensures run[i].cancelled <= run[k].cancelled
  {
    hide Enabled, Apply;
    if i < k {
      CancelledGrows(limits, run, steps, i, k - 1);
      CancelledStays(limits, run[k - 1], steps[k - 1]);
    }
  }

  lemma CancelledStays(limits: Limits, s: Sys, step: Step)
    requires Enabled(limits, s, step)
    ensures s.cancelled <= Apply(limits, s, step).cancelled
  {
    hide ClientEnabled, DispatchEnabled, ReconcileEnabled, NotifyEnabled, WorkerEnabled, ChildEnabled, ScopeEnabled;
    hide Submit, Cancel, Delete, Claim, RecordIdentity;
    hide RequestStop, StartTimeout, Finalize, Released, CanStart, WorkerStart;
    hide WorkerComplete, CanAdmit, Admit, Open, OpenForeground, Close;
  }

  /** How a job leaves `cancelling`, decided by the mark it carries on entry and
      not by any later cancel: `m` is the first state after it left. */
  lemma {:induction false} CancellingResolves(limits: Limits, run: seq<Sys>, steps: seq<Step>, i: nat, k: nat,
                                              j: JobId) returns (m: nat)
    requires IsRun(limits, run, steps) && i <= k < |run|
    requires j in run[i].db.jobs && run[i].db.jobs[j].status.Cancelling?
    requires j in run[k].db.jobs && !run[k].db.jobs[j].status.Cancelling?
    ensures i < m <= k && j in run[m].db.jobs
    ensures
      var mark := run[i].db.jobs[j].stopFinal;
      run[m].db.jobs[j].status == if mark.Some? then mark.value else Cancelled
    ensures run[m].db.jobs[j].status.Cancelled? <==> run[i].db.jobs[j].stopFinal.None?
    decreases k - i
  {
    hide Enabled, Apply;
    RunEdge(limits, run, steps, i, j);
    if run[i + 1].db.jobs[j].status.Cancelling? {
      m := CancellingResolves(limits, run, steps, i + 1, k, j);
    } else {
      m := i + 1;
    }
  }

  // ---------------------------------------------------------- absorption

  /** A terminal job keeps its status, its attempt and its published result. */
  lemma {:induction false} TerminalForever(limits: Limits, run: seq<Sys>, steps: seq<Step>, i: nat, k: nat, j: JobId)
    requires IsRun(limits, run, steps) && i <= k < |run| && j in run[i].db.jobs && Terminal(run[i].db.jobs[j].status)
    ensures j in run[k].db.jobs
    ensures run[k].db.jobs[j] == run[i].db.jobs[j] || run[k].db.jobs[j] == run[i].db.jobs[j].(deleted := true)
  {
    hide Enabled, Apply;
    if i < k {
      TerminalForever(limits, run, steps, i, k - 1, j);
      RunEdge(limits, run, steps, k - 1, j);
      TerminalKept(run[k - 1], run[k - 1].db.jobs[j], run[k].db.jobs[j]);
    }
  }

  /** One notification per terminal job, with its final status, sent at most once. */
  lemma NotifiedOnce(limits: Limits, run: seq<Sys>, steps: seq<Step>, i: nat, j: JobId)
    requires IsRun(limits, run, steps) && i < |run|
    ensures j in run[i].db.notes <==> j in run[i].db.jobs && Terminal(run[i].db.jobs[j].status)
    ensures j in run[i].db.notes ==> run[i].db.notes[j].status == run[i].db.jobs[j].status
    ensures run[i].delivered[j] <= 1
    ensures run[i].delivered[j] > 0 ==> j in run[i].db.notes && run[i].db.notes[j].sent
  {
    RunHolds(limits, run, steps, i);
  }

  /** A succeeded job shows the result file of its own last attempt. */
  lemma SuccessHasResult(limits: Limits, run: seq<Sys>, steps: seq<Step>, i: nat, j: JobId)
    requires IsRun(limits, run, steps) && i < |run| && j in run[i].db.jobs && run[i].db.jobs[j].status.Succeeded?
    ensures var job := run[i].db.jobs[j];
      job.attempt.Some? && job.published == job.attempt && job.attempt.value in run[i].results
      && job.attempt.value in run[i].db.execs && run[i].db.execs[job.attempt.value].job == Some(j)
  {
    RunHolds(limits, run, steps, i);
    assert ResultOk(run[i], j) && JobOk(run[i].db, j);
  }

  /** The capacity bounds, although a requeue does not pass admission. */
  lemma CapacityHolds(limits: Limits, run: seq<Sys>, steps: seq<Step>, i: nat)
    requires IsRun(limits, run, steps) && i < |run|
    ensures |ActiveJobs(run[i].db.jobs)| <= limits.maxRunning
    ensures |QueuedJobs(run[i].db.jobs)| + |ActiveJobs(run[i].db.jobs)| <= limits.maxQueued + limits.maxRunning
  {
    RunHolds(limits, run, steps, i);
  }

  // ------------------------------------------------------------- fencing

  /** The process a worker, child or scope step belongs to. */
  function ActorOf(step: Step): Option<ProcId> {
    match step
    case ByWorker(w) => Some(w.p)
    case ByChild(k) => if k.Spawn? then Some(k.p) else if k.AdmitChild? then Some(k.q) else None
    case ByScope(h) => if h.OpenHold? then None else Some(h.p)
    case _ => None
  }

  /** Nothing changes for job `j`, nor for the locks of executions other than `o`. */
  ghost predicate Fenced(s: Sys, t: Sys, j: JobId, o: ExecId) {
    && j in s.db.jobs && j in t.db.jobs && t.db.jobs[j] == s.db.jobs[j] && t.db.notes == s.db.notes
    && forall x :: x in s.db.locks && x != o ==> x in t.db.locks && t.db.locks[x] == s.db.locks[x]
  }

  lemma WorkerFenced(s: Sys, step: WorkerStep, j: JobId)
    requires WorkerEnabled(s, step) && j in s.db.jobs && s.db.jobs[j].attempt != Some(s.procs[step.p].owner)
    ensures Fenced(s, WorkerApply(s, step), j, s.procs[step.p].owner)
  {
  }

  lemma ScopeFenced(s: Sys, step: ScopeStep, j: JobId)
    requires ScopeEnabled(s, step) && !step.OpenHold? && step.p in s.procs && j in s.db.jobs
    ensures Fenced(s, ScopeApply(s, step), j, s.procs[step.p].owner)
  {
  }

  /** A process of a superseded attempt changes no job row of any job whose
      current attempt is another, no notification, and no other owner's locks. */
  lemma SupersededIsFenced(limits: Limits, s: Sys, step: Step, p: ProcId, j: JobId)
    requires Enabled(limits, s, step) && ActorOf(step) == Some(p) && p in s.procs
    requires j in s.db.jobs && s.db.jobs[j].attempt != Some(s.procs[p].owner)
    ensures Fenced(s, Apply(limits, s, step), j, s.procs[p].owner)
  {
    hide WorkerEnabled, ScopeEnabled, WorkerApply, ScopeApply, ClientEnabled, ClientApply;
    hide DispatchEnabled, DispatchApply, ReconcileEnabled, ReconcileApply, NotifyEnabled, NotifyApply;
    match step
    case ByWorker(w) => WorkerFenced(s, w, j);
    case ByScope(h) => ScopeFenced(s, h, j);
    case _ =>
  }

  // ------------------------------------------------------------ children

  /** Once a job is cancelling, its attempt admits no further child. */
  lemma {:induction false} NoChildAfterCancelling(limits: Limits, run: seq<Sys>, steps: seq<Step>, i: nat, k: nat,
                                                  j: JobId, a: ExecId)
    requires IsRun(limits, run, steps) && i <= k < |run|
    requires Current(run[i].db, j, a) && run[i].db.jobs[j].status.Cancelling?
    ensures ChildrenOf(run[k].db, a) == ChildrenOf(run[i].db, a)
    ensures PastRunning(run[k], j, a)
  {
    hide Enabled, Apply;
    if i == k {
      CancellingIsPast(limits, run, steps, i, j, a);
    } else {
      hide PastRunning;
      NoChildAfterCancelling(limits, run, steps, i, k - 1, j, a);
      NoChildInStep(limits, run, steps, k - 1, j, a);
    }
  }

  lemma CancellingIsPast(limits: Limits, run: seq<Sys>, steps: seq<Step>, i: nat, j: JobId, a: ExecId)
    requires IsRun(limits, run, steps) && i < |run| && Current(run[i].db, j, a) && run[i].db.jobs[j].status.Cancelling?
    ensures PastRunning(run[i], j, a)
  {
    hide IsRun, ExecsOk, LocksOk, ProcsOk, OpenOk, RowsOk;
    hide StopsOk, EntryOk, CancelOk, NotesOk, DeliveryOk, KeysOk, ResultsOk;
    hide CompletionsOk, CapacityOk;
    RunHolds(limits, run, steps, i);
    assert JobOk(run[i].db, j);
  }

  lemma NoChildInStep(limits: Limits, run: seq<Sys>, steps: seq<Step>, k: nat, j: JobId, a: ExecId)
    requires IsRun(limits, run, steps) && k < |steps| && PastRunning(run[k], j, a)
    ensures PastRunning(run[k + 1], j, a) && ChildrenOf(run[k + 1].db, a) == ChildrenOf(run[k].db, a)
  {
    hide Enabled, Apply, PastRunning, JobsOk, JobsMove, NotesMove, AttemptsMove, ExecsMove;
    RunMoves(limits, run, steps, k);
    AttemptsFollow(run[k], run[k + 1]);
    PastRunningAdmitsNone(limits, run[k], steps[k], j, a);
  }

  /** Attempt `a` of job `j` is over or being stopped. */
  ghost predicate PastRunning(s: Sys, j: JobId, a: ExecId) {
    && a in s.db.execs && s.db.execs[a].job == Some(j)
    && (Current(s.db, j, a) ==> !s.db.jobs[j].status.Starting? && !s.db.jobs[j].status.Running?)
  }

  lemma PastRunningAdmitsNone(limits: Limits, s: Sys, step: Step, j: JobId, a: ExecId)
    requires Enabled(limits, s, step) && PastRunning(s, j, a)
    requires AttemptsMove(s, Apply(limits, s, step)) && ExecsMove(s, Apply(limits, s, step))
    ensures PastRunning(Apply(limits, s, step), j, a)
    ensures ChildrenOf(Apply(limits, s, step).db, a) == ChildrenOf(s.db, a)
  {
    assert ChildrenSame(s, Apply(limits, s, step), a) by { AdmissionIsGuarded(limits, s, step, j, a); }
  }

  ghost predicate ChildrenSame(s: Sys, t: Sys, a: ExecId) {
    forall c: ChildRow :: c.owner == a ==> (c in t.db.children <==> c in s.db.children)
  }

  lemma AdmissionIsGuarded(limits: Limits, s: Sys, step: Step, j: JobId, a: ExecId)
    requires Enabled(limits, s, step) && PastRunning(s, j, a)
    ensures ChildrenSame(s, Apply(limits, s, step), a)
  {
    hide ClientApply, DispatchApply, ReconcileApply, NotifyApply, WorkerApply, ChildApply, ScopeApply, ClientEnabled;
    hide DispatchEnabled, ReconcileEnabled, NotifyEnabled, WorkerEnabled, ChildEnabled, ScopeEnabled;
    match step
    case ByClient(c) => ClientAdmitsNone(limits, s, c);
    case ByDispatch(d) => DispatchAdmitsNone(limits, s, d);
    case ByReconcile(r) => ReconcileAdmitsNone(s, r);
    case ByNotify(n) => NotifyAdmitsNone(s, n);
    case ByWorker(w) => WorkerAdmitsNone(s, w);
    case ByChild(k) => ChildAdmitsOthers(s, k, j, a);
    case ByScope(h) => ScopeAdmitsNone(s, h);
  }

  lemma ChildAdmitsOthers(s: Sys, step: ChildStep, j: JobId, a: ExecId)
    requires ChildEnabled(s, step) && PastRunning(s, j, a)
    ensures ChildrenSame(s, ChildApply(s, step), a)
  {
  }

  lemma ClientAdmitsNone(limits: Limits, s: Sys, step: ClientStep)
    requires ClientEnabled(limits, s, step)
    ensures ClientApply(limits, s, step).db.children == s.db.children
  {
  }

  lemma DispatchAdmitsNone(limits: Limits, s: Sys, step: DispatchStep)
    requires DispatchEnabled(limits, s, step)
    ensures DispatchApply(limits, s, step).db.children == s.db.children
  {
  }

  lemma ReconcileAdmitsNone(s: Sys, step: ReconcileStep)
    requires ReconcileEnabled(s, step)
    ensures ReconcileApply(s, step).db.children == s.db.children
  {
  }

  lemma NotifyAdmitsNone(s: Sys, step: NotifyStep)
    requires NotifyEnabled(s, step)
    ensures NotifyApply(s, step).db.children == s.db.children
  {
  }

  lemma WorkerAdmitsNone(s: Sys, step: WorkerStep)
    requires WorkerEnabled(s, step)
    ensures WorkerApply(s, step).db.children == s.db.children
  {
  }

  lemma ScopeAdmitsNone(s: Sys, step: ScopeStep)
    requires ScopeEnabled(s, step)
    ensures ScopeApply(s, step).db.children == s.db.children
  {
  }

  /** When finalize frees the locks of an attempt, its worker and every child it
      ever admitted are gone, and nothing it launched can do research work. */
  lemma FinalizeAfterAllStopped(limits: Limits, run: seq<Sys>, steps: seq<Step>, i: nat, row: Row)
    requires IsRun(limits, run, steps) && i < |steps| && steps[i] == ByReconcile(FinalizeRow(row))
    ensures AllStopped(run[i], row.attempt)
  {
    hide JobsOk, ExecsOk, LocksOk, ProcsOk, OpenOk, RowsOk, StopsOk, EntryOk, CancelOk, NotesOk;
    hide DeliveryOk, KeysOk, ResultsOk, CompletionsOk, CapacityOk;
    hide Apply, AllStopped;
    RunHolds(limits, run, steps, i);
    StoppedIsStopped(run[i], row.attempt);
  }

  /** The same when the daemon releases a foreground execution. */
  lemma ReleaseAfterAllStopped(limits: Limits, run: seq<Sys>, steps: seq<Step>, i: nat, o: ExecId)
    requires IsRun(limits, run, steps) && i < |steps| && steps[i] == ByReconcile(ReleaseStandalone(o))
    ensures AllStopped(run[i], o)
  {
    hide JobsOk, ExecsOk, LocksOk, ProcsOk, OpenOk, RowsOk, StopsOk, EntryOk, CancelOk, NotesOk;
    hide DeliveryOk, KeysOk, ResultsOk, CompletionsOk, CapacityOk;
    hide Apply, AllStopped;
    RunHolds(limits, run, steps, i);
    StoppedIsStopped(run[i], o);
  }

  /** No admitted child of `o` is alive, and no process of `o` does research work. */
  ghost predicate AllStopped(s: Sys, o: ExecId) {
    && ChildrenOf(s.db, o) !! s.procs.Keys
    && forall p :: p in s.procs && s.procs[p].owner == o ==> !Working(s.procs[p])
  }

  lemma StoppedIsStopped(s: Sys, o: ExecId)
    requires StopsOk(s) && ProcsOk(s) && o in s.stops && s.stops[o] !! s.procs.Keys
    ensures AllStopped(s, o)
  {
    assert StopOk(s, o);
    forall p | p in s.procs && s.procs[p].owner == o ensures !Working(s.procs[p]) { StoppedHasNoWork(s, o, p); }
  }
}
