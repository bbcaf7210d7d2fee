/** Every step keeps the rows, processes and stop certificates consistent. */
module Preservation {
  import opened Wrappers
  import opened Schema
  import opened Locks
  import opened Tasks
  import opened Runtime
  import opened Protocol
  import opened Invariants
  import opened JobMoves

  // ------------------------------------------------------------- frames

  /** What a step leaves alone when it is none of that step's business. */
  ghost predicate Quiet(s: Sys, t: Sys) {
    && t.db.jobs.Keys == s.db.jobs.Keys && t.rows <= s.rows && t.entered == s.entered && t.cancelled == s.cancelled
    && t.outbox == s.outbox && t.delivered == s.delivered && t.replies == s.replies
  }

  lemma WorkerTables(s: Sys, step: WorkerStep)
    requires WorkerEnabled(s, step)
    ensures var t := WorkerApply(s, step);
      ExecsMove(s, t) && Quiet(s, t.(entered := s.entered)) && t.db.scopes == s.db.scopes
  {
    var t := WorkerApply(s, step);
    match step
    case StartWorker(p) =>
      var proc := s.procs[p];
      if CanStart(s.db, proc.role.job, proc.owner) {
        assert t.db.jobs == s.db.jobs[proc.role.job := t.db.jobs[proc.role.job]];
        assert t.db.execs == s.db.execs[proc.owner := s.db.execs[proc.owner].(identity := Some(p))];
      }
      hide CanStart, WorkerStart;
    case Report(p, outcome) =>
      assert t.db == WorkerComplete(s.db, s.procs[p].role.job, s.procs[p].owner, outcome);
      assert t.db.execs == s.db.execs;
    case _ =>
      assert t.db == s.db;
  }

  /** Child steps touch the child rows and the live processes only. */
  lemma ChildFrame(s: Sys, step: ChildStep)
    requires ChildEnabled(s, step)
    ensures var t := ChildApply(s, step);
      && t == s.(db := t.db, procs := t.procs, born := t.born) && t.db == s.db.(children := t.db.children)
      && (forall p :: p in t.procs && p !in s.procs ==> t.procs[p].role.Wrapper? && t.procs[p].open == {})
  {
  }

  lemma ChildProcs(s: Sys, step: ChildStep, p: ProcId)
    requires ChildEnabled(s, step) && p in s.procs && p in ChildApply(s, step).procs
    ensures var t := ChildApply(s, step);
      && (t.procs[p].open == {} || t.procs[p].open == s.procs[p].open)
      && (Registrant(t.procs[p]) ==> t.procs[p].role == s.procs[p].role && t.procs[p].owner == s.procs[p].owner)
  {
    hide CanAdmit;
  }

  // ------------------------------------------------------ jobs, executions

  lemma ClientKeepsJobs(limits: Limits, s: Sys, step: ClientStep)
    requires JobsOk(s.db) && ExecsOk(s) && RowsOk(s) && ClientEnabled(limits, s, step)
    ensures JobsOk(ClientApply(limits, s, step).db)
  {
    hide ExecsOk, RowsOk, KeyTaken, QueuedJobs;
  }

  lemma DispatchKeepsJobs(limits: Limits, s: Sys, step: DispatchStep)
    requires JobsOk(s.db) && ExecsOk(s) && RowsOk(s) && DispatchEnabled(limits, s, step)
    ensures JobsOk(DispatchApply(limits, s, step).db)
  {
  }

  lemma ReconcileKeepsJobs(s: Sys, step: ReconcileStep)
    requires JobsOk(s.db) && ExecsOk(s) && RowsOk(s) && ReconcileEnabled(s, step)
    ensures JobsOk(ReconcileApply(s, step).db)
  {
  }

  lemma NotifyKeepsJobs(s: Sys, step: NotifyStep)
    requires JobsOk(s.db) && ExecsOk(s) && RowsOk(s) && NotifyEnabled(s, step)
    ensures JobsOk(NotifyApply(s, step).db)
  {
  }

  lemma WorkerKeepsJobs(s: Sys, step: WorkerStep)
    requires JobsOk(s.db) && ExecsOk(s) && RowsOk(s) && WorkerEnabled(s, step)
    ensures JobsOk(WorkerApply(s, step).db)
  {
  }

  lemma ChildKeepsJobs(s: Sys, step: ChildStep)
    requires JobsOk(s.db) && ExecsOk(s) && RowsOk(s) && ChildEnabled(s, step)
    ensures JobsOk(ChildApply(s, step).db)
  {
    ChildFrame(s, step);
    hide ChildApply, ChildEnabled, ExecsOk, RowsOk;
  }

  lemma ScopeKeepsJobs(s: Sys, step: ScopeStep)
    requires JobsOk(s.db) && ExecsOk(s) && RowsOk(s) && ProcsOk(s) && ScopeEnabled(s, step)
    ensures JobsOk(ScopeApply(s, step).db)
  {
    hide RowsOk, JobOk, Acquire;
    var t := ScopeApply(s, step);
    forall j | j in t.db.jobs ensures JobOk(t.db, j) { ScopeKeepsJob(s, step, j); }
  }

  lemma ScopeKeepsJob(s: Sys, step: ScopeStep, j: JobId)
    requires JobsOk(s.db) && ExecsOk(s) && ProcsOk(s) && ScopeEnabled(s, step) && j in s.db.jobs
    ensures ScopeApply(s, step).db.jobs == s.db.jobs && JobOk(ScopeApply(s, step).db, j)
  {
    assert JobOk(s.db, j);
    assert step.CloseHold? ==> RoleOk(s, step.p);
    ScopeKeepsAttempts(s, step);
    hide JobsOk, ExecsOk, ProcsOk, ScopeApply, ScopeEnabled, RoleOk;
  }

  lemma ScopeKeepsAttempts(s: Sys, step: ScopeStep)
    requires ScopeEnabled(s, step) && (step.CloseHold? ==> s.db.execs[s.procs[step.p].owner].job.None?)
    ensures var t := ScopeApply(s, step);
      && t.db.jobs == s.db.jobs
      && forall a :: a in s.db.execs && s.db.execs[a].job.Some? ==> a in t.db.execs && t.db.execs[a] == s.db.execs[a]
  {
    hide Granted, Acquire, Blocked, ScopeWants, Merged, Items;
  }

  lemma ClientKeepsExecs(limits: Limits, s: Sys, step: ClientStep)
    requires JobsOk(s.db) && ExecsOk(s) && RowsOk(s) && ProcsOk(s) && ClientEnabled(limits, s, step)
    ensures ExecsOk(ClientApply(limits, s, step))
  {
  }

  lemma DispatchKeepsExecs(limits: Limits, s: Sys, step: DispatchStep)
    requires JobsOk(s.db) && ExecsOk(s) && RowsOk(s) && ProcsOk(s) && DispatchEnabled(limits, s, step)
    ensures ExecsOk(DispatchApply(limits, s, step))
  {
  }

  lemma ReconcileKeepsExecs(s: Sys, step: ReconcileStep)
    requires JobsOk(s.db) && ExecsOk(s) && RowsOk(s) && ProcsOk(s) && ReconcileEnabled(s, step)
    ensures ExecsOk(ReconcileApply(s, step))
  {
  }

  lemma NotifyKeepsExecs(s: Sys, step: NotifyStep)
    requires JobsOk(s.db) && ExecsOk(s) && RowsOk(s) && ProcsOk(s) && NotifyEnabled(s, step)
    ensures ExecsOk(NotifyApply(s, step))
  {
  }

  lemma WorkerKeepsExecs(s: Sys, step: WorkerStep)
    requires JobsOk(s.db) && ExecsOk(s) && RowsOk(s) && ProcsOk(s) && WorkerEnabled(s, step)
    ensures ExecsOk(WorkerApply(s, step))
  {
    hide RowsOk, JobsOk, ExecOk;
    var t := WorkerApply(s, step);
    forall a | a in t.db.execs ensures ExecOk(t, a) { WorkerKeepsExec(s, step, a); }
  }

  lemma WorkerKeepsExec(s: Sys, step: WorkerStep, a: ExecId)
    requires ExecsOk(s) && ProcsOk(s) && WorkerEnabled(s, step) && a in WorkerApply(s, step).db.execs
    ensures ExecOk(WorkerApply(s, step), a)
  {
    WorkerMovesExec(s, step, a);
    assert ExecOk(s, a) && ProcOk(s, step.p);
    hide ExecsOk, ProcsOk, RoleOk, WorkerApply, WorkerEnabled;
  }

  /** A worker may put its own identity into its execution; its job stays in flight. */
  lemma WorkerMovesExec(s: Sys, step: WorkerStep, a: ExecId)
    requires WorkerEnabled(s, step) && a in WorkerApply(s, step).db.execs
    ensures var t := WorkerApply(s, step);
      && a in s.db.execs && t.born == s.born && t.db.scopes == s.db.scopes && step.p in s.procs
      && (t.db.execs[a] == s.db.execs[a] || t.db.execs[a] == s.db.execs[a].(identity := Some(step.p)))
    ensures forall j :: j in s.db.jobs ==> SameStanding(s.db.jobs[j], WorkerApply(s, step).db.jobs, j)
  {
    var t := WorkerApply(s, step);
    match step
    case StartWorker(p) =>
      var proc := s.procs[p];
      if CanStart(s.db, proc.role.job, proc.owner) {
        assert t.db.jobs == s.db.jobs[proc.role.job := s.db.jobs[proc.role.job].(status := Running)];
        assert t.db.execs == s.db.execs[proc.owner := s.db.execs[proc.owner].(identity := Some(p))];
      }
    case Report(p, outcome) =>
      assert t.db == WorkerComplete(s.db, s.procs[p].role.job, s.procs[p].owner, outcome);
    case _ =>
      assert t.db == s.db;
  }

  predicate SameStanding(job: Job, jobs: map<JobId, Job>, j: JobId) {
    j in jobs && jobs[j].attempt == job.attempt && (InFlight(job.status) ==> InFlight(jobs[j].status))
  }

  lemma ChildKeepsExecs(s: Sys, step: ChildStep)
    requires JobsOk(s.db) && ExecsOk(s) && RowsOk(s) && ProcsOk(s) && ChildEnabled(s, step)
    ensures ExecsOk(ChildApply(s, step))
  {
    ChildFrame(s, step);
    hide ChildApply, ChildEnabled, JobsOk, RowsOk, ProcsOk;
  }

  lemma ScopeKeepsExecs(s: Sys, step: ScopeStep)
    requires JobsOk(s.db) && ExecsOk(s) && RowsOk(s) && ProcsOk(s) && ScopeEnabled(s, step)
    ensures ExecsOk(ScopeApply(s, step))
  {
  }

  // ------------------------------------------------------------ processes

  predicate Holder(proc: Proc) {
    Registrant(proc) || proc.role.Foreground?
  }

  /** A process that does not act itself stays consistent. */
  lemma ProcStays(s: Sys, t: Sys, p: ProcId)
    requires p in s.procs && ProcOk(s, p) && p in t.procs && t.procs[p] == s.procs[p]
    requires AttemptsMove(s, t) && ExecsMove(s, t) && s.born <= t.born && s.db.children <= t.db.children
    requires Bystander(s, t, p)
    ensures ProcOk(t, p)
  {
  }

  /** Nothing of a stopped execution still works, so its rows may go. */
  lemma StoppedHasNoWork(s: Sys, o: ExecId, p: ProcId)
    requires ProcsOk(s) && o in s.stops && StopOk(s, o) && s.stops[o] !! s.procs.Keys
    requires p in s.procs && s.procs[p].owner == o
    ensures !Working(s.procs[p]) && s.procs[p].open == {}
  {
    assert ProcOk(s, p);
    assert s.procs[p].role.Child? ==> p in ChildrenOf(s.db, o);
  }

  /** Nothing that process `p`, which does not act, relies on goes away. */
  ghost predicate Bystander(s: Sys, t: Sys, p: ProcId)
    requires p in s.procs && p in t.procs
  {
    var o := s.procs[p].owner;
    && t.procs[p] == s.procs[p] && o in s.db.execs && o in t.db.execs
    && (Holder(s.procs[p]) ==>
          t.db.execs[o].identity == s.db.execs[o].identity && t.db.execs[o].finished == s.db.execs[o].finished)
    && (s.procs[p].role.Child? && s.db.execs[o].job.Some? ==> t.db.execs[o].finished == s.db.execs[o].finished)
    && (s.procs[p].role.Foreground? ==> o !in t.db.cleanup)
    && (forall sc :: sc in s.procs[p].open ==> sc in t.db.scopes && t.db.scopes[sc].owner == o)
  }

  ghost predicate ProcFrame(s: Sys, t: Sys, who: set<ProcId>) {
    && who <= s.procs.Keys && who <= t.procs.Keys && s.born <= t.born && s.db.children <= t.db.children
    && forall p :: p in who ==> Bystander(s, t, p)
  }

  lemma ProcsStay(s: Sys, t: Sys, who: set<ProcId>)
    requires ProcsOk(s) && ProcFrame(s, t, who) && AttemptsMove(s, t) && ExecsMove(s, t)
    ensures forall p :: p in who ==> ProcOk(t, p)
  {
    forall p | p in who ensures ProcOk(t, p) { ProcStays(s, t, p); }
  }

  lemma ClientKeepsProcs(limits: Limits, s: Sys, step: ClientStep)
    requires ProcsOk(s) && ClientEnabled(limits, s, step) && AttemptsMove(s, ClientApply(limits, s, step))
    ensures ProcsOk(ClientApply(limits, s, step))
  {
    ProcsStay(s, ClientApply(limits, s, step), s.procs.Keys);
  }

  lemma DispatchKeepsProcs(limits: Limits, s: Sys, step: DispatchStep)
    requires ProcsOk(s) && DispatchEnabled(limits, s, step) && AttemptsMove(s, DispatchApply(limits, s, step))
    ensures ProcsOk(DispatchApply(limits, s, step))
  {
    ProcsStay(s, DispatchApply(limits, s, step), s.procs.Keys);
  }

  lemma ReconcileBystander(s: Sys, step: ReconcileStep, p: ProcId)
    requires ProcsOk(s) && StopsOk(s) && ReconcileEnabled(s, step) && p in s.procs
    ensures Bystander(s, ReconcileApply(s, step), p)
  {
    assert ProcOk(s, p);
    if step.FinalizeRow? && s.procs[p].owner == step.row.attempt {
      StoppedHasNoWork(s, step.row.attempt, p);
    } else if step.ReleaseStandalone? && s.procs[p].owner == step.o {
      StoppedHasNoWork(s, step.o, p);
    }
  }

  lemma ReconcileKeepsProcs(s: Sys, step: ReconcileStep)
    requires ProcsOk(s) && StopsOk(s) && ReconcileEnabled(s, step) && AttemptsMove(s, ReconcileApply(s, step))
    ensures ProcsOk(ReconcileApply(s, step))
  {
    forall p | p in s.procs ensures Bystander(s, ReconcileApply(s, step), p) { ReconcileBystander(s, step, p); }
    ReconcileFrame(s, step);
    ProcsStay(s, ReconcileApply(s, step), s.procs.Keys);
  }

  lemma NotifyKeepsProcs(s: Sys, step: NotifyStep)
    requires ProcsOk(s) && NotifyEnabled(s, step) && AttemptsMove(s, NotifyApply(s, step))
    ensures ProcsOk(NotifyApply(s, step))
  {
    ProcsStay(s, NotifyApply(s, step), s.procs.Keys);
  }

  /** The start check registers the only worker of its attempt. */
  lemma StartKeepsProcs(s: Sys, p: ProcId)
    requires ProcsOk(s) && JobsOk(s.db) && WorkerEnabled(s, StartWorker(p))
    requires CanStart(s.db, s.procs[p].role.job, s.procs[p].owner)
    requires AttemptsMove(s, WorkerApply(s, StartWorker(p)))
    ensures ProcsOk(WorkerApply(s, StartWorker(p)))
  {
    var t := WorkerApply(s, StartWorker(p));
    assert ProcOk(s, p) && JobOk(s.db, s.procs[p].role.job);
    forall q | q in s.procs && s.procs[q].owner == s.procs[p].owner ensures !Holder(s.procs[q]) { assert ProcOk(s, q); }
    ProcsStay(s, t, s.procs.Keys - {p});
  }

  lemma WorkerKeepsProcs(s: Sys, step: WorkerStep)
    requires ProcsOk(s) && JobsOk(s.db) && WorkerEnabled(s, step) && AttemptsMove(s, WorkerApply(s, step))
    ensures ProcsOk(WorkerApply(s, step))
  {
    if step.StartWorker? && CanStart(s.db, s.procs[step.p].role.job, s.procs[step.p].owner) {
      StartKeepsProcs(s, step.p);
    } else {
      assert ProcOk(s, step.p);
      ProcsStay(s, WorkerApply(s, step), s.procs.Keys - {step.p});
    }
  }

  lemma ChildKeepsProcs(s: Sys, step: ChildStep)
    requires ProcsOk(s) && ChildEnabled(s, step) && AttemptsMove(s, ChildApply(s, step))
    ensures ProcsOk(ChildApply(s, step))
  {
    assert step.AdmitChild? ==> ProcOk(s, step.q);
    var t := ChildApply(s, step);
    var who := s.procs.Keys - if step.AdmitChild? then {step.q} else {step.p};
    ChildActs(s, step);
    assert ExecsMove(s, t) by { ChildFrame(s, step); }
    ProcsStay(s, t, who) by { ChildBystanders(s, step, who); }
    hide Bystander, RoleOk;
  }

  /** The process that acts, and the one it makes. */
  lemma ChildActs(s: Sys, step: ChildStep)
    requires ProcsOk(s) && ChildEnabled(s, step)
    ensures forall p ::
      p in ChildApply(s, step).procs && p !in s.procs.Keys - (if step.AdmitChild? then {step.q} else {step.p}) ==>
      ProcOk(ChildApply(s, step), p)
  {
    match step
    case Spawn(p, q) => assert ProcOk(s, p);
    case AdmitChild(q) => assert ProcOk(s, q);
    case Die(p) =>
  }

  lemma ChildBystanders(s: Sys, step: ChildStep, who: set<ProcId>)
    requires ProcsOk(s) && ChildEnabled(s, step)
    requires who == s.procs.Keys - (if step.AdmitChild? then {step.q} else {step.p})
    ensures ProcFrame(s, ChildApply(s, step), who)
  {
    ChildFrame(s, step);
    hide CanAdmit;
    forall p | p in who ensures ProcOk(s, p) {}
  }

  lemma ScopeActor(s: Sys, step: ScopeStep)
    requires ScopeEnabled(s, step) && ExecsOk(s) && (step.p in s.procs ==> ProcOk(s, step.p))
    requires AttemptsMove(s, ScopeApply(s, step))
    ensures step.p in ScopeApply(s, step).procs ==> ProcOk(ScopeApply(s, step), step.p)
  {
  }

  lemma ScopeBystander(s: Sys, step: ScopeStep, p: ProcId)
    requires ScopeEnabled(s, step) && p in s.procs && ProcOk(s, p) && p != step.p && OpenOk(s)
    requires step.p in s.procs ==> ProcOk(s, step.p)
    ensures p in ScopeApply(s, step).procs && Bystander(s, ScopeApply(s, step), p)
  {
  }

  lemma ScopeKeepsProcs(s: Sys, step: ScopeStep)
    requires ProcsOk(s) && OpenOk(s) && ExecsOk(s) && ScopeEnabled(s, step) && AttemptsMove(s, ScopeApply(s, step))
    ensures ProcsOk(ScopeApply(s, step))
  {
    ScopeActor(s, step);
    ScopeFrameExecs(s, step);
    forall p | p in s.procs && p != step.p
      ensures p in ScopeApply(s, step).procs && Bystander(s, ScopeApply(s, step), p)
    {
      ScopeBystander(s, step, p);
    }
    ProcsStay(s, ScopeApply(s, step), s.procs.Keys - {step.p});
  }

  lemma ScopeFrameExecs(s: Sys, step: ScopeStep)
    requires ScopeEnabled(s, step)
    ensures ExecsMove(s, ScopeApply(s, step))
    ensures ScopeApply(s, step).procs.Keys <= s.procs.Keys + {step.p}
  {
  }

  // ---------------------------------------------------- stop certificates

  /** No new holder, no new child and no new identity for a stopped execution. */
  ghost predicate StopFrame(s: Sys, t: Sys) {
    && s.db.cleanup <= t.db.cleanup
    && (forall p :: p in t.procs && Holder(t.procs[p]) && t.procs[p].owner in s.stops ==>
          p in s.procs && s.procs[p].owner == t.procs[p].owner && Holder(s.procs[p]))
    && (forall p :: p in t.procs && p !in s.procs ==> p !in s.born)
    && (forall c :: c in t.db.children && c !in s.db.children ==> c.owner !in s.stops)
    && (forall o :: o in s.stops && o in s.db.execs && (s.db.execs[o].identity.Some? || s.db.execs[o].job.None?) ==>
          o in t.db.execs && t.db.execs[o].identity == s.db.execs[o].identity)
  }

  lemma StopStays(s: Sys, t: Sys, o: ExecId)
    requires o in s.stops && StopOk(s, o) && o in t.stops && t.stops[o] == s.stops[o]
    requires JobsOk(s.db) && ExecsOk(s) && AttemptsMove(s, t) && ExecsMove(s, t) && StopFrame(s, t)
    ensures StopOk(t, o)
  {
    assert ExecOk(s, o);
    forall q | q in ChildrenOf(t.db, o) ensures q in t.stops[o] {
      assert ChildRow(o, q) in s.db.children;
      assert q in ChildrenOf(s.db, o);
    }
    if s.db.execs[o].job.Some? && Current(t.db, s.db.execs[o].job.value, o) {
      assert JobOk(s.db, s.db.execs[o].job.value);
    }
  }

  lemma StopsStay(s: Sys, t: Sys)
    requires StopsOk(s) && JobsOk(s.db) && ExecsOk(s) && t.stops == s.stops
    requires AttemptsMove(s, t) && ExecsMove(s, t) && StopFrame(s, t)
    ensures StopsOk(t)
  {
    forall o | o in t.stops ensures StopOk(t, o) { StopStays(s, t, o); }
  }

  /** When reconcile reads the children of a dead attempt, no more can appear. */
  lemma ListedIsStopped(s: Sys, o: ExecId, t: Sys)
    requires ProcsOk(s) && o in s.db.execs
    requires t == s.(stops := s.stops[o := ChildrenOf(s.db, o)])
    requires s.db.execs[o].job.None? ==> o in s.db.cleanup || IdentityDead(s, o)
    requires s.db.execs[o].job.Some? ==> IdentityDead(s, o) && PastStart(s.db, s.db.execs[o].job.value, o)
    ensures StopOk(t, o)
  {
    forall p | p in s.procs && s.procs[p].owner == o ensures !Holder(s.procs[p]) { assert ProcOk(s, p); }
  }

  lemma ClientKeepsStops(limits: Limits, s: Sys, step: ClientStep)
    requires StopsOk(s) && JobsOk(s.db) && ExecsOk(s)
    requires ClientEnabled(limits, s, step) && AttemptsMove(s, ClientApply(limits, s, step))
    ensures StopsOk(ClientApply(limits, s, step))
  {
    StopsStay(s, ClientApply(limits, s, step));
  }

  lemma DispatchFrame(limits: Limits, s: Sys, step: DispatchStep)
    requires DispatchEnabled(limits, s, step)
    ensures StopFrame(s, DispatchApply(limits, s, step)) && ExecsMove(s, DispatchApply(limits, s, step))
  {
  }

  lemma DispatchKeepsStops(limits: Limits, s: Sys, step: DispatchStep)
    requires StopsOk(s) && JobsOk(s.db) && ExecsOk(s)
    requires DispatchEnabled(limits, s, step) && AttemptsMove(s, DispatchApply(limits, s, step))
    ensures StopsOk(DispatchApply(limits, s, step))
  {
    DispatchFrame(limits, s, step);
    StopsStay(s, DispatchApply(limits, s, step));
  }

  lemma ReconcileFrame(s: Sys, step: ReconcileStep)
    requires ReconcileEnabled(s, step)
    ensures StopFrame(s, ReconcileApply(s, step)) && ExecsMove(s, ReconcileApply(s, step))
  {
  }

  lemma ReconcileKeepsStops(s: Sys, step: ReconcileStep)
    requires StopsOk(s) && JobsOk(s.db) && ExecsOk(s) && ProcsOk(s) && RowsOk(s)
    requires ReconcileEnabled(s, step) && AttemptsMove(s, ReconcileApply(s, step))
    ensures StopsOk(ReconcileApply(s, step))
  {
    var t := ReconcileApply(s, step);
    ReconcileFrame(s, step);
    match step
    case ListChildren(row) =>
      assert RowOk(s, row);
      ListedIsStopped(s, row.attempt, t);
      forall o | o in t.stops && o != row.attempt ensures StopOk(t, o) { StopStays(s, t, o); }
    case ListStandalone(a) =>
      ListedIsStopped(s, a, t);
      forall o | o in t.stops && o != a ensures StopOk(t, o) { StopStays(s, t, o); }
    case _ => StopsStay(s, t);
  }

  lemma NotifyKeepsStops(s: Sys, step: NotifyStep)
    requires StopsOk(s) && JobsOk(s.db) && ExecsOk(s)
    requires NotifyEnabled(s, step) && AttemptsMove(s, NotifyApply(s, step))
    ensures StopsOk(NotifyApply(s, step))
  {
    if !step.Restart? { StopsStay(s, NotifyApply(s, step)); }
  }

  /** A stopped attempt cannot pass the start check. */
  lemma StoppedCannotStart(s: Sys, p: ProcId)
    requires StopsOk(s) && InPhase(s, p, Launched) && ProcsOk(s) && s.procs[p].owner in s.stops
    ensures !CanStart(s.db, s.procs[p].role.job, s.procs[p].owner)
  {
    assert ProcOk(s, p) && StopOk(s, s.procs[p].owner);
  }

  lemma WorkerFrame(s: Sys, step: WorkerStep)
    requires WorkerEnabled(s, step)
    requires step.StartWorker? && s.procs[step.p].owner in s.stops ==>
      !CanStart(s.db, s.procs[step.p].role.job, s.procs[step.p].owner)
    ensures StopFrame(s, WorkerApply(s, step)) && ExecsMove(s, WorkerApply(s, step))
  {
  }

  lemma WorkerKeepsStops(s: Sys, step: WorkerStep)
    requires StopsOk(s) && JobsOk(s.db) && ExecsOk(s) && ProcsOk(s)
    requires WorkerEnabled(s, step) && AttemptsMove(s, WorkerApply(s, step))
    ensures StopsOk(WorkerApply(s, step))
  {
    if step.StartWorker? && s.procs[step.p].owner in s.stops { StoppedCannotStart(s, step.p); }
    WorkerFrame(s, step);
    StopsStay(s, WorkerApply(s, step));
  }

  /** A stopped execution admits no child. */
  lemma StoppedCannotAdmit(s: Sys, o: ExecId)
    requires o in s.stops && StopOk(s, o) && ExecsOk(s)
    ensures !CanAdmit(s.db, s.procs.Keys, o)
  {
    assert ExecOk(s, o);
  }

  lemma ChildKeepsStops(s: Sys, step: ChildStep)
    requires StopsOk(s) && JobsOk(s.db) && ExecsOk(s)
    requires ChildEnabled(s, step) && AttemptsMove(s, ChildApply(s, step))
    ensures StopsOk(ChildApply(s, step))
  {
    if step.AdmitChild? && s.procs[step.q].owner in s.stops { StoppedCannotAdmit(s, s.procs[step.q].owner); }
    ChildStopFrame(s, step);
    hide ChildApply, ChildEnabled, StopFrame, AttemptsMove, ExecsMove, StopsOk, JobsOk, ExecsOk;
    StopsStay(s, ChildApply(s, step));
  }

  lemma ChildStopFrame(s: Sys, step: ChildStep)
    requires ChildEnabled(s, step)
    requires step.AdmitChild? && s.procs[step.q].owner in s.stops ==>
      !CanAdmit(s.db, s.procs.Keys, s.procs[step.q].owner)
    ensures var t := ChildApply(s, step); StopFrame(s, t) && ExecsMove(s, t) && t.stops == s.stops
  {
    ChildFrame(s, step);
    hide CanAdmit;
    match step
    case Spawn(_, _) =>
    case AdmitChild(_) =>
    case Die(_) =>
  }

  lemma ScopeFrame(s: Sys, step: ScopeStep)
    requires ScopeEnabled(s, step)
    requires forall o :: o in s.stops ==> o in s.db.execs
    ensures StopFrame(s, ScopeApply(s, step)) && ExecsMove(s, ScopeApply(s, step))
  {
  }

  lemma ScopeKeepsStops(s: Sys, step: ScopeStep)
    requires StopsOk(s) && JobsOk(s.db) && ExecsOk(s)
    requires ScopeEnabled(s, step) && AttemptsMove(s, ScopeApply(s, step))
    ensures StopsOk(ScopeApply(s, step))
  {
    forall o | o in s.stops ensures o in s.db.execs { assert StopOk(s, o); }
    ScopeFrame(s, step);
    StopsStay(s, ScopeApply(s, step));
  }
}
