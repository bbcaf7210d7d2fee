/** The whole invariant is kept by every step, hence holds along every run. */
module Inductive {
  import opened Schema
  import opened Tasks
  import opened Protocol
  import opened Invariants
  import opened JobMoves
  import opened Preservation
  import opened Completions
  import opened LockSafety

  // --------------------------------------------------- entering the body

  lemma EntryStays(s: Sys, t: Sys, except: set<ProcId>)
    requires EntryOk(s) && JobsOk(s.db) && JobsMove(s, t) && t.entered == s.entered && RegistrantsKeep(s, t, except)
    requires forall p :: p in except && p in t.procs && Registrant(t.procs[p]) ==> EnteredOk(t, p)
    ensures EntryOk(t)
  {
    forall j | j in t.db.jobs && NotEntered(t.db.jobs[j]) ensures s.entered[j] == 0 {
      if j in s.db.jobs { UndecidedBefore(s, t, j); }
    }
    forall p | p in t.procs && Registrant(t.procs[p]) ensures EnteredOk(t, p) {
      if p !in except {
        assert EnteredOk(s, p);
        var j := t.procs[p].role.job;
        if NotEntered(t.db.jobs[j]) { UndecidedBefore(s, t, j); }
      }
    }
  }

  lemma UndecidedBefore(s: Sys, t: Sys, j: JobId)
    requires j in s.db.jobs && JobOk(s.db, j) && j in t.db.jobs && JobEdge(s, s.db.jobs[j], t.db.jobs[j])
    requires NotEntered(t.db.jobs[j])
    ensures NotEntered(s.db.jobs[j])
  {
  }

  lemma QuietEntry(s: Sys, t: Sys)
    requires EntryOk(s) && JobsOk(s.db) && JobsMove(s, t) && t.entered == s.entered && RegistrantsKeep(s, t, {})
    ensures EntryOk(t)
  {
    EntryStays(s, t, {});
  }

  lemma EnterKeepsEntry(s: Sys, p: ProcId)
    requires EntryOk(s) && ExecsOk(s) && ProcsOk(s) && WorkerEnabled(s, EnterBody(p))
    ensures EntryOk(WorkerApply(s, EnterBody(p)))
  {
    var t := WorkerApply(s, EnterBody(p));
    var j := s.procs[p].role.job;
    assert ProcOk(s, p) && EnteredOk(s, p) && ExecOk(s, s.procs[p].owner);
    forall q | q in t.procs && Registrant(t.procs[q]) ensures EnteredOk(t, q) {
      assert EnteredOk(s, q);
      if q != p && s.procs[q].role.job == j { OneRegistrant(s, p, q); }
    }
  }

  lemma StartKeepsEntry(s: Sys, p: ProcId)
    requires EntryOk(s) && JobsOk(s.db) && WorkerEnabled(s, StartWorker(p))
    requires JobsMove(s, WorkerApply(s, StartWorker(p)))
    ensures EntryOk(WorkerApply(s, StartWorker(p)))
  {
    var t := WorkerApply(s, StartWorker(p));
    EntryStays(s, t, {p});
  }

  lemma WorkerKeepsEntry(s: Sys, step: WorkerStep)
    requires EntryOk(s) && JobsOk(s.db) && ExecsOk(s) && ProcsOk(s)
    requires WorkerEnabled(s, step) && JobsMove(s, WorkerApply(s, step))
    ensures EntryOk(WorkerApply(s, step))
  {
    match step
    case StartWorker(p) => StartKeepsEntry(s, p);
    case EnterBody(p) => EnterKeepsEntry(s, p);
    case WriteResult(_) => QuietEntry(s, WorkerApply(s, step));
    case Report(p, _) =>
      assert EnteredOk(s, p);
      ReportKeepsUndecided(s, step);
      EntryStays(s, WorkerApply(s, step), {p});
  }

  lemma ReportKeepsUndecided(s: Sys, step: WorkerStep)
    requires step.Report? && WorkerEnabled(s, step) && EnteredOk(s, step.p)
    ensures EnteredOk(WorkerApply(s, step), step.p)
  {
  }

  // ------------------------------------------------------------ capacity

  lemma SubmitKeepsCapacity(limits: Limits, db: Db, j: JobId, job: Job)
    requires CapacityOk(limits, db) && j !in db.jobs && job.status.Queued? && |QueuedJobs(db.jobs)| < limits.maxQueued
    ensures CapacityOk(limits, db.(jobs := db.jobs[j := job]))
  {
    assert QueuedJobs(db.jobs[j := job]) == QueuedJobs(db.jobs) + {j};
    assert ActiveJobs(db.jobs[j := job]) == ActiveJobs(db.jobs);
  }

  /** Changing one row never raises a count unless the row enters that status,
      and a claim needs a free slot. */
  lemma ChangeKeepsCapacity(limits: Limits, db: Db, j: JobId, next: Job)
    requires CapacityOk(limits, db) && j in db.jobs
    requires next.status.Queued? || InFlight(next.status) ==> db.jobs[j].status.Queued? || InFlight(db.jobs[j].status)
    requires InFlight(next.status) && db.jobs[j].status.Queued? ==> |ActiveJobs(db.jobs)| < limits.maxRunning
    ensures CapacityOk(limits, db.(jobs := db.jobs[j := next]))
  {
    var jobs := db.jobs[j := next];
    assert QueuedJobs(jobs) == if next.status.Queued? then QueuedJobs(db.jobs) + {j} else QueuedJobs(db.jobs) - {j};
    assert ActiveJobs(jobs) == if InFlight(next.status) then ActiveJobs(db.jobs) + {j} else ActiveJobs(db.jobs) - {j};
    assert j in QueuedJobs(db.jobs) <==> db.jobs[j].status.Queued?;
    assert j in ActiveJobs(db.jobs) <==> InFlight(db.jobs[j].status);
  }

  lemma SameCapacity(limits: Limits, db: Db, next: Db)
    requires CapacityOk(limits, db) && next.jobs == db.jobs
    ensures CapacityOk(limits, next)
  {
  }

  lemma ClientKeepsCapacity(limits: Limits, s: Sys, step: ClientStep)
    requires CapacityOk(limits, s.db) && ClientEnabled(limits, s, step)
    ensures CapacityOk(limits, ClientApply(limits, s, step).db)
  {
    var next := ClientApply(limits, s, step).db;
    match step
    case SubmitNew(j, _, _, _, _, _) => SubmitKeepsCapacity(limits, s.db, j, next.jobs[j]);
    case Replay(_, _, _, _) =>
    case CancelJob(j) => if next != s.db { ChangeKeepsCapacity(limits, s.db, j, next.jobs[j]); }
    case DeleteJob(j) => ChangeKeepsCapacity(limits, s.db, j, next.jobs[j]);
  }

  lemma DispatchKeepsCapacity(limits: Limits, s: Sys, step: DispatchStep)
    requires CapacityOk(limits, s.db) && JobsOk(s.db) && DispatchEnabled(limits, s, step)
    ensures CapacityOk(limits, DispatchApply(limits, s, step).db)
  {
    var next := DispatchApply(limits, s, step).db;
    match step
    case ClaimJob(j, _) => ChangeKeepsCapacity(limits, s.db, j, next.jobs[j]);
    case AskStop(j, a, final) =>
      if next != s.db {
        assert JobOk(s.db, j);
        ChangeKeepsCapacity(limits, s.db, j, next.jobs[j]);
      }
    case _ =>
  }

  lemma ReconcileKeepsCapacity(limits: Limits, s: Sys, step: ReconcileStep)
    requires CapacityOk(limits, s.db) && JobsOk(s.db) && RowsOk(s) && ReconcileEnabled(s, step)
    ensures CapacityOk(limits, ReconcileApply(s, step).db)
  {
    var next := ReconcileApply(s, step).db;
    match step
    case TimeoutStart(row) => if next != s.db { ChangeKeepsCapacity(limits, s.db, row.job, next.jobs[row.job]); }
    case FinalizeRow(row) =>
      if next != s.db {
        assert JobOk(s.db, row.job);
        FinalizeIsEdge(s, row);
        ChangeKeepsCapacity(limits, s.db, row.job, next.jobs[row.job]);
      }
    case _ =>
  }

  lemma WorkerKeepsCapacity(limits: Limits, s: Sys, step: WorkerStep)
    requires CapacityOk(limits, s.db) && WorkerEnabled(s, step)
    ensures CapacityOk(limits, WorkerApply(s, step).db)
  {
    var next := WorkerApply(s, step).db;
    var j := s.procs[step.p].role.job;
    if next.jobs != s.db.jobs { ChangeKeepsCapacity(limits, s.db, j, next.jobs[j]); }
  }

  // ---------------------------------------------------------- all groups

  lemma RowsStay(s: Sys, t: Sys)
    requires RowsOk(s) && AttemptsMove(s, t) && ExecsMove(s, t) && t.rows <= s.rows
    ensures RowsOk(t)
  {
  }

  /** The bookkeeping that follows from job moves alone. */
  lemma BooksStay(s: Sys, t: Sys)
    requires Moves(s, t) && CancelOk(s) && NotesOk(s.db) && DeliveryOk(s) && KeysOk(s) && ResultsOk(s)
    requires t.db.jobs.Keys == s.db.jobs.Keys
    requires t.cancelled == s.cancelled && t.outbox == s.outbox && t.delivered == s.delivered && t.replies == s.replies
    ensures CancelOk(t) && NotesOk(t.db) && DeliveryOk(t) && KeysOk(t) && ResultsOk(t)
  {
    CancelStays(s, t);
    NotesStay(s, t);
    DeliveryStays(s, t);
    ResultsStay(s, t);
    TasksStay(s, t);
    KeysStay(s, t);
  }

  lemma ClientKeepsCancel(limits: Limits, s: Sys, step: ClientStep)
    requires CancelOk(s) && JobsOk(s.db) && ClientEnabled(limits, s, step) && JobsMove(s, ClientApply(limits, s, step))
    ensures CancelOk(ClientApply(limits, s, step))
  {
    assert step.CancelJob? ==> JobOk(s.db, step.j);
    CancelStays(s, ClientApply(limits, s, step));
  }

  lemma ClientKeepsKeys(limits: Limits, s: Sys, step: ClientStep)
    requires KeysOk(s) && ClientEnabled(limits, s, step)
    requires forall j :: j in s.db.jobs ==>
      j in ClientApply(limits, s, step).db.jobs && SameTask(s.db.jobs[j], ClientApply(limits, s, step).db.jobs[j])
    ensures KeysOk(ClientApply(limits, s, step))
  {
  }

  lemma NotifyKeepsBooks(s: Sys, step: NotifyStep)
    requires CancelOk(s) && NotesOk(s.db) && DeliveryOk(s) && KeysOk(s) && ResultsOk(s)
    requires NotifyEnabled(s, step) && Moves(s, NotifyApply(s, step))
    ensures var t := NotifyApply(s, step); CancelOk(t) && NotesOk(t.db) && DeliveryOk(t) && KeysOk(t) && ResultsOk(t)
  {
    var t := NotifyApply(s, step);
    NotesStay(s, t);
    NotifyKeepsDelivery(s, step);
    NotifyKeepsJobTable(s, step);
    hide NotifyApply, DeliveryOk, NotesOk, Moves;
    SameJobTable(s, t);
  }

  lemma NotifyKeepsJobTable(s: Sys, step: NotifyStep)
    requires NotifyEnabled(s, step)
    ensures var t := NotifyApply(s, step);
      t.db.jobs == s.db.jobs && t.cancelled == s.cancelled && t.replies == s.replies && t.results == s.results
  {
  }

  lemma SameJobTable(s: Sys, t: Sys)
    requires t.db.jobs == s.db.jobs && t.cancelled == s.cancelled && t.replies == s.replies && t.results == s.results
    requires CancelOk(s) && KeysOk(s) && ResultsOk(s)
    ensures CancelOk(t) && KeysOk(t) && ResultsOk(t)
  {
  }

  lemma NotifyKeepsDelivery(s: Sys, step: NotifyStep)
    requires DeliveryOk(s) && NotifyEnabled(s, step)
    ensures DeliveryOk(NotifyApply(s, step))
  {
  }

  lemma ReconcileKeepsRows(s: Sys, step: ReconcileStep)
    requires RowsOk(s) && JobsOk(s.db) && ReconcileEnabled(s, step)
    requires AttemptsMove(s, ReconcileApply(s, step)) && ExecsMove(s, ReconcileApply(s, step))
    ensures RowsOk(ReconcileApply(s, step))
  {
    var t := ReconcileApply(s, step);
    if step.ReadRow? {
      assert JobOk(s.db, step.j);
    }
    forall row | row in t.rows ensures RowOk(t, row) {
      if row in s.rows { RowStays(s, t, row); }
    }
  }

  lemma ClientQuiet(limits: Limits, s: Sys, step: ClientStep)
    requires ClientEnabled(limits, s, step) && OpenOk(s)
    ensures var t := ClientApply(limits, s, step); RegistrantsKeep(s, t, {}) && OpenOk(t) && ExecsMove(s, t)
    ensures var t := ClientApply(limits, s, step); t.rows <= s.rows && t.entered == s.entered
    ensures var t := ClientApply(limits, s, step); t.outbox == s.outbox && t.delivered == s.delivered
    ensures var t := ClientApply(limits, s, step);
      t.db.locks == s.db.locks && t.db.scopes == s.db.scopes && t.db.execs == s.db.execs
  {
  }

  lemma ClientKeeps(limits: Limits, s: Sys, step: ClientStep)
    requires Inv(limits, s) && ClientEnabled(limits, s, step)
    ensures Inv(limits, ClientApply(limits, s, step))
  {
    hide JobsOk, ExecsOk, LocksOk, ProcsOk, OpenOk, RowsOk, StopsOk, EntryOk, CancelOk, NotesOk;
    hide DeliveryOk, KeysOk, ResultsOk, CompletionsOk, CapacityOk, AttemptsMove, ExecsMove;
    hide JobsMove, NotesMove, RegistrantsKeep, ClientApply, ClientEnabled;
    var t := ClientApply(limits, s, step);
    ClientMoves(limits, s, step);
    AttemptsFollow(s, t);
    ClientQuiet(limits, s, step);
    ClientKeepsJobs(limits, s, step);
    ClientKeepsExecs(limits, s, step);
    LocksUntouched(s.db, t.db);
    ClientKeepsProcs(limits, s, step);
    RowsStay(s, t);
    ClientKeepsStops(limits, s, step);
    QuietEntry(s, t);
    ClientKeepsCancel(limits, s, step);
    NotesStay(s, t);
    DeliveryStays(s, t);
    ResultsStay(s, t);
    TasksStay(s, t);
    ClientKeepsKeys(limits, s, step);
    ClientKeepsCompletions(limits, s, step);
    ClientKeepsCapacity(limits, s, step);
  }

  lemma DispatchQuiet(limits: Limits, s: Sys, step: DispatchStep)
    requires DispatchEnabled(limits, s, step) && OpenOk(s)
    ensures var t := DispatchApply(limits, s, step);
      RegistrantsKeep(s, t, {}) && OpenOk(t) && ExecsMove(s, t) && Quiet(s, t)
  {
  }

  lemma DispatchKeeps(limits: Limits, s: Sys, step: DispatchStep)
    requires Inv(limits, s) && DispatchEnabled(limits, s, step)
    ensures Inv(limits, DispatchApply(limits, s, step))
  {
    hide JobsOk, ExecsOk, LocksOk, ProcsOk, OpenOk, RowsOk, StopsOk, EntryOk, CancelOk, NotesOk;
    hide DeliveryOk, KeysOk, ResultsOk, CompletionsOk, CapacityOk, AttemptsMove, ExecsMove;
    hide JobsMove, NotesMove, RegistrantsKeep, DispatchApply, DispatchEnabled;
    var t := DispatchApply(limits, s, step);
    DispatchMoves(limits, s, step);
    AttemptsFollow(s, t);
    DispatchQuiet(limits, s, step);
    DispatchKeepsJobs(limits, s, step);
    DispatchKeepsExecs(limits, s, step);
    DispatchKeepsLocks(limits, s, step);
    DispatchKeepsProcs(limits, s, step);
    RowsStay(s, t);
    DispatchKeepsStops(limits, s, step);
    QuietEntry(s, t);
    BooksStay(s, t);
    DispatchKeepsCompletions(limits, s, step);
    DispatchKeepsCapacity(limits, s, step);
  }

  lemma ReconcileQuiet(s: Sys, step: ReconcileStep)
    requires ReconcileEnabled(s, step) && JobsOk(s.db) && RowsOk(s)
    ensures var t := ReconcileApply(s, step);
      RegistrantsKeep(s, t, {}) && ExecsMove(s, t) && Quiet(s, t.(rows := s.rows))
  {
  }

  lemma ReconcileKeepsOpen(s: Sys, step: ReconcileStep)
    requires ReconcileEnabled(s, step) && OpenOk(s) && ProcsOk(s) && StopsOk(s)
    ensures OpenOk(ReconcileApply(s, step))
  {
    var t := ReconcileApply(s, step);
    forall p | p in s.procs ensures Bystander(s, t, p) { ReconcileBystander(s, step, p); }
  }

  lemma ReconcileKeeps(limits: Limits, s: Sys, step: ReconcileStep)
    requires Inv(limits, s) && ReconcileEnabled(s, step)
    ensures Inv(limits, ReconcileApply(s, step))
  {
    hide JobsOk, ExecsOk, LocksOk, ProcsOk, OpenOk, RowsOk, StopsOk, EntryOk, CancelOk, NotesOk;
    hide DeliveryOk, KeysOk, ResultsOk, CompletionsOk, CapacityOk, AttemptsMove, ExecsMove;
    hide JobsMove, NotesMove, RegistrantsKeep, ReconcileApply, ReconcileEnabled;
    var t := ReconcileApply(s, step);
    ReconcileMoves(s, step);
    AttemptsFollow(s, t);
    ReconcileQuiet(s, step);
    ReconcileKeepsOpen(s, step);
    ReconcileKeepsJobs(s, step);
    ReconcileKeepsExecs(s, step);
    ReconcileKeepsLocks(s, step);
    ReconcileKeepsProcs(s, step);
    ReconcileKeepsRows(s, step);
    ReconcileKeepsStops(s, step);
    QuietEntry(s, t);
    BooksStay(s, t);
    ReconcileKeepsCompletions(s, step);
    ReconcileKeepsCapacity(limits, s, step);
  }

  lemma NotifyQuiet(s: Sys, step: NotifyStep)
    requires NotifyEnabled(s, step) && OpenOk(s)
    ensures var t := NotifyApply(s, step);
      && RegistrantsKeep(s, t, {}) && OpenOk(t) && ExecsMove(s, t)
      && Quiet(s, t.(outbox := s.outbox, delivered := s.delivered))
    ensures var t := NotifyApply(s, step);
      t.db.locks == s.db.locks && t.db.scopes == s.db.scopes && t.db.execs == s.db.execs && t.db.jobs == s.db.jobs
  {
  }

  lemma NotifyKeeps(limits: Limits, s: Sys, step: NotifyStep)
    requires Inv(limits, s) && NotifyEnabled(s, step)
    ensures Inv(limits, NotifyApply(s, step))
  {
    hide JobsOk, ExecsOk, LocksOk, ProcsOk, OpenOk, RowsOk, StopsOk, EntryOk, CancelOk, NotesOk;
    hide DeliveryOk, KeysOk, ResultsOk, CompletionsOk, CapacityOk, AttemptsMove, ExecsMove;
    hide JobsMove, NotesMove, RegistrantsKeep, NotifyApply, NotifyEnabled;
    var t := NotifyApply(s, step);
    NotifyMoves(s, step);
    AttemptsFollow(s, t);
    NotifyQuiet(s, step);
    NotifyKeepsJobs(s, step);
    NotifyKeepsExecs(s, step);
    LocksUntouched(s.db, t.db);
    NotifyKeepsProcs(s, step);
    RowsStay(s, t);
    NotifyKeepsStops(s, step);
    QuietEntry(s, t);
    NotifyKeepsBooks(s, step);
    SameOutcomes(s, t);
    SameCapacity(limits, s.db, t.db);
  }

  /** Scopes stay entered by one process each when no process enters one. */
  lemma OpenStays(s: Sys, t: Sys)
    requires OpenOk(s) && t.db.scopes == s.db.scopes
    requires forall p :: p in t.procs ==> t.procs[p].open == {} || (p in s.procs && t.procs[p].open == s.procs[p].open)
    ensures OpenOk(t)
  {
  }

  lemma WorkerQuiet(s: Sys, step: WorkerStep)
    requires WorkerEnabled(s, step) && OpenOk(s)
    ensures var t := WorkerApply(s, step); OpenOk(t) && ExecsMove(s, t) && Quiet(s, t.(entered := s.entered))
  {
    var t := WorkerApply(s, step);
    WorkerTables(s, step);
    hide OpenOk;
    assert forall p :: p in t.procs ==> p in s.procs && t.procs[p].open == s.procs[p].open;
    hide WorkerApply;
    OpenStays(s, t);
  }

  lemma WorkerKeepsLocks(s: Sys, step: WorkerStep)
    requires WorkerEnabled(s, step) && LocksOk(s.db)
    ensures LocksOk(WorkerApply(s, step).db)
  {
  }

  lemma WorkerKeeps(limits: Limits, s: Sys, step: WorkerStep)
    requires Inv(limits, s) && WorkerEnabled(s, step)
    ensures Inv(limits, WorkerApply(s, step))
  {
    hide JobsOk, ExecsOk, LocksOk, ProcsOk, OpenOk, RowsOk, StopsOk, EntryOk, CancelOk, NotesOk;
    hide DeliveryOk, KeysOk, ResultsOk, CompletionsOk, CapacityOk, AttemptsMove, ExecsMove;
    hide JobsMove, NotesMove, RegistrantsKeep, WorkerApply, WorkerEnabled;
    var t := WorkerApply(s, step);
    WorkerMoves(s, step);
    AttemptsFollow(s, t);
    WorkerQuiet(s, step);
    WorkerKeepsJobs(s, step);
    WorkerKeepsExecs(s, step);
    WorkerKeepsLocks(s, step);
    WorkerKeepsProcs(s, step);
    RowsStay(s, t);
    WorkerKeepsStops(s, step);
    WorkerKeepsEntry(s, step);
    BooksStay(s, t);
    WorkerKeepsCompletions(s, step);
    WorkerKeepsCapacity(limits, s, step);
  }

  lemma ChildQuiet(s: Sys, step: ChildStep)
    requires ChildEnabled(s, step) && OpenOk(s)
    ensures var t := ChildApply(s, step); RegistrantsKeep(s, t, {}) && OpenOk(t) && ExecsMove(s, t) && Quiet(s, t)
    ensures var t := ChildApply(s, step);
      t.db.locks == s.db.locks && t.db.scopes == s.db.scopes && t.db.execs == s.db.execs && t.db.jobs == s.db.jobs
  {
    var t := ChildApply(s, step);
    ChildFrame(s, step);
    forall p | p in s.procs && p in t.procs
      ensures t.procs[p].open == {} || t.procs[p].open == s.procs[p].open
      ensures Registrant(t.procs[p]) ==> t.procs[p].role == s.procs[p].role && t.procs[p].owner == s.procs[p].owner
    {
      ChildProcs(s, step, p);
    }
    hide ChildApply, OpenOk;
    OpenStays(s, t);
  }

  lemma ChildKeeps(limits: Limits, s: Sys, step: ChildStep)
    requires Inv(limits, s) && ChildEnabled(s, step)
    ensures Inv(limits, ChildApply(s, step))
  {
    hide JobsOk, ExecsOk, LocksOk, ProcsOk, OpenOk, RowsOk, StopsOk, EntryOk, CancelOk, NotesOk;
    hide DeliveryOk, KeysOk, ResultsOk, CompletionsOk, CapacityOk, AttemptsMove, ExecsMove;
    hide JobsMove, NotesMove, RegistrantsKeep, ChildApply, ChildEnabled;
    var t := ChildApply(s, step);
    ChildMoves(s, step);
    AttemptsFollow(s, t);
    ChildQuiet(s, step);
    ChildKeepsJobs(s, step);
    ChildKeepsExecs(s, step);
    LocksUntouched(s.db, t.db);
    ChildKeepsProcs(s, step);
    RowsStay(s, t);
    ChildKeepsStops(s, step);
    QuietEntry(s, t);
    BooksStay(s, t);
    SameOutcomes(s, t);
    SameCapacity(limits, s.db, t.db);
  }

  lemma ScopeQuiet(s: Sys, step: ScopeStep)
    requires ScopeEnabled(s, step)
    ensures var t := ScopeApply(s, step); RegistrantsKeep(s, t, {}) && ExecsMove(s, t) && Quiet(s, t)
    ensures ScopeApply(s, step).db.jobs == s.db.jobs
  {
  }

  lemma ScopeKeepsOpen(s: Sys, step: ScopeStep)
    requires ScopeEnabled(s, step) && OpenOk(s)
    ensures OpenOk(ScopeApply(s, step))
  {
  }

  lemma ScopeKeeps(limits: Limits, s: Sys, step: ScopeStep)
    requires Inv(limits, s) && ScopeEnabled(s, step)
    ensures Inv(limits, ScopeApply(s, step))
  {
    hide JobsOk, ExecsOk, LocksOk, ProcsOk, OpenOk, RowsOk, StopsOk, EntryOk, CancelOk, NotesOk;
    hide DeliveryOk, KeysOk, ResultsOk, CompletionsOk, CapacityOk, AttemptsMove, ExecsMove;
    hide JobsMove, NotesMove, RegistrantsKeep, ScopeApply, ScopeEnabled;
    var t := ScopeApply(s, step);
    ScopeMoves(s, step);
    AttemptsFollow(s, t);
    ScopeQuiet(s, step);
    ScopeKeepsOpen(s, step);
    ScopeKeepsJobs(s, step);
    ScopeKeepsExecs(s, step);
    ScopeKeepsLocks(s, step);
    ScopeKeepsProcs(s, step);
    RowsStay(s, t);
    ScopeKeepsStops(s, step);
    QuietEntry(s, t);
    BooksStay(s, t);
    SameOutcomes(s, t);
    SameCapacity(limits, s.db, t.db);
  }

  lemma StepKeeps(limits: Limits, s: Sys, step: Step)
    requires Inv(limits, s) && Enabled(limits, s, step)
    ensures Inv(limits, Apply(limits, s, step))
  {
    match step
    case ByClient(c) => ClientKeeps(limits, s, c);
    case ByDispatch(d) => DispatchKeeps(limits, s, d);
    case ByReconcile(r) => ReconcileKeeps(limits, s, r);
    case ByNotify(n) => NotifyKeeps(limits, s, n);
    case ByWorker(w) => WorkerKeeps(limits, s, w);
    case ByChild(k) => ChildKeeps(limits, s, k);
    case ByScope(h) => ScopeKeeps(limits, s, h);
  }

  lemma InitialHolds(limits: Limits)
    ensures Inv(limits, Initial())
  {
  }

  /** The invariant holds in every state of every run. */
  lemma {:induction false} RunHolds(limits: Limits, run: seq<Sys>, steps: seq<Step>, i: nat)
    requires IsRun(limits, run, steps) && i < |run|
    ensures Inv(limits, run[i])
  {
    if i == 0 {
      InitialHolds(limits);
    } else {
      RunHolds(limits, run, steps, i - 1);
      StepKeeps(limits, run[i - 1], steps[i - 1]);
    }
  }
}
