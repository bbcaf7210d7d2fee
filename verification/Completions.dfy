/** What the reported outcomes of workers, the rows the daemon has read and the
    result files have to do with each other. */
module Completions {
  import opened Schema
  import opened Tasks
  import opened Runtime
  import opened Protocol
  import opened Invariants
  import opened JobMoves

  /** Workers past the start check, other than those listed, are unchanged. */
  ghost predicate RegistrantsKeep(s: Sys, t: Sys, except: set<ProcId>) {
    forall p :: p in t.procs && Registrant(t.procs[p]) && p !in except ==>
      p in s.procs && s.procs[p].role == t.procs[p].role && s.procs[p].owner == t.procs[p].owner
  }

  /** Two workers past the start check for one job are the same process: both
      are the recorded identity of the job's one unfinished attempt. */
  lemma OneRegistrant(s: Sys, p: ProcId, q: ProcId)
    requires ExecsOk(s) && ProcsOk(s) && p in s.procs && q in s.procs
    requires Registrant(s.procs[p]) && Registrant(s.procs[q]) && s.procs[p].role.job == s.procs[q].role.job
    ensures p == q
  {
  }

  /** No outcome is written; one may be dropped with the job leaving `running`. */
  ghost predicate OutcomesKeep(s: Sys, t: Sys) {
    forall j :: j in s.db.jobs && j in t.db.jobs ==> OutcomeKept(s.db.jobs[j], t.db.jobs[j])
  }

  predicate OutcomeKept(job: Job, next: Job) {
    next.completion == job.completion || (next.completion.None? && !next.status.Running?)
  }

  lemma RunningBefore(s: Sys, job: Job, next: Job)
    requires JobEdge(s, job, next) && OutcomeKept(job, next) && next.status.Running? && next.completion.Some?
    requires job.completion.Some? ==> job.status in {Running, Cancelling}
    ensures next == job
  {
  }

  lemma CompletionsStay(s: Sys, t: Sys, except: set<ProcId>)
    requires CompletionsOk(s) && JobsOk(s.db) && RowsOk(s) && ProcsOk(s)
    requires JobsMove(s, t) && AttemptsMove(s, t) && OutcomesKeep(s, t) && RegistrantsKeep(s, t, except)
    requires s.results <= t.results && t.rows <= s.rows
    requires forall p :: p in except && p in t.procs && Registrant(t.procs[p]) ==> Unreported(t, p)
    ensures CompletionsOk(t)
  {
    hide JobEdge;
    forall p | p in t.procs && Registrant(t.procs[p]) ensures Unreported(t, p) {
      if p !in except {
        assert Unreported(s, p) && ProcOk(s, p);
        var j := t.procs[p].role.job;
        if Current(t.db, j, t.procs[p].owner) { assert OutcomeKept(s.db.jobs[j], t.db.jobs[j]); }
      }
    }
    forall row | row in t.rows ensures ReadOutcome(t, row) { OutcomeStillRead(s, t, row); }
    forall j | j in t.db.jobs ensures SuccessStaged(t, j) {
      if j in s.db.jobs && t.db.jobs[j].status.Running? && t.db.jobs[j].completion.Some? {
        assert JobOk(s.db, j) && SuccessStaged(s, j);
        RunningBefore(s, s.db.jobs[j], t.db.jobs[j]);
      }
    }
  }

  lemma OutcomeStillRead(s: Sys, t: Sys, row: Row)
    requires RowOk(s, row) && ReadOutcome(s, row)
    requires JobsMove(s, t) && AttemptsMove(s, t) && OutcomesKeep(s, t)
    ensures ReadOutcome(t, row)
  {
    hide JobEdge;
    if Current(t.db, row.job, row.attempt) {
      assert OutcomeKept(s.db.jobs[row.job], t.db.jobs[row.job]);
    }
  }

  /** Steps that leave the job table alone. */
  lemma SameOutcomes(s: Sys, t: Sys)
    requires CompletionsOk(s) && JobsOk(s.db) && RowsOk(s) && ProcsOk(s)
    requires JobsMove(s, t) && AttemptsMove(s, t) && t.db.jobs == s.db.jobs && RegistrantsKeep(s, t, {})
    requires s.results <= t.results && t.rows <= s.rows
    ensures CompletionsOk(t)
  {
    hide CompletionsOk, JobsOk, RowsOk, ProcsOk, JobsMove, AttemptsMove, RegistrantsKeep;
    CompletionsStay(s, t, {});
  }

  lemma ClientOutcomes(limits: Limits, s: Sys, step: ClientStep)
    requires ClientEnabled(limits, s, step)
    ensures var t := ClientApply(limits, s, step); OutcomesKeep(s, t) && s.results <= t.results && t.rows <= s.rows
  {
  }

  lemma ClientKeepsCompletions(limits: Limits, s: Sys, step: ClientStep)
    requires CompletionsOk(s) && JobsOk(s.db) && RowsOk(s) && ProcsOk(s) && ClientEnabled(limits, s, step)
    requires var t := ClientApply(limits, s, step); JobsMove(s, t) && AttemptsMove(s, t) && RegistrantsKeep(s, t, {})
    ensures CompletionsOk(ClientApply(limits, s, step))
  {
    var t := ClientApply(limits, s, step);
    ClientOutcomes(limits, s, step);
    hide CompletionsOk, JobsOk, RowsOk, ProcsOk, JobsMove, AttemptsMove, RegistrantsKeep, OutcomesKeep, ClientApply;
    CompletionsStay(s, t, {});
  }

  lemma DispatchOutcomes(limits: Limits, s: Sys, step: DispatchStep)
    requires DispatchEnabled(limits, s, step)
    ensures var t := DispatchApply(limits, s, step); OutcomesKeep(s, t) && s.results <= t.results && t.rows <= s.rows
  {
  }

  lemma DispatchKeepsCompletions(limits: Limits, s: Sys, step: DispatchStep)
    requires CompletionsOk(s) && JobsOk(s.db) && RowsOk(s) && ProcsOk(s) && DispatchEnabled(limits, s, step)
    requires var t := DispatchApply(limits, s, step); JobsMove(s, t) && AttemptsMove(s, t) && RegistrantsKeep(s, t, {})
    ensures CompletionsOk(DispatchApply(limits, s, step))
  {
    var t := DispatchApply(limits, s, step);
    DispatchOutcomes(limits, s, step);
    hide CompletionsOk, JobsOk, RowsOk, ProcsOk, JobsMove, AttemptsMove, RegistrantsKeep, OutcomesKeep, DispatchApply;
    CompletionsStay(s, t, {});
  }

  lemma ReconcileOutcomes(s: Sys, step: ReconcileStep)
    requires JobsOk(s.db) && RowsOk(s) && ReconcileEnabled(s, step)
    ensures OutcomesKeep(s, ReconcileApply(s, step)) && s.results == ReconcileApply(s, step).results
  {
    match step
    case TimeoutStart(row) =>
      assert RowOk(s, row) && (row.job in s.db.jobs ==> JobOk(s.db, row.job));
    case _ =>
  }

  lemma ReconcileKeepsCompletions(s: Sys, step: ReconcileStep)
    requires CompletionsOk(s) && JobsOk(s.db) && RowsOk(s) && ProcsOk(s) && ReconcileEnabled(s, step)
    requires var t := ReconcileApply(s, step); JobsMove(s, t) && AttemptsMove(s, t) && RegistrantsKeep(s, t, {})
    ensures CompletionsOk(ReconcileApply(s, step))
  {
    var t := ReconcileApply(s, step);
    if step.ReadRow? {
      assert JobOk(s.db, step.j) && ReadOutcome(s, RowOf(s.db, step.j));
      assert t == s.(rows := t.rows);
      hide JobsOk, RowsOk, ProcsOk, JobsMove, AttemptsMove, RegistrantsKeep;
    } else {
      assert t.rows == s.rows;
      ReconcileOutcomes(s, step);
      hide CompletionsOk, JobsOk, RowsOk, ProcsOk, JobsMove, AttemptsMove, RegistrantsKeep, OutcomesKeep;
      CompletionsStay(s, t, {});
    }
  }

  lemma WorkerKeepsCompletions(s: Sys, step: WorkerStep)
    requires CompletionsOk(s) && JobsOk(s.db) && ExecsOk(s) && RowsOk(s) && ProcsOk(s) && WorkerEnabled(s, step)
    requires var t := WorkerApply(s, step); JobsMove(s, t) && AttemptsMove(s, t)
    ensures CompletionsOk(WorkerApply(s, step))
  {
    var t := WorkerApply(s, step);
    if step.Report? {
      ReportKeepsCompletions(s, step);
    } else {
      WorkerOutcomes(s, step);
      hide CompletionsOk, JobsOk, ExecsOk, RowsOk, ProcsOk;
      hide JobsMove, AttemptsMove, RegistrantsKeep, OutcomesKeep, WorkerApply;
      CompletionsStay(s, t, {step.p});
    }
  }

  lemma WorkerOutcomes(s: Sys, step: WorkerStep)
    requires CompletionsOk(s) && JobsOk(s.db) && WorkerEnabled(s, step) && !step.Report?
    ensures var t := WorkerApply(s, step);
      OutcomesKeep(s, t) && RegistrantsKeep(s, t, {step.p}) && s.results <= t.results && t.rows == s.rows
    ensures var t := WorkerApply(s, step);
      step.p in t.procs && Registrant(t.procs[step.p]) ==> Unreported(t, step.p)
  {
    var j := s.procs[step.p].role.job;
    if step.StartWorker? {
      assert j in s.db.jobs ==> JobOk(s.db, j);
    } else {
      assert Unreported(s, step.p);
    }
  }

  /** The one worker of the attempt reports: nobody has read an outcome before. */
  lemma ReportKeepsCompletions(s: Sys, step: WorkerStep)
    requires CompletionsOk(s) && ExecsOk(s) && ProcsOk(s) && step.Report? && WorkerEnabled(s, step)
    ensures CompletionsOk(WorkerApply(s, step))
  {
    var t := WorkerApply(s, step);
    var p := step.p;
    var j, a := s.procs[p].role.job, s.procs[p].owner;
    assert Unreported(s, p);
    forall q | q in t.procs && Registrant(t.procs[q]) ensures Unreported(t, q) {
      if q != p {
        assert Unreported(s, q);
        if t.procs[q].role.job == j { OneRegistrant(s, p, q); }
      }
    }
    hide ExecsOk, ProcsOk;
    forall row | row in t.rows ensures ReadOutcome(t, row) { assert ReadOutcome(s, row); }
    forall k | k in t.db.jobs ensures SuccessStaged(t, k) { assert SuccessStaged(s, k); }
  }
}
