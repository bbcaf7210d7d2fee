/** Where a tempting stronger claim is not what the runtime does: a run that
    breaks it, and the exact condition under which it holds. */
module Boundaries {
  import opened Wrappers
  import opened Schema
  import opened Locks
  import opened Tasks
  import opened Runtime
  import opened Protocol
  import opened Invariants
  import opened Inductive
  import opened LockSafety
  import opened Theorems
  import opened TaskStore

  /** The daemon's loop body is one step of the protocol, or none: whatever it
      observed about a row it had read, the database moves as the protocol says. */
  lemma ReconcileRowIsStep(limits: Limits, s: Sys, row: Row, seen: Observation)
    requires row in s.rows && row.attempt in s.db.execs
    requires seen.stopped ==> row.attempt in s.stops && s.stops[row.attempt] !! s.procs.Keys
    ensures var next := ReconcileRow(s.db, s.results, row, seen);
      next == s.db || exists step :: Enabled(limits, s, step) && Apply(limits, s, step).db == next
  {
    var next := ReconcileRow(s.db, s.results, row, seen);
    var step :=
      if row.status.Starting? then ByReconcile(TimeoutStart(row))
      else if row.status.Running? && seen.processAlive then ByDispatch(AskStop(row.job, row.attempt, Failed))
      else if !seen.stopped then ByDispatch(AskStop(row.job, row.attempt, Lost))
      else ByReconcile(FinalizeRow(row));
    if next != s.db {
      assert Enabled(limits, s, step) && Apply(limits, s, step).db == next;
    }
  }

  // ------------------------------------------- completion read too early

  /** The job is running and its worker has committed the outcome `o`. */
  predicate Reported(s: Sys, j: JobId, o: Status) {
    j in s.db.jobs && s.db.jobs[j].status.Running? && s.db.jobs[j].completion == Some(o)
  }

  /** The daemon finalizes a row; `read` says whether it had read an outcome. */
  predicate Finalizes(step: Step, read: bool) {
    step.ByReconcile? && step.reconcile.FinalizeRow? && step.reconcile.row.completion.Some? == read
  }

  /** What the step that takes such a job out of `running` makes of it: the outcome, with
      the result file if the attempt left one; or lost; or a job that is being stopped. */
  predicate Settled(s: Sys, step: Step, j: JobId, o: Status, job: Job)
    requires j in s.db.jobs
  {
    job.attempt == s.db.jobs[j].attempt &&
    if Finalizes(step, true) then
      && job.status == o && job.attempt.Some?
      && job.published == if job.attempt.value in s.results then job.attempt else None
    else if Finalizes(step, false) then job.status.Lost? && job.published.None?
    else job.status.Cancelling? && job.stopFinal in {None, Some(Failed), Some(Lost)} && job.published.None?
  }

  lemma OutcomeSettles(limits: Limits, s: Sys, step: Step, j: JobId, o: Status)
    requires Inv(limits, s) && Enabled(limits, s, step) && Reported(s, j, o)
    ensures var t := Apply(limits, s, step);
      Reported(t, j, o) || (j in t.db.jobs && !t.db.jobs[j].status.Running? && Settled(s, step, j, o, t.db.jobs[j]))
  {
    hide Inv, JobOk, JobsOk, CompletionsOk, RowsOk, Settled;
    hide ClientApply, DispatchApply, ReconcileApply, NotifyApply, WorkerApply, ChildApply, ScopeApply, ClientEnabled;
    hide DispatchEnabled, ReconcileEnabled, NotifyEnabled, WorkerEnabled, ChildEnabled, ScopeEnabled;
    InvHasCompletions(limits, s, j);
    match step
    case ByWorker(w) => NoSecondReport(s, w, j, o);
    case ByReconcile(r) => FinalizeSettles(s, r, j, o);
    case ByClient(c) => ClientSettles(limits, s, c, j, o);
    case ByDispatch(d) => DispatchSettles(limits, s, d, j, o);
    case ByNotify(n) => NotifyKeepsJobTable(s, n);
    case ByChild(k) => ChildMovesNoJob(s, k);
    case ByScope(h) => ScopeMovesNoJob(s, h);
  }

  lemma InvHasCompletions(limits: Limits, s: Sys, j: JobId)
    requires Inv(limits, s) && j in s.db.jobs
    ensures JobOk(s.db, j) && CompletionsOk(s) && RowsOk(s)
    ensures s.db.jobs[j].status.Running? ==> s.db.jobs[j].published.None?
  {
    assert ResultsOk(s) ==> ResultOk(s, j);
    hide JobOk, ExecsOk, LocksOk, ProcsOk, OpenOk, RowsOk, StopsOk, EntryOk, CancelOk, NotesOk, DeliveryOk, KeysOk;
    hide ResultsOk, CompletionsOk, CapacityOk;
  }

  lemma ClientSettles(limits: Limits, s: Sys, step: ClientStep, j: JobId, o: Status)
    requires ClientEnabled(limits, s, step) && Reported(s, j, o) && JobOk(s.db, j) && s.db.jobs[j].published.None?
    ensures var t := ClientApply(limits, s, step);
      || Reported(t, j, o)
      || (j in t.db.jobs && !t.db.jobs[j].status.Running? && Settled(s, ByClient(step), j, o, t.db.jobs[j]))
  {
  }

  lemma DispatchSettles(limits: Limits, s: Sys, step: DispatchStep, j: JobId, o: Status)
    requires DispatchEnabled(limits, s, step) && Reported(s, j, o) && s.db.jobs[j].published.None?
    ensures var t := DispatchApply(limits, s, step);
      || Reported(t, j, o)
      || (j in t.db.jobs && !t.db.jobs[j].status.Running? && Settled(s, ByDispatch(step), j, o, t.db.jobs[j]))
  {
  }

  lemma ChildMovesNoJob(s: Sys, step: ChildStep)
    requires ChildEnabled(s, step)
    ensures ChildApply(s, step).db.jobs == s.db.jobs
  {
  }

  lemma ScopeMovesNoJob(s: Sys, step: ScopeStep)
    requires ScopeEnabled(s, step)
    ensures ScopeApply(s, step).db.jobs == s.db.jobs
  {
  }

  /** The worker that could report again has reported already. */
  lemma NoSecondReport(s: Sys, step: WorkerStep, j: JobId, o: Status)
    requires CompletionsOk(s) && WorkerEnabled(s, step) && Reported(s, j, o)
    ensures WorkerApply(s, step).db.jobs == s.db.jobs
      || (j in WorkerApply(s, step).db.jobs && WorkerApply(s, step).db.jobs[j] == s.db.jobs[j])
  {
    if step.Report? { assert Unreported(s, step.p); }
  }

  lemma FinalizeSettles(s: Sys, step: ReconcileStep, j: JobId, o: Status)
    requires CompletionsOk(s) && RowsOk(s) && ReconcileEnabled(s, step) && Reported(s, j, o)
    requires JobOk(s.db, j) && s.db.jobs[j].published.None?
    ensures var t := ReconcileApply(s, step);
      && j in t.db.jobs
      && (t.db.jobs[j] == s.db.jobs[j]
          || (!t.db.jobs[j].status.Running? && Settled(s, ByReconcile(step), j, o, t.db.jobs[j])))
  {
    assert SuccessStaged(s, j);
    match step
    case TimeoutStart(row) => assert RowOk(s, row);
    case FinalizeRow(row) => assert RowOk(s, row) && ReadOutcome(s, row);
    case _ =>
  }

  /** Over every run: a committed outcome becomes the job's, its file published if there
      is one, if and only if the daemon finalizes the job with the outcome read; the job
      is lost if and only if it is finalized with no outcome read; and every other step
      that takes it out of `running` leaves it cancelling. */
  lemma {:induction false} CompletionHonoured(limits: Limits, run: seq<Sys>, steps: seq<Step>, i: nat, k: nat, j: JobId,
                                              o: Status)
    requires IsRun(limits, run, steps) && i < k < |run| && Reported(run[i], j, o)
    requires forall m :: i <= m < k ==> j in run[m].db.jobs && run[m].db.jobs[j].status.Running?
    requires j in run[k].db.jobs && !run[k].db.jobs[j].status.Running?
    ensures Settled(run[k - 1], steps[k - 1], j, o, run[k].db.jobs[j]) && o in {Succeeded, Failed}
    ensures run[k].db.jobs[j].status == o <==> Finalizes(steps[k - 1], true)
    ensures run[k].db.jobs[j].status == Lost <==> Finalizes(steps[k - 1], false)
    ensures run[k].db.jobs[j].status == Succeeded ==> run[k].db.jobs[j].published == run[k].db.jobs[j].attempt
  {
    hide Enabled, Apply, Inv;
    OutcomeStays(limits, run, steps, i, k - 1, j, o);
    RunHolds(limits, run, steps, k - 1);
    OutcomeSettles(limits, run[k - 1], steps[k - 1], j, o);
    OutcomeIs(limits, run[k - 1], j, o);
  }

  /** A worker reports success or failure, and a success with its file. */
  lemma OutcomeIs(limits: Limits, s: Sys, j: JobId, o: Status)
    requires Inv(limits, s) && Reported(s, j, o)
    ensures o in {Succeeded, Failed} && s.db.jobs[j].attempt.Some?
    ensures o == Succeeded ==> s.db.jobs[j].attempt.value in s.results
  {
    hide Inv, JobsOk, CompletionsOk, RowsOk;
    InvHasCompletions(limits, s, j);
    assert CompletionsOk(s) ==> SuccessStaged(s, j) by {
      if CompletionsOk(s) { StagedByInvariant(s, j); }
    }
  }

  lemma StagedByInvariant(s: Sys, j: JobId)
    requires CompletionsOk(s) && j in s.db.jobs
    ensures SuccessStaged(s, j)
  {
  }

  lemma {:induction false} OutcomeStays(limits: Limits, run: seq<Sys>, steps: seq<Step>, i: nat, k: nat, j: JobId,
                                        o: Status)
    requires IsRun(limits, run, steps) && i <= k < |run| && Reported(run[i], j, o)
    requires forall m :: i <= m <= k ==> j in run[m].db.jobs && run[m].db.jobs[j].status.Running?
    ensures Reported(run[k], j, o)
  {
    hide Enabled, Apply, Inv;
    if i < k {
      OutcomeStays(limits, run, steps, i, k - 1, j, o);
      RunHolds(limits, run, steps, k - 1);
      OutcomeSettles(limits, run[k - 1], steps[k - 1], j, o);
    }
  }

  /** And so it ends: of a committed outcome whose job is over, `k` is the state in which
      it had left `running`; if the daemon took it there with the outcome read, that is
      the end, if with none read the job is lost, and otherwise the stop mark decides. */
  lemma {:induction false} CompletionDecided(limits: Limits, run: seq<Sys>, steps: seq<Step>, i: nat, n: nat,
                                             j: JobId, o: Status) returns (k: nat)
    requires IsRun(limits, run, steps) && i <= n < |run| && Reported(run[i], j, o)
    requires j in run[n].db.jobs && Terminal(run[n].db.jobs[j].status)
    ensures i < k <= n && (forall m :: i <= m < k ==> Reported(run[m], j, o))
    ensures j in run[k - 1].db.jobs && j in run[k].db.jobs
    ensures Settled(run[k - 1], steps[k - 1], j, o, run[k].db.jobs[j])
    ensures var mark := run[k].db.jobs[j].stopFinal;
      run[n].db.jobs[j].status ==
        if Finalizes(steps[k - 1], true) then o
        else if Finalizes(steps[k - 1], false) then Lost
        else if mark.Some? then mark.value else Cancelled
    ensures Finalizes(steps[k - 1], true) ==> run[n].db.jobs[j].published == run[k].db.jobs[j].published
    decreases n - i
  {
    hide Enabled, Apply, Inv;
    RunHolds(limits, run, steps, i);
    OutcomeSettles(limits, run[i], steps[i], j, o);
    if Reported(run[i + 1], j, o) {
      k := CompletionDecided(limits, run, steps, i + 1, n, j, o);
    } else {
      k := i + 1;
      OutcomeIs(limits, run[i], j, o);
      SettledEnds(limits, run, steps, k, n, j, o);
    }
  }

  lemma SettledEnds(limits: Limits, run: seq<Sys>, steps: seq<Step>, k: nat, n: nat, j: JobId, o: Status)
    requires IsRun(limits, run, steps) && 0 < k <= n < |run| && j in run[k].db.jobs && o in {Succeeded, Failed}
    requires j in run[k - 1].db.jobs && Settled(run[k - 1], steps[k - 1], j, o, run[k].db.jobs[j])
    requires j in run[n].db.jobs && Terminal(run[n].db.jobs[j].status)
    ensures var job := run[k].db.jobs[j];
      if job.status.Cancelling?
      then run[n].db.jobs[j].status == if job.stopFinal.Some? then job.stopFinal.value else Cancelled
      else run[n].db.jobs[j].status == job.status && run[n].db.jobs[j].published == job.published
  {
    hide IsRun, JobOk;
    if run[k].db.jobs[j].status.Cancelling? {
      var m := CancellingResolves(limits, run, steps, k, n, j);
      TerminalForever(limits, run, steps, m, n, j);
    } else {
      TerminalForever(limits, run, steps, k, n, j);
    }
  }

  // ------------------------------------------------------ concrete runs

  /** `s` is the last state of some run. */
  ghost predicate Reaches(limits: Limits, s: Sys) {
    exists run, steps :: IsRun(limits, run, steps) && run[|run| - 1] == s
  }

  lemma StartReaches(limits: Limits)
    ensures Reaches(limits, Initial())
  {
    assert IsRun(limits, [Initial()], []);
    assert [Initial()][|[Initial()]| - 1] == Initial();
  }

  lemma StepReaches(limits: Limits, s: Sys, step: Step)
    requires Reaches(limits, s) && Enabled(limits, s, step)
    ensures Reaches(limits, Apply(limits, s, step))
  {
    hide Enabled, Apply;
    var run, steps :| IsRun(limits, run, steps) && run[|run| - 1] == s;
    var run', steps' := run + [Apply(limits, s, step)], steps + [step];
    assert IsRun(limits, run', steps') && run'[|run'| - 1] == Apply(limits, s, step);
  }

  function Submitted(resources: seq<Request>): Job {
    NewJob(0, "client", "key", "digest", resources)
  }

  /** One job, claimed as attempt 0 and running as process 0. */
  lemma OneJobRuns(limits: Limits) returns (s: Sys)
    requires limits.maxQueued > 0 && limits.maxRunning > 0
    ensures Reaches(limits, s)
    ensures s == Initial().(
      db := EmptyDb().(jobs := map[0 := Submitted([]).(status := Running, attempt := Some(0))],
                       execs := map[0 := Execution(Some(0), Some(0), [], false)], locks := map[0 := map[]]),
      procs := map[0 := Proc(0, Worker(0, Registered), {})], born := {0},
      replies := {Reply("client", "key", "digest", 0)})
  {
    s := OneJobClaimed(limits);
    s := Advance(limits, s, ByDispatch(Launch(0, 0, 0)));
    s := Advance(limits, s, ByWorker(StartWorker(0)));
  }

  lemma OneJobClaimed(limits: Limits) returns (s: Sys)
    requires limits.maxQueued > 0 && limits.maxRunning > 0
    ensures Reaches(limits, s)
    ensures s == Initial().(
      db := EmptyDb().(jobs := map[0 := Submitted([]).(status := Starting, attempt := Some(0))],
                       execs := map[0 := Execution(Some(0), None, [], false)], locks := map[0 := map[]]),
      replies := {Reply("client", "key", "digest", 0)})
  {
    s := OneJobWaits(limits);
    assert ActiveJobs(s.db.jobs) == {};
    assert Items([]) == {} && Merged({}) == map[];
    assert FirstQueued(s.db.jobs, 0);
    s := Advance(limits, s, ByDispatch(ClaimJob(0, 0)));
  }

  lemma OneJobWaits(limits: Limits) returns (s: Sys)
    requires limits.maxQueued > 0
    ensures Reaches(limits, s)
    ensures s == Initial().(
      db := EmptyDb().(jobs := map[0 := Submitted([])]), replies := {Reply("client", "key", "digest", 0)})
  {
    StartReaches(limits);
    assert QueuedJobs(Initial().db.jobs) == {};
    s := Advance(limits, Initial(), ByClient(SubmitNew(0, 0, "client", "key", "digest", [])));
  }

  lemma OneJobSucceeds(limits: Limits) returns (s: Sys)
    requires limits.maxQueued > 0 && limits.maxRunning > 0
    ensures Reaches(limits, s) && s.rows == {Row(0, 0, Running, None, None)} && s.results == {0} && s.stops == map[]
    ensures s.db.jobs == map[0 := Submitted([]).(status := Running, attempt := Some(0), completion := Some(Succeeded))]
    ensures s.db.execs == map[0 := Execution(Some(0), Some(0), [], false)] && s.db.children == {} && s.procs.Keys == {0}
  {
    s := OneJobRuns(limits);
    s := Advance(limits, s, ByReconcile(ReadRow(0)));
    s := Advance(limits, s, ByWorker(EnterBody(0)));
    s := Advance(limits, s, ByWorker(WriteResult(0)));
    s := Advance(limits, s, ByWorker(Report(0, Succeeded)));
  }

  /** The ordinary end: the outcome is read, the processes are gone, the job takes the
      outcome, frees its locks, and its notification is delivered once. */
  lemma OutcomeIsDelivered(limits: Limits, o: Status) returns (s: Sys)
    requires limits.maxQueued > 0 && limits.maxRunning > 0 && o in {Succeeded, Failed}
    ensures Reaches(limits, s) && 0 in s.db.jobs && s.db.jobs[0].status == o && s.delivered[0] == 1
    ensures s.db.locks == map[] && s.db.jobs[0].published == if o == Succeeded then Some(0) else None
  {
    s := OneJobReports(limits, o);
    s := ReadAndFinalized(limits, s, o);
    assert s.db.notes == map[0 := Note(o, false)] && s.outbox == {} && s.delivered == multiset{};
    s := Advance(limits, s, ByNotify(TakeNotes));
    s := Advance(limits, s, ByNotify(Deliver(0)));
  }

  lemma OneJobReports(limits: Limits, o: Status) returns (s: Sys)
    requires limits.maxQueued > 0 && limits.maxRunning > 0 && o in {Succeeded, Failed}
    ensures Reaches(limits, s) && s.results == (if o == Succeeded then {0} else {}) && s.stops == map[]
    ensures s.db.jobs == map[0 := Submitted([]).(status := Running, attempt := Some(0), completion := Some(o))]
    ensures s.db.execs == map[0 := Execution(Some(0), Some(0), [], false)] && s.db.locks == map[0 := map[]]
    ensures s.db.children == {} && s.procs.Keys == {0}
    ensures s.db.notes == map[] && s.outbox == {} && s.delivered == multiset{}
  {
    s := OneJobRuns(limits);
    s := Advance(limits, s, ByWorker(EnterBody(0)));
    if o == Succeeded { s := Advance(limits, s, ByWorker(WriteResult(0))); }
    s := Advance(limits, s, ByWorker(Report(0, o)));
  }

  lemma ReadAndFinalized(limits: Limits, s: Sys, o: Status) returns (t: Sys)
    requires Reaches(limits, s) && s.results == (if o == Succeeded then {0} else {}) && o in {Succeeded, Failed}
    requires s.db.jobs == map[0 := Submitted([]).(status := Running, attempt := Some(0), completion := Some(o))]
    requires s.db.execs == map[0 := Execution(Some(0), Some(0), [], false)] && s.db.locks == map[0 := map[]]
    requires s.db.children == {} && s.procs.Keys == {0} && s.db.notes == map[] && s.stops == map[]
    ensures Reaches(limits, t) && t.outbox == s.outbox && t.delivered == s.delivered
    ensures 0 in t.db.jobs && t.db.jobs[0].status == o && t.db.notes == map[0 := Note(o, false)]
    ensures t.db.locks == map[] && t.db.jobs[0].published == if o == Succeeded then Some(0) else None
  {
    var row := Row(0, 0, Running, Some(o), None);
    t := Advance(limits, s, ByReconcile(ReadRow(0)));
    t := Advance(limits, t, ByChild(Die(0)));
    t := Advance(limits, t, ByReconcile(ListChildren(row)));
    t := Finalized(limits, t, o);
  }

  lemma Finalized(limits: Limits, s: Sys, o: Status) returns (t: Sys)
    requires Reaches(limits, s) && o in {Succeeded, Failed} && s.results == (if o == Succeeded then {0} else {})
    requires s.db.jobs == map[0 := Submitted([]).(status := Running, attempt := Some(0), completion := Some(o))]
    requires s.db.execs == map[0 := Execution(Some(0), Some(0), [], false)] && s.db.locks == map[0 := map[]]
    requires s.db.notes == map[] && Row(0, 0, Running, Some(o), None) in s.rows && s.procs == map[] && 0 in s.stops
    ensures Reaches(limits, t) && t.outbox == s.outbox && t.delivered == s.delivered
    ensures 0 in t.db.jobs && t.db.jobs[0].status == o && t.db.notes == map[0 := Note(o, false)]
    ensures t.db.locks == map[] && t.db.jobs[0].published == if o == Succeeded then Some(0) else None
  {
    t := Advance(limits, s, ByReconcile(FinalizeRow(Row(0, 0, Running, Some(o), None))));
  }

  /** Readers do run together: two jobs that only read one resource are started. */
  lemma ReadersRunTogether(limits: Limits, r: string) returns (s: Sys)
    requires limits.maxQueued > 1 && limits.maxRunning > 1
    ensures Reaches(limits, s) && s.db.jobs.Keys == {0, 1}
    ensures forall j :: j in {0, 1} ==>
      s.db.jobs[j].status == Running && s.db.jobs[j].resources == [Request(r, Read)] && s.db.jobs[j].attempt == Some(j)
  {
    s := TwoReadersClaimed(limits, r);
    s := Advance(limits, s, ByDispatch(Launch(0, 0, 0)));
    s := Advance(limits, s, ByDispatch(Launch(1, 1, 1)));
    s := TwoStart(limits, s, r);
  }

  lemma TwoStart(limits: Limits, s: Sys, r: string) returns (t: Sys)
    requires Reaches(limits, s) && s.db.jobs.Keys == {0, 1} && s.db.execs.Keys == {0, 1}
    requires forall j :: j in {0, 1} ==> s.db.jobs[j] == Reading(j, r).(status := Starting, attempt := Some(j))
    requires s.procs == map[0 := Proc(0, Worker(0, Launched), {}), 1 := Proc(1, Worker(1, Launched), {})]
    ensures Reaches(limits, t) && t.db.jobs.Keys == {0, 1}
    ensures forall j :: j in {0, 1} ==> t.db.jobs[j] == Reading(j, r).(status := Running, attempt := Some(j))
  {
    t := Starts(limits, s, 0, 0);
    t := Starts(limits, t, 1, 1);
  }

  lemma Starts(limits: Limits, s: Sys, p: ProcId, a: ExecId) returns (t: Sys)
    requires Reaches(limits, s) && p in s.procs && s.procs[p].owner == a && InPhase(s, p, Launched) && a in s.db.execs
    requires CanStart(s.db, s.procs[p].role.job, a)
    ensures Reaches(limits, t) && t.db.execs.Keys == s.db.execs.Keys
    ensures t.procs == s.procs[p := WithPhase(s.procs[p], Registered)]
    ensures var j := s.procs[p].role.job; t.db.jobs == s.db.jobs[j := s.db.jobs[j].(status := Running)]
  {
    t := Advance(limits, s, ByWorker(StartWorker(p)));
  }

  function Reading(j: JobId, r: string): Job {
    NewJob(j, "client", if j == 0 then "a" else "b", "digest", [Request(r, Read)])
  }

  lemma TwoReadersWait(limits: Limits, r: string) returns (s: Sys)
    requires limits.maxQueued > 1
    ensures Reaches(limits, s)
    ensures s == Initial().(
      db := EmptyDb().(jobs := map[0 := Reading(0, r), 1 := Reading(1, r)]), replies := s.replies)
  {
    StartReaches(limits);
    s := Initial();
    assert QueuedJobs(s.db.jobs) == {};
    s := Advance(limits, s, ByClient(SubmitNew(0, 0, "client", "a", "digest", [Request(r, Read)])));
    assert QueuedJobs(s.db.jobs) == {0};
    s := Advance(limits, s, ByClient(SubmitNew(1, 1, "client", "b", "digest", [Request(r, Read)])));
  }

  lemma TwoReadersClaimed(limits: Limits, r: string) returns (s: Sys)
    requires limits.maxQueued > 1 && limits.maxRunning > 1
    ensures Reaches(limits, s) && s.db.jobs.Keys == {0, 1} && s.db.execs.Keys == {0, 1}
    ensures forall j :: j in {0, 1} ==> s.db.jobs[j] == Reading(j, r).(status := Starting, attempt := Some(j))
    ensures forall j :: j in {0, 1} ==> s.db.execs[j].job == Some(j)
    ensures s.procs == map[] && s.born == {}
  {
    s := TwoReadersWait(limits, r);
    assert ActiveJobs(s.db.jobs) == {};
    assert FirstQueued(s.db.jobs, 0);
    s := Advance(limits, s, ByDispatch(ClaimJob(0, 0)));
    assert ActiveJobs(s.db.jobs) == {0};
    assert FirstQueued(s.db.jobs, 1);
    ReadersShare(s.db.locks, 1, Items([Request(r, Read)]));
    s := Advance(limits, s, ByDispatch(ClaimJob(1, 1)));
  }

  /** The worker reports success after reconcile read the row and before it looked
      at the process: the job ends lost, its result never published. */
  lemma SuccessCanBeLost(limits: Limits) returns (before: Sys, after: Sys)
    requires limits.maxQueued > 0 && limits.maxRunning > 0
    ensures Reaches(limits, before) && Reaches(limits, after)
    ensures 0 in before.db.jobs && before.db.jobs[0].status.Running? && before.db.jobs[0].completion == Some(Succeeded)
    ensures 0 in after.db.jobs && after.db.jobs[0].status.Lost? && after.db.jobs[0].published.None?
  {
    var row := Row(0, 0, Running, None, None);
    before := OneJobSucceeds(limits);
    var s := Advance(limits, before, ByChild(Die(0)));
    s := Advance(limits, s, ByReconcile(ListChildren(row)));
    after := Advance(limits, s, ByReconcile(FinalizeRow(row)));
  }

  /** A success the daemon has read is still lost when stopping its processes cannot
      be confirmed first: that asks for a stop, and a stop drops the completion. */
  lemma ReadSuccessCanBeLost(limits: Limits) returns (before: Sys, after: Sys)
    requires limits.maxQueued > 0 && limits.maxRunning > 0
    ensures Reaches(limits, before) && Reaches(limits, after)
    ensures Reported(before, 0, Succeeded) && Row(0, 0, Running, Some(Succeeded), None) in before.rows
    ensures 0 in before.results
    ensures 0 in after.db.jobs && after.db.jobs[0].status.Lost? && after.db.jobs[0].published.None?
  {
    var s := OneJobSucceeds(limits);
    before := Advance(limits, s, ByReconcile(ReadRow(0)));
    s := Advance(limits, before, ByChild(Die(0)));
    s := Advance(limits, s, ByDispatch(AskStop(0, 0, Lost)));
    after := LostIsFinalized(limits, s);
  }

  lemma LostIsFinalized(limits: Limits, s: Sys) returns (t: Sys)
    requires Reaches(limits, s) && s.procs == map[] && s.stops == map[] && s.db.children == {}
    requires s.db.execs == map[0 := Execution(Some(0), Some(0), [], false)] && s.db.jobs.Keys == {0}
    requires s.db.jobs[0] == Submitted([]).(
      status := Cancelling, attempt := Some(0), completion := Some(Succeeded), stopFinal := Some(Lost))
    ensures Reaches(limits, t) && 0 in t.db.jobs && t.db.jobs[0].status.Lost? && t.db.jobs[0].published.None?
  {
    var row := Row(0, 0, Cancelling, Some(Succeeded), Some(Lost));
    t := Advance(limits, s, ByReconcile(ReadRow(0)));
    t := Advance(limits, t, ByReconcile(ListChildren(row)));
    t := Advance(limits, t, ByReconcile(FinalizeRow(row)));
  }

  lemma Advance(limits: Limits, s: Sys, step: Step) returns (t: Sys)
    requires Reaches(limits, s) && Enabled(limits, s, step)
    ensures Reaches(limits, t) && t == Apply(limits, s, step)
  {
    StepReaches(limits, s, step);
    t := Apply(limits, s, step);
  }

  // --------------------------------------- cancel during a start timeout

  /** A cancel accepted while a timed-out start is being stopped does not end in
      cancelled: the job goes back to the queue.  CancellingResolves gives the
      condition for every run: it ends cancelled iff no stop mark was there. */
  lemma CancelCanBeRequeued(limits: Limits) returns (before: Sys, after: Sys)
    requires limits.maxQueued > 0 && limits.maxRunning > 0
    ensures Reaches(limits, before) && Enabled(limits, before, ByClient(CancelJob(0)))
    ensures Reaches(limits, Apply(limits, before, ByClient(CancelJob(0)))) && Reaches(limits, after)
    ensures before.db.jobs[0].status.Cancelling? && before.db.jobs[0].stopFinal == Some(Queued)
    ensures 0 in after.db.jobs && after.db.jobs[0].status.Queued?
  {
    var early := Row(0, 0, Starting, None, None);
    var s := OneJobClaimed(limits);
    s := Advance(limits, s, ByReconcile(ReadRow(0)));
    before := Advance(limits, s, ByReconcile(TimeoutStart(early)));
    s := Advance(limits, before, ByClient(CancelJob(0)));
    after := TimeoutIsFinalized(limits, s);
  }

  lemma TimeoutIsFinalized(limits: Limits, s: Sys) returns (t: Sys)
    requires Reaches(limits, s) && s.procs == map[] && s.stops == map[] && s.db.children == {}
    requires s.db.execs == map[0 := Execution(Some(0), None, [], false)] && s.db.jobs.Keys == {0}
    requires s.db.jobs[0] == Submitted([]).(status := Cancelling, attempt := Some(0), stopFinal := Some(Queued))
    ensures Reaches(limits, t) && 0 in t.db.jobs && t.db.jobs[0].status.Queued?
  {
    var row := Row(0, 0, Cancelling, None, Some(Queued));
    t := Advance(limits, s, ByReconcile(ReadRow(0)));
    t := Advance(limits, t, ByReconcile(ListChildren(row)));
    t := Advance(limits, t, ByReconcile(FinalizeRow(row)));
  }

  // ------------------------------------------- scopes of a killed child

  /** After a foreground hold is left, its finished execution owns a resource if
      and only if another scope row of that execution still asks for it. */
  lemma HoldLeavesLocks(s: Sys, p: ProcId, r: string)
    requires LocksOk(s.db) && ScopeEnabled(s, CloseHold(p)) && ProcOk(s, p)
    ensures var o := s.procs[p].owner; var next := ScopeApply(s, CloseHold(p)).db;
      next.execs[o].finished && (r in Held(next.locks, o) <==> AskedElsewhere(s, o, s.procs[p].role.base, r))
  {
    hide IsJoin, Compatible;
    var o, base := s.procs[p].owner, s.procs[p].role.base;
    CloseKeepsLocks(s.db, o, base, false);
    var keep := ScopeWants(s.db.scopes - {base}, o);
    assert {} + keep == keep;
    AskedInScopes(s, o, base, r);
  }

  ghost predicate AskedElsewhere(s: Sys, o: ExecId, base: ScopeId, r: string) {
    exists sc ::
      sc in s.db.scopes && sc != base && s.db.scopes[sc].owner == o && r in Resources(Items(s.db.scopes[sc].resources))
  }

  lemma AskedInScopes(s: Sys, o: ExecId, base: ScopeId, r: string)
    ensures r in Merged(ScopeWants(s.db.scopes - {base}, o)) <==> AskedElsewhere(s, o, base, r)
  {
    var rest := s.db.scopes - {base};
    var keep := ScopeWants(rest, o);
    if r in Merged(keep) {
      var q :| q in keep && q.resource == r;
      var sc :| sc in rest && rest[sc].owner == o && q in rest[sc].resources;
      assert s.db.scopes[sc] == rest[sc] && q in Items(s.db.scopes[sc].resources);
    }
    if sc :| sc in s.db.scopes && sc != base && s.db.scopes[sc].owner == o
             && r in Resources(Items(s.db.scopes[sc].resources))
    {
      var q :| q in Items(s.db.scopes[sc].resources) && q.resource == r;
      assert rest[sc] == s.db.scopes[sc] && q in keep;
    }
  }

  lemma HoldOpens(limits: Limits) returns (s: Sys)
    ensures Reaches(limits, s)
    ensures s == Initial().(
      db := EmptyDb().(execs := map[0 := Execution(None, Some(0), [], false)], locks := map[0 := map[]],
                       scopes := map[0 := Scope(0, [])]),
      procs := map[0 := Proc(0, Foreground(0), {0})], born := {0})
  {
    StartReaches(limits);
    s := Initial();
    assert Items([]) == {} && Merged({}) == map[];
    s := Advance(limits, s, ByScope(OpenHold(0, 0, 0, [])));
  }

  /** A foreground hold with one admitted child. */
  lemma HoldHasChild(limits: Limits) returns (s: Sys)
    ensures Reaches(limits, s)
    ensures s.db == EmptyDb().(execs := map[0 := Execution(None, Some(0), [], false)], locks := map[0 := map[]],
                               scopes := map[0 := Scope(0, [])], children := {ChildRow(0, 1)})
    ensures s.procs == map[0 := Proc(0, Foreground(0), {0}), 1 := Proc(0, Child, {})]
  {
    s := HoldOpens(limits);
    s := Advance(limits, s, ByChild(Spawn(0, 1)));
    s := Advance(limits, s, ByChild(AdmitChild(1)));
  }

  lemma ChildDiesInScope(limits: Limits) returns (s: Sys)
    ensures Reaches(limits, s)
    ensures s.db.scopes == map[0 := Scope(0, []), 1 := Scope(0, [Request("r", Write)])]
    ensures s.procs == map[0 := Proc(0, Foreground(0), {0})]
    ensures s.db.execs == map[0 := Execution(None, Some(0), [], false)]
    ensures s.db.children == {ChildRow(0, 1)}
  {
    s := HoldHasChild(limits);
    s := Advance(limits, s, ByScope(OpenScope(1, 1, [Request("r", Write)])));
    s := Advance(limits, s, ByChild(Die(1)));
  }

  /** A child killed inside its scope leaves the row behind: the hold that
      outlives it re-acquires the child's lock for an execution that is over. */
  lemma KilledChildLeavesLock(limits: Limits) returns (s: Sys)
    ensures Reaches(limits, s)
    ensures 0 in s.db.execs && s.db.execs[0].finished && s.procs == map[]
    ensures "r" in Held(s.db.locks, 0)
  {
    s := ChildDiesInScope(limits);
    s := Advance(limits, s, ByScope(ListHold(0)));
    assert s.listed[0] == {1} by { assert ChildRow(0, 1) in s.db.children; }
    s := HoldCloses(limits, s);
  }

  lemma HoldCloses(limits: Limits, s: Sys) returns (t: Sys)
    requires Reaches(limits, s) && s.procs == map[0 := Proc(0, Foreground(0), {0})] && ScopeEnabled(s, CloseHold(0))
    requires s.db.scopes == map[0 := Scope(0, []), 1 := Scope(0, [Request("r", Write)])]
    ensures Reaches(limits, t) && 0 in t.db.execs && t.db.execs[0].finished && t.procs == map[]
    ensures "r" in Held(t.db.locks, 0)
  {
    ReachedIsSound(limits, s);
    HoldLeavesLocks(s, 0, "r");
    assert Request("r", Write) in Items(s.db.scopes[1].resources);
    assert AskedElsewhere(s, 0, 0, "r");
    hide LocksOk, ProcOk, ScopeEnabled;
    t := Advance(limits, s, ByScope(CloseHold(0)));
  }

  // ------------------------------------- a child admitted while its hold is left

  /** A live, admitted local command of execution `o`. */
  predicate Lives(s: Sys, o: ExecId, q: ProcId) {
    q in s.procs && s.procs[q].owner == o && s.procs[q].role.Child?
  }

  /** The step admits `q` as a child of `o`. */
  ghost predicate Admits(s: Sys, step: Step, o: ExecId, q: ProcId) {
    step == ByChild(AdmitChild(q)) && q in s.procs && s.procs[q].owner == o && CanAdmit(s.db, s.procs.Keys, o)
  }

  /** Over every run: when a process leaves its outermost hold, `i` is the moment at which
      it last listed the children it then stopped; and a child that has not died goes on
      running if and only if it was admitted after that. */
  lemma ChildOutlivesHold(limits: Limits, run: seq<Sys>, steps: seq<Step>, k: nat, p: ProcId, q: ProcId)
    returns (i: nat)
    requires IsRun(limits, run, steps) && k < |steps| && steps[k] == ByScope(CloseHold(p))
    ensures p in run[k].procs && i < k && steps[i] == ByScope(ListHold(p))
    ensures forall m :: i < m < k ==> steps[m] != ByScope(ListHold(p))
    ensures var o := run[k].procs[p].owner;
      Lives(run[k + 1], o, q) <==> q in run[k].procs && exists m :: i < m < k && Admits(run[m], steps[m], o, q)
  {
    hide Enabled, Apply, CanAdmit;
    LeavesAtBase(limits, run[k], p);
    i := LastListed(limits, run, steps, k, p);
    ProcessIsOne(limits, run, steps, i, k, p);
    var o := run[k].procs[p].owner;
    if Lives(run[k + 1], o, q) {
      ReachedChild(limits, run, steps, k, o, q);
      assert q !in run[k].listed[p];
      var m := AdmittedBetween(limits, run, steps, i, k, o, q);
      assert Admits(run[m], steps[m], o, q);
    }
    if m :| i < m < k && Admits(run[m], steps[m], o, q) && q in run[k].procs {
      AdmittedLives(limits, run[m], steps[m], o, q);
      ProcessIsOne(limits, run, steps, m + 1, k, q);
    }
  }

  lemma LeavesAtBase(limits: Limits, s: Sys, p: ProcId)
    requires Enabled(limits, s, ByScope(CloseHold(p)))
    ensures p in s.procs && s.procs[p].role.Foreground? && p in s.listed && s.listed[p] !! s.procs.Keys
    ensures Apply(limits, s, ByScope(CloseHold(p))).procs == s.procs - {p}
  {
  }

  lemma AdmittedLives(limits: Limits, s: Sys, step: Step, o: ExecId, q: ProcId)
    requires Enabled(limits, s, step) && Admits(s, step, o, q)
    ensures Lives(Apply(limits, s, step), o, q)
  {
  }

  lemma ReachedChild(limits: Limits, run: seq<Sys>, steps: seq<Step>, k: nat, o: ExecId, q: ProcId)
    requires IsRun(limits, run, steps) && k < |run| && Lives(run[k], o, q)
    ensures ChildRow(o, q) in run[k].db.children
  {
    hide JobsOk, ExecsOk, LocksOk, OpenOk, RowsOk, StopsOk, EntryOk, CancelOk, NotesOk;
    hide DeliveryOk, KeysOk, ResultsOk, CompletionsOk, CapacityOk, Enabled, Apply;
    RunHolds(limits, run, steps, k);
    assert ProcOk(run[k], q);
  }

  lemma {:induction false} LastListed(limits: Limits, run: seq<Sys>, steps: seq<Step>, k: nat, p: ProcId)
    returns (i: nat)
    requires IsRun(limits, run, steps) && k < |run| && p in run[k].listed
    ensures i < k && steps[i] == ByScope(ListHold(p)) && p in run[i].procs
    ensures forall m :: i < m < k ==> steps[m] != ByScope(ListHold(p))
    ensures run[k].listed[p] == ChildrenOf(run[i].db, run[i].procs[p].owner)
  {
    hide Enabled, Apply;
    assert run[0].listed == map[];
    ListedStep(limits, run[k - 1], steps[k - 1], p);
    if steps[k - 1] == ByScope(ListHold(p)) { i := k - 1; } else { i := LastListed(limits, run, steps, k - 1, p); }
  }

  lemma ListedStep(limits: Limits, s: Sys, step: Step, p: ProcId)
    requires Enabled(limits, s, step)
    ensures var t := Apply(limits, s, step);
      if step == ByScope(ListHold(p))
      then p in s.procs && p in t.listed && t.listed[p] == ChildrenOf(s.db, s.procs[p].owner)
      else p in t.listed ==> p in s.listed && t.listed[p] == s.listed[p]
  {
  }

  lemma {:induction false} AdmittedBetween(limits: Limits, run: seq<Sys>, steps: seq<Step>, i: nat, k: nat, o: ExecId,
                                           q: ProcId) returns (m: nat)
    requires IsRun(limits, run, steps) && i <= k < |run|
    requires ChildRow(o, q) !in run[i].db.children && ChildRow(o, q) in run[k].db.children
    ensures i <= m < k && Admits(run[m], steps[m], o, q)
    decreases k - i
  {
    hide Enabled, Apply, Admits;
    if ChildRow(o, q) in run[i + 1].db.children {
      m := i;
      OnlyAdmitAdds(limits, run[i], steps[i], o, q);
    } else {
      m := AdmittedBetween(limits, run, steps, i + 1, k, o, q);
    }
  }

  lemma OnlyAdmitAdds(limits: Limits, s: Sys, step: Step, o: ExecId, q: ProcId)
    requires Enabled(limits, s, step)
    requires ChildRow(o, q) !in s.db.children && ChildRow(o, q) in Apply(limits, s, step).db.children
    ensures Admits(s, step, o, q)
  {
    hide ClientApply, DispatchApply, ReconcileApply, NotifyApply, WorkerApply, ScopeApply, ClientEnabled;
    hide DispatchEnabled, ReconcileEnabled, NotifyEnabled, WorkerEnabled, ScopeEnabled;
    match step
    case ByClient(c) => ClientAdmitsNone(limits, s, c);
    case ByDispatch(d) => DispatchAdmitsNone(limits, s, d);
    case ByReconcile(r) => ReconcileAdmitsNone(s, r);
    case ByNotify(n) => NotifyAdmitsNone(s, n);
    case ByWorker(w) => WorkerAdmitsNone(s, w);
    case ByChild(k) =>
    case ByScope(h) => ScopeAdmitsNone(s, h);
  }

  /** A process identity is one process: it keeps its execution, and an admitted command
      stays one. */
  lemma {:induction false} ProcessIsOne(limits: Limits, run: seq<Sys>, steps: seq<Step>, i: nat, k: nat, p: ProcId)
    requires IsRun(limits, run, steps) && i <= k < |run| && p in run[i].procs && p in run[k].procs
    ensures run[k].procs[p].owner == run[i].procs[p].owner
    ensures run[i].procs[p].role.Child? ==> run[k].procs[p].role.Child?
    decreases k
  {
    hide Enabled, Apply;
    if i < k {
      BornStays(limits, run, steps, i, k - 1, p);
      StepLineage(limits, run[k - 1], steps[k - 1], p);
      ProcessIsOne(limits, run, steps, i, k - 1, p);
    }
  }

  lemma {:induction false} BornStays(limits: Limits, run: seq<Sys>, steps: seq<Step>, i: nat, k: nat, p: ProcId)
    requires IsRun(limits, run, steps) && i <= k < |run| && p in run[i].procs
    ensures p in run[k].born
  {
    hide Enabled, Apply;
    if i == k {
      LiveIsBorn(limits, run, steps, i, p);
    } else {
      BornStays(limits, run, steps, i, k - 1, p);
      StepLineage(limits, run[k - 1], steps[k - 1], p);
    }
  }

  lemma LiveIsBorn(limits: Limits, run: seq<Sys>, steps: seq<Step>, i: nat, p: ProcId)
    requires IsRun(limits, run, steps) && i < |run| && p in run[i].procs
    ensures p in run[i].born
  {
    hide JobsOk, ExecsOk, LocksOk, OpenOk, RowsOk, StopsOk, EntryOk, CancelOk, NotesOk;
    hide DeliveryOk, KeysOk, ResultsOk, CompletionsOk, CapacityOk, Enabled, Apply;
    RunHolds(limits, run, steps, i);
    assert ProcOk(run[i], p);
  }

  /** A process that was ever there is never another one. */
  predicate Lineage(s: Sys, t: Sys, p: ProcId) {
    && s.born <= t.born
    && (p in s.born && p in t.procs ==>
          && p in s.procs && t.procs[p].owner == s.procs[p].owner
          && (s.procs[p].role.Child? ==> t.procs[p].role.Child?))
  }

  lemma StepLineage(limits: Limits, s: Sys, step: Step, p: ProcId)
    requires Enabled(limits, s, step)
    ensures Lineage(s, Apply(limits, s, step), p)
  {
    hide ClientApply, DispatchApply, ReconcileApply, NotifyApply, WorkerApply, ChildApply, ScopeApply, ClientEnabled;
    hide DispatchEnabled, ReconcileEnabled, NotifyEnabled, WorkerEnabled, ChildEnabled, ScopeEnabled;
    match step
    case ByClient(c) => ClientLineage(limits, s, c, p);
    case ByDispatch(d) => DispatchLineage(limits, s, d, p);
    case ByReconcile(r) => ReconcileLineage(s, r, p);
    case ByNotify(n) => NotifyLineage(s, n, p);
    case ByWorker(w) => WorkerLineage(s, w, p);
    case ByChild(k) => ChildLineage(s, k, p);
    case ByScope(h) => ScopeLineage(s, h, p);
  }

  lemma ClientLineage(limits: Limits, s: Sys, step: ClientStep, p: ProcId)
    requires ClientEnabled(limits, s, step)
    ensures Lineage(s, ClientApply(limits, s, step), p)
  {
  }

  lemma DispatchLineage(limits: Limits, s: Sys, step: DispatchStep, p: ProcId)
    requires DispatchEnabled(limits, s, step)
    ensures Lineage(s, DispatchApply(limits, s, step), p)
  {
  }

  lemma ReconcileLineage(s: Sys, step: ReconcileStep, p: ProcId)
    requires ReconcileEnabled(s, step)
    ensures Lineage(s, ReconcileApply(s, step), p)
  {
  }

  lemma NotifyLineage(s: Sys, step: NotifyStep, p: ProcId)
    requires NotifyEnabled(s, step)
    ensures Lineage(s, NotifyApply(s, step), p)
  {
  }

  lemma WorkerLineage(s: Sys, step: WorkerStep, p: ProcId)
    requires WorkerEnabled(s, step)
    ensures Lineage(s, WorkerApply(s, step), p)
  {
  }

  lemma ChildLineage(s: Sys, step: ChildStep, p: ProcId)
    requires ChildEnabled(s, step)
    ensures Lineage(s, ChildApply(s, step), p)
  {
  }

  lemma ScopeLineage(s: Sys, step: ScopeStep, p: ProcId)
    requires ScopeEnabled(s, step)
    ensures Lineage(s, ScopeApply(s, step), p)
  {
  }

  /** It does happen: a command waiting for admission when the children are listed is
      admitted after that, and runs on when the hold has given its locks back. */
  lemma HoldLeavesChild(limits: Limits) returns (s: Sys)
    ensures Reaches(limits, s) && 0 in s.db.execs && s.db.execs[0].finished
    ensures Held(s.db.locks, 0) == map[] && Lives(s, 0, 1)
  {
    s := HoldOpens(limits);
    s := Advance(limits, s, ByChild(Spawn(0, 1)));
    s := Advance(limits, s, ByScope(ListHold(0)));
    assert s.listed[0] == {} by { assert s.db.children == {}; }
    s := Advance(limits, s, ByChild(AdmitChild(1)));
    s := NothingLeft(limits, s);
  }

  lemma NothingLeft(limits: Limits, s: Sys) returns (t: Sys)
    requires Reaches(limits, s) && ScopeEnabled(s, CloseHold(0)) && s.db.scopes == map[0 := Scope(0, [])]
    requires s.procs == map[0 := Proc(0, Foreground(0), {0}), 1 := Proc(0, Child, {})]
    ensures Reaches(limits, t) && 0 in t.db.execs && t.db.execs[0].finished
    ensures Held(t.db.locks, 0) == map[] && Lives(t, 0, 1)
  {
    hide LocksOk, ProcOk;
    ReachedIsSound(limits, s);
    forall r: string ensures r !in Held(ScopeApply(s, CloseHold(0)).db.locks, 0) { NoLockLeft(s, r); }
    t := Advance(limits, s, ByScope(CloseHold(0)));
  }

  lemma NoLockLeft(s: Sys, r: string)
    requires LocksOk(s.db) && ScopeEnabled(s, CloseHold(0)) && 0 in s.procs && ProcOk(s, 0)
    requires s.procs[0] == Proc(0, Foreground(0), {0}) && s.db.scopes == map[0 := Scope(0, [])]
    ensures r !in Held(ScopeApply(s, CloseHold(0)).db.locks, 0)
  {
    hide LocksOk, ProcOk, ScopeApply, Held;
    HoldLeavesLocks(s, 0, r);
    assert !AskedElsewhere(s, 0, 0, r);
  }

  lemma ReachedIsSound(limits: Limits, s: Sys)
    requires Reaches(limits, s)
    ensures LocksOk(s.db) && forall p :: p in s.procs ==> ProcOk(s, p)
  {
    hide Enabled, Apply;
    var run, steps :| IsRun(limits, run, steps) && run[|run| - 1] == s;
    RunHolds(limits, run, steps, |run| - 1);
  }
}
