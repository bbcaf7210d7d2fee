/** What any single step may do to a job row, to the execution rows and to the
    notifications.  The invariants are then kept by these moves, whichever actor
    made them. */
module JobMoves {
  import opened Wrappers
  import opened Schema
  import opened Tasks
  import opened Runtime
  import opened Protocol
  import opened Invariants

  /** The edges of the job state machine. */
  ghost predicate JobEdge(s: Sys, job: Job, next: Job) {
    || next == job
    || (job.status.Queued? && next == job.(status := Cancelled))
    || (InFlight(job.status) && next == job.(status := Cancelling))
    || (Terminal(job.status) && next == job.(deleted := true))
    || (job.status.Queued? && ClaimEdge(s, job, next))
    || (job.status in {Starting, Running} && StopEdge(job, next))
    || (job.status.Starting? && next == job.(status := Running))
    || (job.status.Running? && CompletionEdge(job, next))
    || (job.status in {Running, Cancelling} && FinalEdge(s, job, next))
  }

  ghost predicate ClaimEdge(s: Sys, job: Job, next: Job) {
    next.attempt.Some? && next.attempt.value !in s.db.execs && next == job.(status := Starting, attempt := next.attempt)
  }

  /** Only an attempt that never started may be sent back to the queue. */
  ghost predicate StopEdge(job: Job, next: Job) {
    && next == job.(status := Cancelling, stopFinal := next.stopFinal)
    && (next.stopFinal in {Some(Failed), Some(Lost)} || (job.status.Starting? && next.stopFinal == Some(Queued)))
  }

  ghost predicate CompletionEdge(job: Job, next: Job) {
    next.completion in {Some(Succeeded), Some(Failed)} && next == job.(completion := next.completion)
  }

  ghost predicate FinalEdge(s: Sys, job: Job, next: Job) {
    && job.attempt.Some?
    && next == job.(status := next.status, completion := None, stopFinal := None, published := next.published,
                    attempt := if next.status.Queued? then None else job.attempt)
    && (job.status.Cancelling? ==>
          && next.status == (if job.stopFinal.Some? then job.stopFinal.value else Cancelled)
          && next.published == job.published)
    && (job.status.Running? ==> next.status in {Succeeded, Failed, Lost})
    && (Terminal(next.status) || next.status.Queued?)
    && (next.published == job.published || (next.published == job.attempt && job.attempt.value in s.results))
    && (next.status.Succeeded? ==> next.published == job.attempt && job.attempt.value in s.results)
  }

  ghost predicate JobsMove(s: Sys, t: Sys) {
    && (forall j :: j in s.db.jobs ==> j in t.db.jobs && JobEdge(s, s.db.jobs[j], t.db.jobs[j]))
    && (forall j :: j in t.db.jobs && j !in s.db.jobs ==> Unclaimed(t.db.jobs[j]))
  }

  predicate Unclaimed(job: Job) {
    job == NewJob(job.created, job.client, job.key, job.digest, job.resources)
  }

  /** Execution rows are never deleted and never change job or resources. */
  ghost predicate ExecsMove(s: Sys, t: Sys) {
    forall a :: a in s.db.execs ==>
      && a in t.db.execs
      && t.db.execs[a].job == s.db.execs[a].job && t.db.execs[a].resources == s.db.execs[a].resources
      && (s.db.execs[a].finished ==> t.db.execs[a].finished)
  }

  /** A notification appears exactly when its job becomes terminal. */
  ghost predicate NotesMove(s: Sys, t: Sys) {
    && (forall j :: j in s.db.notes ==>
          && j in t.db.notes && t.db.notes[j].status == s.db.notes[j].status
          && (s.db.notes[j].sent ==> t.db.notes[j].sent))
    && (forall j :: j in t.db.notes && j !in s.db.notes ==>
          && j in s.db.jobs && j in t.db.jobs
          && Terminal(t.db.jobs[j].status) && t.db.notes[j].status == t.db.jobs[j].status)
    && (forall j ::
          j in s.db.jobs && j in t.db.jobs && Terminal(t.db.jobs[j].status) && !Terminal(s.db.jobs[j].status) ==>
          j in t.db.notes)
  }

  ghost predicate Moves(s: Sys, t: Sys) {
    JobsMove(s, t) && ExecsMove(s, t) && NotesMove(s, t) && s.results <= t.results && s.born <= t.born
  }

  // ------------------------------------------------ every step is a move

  /** At most one job row changes, along an edge. */
  ghost predicate OneJob(s: Sys, t: Sys, j: JobId, next: Job) {
    j in s.db.jobs && JobEdge(s, s.db.jobs[j], next) && t.db.jobs == s.db.jobs[j := next]
  }

  lemma OneJobMoves(s: Sys, t: Sys, j: JobId, next: Job)
    requires OneJob(s, t, j, next) && ExecsMove(s, t) && s.results <= t.results && s.born <= t.born
    requires
      || (t.db.notes == s.db.notes && (Terminal(next.status) ==> Terminal(s.db.jobs[j].status)))
      || (t.db.notes == s.db.notes[j := Note(next.status, false)] && j !in s.db.notes && Terminal(next.status))
    ensures Moves(s, t)
  {
  }

  /** No job row changes, notifications are at most marked. */
  lemma QuietMoves(s: Sys, t: Sys)
    requires t.db.jobs == s.db.jobs && ExecsMove(s, t) && s.results <= t.results && s.born <= t.born
    requires t.db.notes == s.db.notes || t.db.notes == AllSent(s.db.notes)
    ensures Moves(s, t)
  {
  }

  lemma ClientMoves(limits: Limits, s: Sys, step: ClientStep)
    requires JobsOk(s.db) && NotesOk(s.db) && ClientEnabled(limits, s, step)
    ensures Moves(s, ClientApply(limits, s, step))
  {
    var t := ClientApply(limits, s, step);
    match step
    case SubmitNew(_, _, _, _, _, _) =>
    case Replay(_, _, _, _) => QuietMoves(s, t);
    case CancelJob(j) =>
      if Terminal(s.db.jobs[j].status) { QuietMoves(s, t); } else { OneJobMoves(s, t, j, t.db.jobs[j]); }
    case DeleteJob(j) => OneJobMoves(s, t, j, t.db.jobs[j]);
  }

  lemma DispatchMoves(limits: Limits, s: Sys, step: DispatchStep)
    requires JobsOk(s.db) && DispatchEnabled(limits, s, step)
    ensures Moves(s, DispatchApply(limits, s, step))
  {
    var t := DispatchApply(limits, s, step);
    match step
    case ClaimJob(j, _) => OneJobMoves(s, t, j, t.db.jobs[j]);
    case Launch(_, _, _) => QuietMoves(s, t);
    case Identify(_, _) => QuietMoves(s, t);
    case AskStop(j, a, _) =>
      if !Current(s.db, j, a) || Terminal(s.db.jobs[j].status) {
        QuietMoves(s, t);
      } else {
        assert JobOk(s.db, j);
        OneJobMoves(s, t, j, t.db.jobs[j]);
      }
  }

  lemma FinalizeIsEdge(s: Sys, row: Row)
    requires row.job in s.db.jobs && JobOk(s.db, row.job) && RowOk(s, row) && !row.status.Starting?
    requires !FinalizeRefused(s.db, row.job, row.attempt, RowFinal(row))
    ensures FinalEdge(s, s.db.jobs[row.job],
                      FinalJob(s.db.jobs[row.job], row.attempt, RowFinal(row), RowCompletion(row),
                               row.attempt in s.results))
    ensures s.db.jobs[row.job].status in {Running, Cancelling}
  {
  }

  lemma ReconcileMoves(s: Sys, step: ReconcileStep)
    requires JobsOk(s.db) && NotesOk(s.db) && RowsOk(s) && ReconcileEnabled(s, step)
    ensures Moves(s, ReconcileApply(s, step))
  {
    var t := ReconcileApply(s, step);
    match step
    case ReadRow(_) => QuietMoves(s, t);
    case TimeoutStart(row) =>
      if CanStart(s.db, row.job, row.attempt) {
        assert JobOk(s.db, row.job) && RowOk(s, row);
        OneJobMoves(s, t, row.job, t.db.jobs[row.job]);
      } else {
        QuietMoves(s, t);
      }
    case ListChildren(_) => QuietMoves(s, t);
    case FinalizeRow(row) =>
      if FinalizeRefused(s.db, row.job, row.attempt, RowFinal(row)) {
        QuietMoves(s, t);
      } else {
        assert JobOk(s.db, row.job);
        FinalizeIsEdge(s, row);
        OneJobMoves(s, t, row.job, t.db.jobs[row.job]);
      }
    case ListStandalone(_) => QuietMoves(s, t);
    case ReleaseStandalone(_) => QuietMoves(s, t);
  }

  lemma NotifyMoves(s: Sys, step: NotifyStep)
    requires NotifyEnabled(s, step)
    ensures Moves(s, NotifyApply(s, step))
  {
  }

  lemma WorkerMoves(s: Sys, step: WorkerStep)
    requires WorkerEnabled(s, step)
    ensures Moves(s, WorkerApply(s, step))
  {
    var t := WorkerApply(s, step);
    var j := s.procs[step.p].role.job;
    if t.db.jobs == s.db.jobs { QuietMoves(s, t); } else { OneJobMoves(s, t, j, t.db.jobs[j]); }
  }

  lemma ChildMoves(s: Sys, step: ChildStep)
    requires ChildEnabled(s, step)
    ensures Moves(s, ChildApply(s, step))
  {
  }

  lemma ScopeMoves(s: Sys, step: ScopeStep)
    requires ScopeEnabled(s, step)
    ensures Moves(s, ScopeApply(s, step))
  {
    QuietMoves(s, ScopeApply(s, step));
  }

  // ------------------------------------------- what moves keep by themselves

  predicate SameTask(job: Job, next: Job) {
    && next.client == job.client && next.key == job.key && next.digest == job.digest
    && next.created == job.created && next.resources == job.resources
  }

  /** Who asked for what is never rewritten. */
  lemma TaskKept(s: Sys, job: Job, next: Job)
    requires JobEdge(s, job, next)
    ensures SameTask(job, next)
  {
  }

  /** A terminal status is absorbing, and so are its attempt and its result. */
  lemma TerminalKept(s: Sys, job: Job, next: Job)
    requires JobEdge(s, job, next) && Terminal(job.status)
    ensures next == job || next == job.(deleted := true)
  {
  }

  /** An attempt that is not starting, or not running but cancelling, stays so. */
  lemma PastStartKept(s: Sys, job: Job, next: Job, a: ExecId)
    requires JobEdge(s, job, next) && a in s.db.execs && next.attempt == Some(a)
    ensures job.attempt == Some(a)
    ensures next.status.Starting? ==> job.status.Starting?
    ensures next.status.Running? ==> job.status.Starting? || job.status.Running?
  {
  }

  lemma ResultKept(s: Sys, job: Job, next: Job)
    requires JobEdge(s, job, next)
    requires job.published.Some? ==> Terminal(job.status)
    ensures next.published == job.published
      || (job.attempt.Some? && job.attempt.value in s.results
          && next.published == next.attempt == job.attempt && Terminal(next.status))
    ensures next.status.Succeeded? && !job.status.Succeeded? ==>
      next.published == next.attempt == job.attempt && job.attempt.Some?
  {
  }

  lemma CancelStays(s: Sys, t: Sys)
    requires JobsMove(s, t) && CancelOk(s)
    requires forall j :: j in t.cancelled && j !in s.cancelled ==> j in t.db.jobs && CancelSticks(t.db.jobs[j])
    ensures CancelOk(t)
  {
  }

  lemma NotesStay(s: Sys, t: Sys)
    requires JobsMove(s, t) && NotesMove(s, t) && NotesOk(s.db)
    ensures NotesOk(t.db)
  {
    forall j | j in s.db.jobs && Terminal(s.db.jobs[j].status) ensures t.db.jobs[j].status == s.db.jobs[j].status {
      TerminalKept(s, s.db.jobs[j], t.db.jobs[j]);
    }
    NotesFollow(s, t);
  }

  lemma NotesFollow(s: Sys, t: Sys)
    requires NotesMove(s, t) && NotesOk(s.db)
    requires forall j :: j in s.db.jobs ==> j in t.db.jobs
    requires forall j :: j in s.db.jobs && Terminal(s.db.jobs[j].status) ==> t.db.jobs[j].status == s.db.jobs[j].status
    requires forall j :: j in t.db.jobs && j !in s.db.jobs ==> Unclaimed(t.db.jobs[j])
    ensures NotesOk(t.db)
  {
  }

  lemma DeliveryStays(s: Sys, t: Sys)
    requires NotesMove(s, t) && DeliveryOk(s)
    requires t.outbox == s.outbox && t.delivered == s.delivered
    ensures DeliveryOk(t)
  {
  }

  lemma ResultsStay(s: Sys, t: Sys)
    requires JobsMove(s, t) && s.results <= t.results && ResultsOk(s)
    ensures ResultsOk(t)
  {
    forall j | j in t.db.jobs ensures ResultOk(t, j) {
      if j in s.db.jobs {
        assert ResultOk(s, j);
        ResultKept(s, s.db.jobs[j], t.db.jobs[j]);
        if Terminal(s.db.jobs[j].status) { TerminalKept(s, s.db.jobs[j], t.db.jobs[j]); }
      }
    }
  }

  lemma TasksStay(s: Sys, t: Sys)
    requires JobsMove(s, t)
    ensures forall j :: j in s.db.jobs ==> j in t.db.jobs && SameTask(s.db.jobs[j], t.db.jobs[j])
  {
  }

  /** Keys stay unique and every accepted reply stays true, as long as a new job
      brings a new key and a new reply names a matching job. */
  lemma KeysStay(s: Sys, t: Sys)
    requires KeysOk(s)
    requires forall j :: j in s.db.jobs ==> j in t.db.jobs && SameTask(s.db.jobs[j], t.db.jobs[j])
    requires forall j, k :: j in t.db.jobs && j !in s.db.jobs && k in t.db.jobs && k != j ==>
      !SameKey(t.db.jobs[k], t.db.jobs[j].client, t.db.jobs[j].key)
    requires forall reply :: reply in t.replies && reply !in s.replies ==> ReplyOk(t.db, reply)
    ensures KeysOk(t)
  {
  }

  /** What a step can do to the status of an existing attempt. */
  ghost predicate AttemptsMove(s: Sys, t: Sys) {
    && (forall j :: j in s.db.jobs ==> j in t.db.jobs)
    && forall j, a :: a in s.db.execs && Current(t.db, j, a) ==>
      && Current(s.db, j, a)
      && (t.db.jobs[j].status.Starting? ==> s.db.jobs[j].status.Starting?)
      && (t.db.jobs[j].status.Running? ==> s.db.jobs[j].status.Starting? || s.db.jobs[j].status.Running?)
  }

  lemma AttemptsFollow(s: Sys, t: Sys)
    requires JobsMove(s, t)
    ensures AttemptsMove(s, t)
  {
    forall j, a | a in s.db.execs && Current(t.db, j, a)
      ensures Current(s.db, j, a)
      ensures t.db.jobs[j].status.Starting? ==> s.db.jobs[j].status.Starting?
      ensures t.db.jobs[j].status.Running? ==> s.db.jobs[j].status.Starting? || s.db.jobs[j].status.Running?
    {
      PastStartKept(s, s.db.jobs[j], t.db.jobs[j], a);
    }
  }

  lemma RowStays(s: Sys, t: Sys, row: Row)
    requires AttemptsMove(s, t) && ExecsMove(s, t) && RowOk(s, row)
    ensures RowOk(t, row)
  {
  }
}
