/** The store as the program updates it: one field per table, one method per
    write transaction (alphapilot/research/store.py, execution.py, tasks.py,
    runtime.py, process.py).  Every method is proved to take the committed state
    to exactly the state of the transaction function the protocol is built on. */
module TaskStore {
  import opened Wrappers
  import opened Schema
  import opened Locks
  import opened Tasks
  import opened Runtime
  import opened LockSafety

  datatype SubmitResult = Admitted(job: JobId) | Replayed(job: JobId) | Conflict | Gone | QueueFull

  /** What `reconcile` observes about one row outside the database. */
  datatype Observation = Observation(expired: bool, processAlive: bool, overBudget: bool, stopped: bool)

  /** One turn of the reconcile loop. */
  function ReconcileRow(db: Db, staged: set<ExecId>, row: Row, seen: Observation): Db
    requires row.attempt in db.execs
  {
    if row.status.Starting? then (if seen.expired then StartTimeout(db, row) else db)
    else if row.status.Running? && seen.processAlive then
      (if seen.overBudget then RequestStop(db, row.job, row.attempt, Failed) else db)
    else if !seen.stopped then RequestStop(db, row.job, row.attempt, Lost)
    else Finalize(db, staged, row.job, row.attempt, RowFinal(row), RowCompletion(row))
  }

  function ReconcileRows(db: Db, staged: set<ExecId>, rows: seq<Row>, seen: seq<Observation>): (r: Db)
    requires |rows| == |seen| && forall row :: row in rows ==> row.attempt in db.execs
    ensures r.execs.Keys == db.execs.Keys
  {
    if rows == [] then db
    else
      var before := ReconcileRows(db, staged, rows[..|rows| - 1], seen[..|rows| - 1]);
      ReconcileRow(before, staged, rows[|rows| - 1], seen[|rows| - 1])
  }

  datatype ClaimRow = ClaimRow(job: JobId, attempt: ExecId)

  /** The claims of one tick, in order, each allowed when it was made. */
  ghost predicate ClaimsLead(limits: Limits, db: Db, claims: seq<ClaimRow>, next: Db)
    decreases |claims|
  {
    if claims == [] then next == db
    else
      && CanClaim(db, limits, claims[0].job, claims[0].attempt)
      && ClaimsLead(limits, Claim(db, claims[0].job, claims[0].attempt), claims[1..], next)
  }

  lemma NoClaims(limits: Limits, db: Db)
    ensures ClaimsLead(limits, db, [], db)
  {
  }

  lemma ClaimEffect(limits: Limits, db: Db, j: JobId, a: ExecId)
    requires CanClaim(db, limits, j, a)
    ensures |QueuedJobs(Claim(db, j, a).jobs)| + 1 == |QueuedJobs(db.jobs)|
    ensures Claim(db, j, a).execs.Keys == db.execs.Keys + {a} && Claim(db, j, a).locks.Keys == db.locks.Keys + {a}
  {
    assert QueuedJobs(db.jobs) == QueuedJobs(Claim(db, j, a).jobs) + {j};
  }

  lemma {:induction false} ClaimsExtend(limits: Limits, db: Db, claims: seq<ClaimRow>, mid: Db, c: ClaimRow)
    requires ClaimsLead(limits, db, claims, mid) && CanClaim(mid, limits, c.job, c.attempt)
    ensures ClaimsLead(limits, db, claims + [c], Claim(mid, c.job, c.attempt))
    decreases |claims|
  {
    hide Claim, Blocked, Merged, Before;
    if claims == [] {
      assert (claims + [c])[1..] == [];
    } else {
      ClaimsExtend(limits, Claim(db, claims[0].job, claims[0].attempt), claims[1..], mid, c);
      assert (claims + [c])[1..] == claims[1..] + [c];
    }
  }

  /** One mode per resource, write winning over read. */
  method MergeRequests(resources: seq<Request>) returns (merged: map<string, Mode>)
    ensures merged == Merged(Items(resources)) && IsJoin(merged, Items(resources))
  {
    merged := map[];
    for i := 0 to |resources|
      invariant IsJoin(merged, Items(resources[..i]))
    {
      var q := resources[i];
      JoinOne(merged, Items(resources[..i]), q);
      assert Items(resources[..i + 1]) == Items(resources[..i]) + {q};
      var writes := q.mode.Write? || (q.resource in merged && merged[q.resource].Write?);
      merged := merged[q.resource := if writes then Write else Read];
    }
    assert resources[..|resources|] == resources;
    JoinIsUnique(merged, Items(resources));
  }

  lemma UpgradeNothing(held: map<string, Mode>)
    ensures Upgraded(held, map[]) == held
  {
  }

  /** `rows` are the requested and the earlier rows, in write mode iff one of the two was. */
  ghost predicate Raised(held: map<string, Mode>, want: map<string, Mode>, rows: map<string, Mode>) {
    forall r ::
      && (r in rows <==> r in held || r in want)
      && (r in rows ==> (rows[r] == Write <==> (r in held && held[r] == Write) || (r in want && want[r] == Write)))
  }

  lemma UpgradeRaises(held: map<string, Mode>, want: map<string, Mode>)
    ensures Raised(held, want, Upgraded(held, want))
  {
  }

  /** The owner has what it held and what it asked for, the others what they held. */
  ghost predicate Acquired(locks: LockTable, next: LockTable, owner: ExecId, want: set<Request>) {
    && OthersHold(locks, next, owner) && owner in next
    && exists merged ::
         IsJoin(merged, want) && Raised(if owner in locks then locks[owner] else map[], merged, next[owner])
  }

  /** Every other owner keeps exactly its rows. */
  ghost predicate OthersHold(locks: LockTable, next: LockTable, owner: ExecId) {
    forall o :: o != owner ==> (o in next <==> o in locks) && (o in locks ==> next[o] == locks[o])
  }

  lemma UpgradeOneMore(held: map<string, Mode>, merged: map<string, Mode>, todo: set<string>, r: string)
    requires r in todo && todo <= merged.Keys
    ensures var rows := Upgraded(held, merged - todo);
      Upgraded(held, merged - (todo - {r})) == rows[r := if r in rows && rows[r].Write? then Write else merged[r]]
  {
  }

  /** How a job ends: a stop asked for decides, else the worker's report, with a success
      that left no file a failure; the file, if any, is published with a report only; a
      requeued job loses its attempt; nothing else changes. */
  predicate Concluded(row: Job, attempt: ExecId, asked: Status, reported: Option<Status>, staged: bool, job: Job) {
    && (row.status == Cancelling ==>
          && job.status == (if row.stopFinal.Some? then row.stopFinal.value else Cancelled)
          && job.published == row.published)
    && (row.status != Cancelling ==>
          && job.status == (if reported == Some(Succeeded) && !staged then Failed else asked)
          && job.published == (if reported.Some? && staged then Some(attempt) else row.published))
    && job.attempt == (if job.status == Queued then None else Some(attempt))
    && job.completion.None? && job.stopFinal.None?
    && job.created == row.created && job.client == row.client && job.key == row.key && job.digest == row.digest
    && job.resources == row.resources && job.deleted == row.deleted
  }

  lemma FinalConcludes(row: Job, attempt: ExecId, asked: Status, reported: Option<Status>, staged: bool)
    ensures Concluded(row, attempt, asked, reported, staged, FinalJob(row, attempt, asked, reported, staged))
  {
  }

  /** The whole state after a job's attempt has ended: its row concluded, its execution
      finished, its locks and scopes gone, and its notification there unless requeued. */
  ghost predicate Ended(db: Db, next: Db, j: JobId, a: ExecId, asked: Status, reported: Option<Status>, staged: bool) {
    && j in db.jobs && j in next.jobs && a in db.execs
    && Concluded(db.jobs[j], a, asked, reported, staged, next.jobs[j])
    && next.jobs == db.jobs[j := next.jobs[j]]
    && next.execs == db.execs[a := db.execs[a].(finished := true)]
    && a !in next.locks && OthersHold(db.locks, next.locks, a)
    && (forall sc :: sc in next.scopes <==> sc in db.scopes && db.scopes[sc].owner != a)
    && (forall sc :: sc in next.scopes ==> next.scopes[sc] == db.scopes[sc])
    && next.children == db.children && next.cleanup == db.cleanup
    && next.notes ==
       if next.jobs[j].status == Queued || j in db.notes then db.notes
       else db.notes[j := Note(next.jobs[j].status, false)]
  }

  lemma FinalizeEnds(db: Db, staged: set<ExecId>, j: JobId, a: ExecId, asked: Status, reported: Option<Status>)
    requires a in db.execs && !FinalizeRefused(db, j, a, asked)
    ensures Ended(db, Finalize(db, staged, j, a, asked, reported), j, a, asked, reported, a in staged)
  {
  }

  /** The whole state after a claim: the job starting under the attempt, its execution
      with the job's requests, and the rows it asked for, nobody else's touched. */
  ghost predicate Claimed(db: Db, next: Db, j: JobId, a: ExecId) {
    && j in db.jobs && next.jobs == db.jobs[j := db.jobs[j].(status := Starting, attempt := Some(a))]
    && next.execs == db.execs[a := Execution(Some(j), None, db.jobs[j].resources, false)]
    && a in next.locks && IsJoin(next.locks[a], Items(db.jobs[j].resources)) && OthersHold(db.locks, next.locks, a)
    && next.scopes == db.scopes && next.children == db.children && next.notes == db.notes && next.cleanup == db.cleanup
  }

  lemma ClaimTakes(db: Db, j: JobId, a: ExecId)
    requires j in db.jobs && a !in db.locks
    ensures Claimed(db, Claim(db, j, a), j, a)
  {
    MergedIsJoin(Items(db.jobs[j].resources));
    UpgradeFromNothing(Merged(Items(db.jobs[j].resources)));
  }

  /** A job may be claimed: it is the oldest queued one, ties by id, a slot is free, and
      nobody else is in the way of its requests. */
  ghost predicate Claimable(db: Db, limits: Limits, j: JobId, a: ExecId) {
    && |set k | k in db.jobs && db.jobs[k].status in {Starting, Running, Cancelling}| < limits.maxRunning
    && j in db.jobs && db.jobs[j].status == Queued
    && (forall k :: k in db.jobs && db.jobs[k].status == Queued ==>
          db.jobs[j].created < db.jobs[k].created || (db.jobs[j].created == db.jobs[k].created && j <= k))
    && !Busy(db.locks, a, Items(db.jobs[j].resources))
  }

  lemma CanClaimIff(db: Db, limits: Limits, j: JobId, a: ExecId)
    requires a !in db.execs
    ensures CanClaim(db, limits, j, a) <==> Claimable(db, limits, j, a)
  {
    assert ActiveJobs(db.jobs) == set k | k in db.jobs && db.jobs[k].status in {Starting, Running, Cancelling};
    if j in db.jobs { RefusedIff(db.locks, a, Items(db.jobs[j].resources)); }
    hide Busy, Blocked, Merged, Items;
  }

  lemma NoneClaimable(db: Db, limits: Limits, a: ExecId)
    requires a !in db.execs && forall j :: !CanClaim(db, limits, j, a)
    ensures forall j :: !Claimable(db, limits, j, a)
  {
    hide CanClaim, Claimable;
    forall j: JobId ensures !Claimable(db, limits, j, a) { CanClaimIff(db, limits, j, a); }
  }

  /** The final job row: a stop already asked for wins over any completion, and a
      success without its result file is a failure. */
  method Conclude(row: Job, attempt: ExecId, asked: Status, reported: Option<Status>, staged: bool) returns (job: Job)
    ensures job == FinalJob(row, attempt, asked, reported, staged)
    ensures Concluded(row, attempt, asked, reported, staged, job)
  {
    FinalConcludes(row, attempt, asked, reported, staged);
    hide Concluded;
    var final, completion := asked, reported;
    job := row;
    if job.status.Cancelling? {
      final := if job.stopFinal.Some? then job.stopFinal.value else Cancelled;
      completion := None;
    }
    if completion.Some? {
      if completion.value.Succeeded? && !staged {
        final := Failed;
      } else if staged {
        job := job.(published := Some(attempt));
      }
    }
    job := job.(status := final, attempt := if final.Queued? then None else Some(attempt));
    job := job.(completion := None, stopFinal := None);
  }

  /** A job asked to stop: a mark it already carries is kept, and its attempt,
      its request and its published result are untouched. */
  predicate Stopping(job: Job, next: Job, final: Status) {
    && next.status.Cancelling? && next.stopFinal == (if job.status.Cancelling? then job.stopFinal else Some(final))
    && next.attempt == job.attempt && next.published == job.published && next.deleted == job.deleted
    && next.client == job.client && next.key == job.key && next.digest == job.digest && next.resources == job.resources
  }

  class Store {
    var jobs: map<JobId, Job>
    var execs: map<ExecId, Execution>
    var locks: LockTable
    var scopes: map<ScopeId, Scope>
    var children: set<ChildRow>
    var notes: map<JobId, Note>
    var cleanup: set<ExecId>

    /** The committed state. */
    function State(): Db
      reads this
    {
      Db(jobs, execs, locks, scopes, children, notes, cleanup)
    }

    constructor ()
      ensures State() == EmptyDb()
    {
      jobs, execs, locks, scopes, children, notes, cleanup := map[], map[], map[], map[], {}, map[], {};
    }

    // ------------------------------------------------------------- locks

    /** Some requested resource is held by another owner in an excluding mode. */
    method FindConflict(owner: ExecId, merged: map<string, Mode>) returns (found: bool)
      ensures found <==> Blocked(locks, owner, merged)
      ensures found <==>
        exists o, r ::
          && o in locks && o != owner && r in locks[o] && r in merged
          && (merged[r] == Write || locks[o][r] == Write)
    {
      var todo := merged.Keys;
      while todo != {}
        invariant todo <= merged.Keys
        invariant forall o, r :: o in locks && o != owner && r in locks[o] && r in merged && r !in todo ==>
          !Clash(merged[r], locks[o][r])
        decreases |todo|
      {
        var r :| r in todo;
        if exists o :: o in locks && o != owner && r in locks[o] && Clash(merged[r], locks[o][r]) {
          return true;
        }
        todo := todo - {r};
      }
      found := false;
    }

    /** Insert or replace one row per requested resource, keeping write rows. */
    method WriteRows(owner: ExecId, merged: map<string, Mode>)
      modifies this`locks
      ensures locks == old(locks)[owner := Upgraded(Held(old(locks), owner), merged)]
      ensures Raised(if owner in old(locks) then old(locks)[owner] else map[], merged, locks[owner])
    {
      hide Upgraded;
      ghost var before, held := locks, Held(locks, owner);
      var todo := merged.Keys;
      UpgradeNothing(held);
      assert merged - todo == map[];
      locks := locks[owner := Held(locks, owner)];
      while todo != {}
        invariant todo <= merged.Keys
        invariant owner in locks && locks[owner] == Upgraded(held, merged - todo)
        invariant locks == before[owner := locks[owner]]
        decreases |todo|
      {
        var r :| r in todo;
        var rows := locks[owner];
        UpgradeOneMore(held, merged, todo, r);
        locks := locks[owner := rows[r := if r in rows && rows[r].Write? then Write else merged[r]]];
        todo := todo - {r};
      }
      assert merged - todo == merged;
      UpgradeRaises(held, merged);
    }

    /** All requested rows or none; the order of the requests does not matter. */
    method AcquireIn(owner: ExecId, resources: seq<Request>) returns (granted: bool)
      modifies this`locks
      ensures granted <==> !Blocked(old(locks), owner, Merged(Items(resources)))
      ensures locks == if granted then Granted(old(locks), owner, Items(resources)) else old(locks)
      ensures granted <==> !Busy(old(locks), owner, Items(resources))
      ensures if granted then Acquired(old(locks), locks, owner, Items(resources)) else locks == old(locks)
    {
      var merged := MergeRequests(resources);
      RefusedIff(locks, owner, Items(resources));
      var conflict := FindConflict(owner, merged);
      if conflict {
        return false;
      }
      WriteRows(owner, merged);
      granted := true;
    }

    /** `release`: all rows of an owner. */
    method Release(owner: ExecId)
      requires owner in execs
      modifies this`locks, this`scopes, this`execs
      ensures State() == Released(old(State()), owner)
      ensures owner !in locks && forall o :: o != owner && o in old(locks) ==> o in locks && locks[o] == old(locks)[o]
      ensures forall sc :: sc in scopes <==> sc in old(scopes) && old(scopes)[sc].owner != owner
      ensures forall sc :: sc in scopes ==> scopes[sc] == old(scopes)[sc]
      ensures execs == old(execs)[owner := old(execs)[owner].(finished := true)]
    {
      locks := locks - {owner};
      scopes := map s | s in scopes && scopes[s].owner != owner :: scopes[s];
      execs := execs[owner := execs[owner].(finished := true)];
    }

    /** Enter `hold` inside an execution: refused when that execution is over or
        a resource is busy, and then nothing changes. */
    method EnterHold(owner: ExecId, scope: ScopeId, resources: seq<Request>) returns (entered: bool)
      requires owner in execs && scope !in scopes
      modifies this`locks, this`scopes
      ensures entered <==> CanOpen(old(State()), owner, scope, resources)
      ensures State() == if entered then Open(old(State()), owner, scope, resources) else old(State())
      ensures entered <==> !execs[owner].finished && !Busy(old(locks), owner, Items(resources))
      ensures scopes == if entered then old(scopes)[scope := Scope(owner, resources)] else old(scopes)
    {
      RefusedIff(locks, owner, Items(resources));
      if execs[owner].finished {
        return false;
      }
      entered := AcquireIn(owner, resources);
      if entered {
        scopes := scopes[scope := Scope(owner, resources)];
      }
    }

    /** Enter `hold` from the command line; a refusal rolls the insert back. */
    method EnterForegroundHold(owner: ExecId, p: ProcId, scope: ScopeId, resources: seq<Request>)
      returns (entered: bool)
      requires owner !in execs && scope !in scopes
      modifies this`locks, this`scopes, this`execs
      ensures entered <==> !Blocked(old(locks), owner, Merged(Items(resources)))
      ensures State() == if entered then OpenForeground(old(State()), owner, p, scope, resources) else old(State())
      ensures entered <==> !Busy(old(locks), owner, Items(resources))
      ensures execs == if entered then old(execs)[owner := Execution(None, Some(p), [], false)] else old(execs)
      ensures scopes == if entered then old(scopes)[scope := Scope(owner, resources)] else old(scopes)
    {
      var saved := execs;
      execs := execs[owner := Execution(None, Some(p), [], false)];
      entered := EnterHold(owner, scope, resources);
      if !entered {
        execs := saved;
      }
    }

    /** Requests of the base or of a scope row of the owner. */
    ghost predicate StillAsked(owner: ExecId, base: seq<Request>, keep: set<Request>)
      reads this`scopes
    {
      forall q ::
        q in keep <==> q in base || exists s :: s in scopes && scopes[s].owner == owner && q in scopes[s].resources
    }

    /** The base requests of an execution followed by those of its scope rows. */
    method CollectRemaining(owner: ExecId, base: seq<Request>) returns (remaining: seq<Request>)
      ensures Items(remaining) == Items(base) + ScopeWants(scopes, owner)
      ensures StillAsked(owner, base, Items(remaining))
    {
      remaining := base;
      var todo := set s | s in scopes && scopes[s].owner == owner;
      while todo != {}
        invariant forall s :: s in todo ==> s in scopes && scopes[s].owner == owner
        invariant Items(remaining) == Items(base) + ScopeWants(map s | s in scopes && s !in todo :: scopes[s], owner)
        decreases |todo|
      {
        var s :| s in todo;
        AddScope(scopes, todo, s, owner);
        ItemsOfSum(remaining, scopes[s].resources);
        remaining := remaining + scopes[s].resources;
        todo := todo - {s};
      }
      assert (map s | s in scopes && s !in todo :: scopes[s]) == scopes;
    }

    /** Leave `hold`: drop the rows of the owner, ask again for what is still
        needed and ignore the answer. */
    method LeaveHold(owner: ExecId, scope: ScopeId, nested: bool)
      requires owner in execs
      modifies this`locks, this`scopes, this`execs
      ensures State() == Close(old(State()), owner, scope, nested)
      ensures scopes == old(scopes) - {scope} && OthersHold(old(locks), locks, owner)
      ensures execs == if nested then old(execs) else old(execs)[owner := old(execs)[owner].(finished := true)]
      ensures exists keep ::
        && StillAsked(owner, if nested then old(execs)[owner].resources else [], keep)
        && if Busy(old(locks), owner, keep) then owner !in locks else owner in locks && IsJoin(locks[owner], keep)
    {
      scopes := scopes - {scope};
      var base := if nested then execs[owner].resources else [];
      assert Items(base) == if nested then Items(execs[owner].resources) else {};
      var remaining := CollectRemaining(owner, base);
      hide Busy, IsJoin, OthersHold, Acquired, Granted;
      ghost var keep := Items(remaining);
      AskedAgain(locks, owner, keep);
      locks := locks - {owner};
      var granted := AcquireIn(owner, remaining);
      if !nested {
        execs := execs[owner := execs[owner].(finished := true)];
      }
    }

    // --------------------------------------------------------- admission

    /** The row of a client's key, if any. */
    method FindKey(client: string, key: string) returns (found: Option<JobId>)
      ensures found.Some? ==> found.value in jobs && SameKey(jobs[found.value], client, key)
      ensures found.None? <==> !KeyTaken(jobs, client, key)
    {
      var todo := jobs.Keys;
      while todo != {}
        invariant todo <= jobs.Keys
        invariant forall j :: j in jobs && j !in todo ==> !SameKey(jobs[j], client, key)
        decreases |todo|
      {
        var j :| j in todo;
        if SameKey(jobs[j], client, key) {
          return Some(j);
        }
        todo := todo - {j};
      }
      found := None;
    }

    /** The admitting transaction of `submit`: a used key is replayed, refused or
        reported gone; a free key is admitted while the queue has room. */
    method SubmitJob(limits: Limits, j: JobId, created: nat, client: string, key: string, digest: string,
                     resources: seq<Request>)
      returns (r: SubmitResult)
      requires j !in jobs
      modifies this`jobs
      ensures r.Admitted? <==> CanSubmit(old(State()), limits, j, client, key)
      ensures r.Admitted? || r.QueueFull? <==>
        forall k :: k in old(jobs) ==> old(jobs)[k].client != client || old(jobs)[k].key != key
      ensures r.Admitted? ==> |set k | k in old(jobs) && old(jobs)[k].status == Queued| < limits.maxQueued
      ensures r.QueueFull? ==> |set k | k in old(jobs) && old(jobs)[k].status == Queued| >= limits.maxQueued
      ensures r.Admitted? ==>
        && r.job == j && j in jobs && jobs[j].status == Queued
        && jobs[j].created == created && jobs[j].client == client && jobs[j].key == key && jobs[j].digest == digest
        && jobs[j].resources == resources && jobs[j].attempt.None? && jobs[j].completion.None?
        && jobs[j].stopFinal.None? && jobs[j].published.None? && !jobs[j].deleted
      ensures r.Admitted? ==> jobs == old(jobs)[j := jobs[j]]
      ensures !r.Admitted? ==> jobs == old(jobs)
      ensures r.Replayed? ==>
        && r.job in jobs && jobs[r.job].client == client && jobs[r.job].key == key
        && jobs[r.job].digest == digest && !jobs[r.job].deleted
      ensures r.Replayed? ==> CanReplay(old(State()), r.job, client, key, digest)
      ensures r.Conflict? ==>
        exists k :: k in jobs && jobs[k].client == client && jobs[k].key == key && jobs[k].digest != digest
      ensures r.Gone? ==>
        exists k ::
          k in jobs && jobs[k].client == client && jobs[k].key == key && jobs[k].digest == digest && jobs[k].deleted
      ensures r.QueueFull? <==> !KeyTaken(old(jobs), client, key) && |QueuedJobs(old(jobs))| >= limits.maxQueued
      ensures State() ==
        if r.Admitted? then Submit(old(State()), j, created, client, key, digest, resources) else old(State())
    {
      assert QueuedJobs(jobs) == set k | k in jobs && jobs[k].status == Queued;
      var row := FindKey(client, key);
      if row.Some? {
        if jobs[row.value].digest != digest {
          return Conflict;
        }
        return if jobs[row.value].deleted then Gone else Replayed(row.value);
      }
      if |QueuedJobs(jobs)| >= limits.maxQueued {
        return QueueFull;
      }
      jobs := jobs[j := Job(Queued, created, client, key, digest, resources, None, None, None, None, false)];
      r := Admitted(j);
    }

    method CancelJob(j: JobId)
      requires j in jobs
      modifies this`jobs, this`notes
      ensures State() == Cancel(old(State()), j)
      ensures forall k :: k in old(jobs) && k != j ==> k in jobs && jobs[k] == old(jobs)[k]
      ensures j in jobs && jobs[j].stopFinal == old(jobs)[j].stopFinal && jobs[j].completion == old(jobs)[j].completion
      ensures old(jobs)[j].status in {Succeeded, Failed, Cancelled, Lost} ==> jobs == old(jobs) && notes == old(notes)
      ensures old(jobs)[j].status == Queued ==>
        && jobs == old(jobs)[j := old(jobs)[j].(status := Cancelled)]
        && notes == if j in old(notes) then old(notes) else old(notes)[j := Note(Cancelled, false)]
      ensures old(jobs)[j].status in {Starting, Running, Cancelling} ==>
        jobs == old(jobs)[j := old(jobs)[j].(status := Cancelling)] && notes == old(notes)
    {
      if Terminal(jobs[j].status) {
        return;
      }
      var status := if jobs[j].status.Queued? then Cancelled else Cancelling;
      if status.Cancelled? && j !in notes {
        notes := notes[j := Note(status, false)];
      }
      jobs := jobs[j := jobs[j].(status := status)];
    }

    /** Deleting hides a finished job; it is refused while an execution is live. */
    method DeleteJob(j: JobId) returns (deleted: bool)
      requires j in jobs && !jobs[j].deleted
      modifies this`jobs
      ensures deleted <==> CanDelete(old(State()), j)
      ensures State() == if deleted then Delete(old(State()), j) else old(State())
      ensures deleted <==>
        && old(jobs)[j].status in {Succeeded, Failed, Cancelled, Lost}
        && forall a :: a in execs && execs[a].job == Some(j) ==> execs[a].finished
      ensures jobs == if deleted then old(jobs)[j := old(jobs)[j].(deleted := true)] else old(jobs)
    {
      if !Terminal(jobs[j].status) || exists a :: a in execs && execs[a].job == Some(j) && !execs[a].finished {
        return false;
      }
      jobs := jobs[j := jobs[j].(deleted := true)];
      deleted := true;
    }

    // ---------------------------------------------------------- dispatch

    /** ORDER BY created, id LIMIT 1 over the queued rows. */
    method FindFirstQueued() returns (first: Option<JobId>)
      ensures first.Some? ==> FirstQueued(jobs, first.value)
      ensures first.Some? ==> first.value in jobs && jobs[first.value].status == Queued
      ensures first.Some? ==> forall k :: k in jobs && jobs[k].status == Queued ==>
        || jobs[first.value].created < jobs[k].created
        || (jobs[first.value].created == jobs[k].created && first.value <= k)
      ensures first.None? ==> forall j :: j in jobs ==> !jobs[j].status.Queued?
    {
      first := None;
      var todo := jobs.Keys;
      while todo != {}
        invariant todo <= jobs.Keys
        invariant first.Some? ==> first.value in jobs && jobs[first.value].status.Queued?
        invariant forall j :: j in jobs && j !in todo && jobs[j].status.Queued? ==>
          first.Some? && Before(jobs, first.value, j)
        decreases |todo|
      {
        var j :| j in todo;
        if jobs[j].status.Queued? && (first.None? || !Before(jobs, first.value, j)) {
          first := Some(j);
        }
        todo := todo - {j};
      }
    }

    /** Claim the oldest queued job, if there is a free slot and its resources
        are free; `attempt` is the fresh uuid. */
    method ClaimNext(limits: Limits, attempt: ExecId) returns (claimed: Option<JobId>)
      requires attempt !in execs && attempt !in locks
      modifies this`jobs, this`execs, this`locks
      ensures claimed.Some? ==> CanClaim(old(State()), limits, claimed.value, attempt)
      ensures claimed.Some? ==> State() == Claim(old(State()), claimed.value, attempt)
      ensures claimed.None? ==> State() == old(State()) && forall j :: !CanClaim(State(), limits, j, attempt)
      ensures claimed.Some? ==>
        && Claimable(old(State()), limits, claimed.value, attempt)
        && Claimed(old(State()), State(), claimed.value, attempt)
      ensures claimed.None? ==> forall j :: !Claimable(State(), limits, j, attempt)
    {
      hide Claimable, Claimed, Busy, IsJoin, OthersHold, Acquired;
      ghost var db := State();
      if |ActiveJobs(jobs)| >= limits.maxRunning {
        NoneClaimable(db, limits, attempt);
        return None;
      }
      var row := FindFirstQueued();
      if row.None? {
        NoneClaimable(db, limits, attempt);
        return None;
      }
      var j := row.value;
      var granted := AcquireIn(attempt, jobs[j].resources);
      if !granted {
        OnlyOneFirst(jobs, j);
        NoneClaimable(db, limits, attempt);
        return None;
      }
      execs := execs[attempt := Execution(Some(j), None, jobs[j].resources, false)];
      jobs := jobs[j := jobs[j].(status := Starting, attempt := Some(attempt))];
      claimed := Some(j);
      CanClaimIff(db, limits, j, attempt);
      ClaimTakes(db, j, attempt);
    }

    /** The claim loop of `tick`: it claims until nothing can be claimed. */
    method ClaimAll(limits: Limits, first: ExecId) returns (ghost claims: seq<ClaimRow>, next: ExecId)
      requires forall a :: a in execs || a in locks ==> a < first
      modifies this`jobs, this`execs, this`locks
      ensures ClaimsLead(limits, old(State()), claims, State())
      ensures next !in execs && forall j :: !CanClaim(State(), limits, j, next)
      ensures |QueuedJobs(jobs)| + |claims| == |QueuedJobs(old(jobs))|
    {
      hide ClaimsLead, CanClaim, Claim, QueuedJobs;
      claims, next := [], first;
      assert ClaimsLead(limits, State(), [], State()) by { NoClaims(limits, State()); }
      while true
        invariant forall a :: a in execs || a in locks ==> a < next
        invariant ClaimsLead(limits, old(State()), claims, State())
        invariant |QueuedJobs(jobs)| + |claims| == |QueuedJobs(old(jobs))|
        decreases |QueuedJobs(jobs)|
      {
        ghost var before := State();
        var claimed := ClaimNext(limits, next);
        if claimed.None? {
          return;
        }
        ClaimsExtend(limits, old(State()), claims, before, ClaimRow(claimed.value, next));
        ClaimEffect(limits, before, claimed.value, next);
        claims := claims + [ClaimRow(claimed.value, next)];
        next := next + 1;
      }
    }

    /** The launcher's identity, unless the worker registered first. */
    method SaveIdentity(attempt: ExecId, p: ProcId)
      modifies this`execs
      ensures State() == RecordIdentity(old(State()), attempt, p)
      ensures execs ==
        if attempt in old(execs) && old(execs)[attempt].identity.None?
        then old(execs)[attempt := old(execs)[attempt].(identity := Some(p))] else old(execs)
    {
      if attempt in execs && execs[attempt].identity.None? {
        execs := execs[attempt := execs[attempt].(identity := Some(p))];
      }
    }

    // --------------------------------------------------------- reconcile

    method AskStop(j: JobId, attempt: ExecId, final: Status)
      modifies this`jobs
      ensures State() == RequestStop(old(State()), j, attempt, final)
      ensures forall k :: k in old(jobs) && k != j ==> k in jobs && jobs[k] == old(jobs)[k]
      ensures
        if j in old(jobs) && old(jobs)[j].attempt == Some(attempt)
           && old(jobs)[j].status !in {Succeeded, Failed, Cancelled, Lost}
        then j in jobs && Stopping(old(jobs)[j], jobs[j], final) && jobs[j].completion == old(jobs)[j].completion
        else jobs == old(jobs)
    {
      if j !in jobs || jobs[j].attempt != Some(attempt) || Terminal(jobs[j].status) {
        return;
      }
      var job := jobs[j];
      if !job.status.Cancelling? {
        job := job.(stopFinal := Some(final));
      }
      jobs := jobs[j := job.(status := Cancelling)];
    }

    method ExpireStart(row: Row)
      modifies this`jobs
      ensures State() == StartTimeout(old(State()), row)
      ensures forall k :: k in old(jobs) && k != row.job ==> k in jobs && jobs[k] == old(jobs)[k]
      ensures
        if row.job in old(jobs) && old(jobs)[row.job].attempt == Some(row.attempt)
           && old(jobs)[row.job].status == Starting
        then
          && row.job in jobs && Stopping(old(jobs)[row.job], jobs[row.job], Queued)
          && jobs[row.job].completion == row.completion
        else jobs == old(jobs)
    {
      if row.job !in jobs || !jobs[row.job].status.Starting? || jobs[row.job].attempt != Some(row.attempt) {
        return;
      }
      var job := jobs[row.job];
      jobs := jobs[row.job := job.(status := Cancelling, completion := row.completion, stopFinal := Some(Queued))];
    }

    method FinalizeJob(staged: set<ExecId>, j: JobId, attempt: ExecId, asked: Status, reported: Option<Status>)
      returns (done: bool)
      requires attempt in execs
      modifies this`jobs, this`locks, this`scopes, this`execs, this`notes
      ensures done <==> !FinalizeRefused(old(State()), j, attempt, asked)
      ensures State() == Finalize(old(State()), staged, j, attempt, asked, reported)
      ensures done <==>
        && j in old(jobs) && old(jobs)[j].attempt == Some(attempt)
        && old(jobs)[j].status !in {Succeeded, Failed, Cancelled, Lost}
        && (old(jobs)[j].status == Cancelling ==> asked in {Cancelled, Queued, Lost, Failed})
      ensures
        if done then Ended(old(State()), State(), j, attempt, asked, reported, attempt in staged)
        else State() == old(State())
    {
      if !FinalizeRefused(State(), j, attempt, asked) { FinalizeEnds(State(), staged, j, attempt, asked, reported); }
      hide Ended;
      if j !in jobs || jobs[j].attempt != Some(attempt) || Terminal(jobs[j].status) {
        return false;
      }
      if jobs[j].status.Cancelling? && asked !in {Cancelled, Queued, Lost, Failed} {
        return false;
      }
      var job := Conclude(jobs[j], attempt, asked, reported, attempt in staged);
      jobs := jobs[j := job];
      Release(attempt);
      if !job.status.Queued? && j !in notes {
        notes := notes[j := Note(job.status, false)];
      }
      done := true;
    }

    /** The rows `reconcile` reads: every job in flight with its attempt. */
    method ReadRows() returns (rows: set<Row>)
      ensures forall row: Row :: row in rows <==>
        && row.job in jobs && row.attempt in execs && jobs[row.job].attempt == Some(row.attempt)
        && row.status == jobs[row.job].status && row.status in {Starting, Running, Cancelling}
        && row.completion == jobs[row.job].completion && row.stopFinal == jobs[row.job].stopFinal
      ensures forall row :: row in rows ==> row == RowOf(State(), row.job)
    {
      rows := set j | j in jobs && InFlight(jobs[j].status) && jobs[j].attempt.Some? && jobs[j].attempt.value in execs
        :: RowOf(State(), j);
      forall row: Row |
        && row.job in jobs && row.attempt in execs && jobs[row.job].attempt == Some(row.attempt)
        && row.status == jobs[row.job].status && row.status in {Starting, Running, Cancelling}
        && row.completion == jobs[row.job].completion && row.stopFinal == jobs[row.job].stopFinal
        ensures row in rows
      {
        assert row == RowOf(State(), row.job);
      }
    }

    /** The loop of `reconcile` over the rows it read, with what it observed. */
    method Reconcile(staged: set<ExecId>, rows: seq<Row>, seen: seq<Observation>)
      requires |rows| == |seen| && forall row :: row in rows ==> row.attempt in execs
      modifies this`jobs, this`locks, this`scopes, this`execs, this`notes
      ensures State() == ReconcileRows(old(State()), staged, rows, seen)
    {
      for i := 0 to |rows|
        invariant execs.Keys == old(execs.Keys)
        invariant State() == ReconcileRows(old(State()), staged, rows[..i], seen[..i])
      {
        var row, now := rows[i], seen[i];
        assert rows[..i + 1][..i] == rows[..i] && seen[..i + 1][..i] == seen[..i];
        if row.status.Starting? {
          if now.expired {
            ExpireStart(row);
          }
        } else if row.status.Running? && now.processAlive {
          if now.overBudget {
            AskStop(row.job, row.attempt, Failed);
          }
        } else if !now.stopped {
          AskStop(row.job, row.attempt, Lost);
        } else {
          var final, completion := Lost, None;
          if row.status.Cancelling? {
            final := if row.stopFinal.Some? then row.stopFinal.value else Cancelled;
          } else {
            completion := row.completion;
            if completion.Some? {
              final := completion.value;
            }
          }
          var _ := FinalizeJob(staged, row.job, row.attempt, final, completion);
        }
      }
      assert rows[..|rows|] == rows && seen[..|seen|] == seen;
    }

    // ----------------------------------------------------------- workers

    method StartWorker(j: JobId, attempt: ExecId, p: ProcId) returns (started: bool)
      requires attempt in execs
      modifies this`jobs, this`execs
      ensures started <==> CanStart(old(State()), j, attempt)
      ensures State() == if started then WorkerStart(old(State()), j, attempt, p) else old(State())
      ensures started <==>
        j in old(jobs) && old(jobs)[j].attempt == Some(attempt) && old(jobs)[j].status == Starting
      ensures started ==>
        && jobs == old(jobs)[j := old(jobs)[j].(status := Running)]
        && execs == old(execs)[attempt := old(execs)[attempt].(identity := Some(p))]
    {
      if j !in jobs || jobs[j].attempt != Some(attempt) || !jobs[j].status.Starting? {
        return false;
      }
      execs := execs[attempt := execs[attempt].(identity := Some(p))];
      jobs := jobs[j := jobs[j].(status := Running)];
      started := true;
    }

    method CompleteWorker(j: JobId, attempt: ExecId, outcome: Status) returns (committed: bool)
      modifies this`jobs
      ensures State() == WorkerComplete(old(State()), j, attempt, outcome)
      ensures committed <==>
        j in old(jobs) && old(jobs)[j].attempt == Some(attempt) && old(jobs)[j].status == Running
      ensures jobs == if committed then old(jobs)[j := old(jobs)[j].(completion := Some(outcome))] else old(jobs)
    {
      if j !in jobs || !jobs[j].status.Running? || jobs[j].attempt != Some(attempt) {
        return false;
      }
      jobs := jobs[j := jobs[j].(completion := Some(outcome))];
      committed := true;
    }

    /** The check of the child wrapper before it becomes its command. */
    method AdmitChild(live: set<ProcId>, owner: ExecId, p: ProcId) returns (admitted: bool)
      modifies this`children
      ensures admitted <==> CanAdmit(old(State()), live, owner)
      ensures State() == if admitted then Admit(old(State()), owner, p) else old(State())
      ensures admitted <==>
        && owner !in cleanup && owner in execs && !execs[owner].finished
        && execs[owner].identity.Some? && execs[owner].identity.value in live
        && (execs[owner].job.Some? ==>
              var j := execs[owner].job.value;
              j in jobs && jobs[j].status == Running && jobs[j].attempt == Some(owner))
      ensures children == if admitted then old(children) + {ChildRow(owner, p)} else old(children)
    {
      if owner in cleanup || owner !in execs {
        return false;
      }
      var row := execs[owner];
      if row.finished || row.identity.None? || row.identity.value !in live {
        return false;
      }
      if row.job.Some? {
        var j := row.job.value;
        if j !in jobs || !jobs[j].status.Running? || jobs[j].attempt != Some(owner) {
          return false;
        }
      }
      children := children + {ChildRow(owner, p)};
      admitted := true;
    }

    // ------------------------------------------------------------- notes

    /** Mark all unsent notifications and return them for delivery. */
    method TakeNotes() returns (unsent: set<JobId>)
      modifies this`notes
      ensures unsent == set j | j in old(notes) && !old(notes)[j].sent
      ensures forall j :: j in notes <==> j in old(notes)
      ensures forall j :: j in notes ==> notes[j] == old(notes)[j].(sent := true)
    {
      unsent := set j | j in notes && !notes[j].sent;
      notes := map j | j in notes :: notes[j].(sent := true);
    }
  }

  lemma AskedAgain(locks: LockTable, owner: ExecId, keep: set<Request>)
    ensures var next := Acquire(locks - {owner}, owner, keep);
      && OthersHold(locks, next, owner)
      && if Busy(locks, owner, keep) then owner !in next else owner in next && IsJoin(next[owner], keep)
  {
    OwnRowsDoNotCount(locks, owner, keep);
    RefusedIff(locks - {owner}, owner, keep);
    MergedIsJoin(keep);
    UpgradeFromNothing(Merged(keep));
    hide Busy, Blocked, IsJoin, Merged;
  }

  lemma OwnRowsDoNotCount(locks: LockTable, owner: ExecId, want: set<Request>)
    ensures Busy(locks - {owner}, owner, want) <==> Busy(locks, owner, want)
  {
    if o, r :|
      && o in locks && o != owner && r in locks[o]
      && (Request(r, Write) in want || (Request(r, Read) in want && locks[o][r] == Write))
    {
      assert o in locks - {owner} && (locks - {owner})[o] == locks[o];
    }
    if o, r :|
      && o in locks - {owner} && o != owner && r in (locks - {owner})[o]
      && (Request(r, Write) in want || (Request(r, Read) in want && (locks - {owner})[o][r] == Write))
    {
      assert o in locks && locks[o] == (locks - {owner})[o];
    }
  }

  /** A job the row's attempt is still working for. */
  predicate AtWork(db: Db, row: Row) {
    && row.job in db.jobs && db.jobs[row.job].attempt == Some(row.attempt)
    && db.jobs[row.job].status !in {Succeeded, Failed, Cancelled, Lost}
  }

  /** The job is asked to stop and nothing else happens. */
  predicate OnlyStops(db: Db, next: Db, j: JobId, final: Status, completion: Option<Status>) {
    && j in db.jobs && j in next.jobs && next == db.(jobs := db.jobs[j := next.jobs[j]])
    && Stopping(db.jobs[j], next.jobs[j], final) && next.jobs[j].completion == completion
  }

  /** What one turn makes of a row, by what was read and what is observed. */
  ghost predicate Reconciled(db: Db, next: Db, staged: set<ExecId>, row: Row, seen: Observation) {
    if !AtWork(db, row) then next == db
    else
      var job := db.jobs[row.job];
      match row.status
      case Starting =>
        if seen.expired && job.status == Starting then OnlyStops(db, next, row.job, Queued, row.completion)
        else next == db
      case _ =>
        if row.status == Running && seen.processAlive then
          if seen.overBudget then OnlyStops(db, next, row.job, Failed, job.completion) else next == db
        else if !seen.stopped then OnlyStops(db, next, row.job, Lost, job.completion)
        else if row.status == Cancelling then Ends(db, next, staged, row, MarkOf(row.stopFinal), None)
        else match row.completion {
          case None => Ends(db, next, staged, row, Lost, None)
          case Some(o) => Ends(db, next, staged, row, o, Some(o))
        }
  }

  function MarkOf(mark: Option<Status>): Status {
    match mark
    case None => Cancelled
    case Some(s) => s
  }

  /** The attempt ends; but a stop that came in between refuses a success. */
  ghost predicate Ends(db: Db, next: Db, staged: set<ExecId>, row: Row, asked: Status, reported: Option<Status>)
    requires row.job in db.jobs
  {
    if db.jobs[row.job].status == Cancelling && asked !in {Cancelled, Queued, Lost, Failed} then next == db
    else Ended(db, next, row.job, row.attempt, asked, reported, row.attempt in staged)
  }

  lemma RowIsReconciled(db: Db, staged: set<ExecId>, row: Row, seen: Observation)
    requires row.attempt in db.execs && row.status in {Starting, Running, Cancelling}
    ensures Reconciled(db, ReconcileRow(db, staged, row, seen), staged, row, seen)
  {
    var final, reported := RowFinal(row), RowCompletion(row);
    if !FinalizeRefused(db, row.job, row.attempt, final) {
      FinalizeEnds(db, staged, row.job, row.attempt, final, reported);
    }
    hide Ended;
  }

  lemma OnlyOneFirst(jobs: map<JobId, Job>, j: JobId)
    requires FirstQueued(jobs, j)
    ensures forall k :: FirstQueued(jobs, k) ==> k == j
  {
  }

  lemma ItemsOfSum(a: seq<Request>, b: seq<Request>)
    ensures Items(a + b) == Items(a) + Items(b)
  {
  }

  lemma AddScope(scopes: map<ScopeId, Scope>, todo: set<ScopeId>, s: ScopeId, owner: ExecId)
    requires s in todo && s in scopes && scopes[s].owner == owner
    ensures ScopeWants(map x | x in scopes && x !in todo - {s} :: scopes[x], owner)
      == ScopeWants(map x | x in scopes && x !in todo :: scopes[x], owner) + Items(scopes[s].resources)
  {
    var small := map x | x in scopes && x !in todo :: scopes[x];
    var big := map x | x in scopes && x !in todo - {s} :: scopes[x];
    assert big == small[s := scopes[s]];
    ScopeWantsAdd(small, s, scopes[s], owner);
  }

  lemma JoinOne(held: map<string, Mode>, had: set<Request>, q: Request)
    requires IsJoin(held, had)
    ensures
      var writes := q.mode.Write? || (q.resource in held && held[q.resource].Write?);
      IsJoin(held[q.resource := if writes then Write else Read], had + {q})
  {
  }
}
