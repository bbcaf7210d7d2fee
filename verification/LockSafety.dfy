/** Every step keeps the lock table equal to what its owners are entitled to,
    and free of excluding modes. */
module LockSafety {
  import opened Wrappers
  import opened Schema
  import opened Locks
  import opened Tasks
  import opened Runtime
  import opened Protocol
  import opened Invariants

  lemma ScopeWantsAdd(scopes: map<ScopeId, Scope>, scope: ScopeId, row: Scope, o: ExecId)
    requires scope !in scopes
    ensures ScopeWants(scopes[scope := row], o) ==
      ScopeWants(scopes, o) + (if row.owner == o then Items(row.resources) else {})
  {
    var next := scopes[scope := row];
    forall q | q in ScopeWants(scopes, o) ensures q in ScopeWants(next, o) {
      var sc :| sc in scopes && scopes[sc].owner == o && q in scopes[sc].resources;
      assert next[sc] == scopes[sc];
    }
    forall q | row.owner == o && q in row.resources ensures q in ScopeWants(next, o) {
      assert next[scope] == row;
    }
  }

  lemma ScopeWantsDrop(scopes: map<ScopeId, Scope>, scope: ScopeId, o: ExecId)
    ensures ScopeWants(scopes - {scope}, o) <= ScopeWants(scopes, o)
    ensures scope in scopes && scopes[scope].owner != o ==> ScopeWants(scopes - {scope}, o) == ScopeWants(scopes, o)
  {
    var rest := scopes - {scope};
    forall q | q in ScopeWants(rest, o) ensures q in ScopeWants(scopes, o) {
      var sc :| sc in rest && rest[sc].owner == o && q in rest[sc].resources;
      assert scopes[sc] == rest[sc];
    }
    if scope in scopes && scopes[scope].owner != o {
      forall q | q in ScopeWants(scopes, o) ensures q in ScopeWants(rest, o) {
        var sc :| sc in scopes && scopes[sc].owner == o && q in scopes[sc].resources;
        assert rest[sc] == scopes[sc];
      }
    }
  }

  lemma ScopeWantsWithout(scopes: map<ScopeId, Scope>, owner: ExecId, o: ExecId)
    ensures ScopeWants(ScopesWithout(scopes, owner), o) == if o == owner then {} else ScopeWants(scopes, o)
  {
    var rest := ScopesWithout(scopes, owner);
    if o != owner {
      forall q | q in ScopeWants(scopes, o) ensures q in ScopeWants(rest, o) {
        var sc :| sc in scopes && scopes[sc].owner == o && q in scopes[sc].resources;
        assert rest[sc] == scopes[sc];
      }
      forall q | q in ScopeWants(rest, o) ensures q in ScopeWants(scopes, o) {
        var sc :| sc in rest && rest[sc].owner == o && q in rest[sc].resources;
        assert rest[sc] == scopes[sc];
      }
    }
  }

  lemma NoScopesNoWants(db: Db, o: ExecId)
    requires LocksOk(db) && o !in db.execs
    ensures ScopeWants(db.scopes, o) == {} && Held(db.locks, o) == map[]
  {
  }

  /** The other executions see neither their rows nor their rights change. */
  ghost predicate OthersKeep(db: Db, next: Db, owner: ExecId) {
    forall o :: o in next.execs && o != owner ==>
      && o in db.execs && next.execs[o].finished == db.execs[o].finished
      && next.execs[o].resources == db.execs[o].resources
      && Held(next.locks, o) == Held(db.locks, o)
      && ScopeWants(next.scopes, o) == ScopeWants(db.scopes, o)
  }

  lemma OwnerChanged(db: Db, next: Db, owner: ExecId)
    requires LocksOk(db) && OthersKeep(db, next, owner)
    requires Compatible(next.locks) && next.locks.Keys <= next.execs.Keys
    requires forall sc :: sc in next.scopes ==> next.scopes[sc].owner in next.execs
    requires owner in next.execs && IsJoin(Held(next.locks, owner), Wants(next, owner))
    ensures LocksOk(next)
  {
  }

  /** Identities, jobs and children do not matter to the lock table. */
  lemma LocksUntouched(db: Db, next: Db)
    requires LocksOk(db) && next.locks == db.locks && next.scopes == db.scopes && next.execs.Keys == db.execs.Keys
    requires forall o :: o in db.execs ==>
      next.execs[o].finished == db.execs[o].finished && next.execs[o].resources == db.execs[o].resources
    ensures LocksOk(next)
  {
  }

  lemma ClaimKeepsLocks(limits: Limits, db: Db, j: JobId, a: ExecId)
    requires LocksOk(db) && CanClaim(db, limits, j, a)
    ensures LocksOk(Claim(db, j, a))
  {
    var next := Claim(db, j, a);
    var want := Items(db.jobs[j].resources);
    NoScopesNoWants(db, a);
    GrantCompatible(db.locks, a, want);
    UpgradeFromNothing(Merged(want));
    MergedIsJoin(want);
    assert Wants(next, a) == want;
    OwnerChanged(db, next, a);
  }

  lemma ReleaseKeepsLocks(db: Db, o: ExecId)
    requires LocksOk(db) && o in db.execs
    ensures LocksOk(Released(db, o)) && Held(Released(db, o).locks, o) == map[]
  {
    var next := Released(db, o);
    ReleaseCompatible(db.locks, o);
    forall x | x in next.execs
      ensures ScopeWants(next.scopes, x) == if x == o then {} else ScopeWants(db.scopes, x)
    {
      ScopeWantsWithout(db.scopes, o, x);
    }
    OwnerChanged(db, next, o);
  }

  lemma OpenOthers(db: Db, o: ExecId, scope: ScopeId, resources: seq<Request>)
    requires scope !in db.scopes
    ensures OthersKeep(db, Open(db, o, scope, resources), o)
  {
    forall x: ExecId | x != o ensures ScopeWants(Open(db, o, scope, resources).scopes, x) == ScopeWants(db.scopes, x) {
      ScopeWantsAdd(db.scopes, scope, Scope(o, resources), x);
    }
  }

  lemma OpenKeepsLocks(db: Db, o: ExecId, scope: ScopeId, resources: seq<Request>)
    requires LocksOk(db) && CanOpen(db, o, scope, resources)
    ensures LocksOk(Open(db, o, scope, resources))
  {
    hide IsJoin, Compatible, ScopeWants, Blocked, Merged, OthersKeep;
    var next := Open(db, o, scope, resources);
    GrantCompatible(db.locks, o, Items(resources));
    UpgradeJoins(Held(db.locks, o), Wants(db, o), Items(resources));
    ScopeWantsAdd(db.scopes, scope, Scope(o, resources), o);
    OpenOthers(db, o, scope, resources);
    assert Wants(next, o) == Wants(db, o) + Items(resources);
    OwnerChanged(db, next, o);
  }

  lemma OpenForegroundKeepsLocks(db: Db, o: ExecId, p: ProcId, scope: ScopeId, resources: seq<Request>)
    requires LocksOk(db) && o !in db.execs && scope !in db.scopes && !Blocked(db.locks, o, Merged(Items(resources)))
    ensures LocksOk(OpenForeground(db, o, p, scope, resources))
  {
    var with := db.(execs := db.execs[o := Execution(None, Some(p), [], false)]);
    NoScopesNoWants(db, o);
    OwnerChanged(db, with, o);
    OpenKeepsLocks(with, o, scope, resources);
  }

  lemma CloseOthers(db: Db, o: ExecId, scope: ScopeId, nested: bool, locks: LockTable)
    requires o in db.execs && scope in db.scopes && db.scopes[scope].owner == o
    requires forall x :: x != o ==> Held(locks, x) == Held(db.locks, x)
    ensures OthersKeep(db, Close(db, o, scope, nested).(locks := locks), o)
  {
    forall x: ExecId | x != o ensures ScopeWants(db.scopes - {scope}, x) == ScopeWants(db.scopes, x) {
      ScopeWantsDrop(db.scopes, scope, x);
    }
  }

  /** Leaving a scope: the second acquire is never refused, and the owner ends up
      with exactly what it is still entitled to. */
  lemma CloseKeepsLocks(db: Db, o: ExecId, scope: ScopeId, nested: bool)
    requires LocksOk(db) && o in db.execs && scope in db.scopes && db.scopes[scope].owner == o
    requires nested && db.execs[o].finished ==> db.execs[o].resources == []
    ensures LocksOk(Close(db, o, scope, nested))
    ensures var next := Close(db, o, scope, nested);
      var keep := (if nested then Items(db.execs[o].resources) else {}) + ScopeWants(next.scopes, o);
      next.locks == db.locks[o := Merged(keep)]
  {
    hide IsJoin, Blocked, Compatible, Merged, ScopeWants, Items, Wants;
    var next := Close(db, o, scope, nested);
    var keep := (if nested then Items(db.execs[o].resources) else {}) + ScopeWants(next.scopes, o);
    CloseWants(db, o, scope, nested);
    ReacquireWorks(db.locks, o, Wants(db, o), keep);
    CloseOthers(db, o, scope, nested, next.locks);
    OwnerChanged(db, next, o);
  }

  /** What a closing scope leaves is part of what there was. */
  lemma CloseWants(db: Db, o: ExecId, scope: ScopeId, nested: bool)
    requires o in db.execs && scope in db.scopes && db.scopes[scope].owner == o
    requires nested && db.execs[o].finished ==> db.execs[o].resources == []
    ensures var next := Close(db, o, scope, nested);
      var keep := (if nested then Items(db.execs[o].resources) else {}) + ScopeWants(next.scopes, o);
      o in next.execs && keep <= Wants(db, o) && Wants(next, o) == keep
  {
    hide ScopeWants, Acquire;
    ScopeWantsDrop(db.scopes, scope, o);
  }

  lemma ReacquireWorks(locks: LockTable, o: ExecId, had: set<Request>, keep: set<Request>)
    requires Compatible(locks) && IsJoin(Held(locks, o), had) && keep <= had
    ensures Acquire(locks - {o}, o, keep) == locks[o := Merged(keep)]
    ensures Compatible(locks[o := Merged(keep)]) && IsJoin(Merged(keep), keep)
  {
    ReacquireNeverBlocked(locks, o, had, keep);
    ReacquireIsJoin(locks, o, keep);
    ReleaseCompatible(locks, o);
    GrantCompatible(locks - {o}, o, keep);
    MergedIsJoin(keep);
  }

  // ------------------------------------------------------------ all steps

  lemma DispatchKeepsLocks(limits: Limits, s: Sys, step: DispatchStep)
    requires LocksOk(s.db) && DispatchEnabled(limits, s, step)
    ensures LocksOk(DispatchApply(limits, s, step).db)
  {
    match step
    case ClaimJob(j, a) => ClaimKeepsLocks(limits, s.db, j, a);
    case Launch(_, _, _) =>
    case Identify(a, p) => LocksUntouched(s.db, RecordIdentity(s.db, a, p));
    case AskStop(j, a, final) => LocksUntouched(s.db, RequestStop(s.db, j, a, final));
  }

  lemma ReconcileKeepsLocks(s: Sys, step: ReconcileStep)
    requires LocksOk(s.db) && ReconcileEnabled(s, step)
    ensures LocksOk(ReconcileApply(s, step).db)
  {
    var next := ReconcileApply(s, step).db;
    match step
    case FinalizeRow(row) =>
      if next != s.db {
        ReleaseKeepsLocks(s.db, row.attempt);
        LocksUntouched(Released(s.db, row.attempt), next);
      }
    case ReleaseStandalone(o) => ReleaseKeepsLocks(s.db, o);
    case _ => LocksUntouched(s.db, next);
  }

  lemma ScopeKeepsLocks(s: Sys, step: ScopeStep)
    requires LocksOk(s.db) && ProcsOk(s) && ExecsOk(s) && ScopeEnabled(s, step)
    ensures LocksOk(ScopeApply(s, step).db)
  {
    assert step.p in s.procs ==> ProcOk(s, step.p);
    match step
    case OpenScope(p, scope, resources) => OpenKeepsLocks(s.db, s.procs[p].owner, scope, resources);
    case CloseScope(p, scope) =>
      assert ExecOk(s, s.procs[p].owner);
      CloseKeepsLocks(s.db, s.procs[p].owner, scope, true);
    case OpenHold(p, o, scope, resources) => OpenForegroundKeepsLocks(s.db, o, p, scope, resources);
    case CloseHold(p) => CloseKeepsLocks(s.db, s.procs[p].owner, s.procs[p].role.base, false);
    case _ => LocksUntouched(s.db, ScopeApply(s, step).db);
  }
}
