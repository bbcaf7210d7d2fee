/** Reader/writer resource locks (alphapilot/research/execution.py).
    A request list only matters as a set of requests: the source merges it into
    one mode per resource before it looks at the lock table. */
module Locks {
  import opened Schema

  /** The rows one owner holds. */
  function Held(locks: LockTable, owner: ExecId): map<string, Mode> {
    if owner in locks then locks[owner] else map[]
  }

  function Resources(want: set<Request>): set<string> {
    set q | q in want :: q.resource
  }

  /** One mode per requested resource; write beats read. */
  function Merged(want: set<Request>): map<string, Mode> {
    map r | r in Resources(want) :: if Request(r, Write) in want then Write else Read
  }

  predicate Clash(a: Mode, b: Mode) {
    a.Write? || b.Write?
  }

  /** Some other owner has a row that excludes one of the wanted modes. */
  ghost predicate Blocked(locks: LockTable, owner: ExecId, want: map<string, Mode>) {
    exists o, r :: o in locks && o != owner && r in locks[o] && r in want && Clash(want[r], locks[o][r])
  }

  /** The same, written out: another owner has a row on a requested resource, and either
      the row or the request is for writing. */
  ghost predicate Busy(locks: LockTable, owner: ExecId, want: set<Request>) {
    exists o, r ::
      && o in locks && o != owner && r in locks[o]
      && (Request(r, Write) in want || (Request(r, Read) in want && locks[o][r] == Write))
  }

  /** Row by row "insert or replace", never downgrading a write row. */
  function Upgraded(held: map<string, Mode>, want: map<string, Mode>): map<string, Mode> {
    map r | r in held.Keys + want.Keys ::
      if r in held && held[r].Write? then Write else if r in want then want[r] else held[r]
  }

  function Granted(locks: LockTable, owner: ExecId, want: set<Request>): LockTable {
    locks[owner := Upgraded(Held(locks, owner), Merged(want))]
  }

  /** `acquire_in`: all requested rows or none. */
  ghost function Acquire(locks: LockTable, owner: ExecId, want: set<Request>): LockTable {
    if Blocked(locks, owner, Merged(want)) then locks else Granted(locks, owner, want)
  }

  /** No two owners hold excluding modes on one resource. */
  ghost predicate Compatible(locks: LockTable) {
    forall o, p, r :: o in locks && p in locks && o != p && r in locks[o] && r in locks[p] ==>
      !Clash(locks[o][r], locks[p][r])
  }

  /** `held` is exactly the join of `want`: the requested resources, in write
      mode iff some request asked for write. */
  ghost predicate IsJoin(held: map<string, Mode>, want: set<Request>) {
    && (forall r :: r in held <==> Request(r, Read) in want || Request(r, Write) in want)
    && (forall r :: r in held ==> held[r] == if Request(r, Write) in want then Write else Read)
  }

  lemma ResourcesAre(want: set<Request>)
    ensures forall r :: r in Resources(want) <==> Request(r, Read) in want || Request(r, Write) in want
  {
    forall r ensures r in Resources(want) <==> Request(r, Read) in want || Request(r, Write) in want {
      if r in Resources(want) {
        var q :| q in want && q.resource == r;
        match q.mode { case Read => assert q == Request(r, Read); case Write => assert q == Request(r, Write); }
      }
      forall q | q in want ensures q.resource in Resources(want) {}
      assert Request(r, Read).resource == Request(r, Write).resource == r;
    }
  }

  lemma MergedIsJoin(want: set<Request>)
    ensures IsJoin(Merged(want), want)
  {
    ResourcesAre(want);
  }

  lemma JoinIsUnique(held: map<string, Mode>, want: set<Request>)
    requires IsJoin(held, want)
    ensures held == Merged(want)
  {
    ResourcesAre(want);
  }

  /** A request is refused if and only if another owner has a row on one of its resources
      and either the row or the request is for writing. */
  lemma RefusedIff(locks: LockTable, owner: ExecId, want: set<Request>)
    ensures Blocked(locks, owner, Merged(want)) <==> Busy(locks, owner, want)
  {
    ResourcesAre(want);
    var m := Merged(want);
    if o, r :|
      && o in locks && o != owner && r in locks[o]
      && (Request(r, Write) in want || (Request(r, Read) in want && locks[o][r] == Write))
    {
      assert r in m && Clash(m[r], locks[o][r]);
    }
  }

  /** Readers share: an owner that asks only to read is refused if and only if another
      owner writes one of its resources. */
  lemma ReadersShare(locks: LockTable, owner: ExecId, want: set<Request>)
    requires forall q :: q in want ==> q.mode == Read
    ensures Blocked(locks, owner, Merged(want)) <==>
      exists o, r :: o in locks && o != owner && r in locks[o] && locks[o][r] == Write && Request(r, Read) in want
  {
    RefusedIff(locks, owner, want);
  }

  /** Acquiring on top of what an owner holds joins the requests. */
  lemma UpgradeJoins(held: map<string, Mode>, had: set<Request>, want: set<Request>)
    requires IsJoin(held, had)
    ensures IsJoin(Upgraded(held, Merged(want)), had + want)
  {
    ResourcesAre(want);
  }

  lemma UpgradeFromNothing(want: map<string, Mode>)
    ensures Upgraded(map[], want) == want
  {
  }

  /** A granted request keeps the table compatible. */
  lemma GrantCompatible(locks: LockTable, owner: ExecId, want: set<Request>)
    requires Compatible(locks)
    requires !Blocked(locks, owner, Merged(want))
    ensures Compatible(Granted(locks, owner, want))
  {
    var next := Granted(locks, owner, want);
    var m := Merged(want);
    forall o, p, r | o in next && p in next && o != p && r in next[o] && r in next[p]
      ensures !Clash(next[o][r], next[p][r])
    {
      if o == owner {
        GrantedRow(locks, owner, want, p, r);
      } else if p == owner {
        GrantedRow(locks, owner, want, o, r);
      }
    }
  }

  lemma GrantedRow(locks: LockTable, owner: ExecId, want: set<Request>, other: ExecId, r: string)
    requires Compatible(locks) && !Blocked(locks, owner, Merged(want))
    requires other != owner && other in locks && r in locks[other]
    requires r in Granted(locks, owner, want)[owner]
    ensures !Clash(Granted(locks, owner, want)[owner][r], locks[other][r])
  {
    var m := Merged(want);
    if r in m { assert !Clash(m[r], locks[other][r]); }
    if owner in locks && r in locks[owner] { assert !Clash(locks[owner][r], locks[other][r]); }
  }

  lemma ReleaseCompatible(locks: LockTable, owner: ExecId)
    requires Compatible(locks)
    ensures Compatible(locks - {owner})
  {
  }

  /** Closing a scope drops every row of the owner and asks again for what its
      base and its other scopes need.  Nobody else can be in the way: the owner
      held all of it a moment ago.  This is why the ignored result is harmless. */
  lemma ReacquireNeverBlocked(locks: LockTable, owner: ExecId, had: set<Request>, keep: set<Request>)
    requires Compatible(locks)
    requires IsJoin(Held(locks, owner), had)
    requires keep <= had
    ensures !Blocked(locks - {owner}, owner, Merged(keep))
  {
    var m := Merged(keep);
    var rest := locks - {owner};
    forall o, r | o in rest && o != owner && r in rest[o] && r in m
      ensures !Clash(m[r], rest[o][r])
    {
      ResourcesAre(keep);
      assert r in Held(locks, owner) && owner in locks && locks[o] == rest[o];
      assert !Clash(locks[owner][r], locks[o][r]);
    }
  }

  lemma ReacquireIsJoin(locks: LockTable, owner: ExecId, keep: set<Request>)
    ensures Granted(locks - {owner}, owner, keep) == locks[owner := Merged(keep)]
    ensures IsJoin(Held(Granted(locks - {owner}, owner, keep), owner), keep)
  {
    assert Held(locks - {owner}, owner) == map[];
    UpgradeFromNothing(Merged(keep));
    MergedIsJoin(keep);
  }
}
