/** Keyset pagination (alphapilot/research/artifacts.py and tasks.py): a cursor walk
    while rows are inserted and deleted.  Keys are the sort keys of the rows (an id, or
    a creation time and an id) under any strict total order. */
module Paging {
  import opened Wrappers

  ghost predicate StrictOrder<K(!new)>(less: (K, K) -> bool) {
    && (forall a, b :: less(a, b) ==> !less(b, a))
    && (forall a, b :: a == b || less(a, b) || less(b, a))
    && (forall a, b, c :: less(a, b) && less(b, c) ==> less(a, c))
  }

  ghost predicate Descending<K(!new)>(less: (K, K) -> bool, s: seq<K>) {
    forall i, j :: 0 <= i < j < |s| ==> less(s[j], s[i])
  }

  predicate Below<K>(less: (K, K) -> bool, k: K, after: Option<K>) {
    after.None? || less(k, after.value)
  }

  /** A cursor of the artifact list names the query it belongs to. */
  datatype Cursor<+K> = Cursor(scope: string, after: K)

  datatype Listing<+K> = InvalidPage | InvalidCursor | Gone | Rows(rows: seq<K>, next: Option<K>)

  /** One page over the rows of the moment: the greatest rows below the cursor, in
      descending order; a next cursor exactly when something is left below it. */
  ghost predicate PageOk<K(!new)>(less: (K, K) -> bool, table: seq<K>, after: Option<K>, limit: nat, rows: seq<K>,
                                  next: Option<K>) {
    && Descending(less, rows) && |rows| <= limit
    && (forall k :: k in rows ==> k in table && Below(less, k, after))
    && (next.Some? ==>
          |rows| == limit > 0 && next.value == rows[|rows| - 1] && exists k :: k in table && less(k, next.value))
    && (forall k :: k in table && Below(less, k, after) && (next.None? || !less(k, next.value)) ==> k in rows)
  }

  /** SELECT ... WHERE id < after ORDER BY id DESC LIMIT n, scanning the index. */
  method Select<K(==, !new)>(less: (K, K) -> bool, table: seq<K>, after: Option<K>, n: nat) returns (rows: seq<K>)
    requires StrictOrder(less) && Descending(less, table)
    ensures Descending(less, rows) && |rows| <= n
    ensures forall k :: k in rows ==> k in table && Below(less, k, after)
    ensures forall k :: k in table && Below(less, k, after) && k !in rows ==>
      |rows| == n && forall r :: r in rows ==> less(k, r)
  {
    rows := [];
    for i := 0 to |table|
      invariant Descending(less, rows) && |rows| <= n
      invariant forall k :: k in rows ==> k in table[..i] && Below(less, k, after)
      invariant forall k :: k in table[..i] && Below(less, k, after) && k !in rows ==>
        |rows| == n && forall r :: r in rows ==> less(k, r)
    {
      assert table[..i + 1] == table[..i] + [table[i]];
      assert forall k :: k in table[..i] ==> less(table[i], k);
      if |rows| < n && Below(less, table[i], after) {
        rows := rows + [table[i]];
      }
    }
    assert table[..|table|] == table;
  }

  /** The page of one query: one row more than asked for tells whether more is left. */
  method Page<K(==, !new)>(less: (K, K) -> bool, table: seq<K>, after: Option<K>, limit: nat)
    returns (rows: seq<K>, next: Option<K>)
    requires StrictOrder(less) && Descending(less, table) && limit > 0
    ensures PageOk(less, table, after, limit, rows, next)
  {
    rows := Select(less, table, after, limit + 1);
    next := None;
    if |rows| > limit {
      ghost var all, extra := rows, rows[limit];
      rows := rows[..limit];
      next := Some(rows[limit - 1]);
      assert less(extra, next.value) && extra in table;
      forall k | k in table && Below(less, k, after) && !less(k, next.value) ensures k in rows {
        if k in all {
          var i :| 0 <= i < |all| && all[i] == k;
          assert i < limit ==> rows[i] == k;
        }
      }
    }
  }

  /** `ArtifactService._list`. */
  method ListArtifacts<K(==, !new)>(less: (K, K) -> bool, table: seq<K>, scope: string, cursor: Option<Cursor<K>>,
                                    limit: int) returns (r: Listing<K>)
    requires StrictOrder(less) && Descending(less, table)
    ensures r.InvalidPage? <==> !(1 <= limit <= 200)
    ensures r.InvalidCursor? <==> 1 <= limit <= 200 && cursor.Some? && cursor.value.scope != scope
    ensures r.Rows? ==>
      PageOk(less, table, if cursor.Some? then Some(cursor.value.after) else None, limit, r.rows, r.next)
    ensures !r.Gone?
  {
    if !(1 <= limit <= 200) {
      return InvalidPage;
    }
    var after := None;
    if cursor.Some? {
      if cursor.value.scope != scope {
        return InvalidCursor;
      }
      after := Some(cursor.value.after);
    }
    var rows, next := Page(less, table, after, limit);
    r := Rows(rows, next);
  }

  ghost predicate AnyDeleted<K(!new)>(deleted: K -> bool, rows: seq<K>) {
    exists k :: k in rows && deleted(k)
  }

  lemma NoneMissing<K(!new)>(less: (K, K) -> bool, table: seq<K>, after: Option<K>, limit: nat,
                             a: seq<K>, an: Option<K>, b: seq<K>, bn: Option<K>)
    requires StrictOrder(less) && PageOk(less, table, after, limit, a, an) && PageOk(less, table, after, limit, b, bn)
    ensures forall k :: k in a ==> k in b
  {
    forall k | k in a ensures k in b {
      if k !in b {
        assert less(k, bn.value);
        forall y | y in b ensures y in a { assert y == bn.value || less(bn.value, y); }
        LongerList(less, b, a, k);
      }
    }
  }

  lemma LongerList<K(!new)>(less: (K, K) -> bool, b: seq<K>, a: seq<K>, k: K)
    requires StrictOrder(less) && Descending(less, b) && (forall y :: y in b ==> y in a) && k in a && k !in b
    ensures |b| < |a|
  {
    var sa, sb := set y | y in a, set y | y in b;
    DistinctSize(less, b);
    ListSize(a);
    assert sb + {k} <= sa;
    SubsetSize(sb + {k}, sa);
  }

  lemma {:induction false} DistinctSize<K(!new)>(less: (K, K) -> bool, s: seq<K>)
    requires StrictOrder(less) && Descending(less, s)
    ensures |set y | y in s| == |s|
  {
    if s != [] {
      var k := |s| - 1;
      DistinctSize(less, s[..k]);
      assert (set y | y in s) == (set y | y in s[..k]) + {s[k]};
    }
  }

  lemma {:induction false} ListSize<K>(s: seq<K>)
    ensures |set y | y in s| <= |s|
  {
    if s != [] {
      var k := |s| - 1;
      ListSize(s[..k]);
      assert (set y | y in s) == (set y | y in s[..k]) + {s[k]};
    }
  }

  /** The rows of the moment, the cursor and the limit determine the page. */
  lemma PageIsUnique<K(!new)>(less: (K, K) -> bool, table: seq<K>, after: Option<K>, limit: nat,
                              a: seq<K>, an: Option<K>, b: seq<K>, bn: Option<K>)
    requires StrictOrder(less) && PageOk(less, table, after, limit, a, an) && PageOk(less, table, after, limit, b, bn)
    ensures forall k :: k in a <==> k in b
  {
    NoneMissing(less, table, after, limit, a, an, b, bn);
    NoneMissing(less, table, after, limit, b, bn, a, an);
  }

  /** `TaskService.list`: the cursor names no query, and every selected row is read
      again, so that a job deleted in between spoils the whole page. */
  method ListTasks<K(==, !new)>(less: (K, K) -> bool, table: seq<K>, after: Option<K>, limit: int, deleted: K -> bool)
    returns (r: Listing<K>)
    requires StrictOrder(less) && Descending(less, table)
    ensures r.InvalidPage? <==> !(1 <= limit <= 200)
    ensures r.Gone? ==>
      exists rows: seq<K>, next: Option<K> :: PageOk(less, table, after, limit, rows, next) && AnyDeleted(deleted, rows)
    ensures r.Rows? ==> PageOk(less, table, after, limit, r.rows, r.next) && !AnyDeleted(deleted, r.rows)
    ensures !r.InvalidCursor?
  {
    if !(1 <= limit <= 200) {
      return InvalidPage;
    }
    var rows, next := Page(less, table, after, limit);
    for i := 0 to |rows|
      invariant forall k :: k in rows[..i] ==> !deleted(k)
    {
      if deleted(rows[i]) {
        assert AnyDeleted(deleted, rows);
        return Gone;
      }
    }
    assert rows[..|rows|] == rows;
    r := Rows(rows, next);
  }

  // ------------------------------------------------------------ walks

  /** One page of a walk, with the rows that matched when it was read. */
  datatype Leaf<+K> = Leaf(table: seq<K>, after: Option<K>, limit: nat, rows: seq<K>, next: Option<K>)

  /** Each page follows the cursor of the one before; the limits may differ. */
  ghost predicate Walk<K(!new)>(less: (K, K) -> bool, pages: seq<Leaf<K>>) {
    && pages != [] && pages[0].after.None?
    && (forall i :: 0 <= i < |pages| ==> LeafOk(less, pages[i]))
    && (forall i, j :: 0 <= i && j == i + 1 < |pages| ==> Follows(pages[i], pages[j]))
  }

  ghost predicate Follows<K>(p: Leaf<K>, q: Leaf<K>) {
    p.next.Some? && q.after == p.next
  }

  ghost predicate LeafOk<K(!new)>(less: (K, K) -> bool, p: Leaf<K>) {
    PageOk(less, p.table, p.after, p.limit, p.rows, p.next)
  }

  /** Cursors descend. */
  lemma {:induction false} CursorsDescend<K(!new)>(less: (K, K) -> bool, pages: seq<Leaf<K>>, i: nat, j: nat)
    requires StrictOrder(less) && Walk(less, pages) && i < j < |pages|
    ensures pages[i].next.Some? && pages[j].after.Some?
    ensures pages[j].after == pages[i].next || less(pages[j].after.value, pages[i].next.value)
    decreases j
  {
    assert Follows(pages[j - 1], pages[j]);
    if j > i + 1 {
      CursorsDescend(less, pages, i, j - 1);
      assert LeafOk(less, pages[j - 1]);
      assert pages[j - 1].next.value in pages[j - 1].rows;
    }
  }

  /** Whatever is inserted or deleted meanwhile, no row is returned twice: later pages
      hold only smaller keys. */
  lemma NoRowTwice<K(!new)>(less: (K, K) -> bool, pages: seq<Leaf<K>>, i: nat, j: nat, x: K, y: K)
    requires StrictOrder(less) && Walk(less, pages) && i < j < |pages| && x in pages[i].rows && y in pages[j].rows
    ensures less(y, x)
  {
    CursorsDescend(less, pages, i, j);
    assert LeafOk(less, pages[i]) && LeafOk(less, pages[j]);
    var c := pages[i].next.value;
    var k :| 0 <= k < |pages[i].rows| && pages[i].rows[k] == x;
    assert less(y, c) && (x == c || less(c, x));
  }

  /** Page `i` is responsible for `k`: below its cursor, not below its next one. */
  predicate Covers<K>(less: (K, K) -> bool, p: Leaf<K>, k: K) {
    Below(less, k, p.after) && (p.next.None? || !less(k, p.next.value))
  }

  /** A finished walk has a page responsible for every key. */
  lemma {:induction false} SomePageCovers<K(!new)>(less: (K, K) -> bool, pages: seq<Leaf<K>>, k: K, i: nat)
    returns (at: nat)
    requires StrictOrder(less) && Walk(less, pages) && pages[|pages| - 1].next.None? && i < |pages|
    requires Below(less, k, pages[i].after)
    ensures at < |pages| && Covers(less, pages[at], k)
    decreases |pages| - i
  {
    if Covers(less, pages[i], k) {
      at := i;
    } else {
      if i + 1 < |pages| { assert Follows(pages[i], pages[i + 1]); }
      at := SomePageCovers(less, pages, k, i + 1);
    }
  }

  /** A finished walk returns a key exactly if its row was there when the page
      responsible for the key was read. */
  lemma ReturnedIff<K(!new)>(less: (K, K) -> bool, pages: seq<Leaf<K>>, k: K) returns (at: nat)
    requires StrictOrder(less) && Walk(less, pages) && pages[|pages| - 1].next.None?
    ensures at < |pages| && Covers(less, pages[at], k)
    ensures (exists i :: 0 <= i < |pages| && k in pages[i].rows) <==> k in pages[at].table
  {
    at := SomePageCovers(less, pages, k, 0);
    assert LeafOk(less, pages[at]);
    if i :| 0 <= i < |pages| && k in pages[i].rows {
      assert LeafOk(less, pages[i]);
      CoversOnce(less, pages, k, i, at);
    }
  }

  lemma CoversOnce<K(!new)>(less: (K, K) -> bool, pages: seq<Leaf<K>>, k: K, i: nat, at: nat)
    requires StrictOrder(less) && Walk(less, pages) && i < |pages| && at < |pages| && k in pages[i].rows
    requires Covers(less, pages[at], k)
    ensures i == at
  {
    assert LeafOk(less, pages[i]);
    if i < at {
      CursorsDescend(less, pages, i, at);
    } else if at < i {
      CursorsDescend(less, pages, at, i);
    }
  }

  /** A row present throughout a finished walk is returned. */
  lemma MissesNothing<K(!new)>(less: (K, K) -> bool, pages: seq<Leaf<K>>, k: K)
    requires StrictOrder(less) && Walk(less, pages) && pages[|pages| - 1].next.None?
    requires forall i :: 0 <= i < |pages| ==> k in pages[i].table
    ensures exists i :: 0 <= i < |pages| && k in pages[i].rows
  {
    var at := ReturnedIff(less, pages, k);
  }

  /** The cursors of the first `n` pages. */
  function Cursors<K>(pages: seq<Leaf<K>>, n: nat): set<K>
    requires n <= |pages| && forall i :: 0 <= i < n ==> pages[i].next.Some?
  {
    set i | 0 <= i < n :: pages[i].next.value
  }

  lemma NewCursor<K(!new)>(less: (K, K) -> bool, pages: seq<Leaf<K>>, n: nat) returns (c: K)
    requires StrictOrder(less) && Walk(less, pages) && n + 1 < |pages|
    ensures pages[n].next == Some(c) && c in pages[n].table
    ensures forall i :: 0 <= i < n ==> pages[i].next.Some? && pages[i].next.value != c
  {
    assert Follows(pages[n], pages[n + 1]) && LeafOk(less, pages[n]);
    c := pages[n].next.value;
    assert c in pages[n].rows;
    forall i | 0 <= i < n ensures pages[i].next.Some? && pages[i].next.value != c { CursorsDescend(less, pages, i, n); }
  }

  lemma OneCursorMore<K>(pages: seq<Leaf<K>>, n: nat, c: K)
    requires n < |pages| && (forall i :: 0 <= i < n ==> pages[i].next.Some? && pages[i].next.value != c)
    requires pages[n].next == Some(c)
    ensures c !in Cursors(pages, n) && Cursors(pages, n + 1) == Cursors(pages, n) + {c}
  {
  }

  lemma NoCursors<K>(pages: seq<Leaf<K>>)
    ensures Cursors(pages, 0) == {}
  {
  }

  /** A walk over rows from a finite universe ends: it has at most one page more than
      the universe has rows, whatever the limits. */
  lemma {:induction false} WalkEnds<K(!new)>(less: (K, K) -> bool, pages: seq<Leaf<K>>, universe: set<K>, n: nat)
    requires StrictOrder(less) && Walk(less, pages) && n < |pages|
    requires forall i, k :: 0 <= i < |pages| && k in pages[i].table ==> k in universe
    ensures (forall i :: 0 <= i < n ==> pages[i].next.Some?) && Cursors(pages, n) <= universe
    ensures |Cursors(pages, n)| == n
    ensures n <= |universe|
    decreases n
  {
    hide StrictOrder, Walk, Cursors;
    if n == 0 {
      NoCursors(pages);
    } else {
      WalkEnds(less, pages, universe, n - 1);
      var c := NewCursor(less, pages, n - 1);
      OneCursorMore(pages, n - 1, c);
    }
    SubsetSize(Cursors(pages, n), universe);
  }

  lemma {:induction false} SubsetSize<K>(a: set<K>, b: set<K>)
    requires a <= b
    ensures |a| <= |b|
    decreases a
  {
    if a != {} {
      var x :| x in a;
      SubsetSize(a - {x}, b - {x});
    }
  }
}
