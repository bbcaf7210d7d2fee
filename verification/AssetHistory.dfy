/** What the asset index promises over a whole history: ids are never reused,
    revisions only grow, and one revision of one asset has one content. */
module AssetHistory {
  import opened Wrappers
  import opened Assets

  /** What can happen to the index.  The domain store may change in any way
      between two events, so every pass brings the records it read. */
  datatype Event = Pass(dom: Domain) | Renamed(key: Id, name: string) | Tombstoned(key: Id)

  ghost predicate Happens(rows: Table, e: Event, next: Table) {
    match e
    case Pass(dom) => PassOk(rows, dom, next)
    case Renamed(key, n) => Live(rows, key) && RenameOk(rows, key, n, next)
    case Tombstoned(key) => Live(rows, key) && next == Deleted(rows, key)
  }

  ghost predicate History(tables: seq<Table>, events: seq<Event>) {
    && |tables| == |events| + 1 && Unique(tables[0])
    && forall i :: 0 <= i < |events| ==> Happens(tables[i], events[i], tables[i + 1])
  }

  /** A row in a later table: revisions do not shrink, a tombstone stays, and an
      unchanged revision means unchanged content. */
  predicate RowGrows(row: Row, later: Row) {
    && row.revision <= later.revision
    && (row.deleted ==> later.deleted)
    && (row.revision == later.revision ==> later.mark == row.mark && later.deleted == row.deleted)
  }

  ghost predicate Grows(rows: Table, later: Table) {
    forall i :: i in rows ==> i in later && RowGrows(rows[i], later[i])
  }

  lemma StepGrows(rows: Table, e: Event, next: Table)
    requires Unique(rows) && Happens(rows, e, next)
    ensures Unique(next) && Grows(rows, next)
  {
    hide Unique, Grows, PassOk, RenameOk, Deleted;
    match e
    case Pass(dom) => PassGrows(rows, dom, next);
    case Renamed(key, n) => RenameGrows(rows, key, n, next);
    case Tombstoned(key) =>
      TombstoneUnique(rows, key);
      TombstoneGrows(rows, key);
  }

  lemma PassGrows(rows: Table, dom: Domain, next: Table)
    requires PassOk(rows, dom, next)
    ensures Unique(next) && Grows(rows, next)
  {
    hide Unique, AllShown, NewRowOk;
    forall i | i in rows ensures i in next && RowGrows(rows[i], next[i]) { assert next[i] == Passed(rows[i], i, dom); }
  }

  lemma RenameGrows(rows: Table, key: Id, n: string, next: Table)
    requires Unique(rows) && RenameOk(rows, key, n, next)
    ensures Unique(next) && Grows(rows, next)
  {
  }

  lemma TombstoneGrows(rows: Table, key: Id)
    requires key in rows && !rows[key].deleted
    ensures Grows(rows, Deleted(rows, key))
  {
  }

  lemma GrowsOn(a: Table, b: Table, c: Table)
    requires Grows(a, b) && Grows(b, c)
    ensures Grows(a, c)
  {
  }

  /** Over any history of creates, edits, renames, deletes, recreations and passes. */
  lemma {:induction false} HistoryGrows(tables: seq<Table>, events: seq<Event>, j: nat, k: nat)
    requires History(tables, events) && j <= k < |tables|
    ensures Unique(tables[k]) && Grows(tables[j], tables[k])
    decreases k
  {
    hide Happens, Unique, Grows;
    if k == 0 {
      GrowsSelf(tables[0]);
    } else {
      HistoryGrows(tables, events, if j < k then j else k - 1, k - 1);
      StepGrows(tables[k - 1], events[k - 1], tables[k]);
      if j == k { GrowsSelf(tables[k]); } else { GrowsOn(tables[j], tables[k - 1], tables[k]); }
    }
  }

  lemma GrowsSelf(rows: Table)
    ensures Grows(rows, rows)
  {
  }

  /** A deleted id never becomes live again. */
  lemma DeletedForever(tables: seq<Table>, events: seq<Event>, j: nat, k: nat, i: Id)
    requires History(tables, events) && j <= k < |tables| && i in tables[j] && tables[j][i].deleted
    ensures i in tables[k] && !Live(tables[k], i)
  {
    HistoryGrows(tables, events, j, k);
  }

  /** An id and a revision name one content, whenever they are read. */
  lemma OneContentPerRevision(tables: seq<Table>, events: seq<Event>, j: nat, k: nat, i: Id)
    requires History(tables, events) && j < |tables| && k < |tables|
    requires i in tables[j] && i in tables[k] && tables[j][i].revision == tables[k][i].revision
    ensures tables[j][i].mark == tables[k][i].mark && tables[j][i].deleted == tables[k][i].deleted
  {
    if j <= k { HistoryGrows(tables, events, j, k); } else { HistoryGrows(tables, events, k, j); }
  }

  /** A pass leaves the live rows and the domain records in one-to-one
      correspondence by name. */
  lemma OneToOne(rows: Table, dom: Domain, next: Table)
    requires PassOk(rows, dom, next)
    ensures forall i :: Live(next, i) ==>
      next[i].name.Named? && next[i].name.text in dom && next[i].mark == dom[next[i].name.text]
    ensures forall n :: n in dom ==> exists i :: Shows(next, i, n) && forall k :: Shows(next, k, n) ==> k == i
  {
    PassAgrees(rows, dom, next);
    forall n | n in dom ensures exists i :: Shows(next, i, n) && forall k :: Shows(next, k, n) ==> k == i {
      var i :| Shows(next, i, n);
      assert forall k :: Shows(next, k, n) ==> k == i;
    }
  }

  lemma PassKeepsName(rows: Table, dom: Domain, next: Table, i: Id, n: string)
    requires PassOk(rows, dom, next) && i in rows
    ensures Shows(next, i, n) ==> Shows(rows, i, n)
    ensures Shows(rows, i, n) && n in dom ==> Shows(next, i, n)
  {
  }

  /** A name no live row had gets an id that no earlier table ever held, even when
      a deleted asset of that name is remembered. */
  lemma RecreatedIsFresh(tables: seq<Table>, events: seq<Event>, k: nat, n: string, i: Id)
    requires History(tables, events) && k < |events| && events[k].Pass?
    requires (forall old_id :: !Shows(tables[k], old_id, n)) && Shows(tables[k + 1], i, n)
    ensures forall j :: 0 <= j <= k ==> i !in tables[j]
  {
    if i in tables[k] { PassKeepsName(tables[k], events[k].dom, tables[k + 1], i, n); }
    forall j | 0 <= j <= k ensures i !in tables[j] { HistoryGrows(tables, events, j, k); }
  }

  // ------------------------------------------------------------ edits

  /** An edit is a stretch of history, whatever its outcome. */
  lemma EditGrows(rows: Table, dom: Domain, key: Id, edit: Edit, next: Table, dom': Domain, r: Outcome)
    requires Unique(rows) && UpdateOk(rows, dom, key, edit, next, dom', r)
    ensures Unique(next) && Grows(rows, next)
  {
    hide PassOk, RenameOk, Unique, Grows;
    var seen: Table, renamed: Table :| UpdateVia(rows, dom, seen, renamed, key, edit, next, dom', r);
    StepGrows(rows, Pass(dom), seen);
    if r.Edited? {
      var was := dom[seen[key].name.text];
      var wanted := Wanted(was, edit);
      if wanted.name == was.name { GrowsSelf(seen); } else { StepGrows(seen, Renamed(key, wanted.name), renamed); }
      StepGrows(renamed, Pass(dom'), next);
      GrowsOn(seen, renamed, next);
      GrowsOn(rows, seen, next);
    }
  }

  /** What an accepted edit leaves under its id: the wanted form of the asset's own
      record, and the next revision exactly when the edit changed the domain. */
  lemma EditBumps(rows: Table, dom: Domain, key: Id, edit: Edit, next: Table, dom': Domain, r: Outcome)
    requires Keyed(dom) && UpdateOk(rows, dom, key, edit, next, dom', r) && r.Edited?
    ensures Live(next, key) && next[key].name == Named(next[key].mark.name) && next[key].revision == r.revision
    ensures edit.expected.Some? && r.revision == edit.expected.value + (if dom' == dom then 0 else 1)
    ensures forall n :: Shows(rows, key, n) ==>
      n in dom && next[key].mark == Wanted(dom[n], edit) && (dom' == dom <==> Wanted(dom[n], edit) == dom[n])
    ensures forall n :: Shows(rows, key, n) ==>
      && next[key].mark.body == (if edit.body.Some? then edit.body.value else dom[n].body)
      && next[key].mark.name == (if edit.name.Some? && edit.name.value != "" then edit.name.value else n)
      && (r.revision == edit.expected.value + 1 <==>
            || (edit.body.Some? && edit.body.value != dom[n].body)
            || (edit.name.Some? && edit.name.value != "" && edit.name.value != n))
  {
    hide Unique, AllShown;
    var seen: Table, renamed: Table :| UpdateVia(rows, dom, seen, renamed, key, edit, next, dom', r);
    var n := seen[key].name.text;
    PassAgrees(rows, dom, seen);
    assert renamed[key] == seen[key].(name := Named(Wanted(dom[n], edit).name));
    assert next[key] == Passed(renamed[key], key, dom');
    assert next[key].mark == Wanted(dom[n], edit);
    EditChanges(dom, n, Wanted(dom[n], edit), dom');
    forall m | Shows(rows, key, m) ensures m == n { assert seen[key] == Passed(rows[key], key, dom); }
  }

  /** Replacing one record changes the domain exactly when it changes the record. */
  lemma EditChanges(dom: Domain, n: string, wanted: Record, dom': Domain)
    requires Keyed(dom) && n in dom && dom' == (dom - {n})[wanted.name := wanted]
    requires wanted.name == n || wanted.name !in dom
    ensures dom' == dom <==> wanted == dom[n]
  {
    assert wanted.name in dom' && dom'[wanted.name] == wanted;
  }

  /** An edit is accepted only if the asset has not moved past the revision it names. */
  lemma ExpectedIsCurrent(rows: Table, dom: Domain, key: Id, edit: Edit, next: Table, dom': Domain, r: Outcome)
    requires Unique(rows) && UpdateOk(rows, dom, key, edit, next, dom', r) && r.Edited? && key in rows
    ensures edit.expected.Some? && rows[key].revision <= edit.expected.value
  {
    hide PassOk, Unique, EditedTo;
    var seen: Table, renamed: Table :| UpdateVia(rows, dom, seen, renamed, key, edit, next, dom', r);
    StepGrows(rows, Pass(dom), seen);
  }

  /** Of all edits of one asset that carry the same expected revision, at most one
      that changes the content is accepted, whatever happens in between. */
  lemma AtMostOneEdit(rows: Table, dom: Domain, key: Id, first: Edit, dom1: Domain, r: Outcome, tables: seq<Table>,
                      events: seq<Event>,
                      dom2: Domain, second: Edit, next: Table, dom3: Domain, r2: Outcome)
    requires History(tables, events) && second.expected == first.expected
    requires Keyed(dom) && UpdateOk(rows, dom, key, first, tables[0], dom1, r) && r.Edited? && dom1 != dom
    requires UpdateOk(tables[|events|], dom2, key, second, next, dom3, r2)
    ensures !r2.Edited?
  {
    hide Unique, UpdateOk, Happens;
    EditBumps(rows, dom, key, first, tables[0], dom1, r);
    HistoryGrows(tables, events, 0, |events|);
    if r2.Edited? {
      ExpectedIsCurrent(tables[|events|], dom2, key, second, next, dom3, r2);
    }
  }

  /** A deletion is a stretch of history too: it needs the current revision of a
      live asset, and the tombstone carries the next one. */
  lemma RemovalTombstones(rows: Table, dom: Domain, key: Id, expected: Option<nat>, next: Table, dom': Domain,
                          r: Outcome)
    requires Unique(rows) && RemoveOk(rows, dom, key, expected, next, dom', r)
    ensures Unique(next) && Grows(rows, next)
    ensures r.Edited? ==>
      expected.Some? && key in next && next[key].deleted && next[key].revision == expected.value + 1 == r.revision
    ensures !r.Edited? ==> dom' == dom && (Live(next, key) ==> expected != Some(next[key].revision))
  {
    hide PassOk, Unique, Grows, Agrees;
    var seen: Table :| PassOk(rows, dom, seen) && (r.NotFound? <==> !Live(seen, key))
      && if Live(seen, key) && expected == Some(seen[key].revision) && seen[key].name.Named? then
           next == Deleted(seen, key) && dom' == dom - {seen[key].name.text} && r == Edited(next[key].revision)
         else
           next == seen && dom' == dom && (Live(seen, key) ==> r == Verdict(seen[key].revision, expected));
    StepGrows(rows, Pass(dom), seen);
    LiveIsNamed(rows, dom, seen);
    if r.Edited? {
      StepGrows(seen, Tombstoned(key), next);
      GrowsOn(rows, seen, next);
    }
  }

  lemma LiveIsNamed(rows: Table, dom: Domain, next: Table)
    requires PassOk(rows, dom, next)
    ensures forall i :: Live(next, i) ==> next[i].name.Named?
  {
  }

  /** An accepted edit, renaming or not, keeps the id of every other asset. */
  lemma EditKeepsOtherIds(rows: Table, dom: Domain, key: Id, edit: Edit, next: Table, dom': Domain, r: Outcome, i: Id,
                          n: string)
    requires Keyed(dom) && UpdateOk(rows, dom, key, edit, next, dom', r) && Shows(rows, i, n) && n in dom && i != key
    ensures Shows(next, i, n) && n in dom' && dom'[n] == dom[n]
  {
    hide AllShown;
    var seen: Table, renamed: Table :| UpdateVia(rows, dom, seen, renamed, key, edit, next, dom', r);
    PassKeepsName(rows, dom, seen, i, n);
    if r.Edited? {
      assert seen[key].name != seen[i].name && renamed[i] == seen[i];
      PassKeepsName(renamed, dom', next, i, n);
    }
  }
}
