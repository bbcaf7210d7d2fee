/** The versioned asset index over a domain store (alphapilot/research/assets.py),
    for one kind of asset.  The index gives every domain record a stable id and a
    revision; the domain store may also be changed behind its back. */
module Assets {
  import opened Wrappers

  type Id = nat

  /** A domain record; its fingerprint is an injective digest, so it stands for
      its own fingerprint. */
  datatype Record = Record(name: string, body: string)

  /** The name column: a domain name, or `"deleted:" + id` once the domain name
      had to be freed. */
  datatype Name = Named(text: string) | Freed(id: Id)

  datatype Row = Row(name: Name, revision: nat, mark: Record, deleted: bool)

  type Table = map<Id, Row>
  type Domain = map<string, Record>

  /** UNIQUE(kind, name), for live and deleted rows alike. */
  ghost predicate Unique(rows: Table) {
    && (forall i, k :: i in rows && k in rows && i != k ==> rows[i].name != rows[k].name)
    && (forall i :: i in rows && rows[i].name.Freed? ==> rows[i].name.id == i)
  }

  predicate Keyed(dom: Domain) {
    forall n :: n in dom ==> dom[n].name == n
  }

  predicate Live(rows: Table, i: Id) {
    i in rows && !rows[i].deleted
  }

  /** Row `i` is the live row of domain name `n`. */
  predicate Shows(rows: Table, i: Id, n: string) {
    Live(rows, i) && rows[i].name == Named(n)
  }

  /** Every listed name is shown by its listed row. */
  ghost predicate Names(rows: Table, ids: map<string, Id>) {
    forall n :: n in ids ==> Shows(rows, ids[n], n)
  }

  /** The live rows are the domain records, one to one by name, with their
      current fingerprints. */
  ghost predicate Agrees(rows: Table, dom: Domain) {
    && (forall i :: Live(rows, i) ==>
          rows[i].name.Named? && rows[i].name.text in dom && rows[i].mark == dom[rows[i].name.text])
    && AllShown(rows, dom)
  }

  /** What an index pass over `dom` makes of row `i`: a deleted row gives up a name
      that has come back. */
  function Passed(row: Row, i: Id, dom: Domain): Row {
    if row.deleted then (if row.name.Named? && row.name.text in dom then row.(name := Freed(i)) else row)
    else if row.name.Named? && row.name.text in dom then
      row.(revision := if row.mark == dom[row.name.text] then row.revision else row.revision + 1,
           mark := dom[row.name.text])
    else row.(deleted := true, revision := row.revision + 1)
  }

  /** The whole pass: every old row is passed, new rows exist exactly for names no
      live row shows. */
  ghost predicate PassOk(rows: Table, dom: Domain, next: Table) {
    && Unique(next)
    && (forall i :: i in rows ==> i in next && next[i] == Passed(rows[i], i, dom))
    && (forall i :: i in next && i !in rows ==> NewRowOk(rows, dom, next[i]))
    && AllShown(next, dom)
  }

  ghost predicate AllShown(rows: Table, dom: Domain) {
    forall n :: n in dom ==> exists i :: Shows(rows, i, n)
  }

  ghost predicate NewRowOk(rows: Table, dom: Domain, next: Row) {
    && next.name.Named? && next.name.text in dom && next == Row(next.name, 1, dom[next.name.text], false)
    && forall k :: !Shows(rows, k, next.name.text)
  }

  /** What a pass means for a reader of the index: a live row whose name still has a record
      shows that record, one revision on if it changed; a live row without one is deleted,
      one revision on; a deleted row stays as it was, but for its name; and a record that
      no live row showed has a new row at revision 1. */
  ghost predicate Indexed(rows: Table, dom: Domain, next: Table) {
    && (forall i :: i in rows && rows[i].deleted ==>
          i in next && next[i].deleted && next[i].revision == rows[i].revision && next[i].mark == rows[i].mark)
    && (forall i, n :: Shows(rows, i, n) && n in dom ==>
          Shows(next, i, n) && next[i].mark == dom[n]
          && next[i].revision == rows[i].revision + (if rows[i].mark == dom[n] then 0 else 1))
    && (forall i, n :: Shows(rows, i, n) && n !in dom ==>
          i in next && next[i].deleted && next[i].revision == rows[i].revision + 1)
    && (forall i :: i in next && i !in rows ==>
          && next[i].name.Named? && next[i].name.text in dom && next[i].mark == dom[next[i].name.text]
          && next[i].revision == 1 && !next[i].deleted)
    && (forall n :: n in dom ==> exists i :: Shows(next, i, n))
  }

  lemma PassIndexes(rows: Table, dom: Domain, next: Table)
    requires PassOk(rows, dom, next)
    ensures Indexed(rows, dom, next)
  {
  }

  /** `_rename`: free the name if some other row has it, then take it. */
  ghost predicate RenameOk(rows: Table, key: Id, n: string, next: Table) {
    && next.Keys == rows.Keys && key in rows
    && next[key] == rows[key].(name := Named(n))
    && forall i :: i in rows && i != key ==>
         next[i] == if rows[i].name == Named(n) then rows[i].(name := Freed(i)) else rows[i]
  }

  function Deleted(rows: Table, key: Id): Table
    requires key in rows
  {
    rows[key := rows[key].(deleted := true, revision := rows[key].revision + 1)]
  }

  // ------------------------------------------------------------ the index

  /** The index table and the domain store as the service updates them.  `next`
      stands for the supply of fresh uuids. */
  class Index {
    var rows: Table
    var dom: Domain
    var next: Id

    ghost predicate Valid()
      reads this
    {
      Unique(rows) && Keyed(dom) && forall i :: i in rows ==> i < next
    }

    constructor ()
      ensures Valid() && rows == map[] && dom == map[]
    {
      rows, dom, next := map[], map[], 0;
    }

    /** SELECT ... WHERE kind=? AND name=?. */
    method FindName(name: Name) returns (found: Option<Id>)
      ensures found.Some? ==> found.value in rows && rows[found.value].name == name
      ensures found.None? ==> forall i :: i in rows ==> rows[i].name != name
    {
      var todo := rows.Keys;
      while todo != {}
        invariant todo <= rows.Keys
        invariant forall i :: i in rows && i !in todo ==> rows[i].name != name
        decreases |todo|
      {
        var i :| i in todo;
        if rows[i].name == name {
          return Some(i);
        }
        todo := todo - {i};
      }
      found := None;
    }

    /** One record of the pass: update the live row of its name, or insert a fresh
        one after freeing the name of a deleted row. */
    method IndexOne(record: Record) returns (key: Id)
      requires Valid() && record.name in dom && dom[record.name] == record
      modifies this`rows, this`next
      ensures Valid() && OneOk(old(rows), record, rows, key)
      ensures next >= old(next)
    {
      hide OneOk, Keyed;
      var name := Named(record.name);
      var row := FindName(name);
      ghost var rows0 := rows;
      if row.Some? && rows[row.value].deleted {
        rows := rows[row.value := rows[row.value].(name := Freed(row.value))];
        row := None;
      }
      ghost var freed := rows;
      if row.Some? {
        key := row.value;
        var revision := rows[key].revision + (if rows[key].mark != record then 1 else 0);
        rows := rows[key := Row(name, revision, record, false)];
        OneUpdated(rows0, record, key, rows);
      } else {
        key := next;
        rows := rows[key := Row(name, 1, record, false)];
        next := next + 1;
        OneInserted(rows0, freed, record, key, rows);
      }
    }

    /** Index every record and collect the id of each. */
    method IndexEach() returns (ids: map<string, Id>)
      requires Valid()
      modifies this`rows, this`next
      ensures Valid() && MidPass(old(rows), dom, dom.Keys, rows)
      ensures ids.Keys == dom.Keys && Names(rows, ids)
    {
      hide MidPass, OneOk, Names, Unique, Shows, Live, Keyed;
      KeyedNames(dom);
      ids := map[];
      var todo := dom.Keys;
      ghost var rows0 := rows;
      NothingIndexed(rows, dom, ids);
      while todo != {}
        invariant todo <= dom.Keys && ids.Keys == dom.Keys - todo
        invariant Valid() && MidPass(rows0, dom, dom.Keys - todo, rows)
        invariant Names(rows, ids)
        decreases |todo|
      {
        var n :| n in todo;
        ghost var before, done := rows, dom.Keys - todo;
        var key := IndexOne(dom[n]);
        OneDone(dom.Keys, todo, n);
        OneInPass(rows0, dom, done, before, rows, n, key);
        OtherNamesStay(before, dom[n], rows, key, ids);
        ids := ids[n := key];
        todo := todo - {n};
      }
      assert dom.Keys - todo == dom.Keys;
    }

    /** `_indexed`: bring the index up to date with the domain records and return
        the id of every record. */
    method IndexAll() returns (ids: map<string, Id>)
      requires Valid()
      modifies this`rows, this`next
      ensures Valid() && PassOk(old(rows), dom, rows) && Agrees(rows, dom)
      ensures Indexed(old(rows), dom, rows)
      ensures ids.Keys == dom.Keys && Names(rows, ids)
    {
      hide MidPass, PassOk, Agrees, Names, AllShown, Shows, Unique, Live, Indexed;
      ghost var rows0 := rows;
      ids := IndexEach();
      ghost var mid := rows;
      var stale := set i | i in rows && !rows[i].deleted && i !in ids.Values;
      StaleIsGone(rows, dom, ids);
      NamesShowAll(rows, dom, ids);
      SweepPasses(rows0, dom, rows);
      rows := map i | i in rows ::
        if i in stale then rows[i].(deleted := true, revision := rows[i].revision + 1) else rows[i];
      assert rows == Swept(mid, dom);
      NamesSurvive(mid, dom, ids);
      PassAgrees(rows0, dom, rows);
      PassIndexes(rows0, dom, rows);
    }

    /** `_rename`. */
    method Rename(key: Id, n: string)
      requires Valid() && key in rows
      modifies this`rows
      ensures Valid() && RenameOk(old(rows), key, n, rows)
    {
      var other := FindName(Named(n));
      if other.Some? && other.value != key {
        rows := rows[other.value := rows[other.value].(name := Freed(other.value))];
      }
      rows := rows[key := rows[key].(name := Named(n))];
    }

    /** `factor_update`: look, compare the revision, rename and change the domain
        record, look again.  A taken name is refused by the domain store; an empty
        new name asks for no renaming. */
    method Update(key: Id, name: Option<string>, body: Option<string>, expected: Option<nat>) returns (r: Outcome)
      requires Valid()
      modifies this
      ensures Valid() && UpdateOk(old(rows), old(dom), key, Edit(name, body, expected), rows, dom, r)
      ensures r.Edited? ==> exists was, now ::
        && EditedDomain(old(dom), was, now, name, body, dom)
        && Shows(rows, key, now) && rows[key].mark == dom[now] && rows[key].revision == r.revision
      ensures !r.Edited? ==> dom == old(dom)
      ensures (r.Required? ==> expected.None?) && (r.Edited? ==> expected.Some?)
      ensures r.Conflict? ==> Live(rows, key) && rows[key].revision == r.current && expected.Some?
      ensures r.Conflict? ==> expected != Some(r.current)
      ensures r.NotFound? ==> !Live(rows, key)
      ensures r.NameTaken? ==> name.Some? && name.value != "" && name.value in dom
    {
      hide Unique, PassOk, RenameOk, Agrees, EditOk, UpdateOk, EditedTo, Indexed;
      ghost var rows0, dom0, edit := rows, dom, Edit(name, body, expected);
      var ids := IndexAll();
      ghost var seen := rows;
      if key !in ids.Values {
        LiveIsListed(rows, dom, ids, key);
        Refused(rows0, dom0, seen, key, edit, NotFound);
        return NotFound;
      }
      var old_name :| old_name in ids && ids[old_name] == key;
      assert Shows(rows, key, old_name);
      r := Verdict(rows[key].revision, expected);
      if !r.Edited? {
        Refused(rows0, dom0, seen, key, edit, r);
        return;
      }
      var record := dom[old_name];
      if name.Some? && name.value != "" && name.value != old_name {
        if name.value in dom {
          Refused(rows0, dom0, seen, key, edit, NameTaken);
          return NameTaken;
        }
        record := record.(name := name.value);
        dom := (dom - {old_name})[record.name := record];
        Rename(key, record.name);
        ShowsRenamed(seen, key, record.name, rows);
      }
      if body.Some? {
        record := record.(body := body.value);
        dom := dom[record.name := record];
      }
      ghost var renamed := rows;
      assert record == Wanted(dom0[old_name], edit) && dom == (dom0 - {old_name})[record.name := record];
      assert EditedDomain(dom0, old_name, record.name, name, body, dom);
      hide EditedDomain, Wanted;
      var _ := IndexAll();
      ShownStays(renamed, dom, rows, key, record.name);
      ShownRecord(rows, dom, key, record.name);
      r := Edited(rows[key].revision);
      Accepted(rows0, dom0, seen, renamed, key, old_name, edit, rows, dom, r);
    }

    /** `delete`. */
    method Remove(key: Id, expected: Option<nat>) returns (r: Outcome)
      requires Valid()
      modifies this
      ensures Valid() && RemoveOk(old(rows), old(dom), key, expected, rows, dom, r)
      ensures r.Edited? ==>
        && key in rows && rows[key].deleted && rows[key].revision == r.revision && r.revision > 0
        && expected == Some(r.revision - 1) && exists n :: n in old(dom) && dom == old(dom) - {n}
      ensures !r.Edited? ==> dom == old(dom)
      ensures (r.Required? ==> expected.None?) && (r.NotFound? ==> !Live(rows, key))
      ensures r.Conflict? ==>
        Live(rows, key) && rows[key].revision == r.current && expected.Some? && expected != Some(r.current)
    {
      hide PassOk, Agrees, Unique, RemoveOk, Indexed;
      ghost var rows0, dom0 := rows, dom;
      var ids := IndexAll();
      ghost var seen := rows;
      if key !in ids.Values {
        LiveIsListed(rows, dom, ids, key);
        Kept(rows0, dom, seen, key, expected, NotFound);
        return NotFound;
      }
      var name :| name in ids && ids[name] == key;
      assert Shows(rows, key, name);
      r := Verdict(rows[key].revision, expected);
      if !r.Edited? {
        Kept(rows0, dom, seen, key, expected, r);
        return;
      }
      dom := dom - {name};
      rows := rows[key := rows[key].(deleted := true, revision := rows[key].revision + 1)];
      r := Edited(rows[key].revision);
      TombstoneUnique(seen, key);
      Removed(rows0, dom0, seen, key, name, expected, r);
    }
  }

  // ------------------------------------------------------------ edits

  datatype Outcome = Edited(revision: nat) | NotFound | Required | Conflict(current: nat) | NameTaken

  datatype Edit = Edit(name: Option<string>, body: Option<string>, expected: Option<nat>)

  /** `check_version`: an edit must name the revision it saw. */
  function Verdict(revision: nat, expected: Option<nat>): (r: Outcome)
    ensures r.Edited? <==> expected == Some(revision)
    ensures !r.NotFound? && !r.NameTaken?
  {
    if expected.None? then Required else if expected.value != revision then Conflict(revision) else Edited(revision)
  }

  /** The record an edit asks for. */
  function Wanted(record: Record, edit: Edit): Record {
    Record(if edit.name.Some? && edit.name.value != "" then edit.name.value else record.name,
           if edit.body.Some? then edit.body.value else record.body)
  }

  /** The domain store after an accepted edit: the record `was` is replaced by `now`, under
      the new name if one was given and with the new body if one was given. */
  predicate EditedDomain(dom: Domain, was: string, now: string, name: Option<string>, body: Option<string>,
                         next: Domain) {
    && was in dom && now == (if name.Some? && name.value != "" then name.value else was)
    && (now == was || now !in dom)
    && next == (dom - {was})[now := Record(now, if body.Some? then body.value else dom[was].body)]
  }

  lemma ShownRecord(rows: Table, dom: Domain, key: Id, n: string)
    requires Agrees(rows, dom) && Shows(rows, key, n)
    ensures n in dom && rows[key].mark == dom[n]
  {
  }

  /** A refused edit changed nothing, and it was refused for a reason. */
  ghost predicate RefusedOk(seen: Table, dom: Domain, key: Id, edit: Edit, r: Outcome) {
    match r
    case Edited(_) => false
    case NotFound => !Live(seen, key)
    case NameTaken =>
      exists n ::
        && Shows(seen, key, n) && n in dom && edit.expected == Some(seen[key].revision)
        && Wanted(dom[n], edit).name in dom && Wanted(dom[n], edit).name != n
    case _ => Live(seen, key) && r == Verdict(seen[key].revision, edit.expected)
  }

  /** An accepted edit replaced exactly the one record, under the expected revision. */
  ghost predicate EditOk(seen: Table, dom: Domain, renamed: Table, key: Id, edit: Edit, next: Table, dom': Domain,
                         r: Outcome) {
    && r.Edited? && Live(seen, key) && seen[key].name.Named? && seen[key].name.text in dom
    && edit.expected == Some(seen[key].revision)
    && EditedTo(seen, dom[seen[key].name.text], Wanted(dom[seen[key].name.text], edit), dom, renamed, key, dom')
    && PassOk(renamed, dom', next) && Live(next, key) && r.revision == next[key].revision
  }

  ghost predicate EditedTo(seen: Table, was: Record, wanted: Record, dom: Domain, renamed: Table, key: Id,
                           dom': Domain) {
    && dom' == (dom - {was.name})[wanted.name := wanted]
    && (wanted.name == was.name || wanted.name !in dom)
    && (if wanted.name == was.name then renamed == seen else RenameOk(seen, key, wanted.name, renamed))
  }

  /** One whole edit: the pass that looked, then a refusal or the change. */
  ghost predicate UpdateVia(rows: Table, dom: Domain, seen: Table, renamed: Table, key: Id, edit: Edit, next: Table,
                            dom': Domain, r: Outcome) {
    && PassOk(rows, dom, seen)
    && if r.Edited? then EditOk(seen, dom, renamed, key, edit, next, dom', r)
       else next == seen && dom' == dom && RefusedOk(seen, dom, key, edit, r)
  }

  ghost predicate UpdateOk(rows: Table, dom: Domain, key: Id, edit: Edit, next: Table, dom': Domain, r: Outcome) {
    exists seen: Table, renamed: Table :: UpdateVia(rows, dom, seen, renamed, key, edit, next, dom', r)
  }

  ghost predicate RemoveOk(rows: Table, dom: Domain, key: Id, expected: Option<nat>, next: Table, dom': Domain,
                           r: Outcome) {
    exists seen: Table ::
      && PassOk(rows, dom, seen)
      && (r.NotFound? <==> !Live(seen, key))
      && if Live(seen, key) && expected == Some(seen[key].revision) && seen[key].name.Named? then
           next == Deleted(seen, key) && dom' == dom - {seen[key].name.text} && r == Edited(next[key].revision)
         else
           next == seen && dom' == dom && (Live(seen, key) ==> r == Verdict(seen[key].revision, expected))
  }

  lemma Refused(rows: Table, dom: Domain, seen: Table, key: Id, edit: Edit, r: Outcome)
    requires PassOk(rows, dom, seen) && RefusedOk(seen, dom, key, edit, r)
    ensures UpdateOk(rows, dom, key, edit, seen, dom, r)
  {
    hide PassOk;
    assert UpdateVia(rows, dom, seen, seen, key, edit, seen, dom, r);
  }

  lemma Accepted(rows: Table, dom: Domain, seen: Table, renamed: Table, key: Id, was: string, edit: Edit, next: Table,
                 dom': Domain, r: Outcome)
    requires PassOk(rows, dom, seen) && Shows(seen, key, was) && was in dom && dom[was].name == was
    requires edit.expected == Some(seen[key].revision)
    requires Wanted(dom[was], edit).name == was || Wanted(dom[was], edit).name !in dom
    requires
      if Wanted(dom[was], edit).name == was then renamed == seen
      else RenameOk(seen, key, Wanted(dom[was], edit).name, renamed)
    requires dom' == (dom - {was})[Wanted(dom[was], edit).name := Wanted(dom[was], edit)]
    requires PassOk(renamed, dom', next) && Live(next, key) && r == Edited(next[key].revision)
    ensures UpdateOk(rows, dom, key, edit, next, dom', r)
  {
    hide PassOk, RenameOk, Wanted;
    assert EditedTo(seen, dom[was], Wanted(dom[was], edit), dom, renamed, key, dom');
    assert UpdateVia(rows, dom, seen, renamed, key, edit, next, dom', r);
  }

  lemma Kept(rows: Table, dom: Domain, seen: Table, key: Id, expected: Option<nat>, r: Outcome)
    requires PassOk(rows, dom, seen) && !r.Edited? && (r.NotFound? <==> !Live(seen, key))
    requires Live(seen, key) ==> r == Verdict(seen[key].revision, expected)
    ensures RemoveOk(rows, dom, key, expected, seen, dom, r)
  {
    hide PassOk;
  }

  lemma Removed(rows: Table, dom: Domain, seen: Table, key: Id, name: string, expected: Option<nat>, r: Outcome)
    requires PassOk(rows, dom, seen) && Shows(seen, key, name) && expected == Some(seen[key].revision)
    requires r == Edited(seen[key].revision + 1)
    ensures RemoveOk(rows, dom, key, expected, Deleted(seen, key), dom - {name}, r)
  {
    hide PassOk;
  }

  lemma TombstoneUnique(rows: Table, key: Id)
    requires Unique(rows) && key in rows
    ensures Unique(Deleted(rows, key))
  {
  }

  lemma ShowsRenamed(rows: Table, key: Id, n: string, next: Table)
    requires RenameOk(rows, key, n, next) && Live(rows, key)
    ensures Shows(next, key, n)
  {
  }

  lemma LiveIsListed(rows: Table, dom: Domain, ids: map<string, Id>, key: Id)
    requires Agrees(rows, dom) && Unique(rows) && ids.Keys == dom.Keys && Names(rows, ids)
    ensures Live(rows, key) ==> key in ids.Values
  {
  }

  lemma ShownStays(rows: Table, dom: Domain, next: Table, key: Id, n: string)
    requires PassOk(rows, dom, next) && Shows(rows, key, n) && n in dom
    ensures Shows(next, key, n)
  {
  }

  lemma OneDone(all: set<string>, todo: set<string>, n: string)
    requires n in todo && todo <= all
    ensures all - (todo - {n}) == (all - todo) + {n} && n !in all - todo
  {
  }

  lemma KeyedNames(dom: Domain)
    requires Keyed(dom)
    ensures forall n :: n in dom ==> dom[n].name == n
  {
  }

  lemma NothingIndexed(rows: Table, dom: Domain, ids: map<string, Id>)
    requires Unique(rows) && ids == map[]
    ensures MidPass(rows, dom, dom.Keys - dom.Keys, rows) && Names(rows, ids)
  {
  }

  lemma OtherNamesStay(rows: Table, record: Record, next: Table, key: Id, ids: map<string, Id>)
    requires OneOk(rows, record, next, key) && record.name !in ids && Names(rows, ids)
    ensures Names(next, ids[record.name := key])
  {
  }

  /** The effect of one record on the table. */
  ghost predicate OneOk(rows: Table, record: Record, next: Table, key: Id) {
    && Unique(next) && Shows(next, key, record.name) && rows.Keys <= next.Keys <= rows.Keys + {key}
    && (forall i :: i in rows && i != key ==>
          next[i] == if rows[i].name == Named(record.name) then rows[i].(name := Freed(i)) else rows[i])
    && (forall i :: i in rows && i != key && rows[i].name == Named(record.name) ==> rows[i].deleted)
    && (if key in rows then
          Shows(rows, key, record.name)
          && next[key] == rows[key].(
            revision := if rows[key].mark == record then rows[key].revision else rows[key].revision + 1,
            mark := record)
        else next[key] == Row(Named(record.name), 1, record, false))
  }

  lemma OneUpdated(rows: Table, record: Record, key: Id, next: Table)
    requires Unique(rows) && Shows(rows, key, record.name)
    requires var grown := rows[key].revision + (if rows[key].mark == record then 0 else 1);
      next == rows[key := Row(Named(record.name), grown, record, false)]
    ensures Unique(next) && OneOk(rows, record, next, key)
  {
  }

  lemma OneInserted(rows: Table, freed: Table, record: Record, key: Id, next: Table)
    requires Unique(rows) && key !in rows && freed.Keys == rows.Keys
    requires forall i :: i in rows && rows[i].name == Named(record.name) ==> rows[i].deleted
    requires forall i :: i in rows ==>
      freed[i] == if rows[i].name == Named(record.name) then rows[i].(name := Freed(i)) else rows[i]
    requires next == freed[key := Row(Named(record.name), 1, record, false)]
    ensures Unique(next) && OneOk(rows, record, next, key)
  {
  }

  /** The table after the records named in `done` were indexed. */
  ghost predicate MidPass(rows: Table, dom: Domain, done: set<string>, mid: Table) {
    && Unique(mid)
    && (forall i :: i in rows ==> i in mid && MidRow(rows[i], i, dom, done, mid[i]))
    && (forall i :: i in mid && i !in rows ==> NewMid(rows, dom, done, mid[i]))
  }

  ghost predicate NewMid(rows: Table, dom: Domain, done: set<string>, mid: Row) {
    NewRowOk(rows, dom, mid) && mid.name.text in done
  }

  predicate MidRow(row: Row, i: Id, dom: Domain, done: set<string>, mid: Row) {
    mid == if row.name.Named? && row.name.text in done && row.name.text in dom then Passed(row, i, dom) else row
  }

  lemma OneInPass(rows: Table, dom: Domain, done: set<string>, mid: Table, after: Table, n: string, key: Id)
    requires MidPass(rows, dom, done, mid) && n in dom && n !in done && dom[n].name == n
    requires OneOk(mid, dom[n], after, key)
    ensures MidPass(rows, dom, done + {n}, after)
  {
    hide Unique, MidRow, NewMid;
    forall i | i in rows
      ensures MidRow(rows[i], i, dom, done + {n}, after[i])
    {
      OldInPass(rows, dom, done, mid, after, n, key, i);
    }
    forall i | i in after && i !in rows ensures NewMid(rows, dom, done + {n}, after[i]) {
      NewInPass(rows, dom, done, mid, after, n, key, i);
    }
  }

  lemma OldInPass(rows: Table, dom: Domain, done: set<string>, mid: Table, after: Table, n: string, key: Id, i: Id)
    requires MidPass(rows, dom, done, mid) && n in dom && n !in done && dom[n].name == n
    requires OneOk(mid, dom[n], after, key) && i in rows
    ensures MidRow(rows[i], i, dom, done + {n}, after[i])
  {
    assert MidRow(rows[i], i, dom, done, mid[i]);
    hide Unique, NewRowOk, MidPass;
  }

  lemma NewInPass(rows: Table, dom: Domain, done: set<string>, mid: Table, after: Table, n: string, key: Id, i: Id)
    requires MidPass(rows, dom, done, mid) && n in dom && n !in done && dom[n].name == n
    requires OneOk(mid, dom[n], after, key) && i in after && i !in rows
    ensures NewMid(rows, dom, done + {n}, after[i])
  {
    hide Unique;
    forall k | Shows(rows, k, n) ensures Shows(mid, k, n) { assert MidRow(rows[k], k, dom, done, mid[k]); }
  }

  lemma NamesShowAll(rows: Table, dom: Domain, ids: map<string, Id>)
    requires ids.Keys == dom.Keys && Names(rows, ids)
    ensures AllShown(rows, dom)
  {
  }

  lemma NamesSurvive(mid: Table, dom: Domain, ids: map<string, Id>)
    requires ids.Keys == dom.Keys && Names(mid, ids)
    ensures Names(Swept(mid, dom), ids)
  {
  }

  predicate Gone(row: Row, dom: Domain) {
    !row.deleted && !(row.name.Named? && row.name.text in dom)
  }

  /** Mark the live rows whose name the domain no longer has. */
  function Swept(mid: Table, dom: Domain): Table {
    map i | i in mid :: if Gone(mid[i], dom) then mid[i].(deleted := true, revision := mid[i].revision + 1) else mid[i]
  }

  /** The rows the pass did not touch are exactly those without a record. */
  lemma StaleIsGone(mid: Table, dom: Domain, ids: map<string, Id>)
    requires Unique(mid) && ids.Keys == dom.Keys && Names(mid, ids)
    ensures (set i | i in mid && !mid[i].deleted && i !in ids.Values) == set i | i in mid && Gone(mid[i], dom)
  {
  }

  lemma SweptRow(rows: Table, dom: Domain, mid: Table, i: Id)
    requires MidPass(rows, dom, dom.Keys, mid) && i in mid
    ensures i in rows ==> Swept(mid, dom)[i] == Passed(rows[i], i, dom)
    ensures i !in rows ==> NewRowOk(rows, dom, Swept(mid, dom)[i])
  {
  }

  lemma SweptShows(dom: Domain, mid: Table)
    requires AllShown(mid, dom) && Unique(mid)
    ensures AllShown(Swept(mid, dom), dom) && Unique(Swept(mid, dom))
  {
    forall n | n in dom ensures exists i :: Shows(Swept(mid, dom), i, n) {
      var i :| Shows(mid, i, n);
      assert Shows(Swept(mid, dom), i, n);
    }
  }

  lemma SweepPasses(rows: Table, dom: Domain, mid: Table)
    requires MidPass(rows, dom, dom.Keys, mid) && AllShown(mid, dom) && Unique(mid)
    ensures PassOk(rows, dom, Swept(mid, dom)) && Unique(Swept(mid, dom))
  {
    var next := Swept(mid, dom);
    assert rows.Keys <= mid.Keys == next.Keys;
    SweptShows(dom, mid);
    hide Unique, AllShown, Passed, NewRowOk, MidPass, Swept;
    forall i | i in rows ensures next[i] == Passed(rows[i], i, dom) { SweptRow(rows, dom, mid, i); }
    forall i | i in next && i !in rows ensures NewRowOk(rows, dom, next[i]) { SweptRow(rows, dom, mid, i); }
  }

  /** After a pass the live rows are the domain records. */
  lemma PassAgrees(rows: Table, dom: Domain, next: Table)
    requires PassOk(rows, dom, next)
    ensures Agrees(next, dom)
  {
  }
}
