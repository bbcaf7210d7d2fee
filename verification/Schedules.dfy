/** Daily schedules (alphapilot/research/schedules.py): the occurrence key of each
    submitted job and the revision-guarded write-back, under edits, repeated and
    crashed passes. */
module Schedules {
  import opened Wrappers

  type Id = string
  type Zone = string

  /** The local day and minute of an instant, per time zone. */
  datatype World = World(day: (Zone, int) -> int, minute: (Zone, int) -> int)

  /** What a user saves: minute of the day, time zone, job request, owner. */
  datatype Config = Config(enabled: bool, time: int, zone: Zone, client: string, job: string)

  datatype Sched = Sched(config: Config, lastDay: Option<int>, retryAt: Option<int>, revision: nat)

  /** The scheduler's idempotency key, under the client that owns the schedule. */
  datatype Key = Key(client: string, id: Id, day: int, time: int)

  /** An admitted job: its request, and the instant of the pass that submitted it. */
  datatype Made = Made(job: string, instant: int)

  /** What decides a submission beside the key: the stored credential, room in the
      queue, and whether the earlier job was deleted. */
  datatype Mood = Mood(actorOk: bool, room: bool, gone: bool)

  predicate Due(w: World, s: Sched, instant: int) {
    && s.config.enabled && s.lastDay != Some(w.day(s.config.zone, instant))
    && w.minute(s.config.zone, instant) >= s.config.time
    && !(s.retryAt.Some? && instant < s.retryAt.value)
  }

  function KeyOf(w: World, id: Id, c: Config, instant: int): Key {
    Key(c.client, id, w.day(c.zone, instant), c.time)
  }

  /** Whether `submit` returns a job: a replay of the same request, or a new one. */
  predicate Accepts(jobs: map<Key, Made>, k: Key, job: string, m: Mood) {
    m.actorOk && if k in jobs then jobs[k].job == job && !m.gone else m.room
  }

  /** The schedule's payload after the attempt: a retry is put off by a minute. */
  function Attempted(w: World, s: Sched, instant: int, ok: bool): (r: Sched)
    ensures r.config == s.config && r.revision == s.revision
  {
    if ok then s.(lastDay := Some(w.day(s.config.zone, instant)), retryAt := None)
    else s.(retryAt := Some(instant + 60))
  }

  /** UPDATE schedules SET payload=? WHERE id=? AND revision=?. */
  function WrittenBack(scheds: map<Id, Sched>, id: Id, s: Sched): map<Id, Sched> {
    if id in scheds && scheds[id].revision == s.revision then scheds[id := s] else scheds
  }

  /** `save`: the last run survives an edit, the retry does not. */
  function SavedAs(scheds: map<Id, Sched>, id: Id, c: Config): Sched {
    if id in scheds then Sched(c, scheds[id].lastDay, None, scheds[id].revision + 1) else Sched(c, None, None, 1)
  }

  predicate CanSave(scheds: map<Id, Sched>, id: Id, expected: Option<nat>, mustExist: bool) {
    if id in scheds then expected == Some(scheds[id].revision) else !mustExist
  }

  // ------------------------------------------------------------ one pass

  /** The effect of an undisturbed pass on one schedule. */
  function PassedSched(w: World, id: Id, s: Sched, jobs: map<Key, Made>, instant: int, mood: Key -> Mood): Sched {
    if Due(w, s, instant) then
      var k := KeyOf(w, id, s.config, instant);
      Attempted(w, s, instant, Accepts(jobs, k, s.config.job, mood(k)))
    else s
  }

  /** The schedule after a submission: on success its day is done and no retry is due, on
      failure the day stays open and the retry is a minute off; the rest is as it was. */
  predicate TriedAs(s: Sched, t: Sched, day: int, instant: int, ok: bool) {
    && t.config == s.config && t.revision == s.revision
    && (if ok then t.lastDay == Some(day) && t.retryAt.None?
        else t.lastDay == s.lastDay && t.retryAt == Some(instant + 60))
  }

  /** The effect of an undisturbed pass on one schedule, told by the clock and the jobs. */
  predicate PassedAs(w: World, id: Id, s: Sched, jobs: map<Key, Made>, instant: int, mood: Key -> Mood, t: Sched) {
    var c := s.config;
    var today := w.day(c.zone, instant);
    if c.enabled && s.lastDay != Some(today) && w.minute(c.zone, instant) >= c.time
       && (s.retryAt.None? || instant >= s.retryAt.value)
    then
      var k := Key(c.client, id, today, c.time);
      var m := mood(k);
      TriedAs(s, t, today, instant, m.actorOk && if k in jobs then jobs[k].job == c.job && !m.gone else m.room)
    else t == s
  }

  lemma PassedIs(w: World, id: Id, s: Sched, jobs: map<Key, Made>, instant: int, mood: Key -> Mood)
    ensures PassedAs(w, id, s, jobs, instant, mood, PassedSched(w, id, s, jobs, instant, mood))
  {
  }

  lemma AllPassed(w: World, rows: map<Id, Sched>, jobs: map<Key, Made>, instant: int, mood: Key -> Mood)
    ensures forall id :: id in rows ==>
      PassedAs(w, id, rows[id], jobs, instant, mood, PassedSched(w, id, rows[id], jobs, instant, mood))
  {
    hide PassedAs, PassedSched;
    forall id | id in rows
      ensures PassedAs(w, id, rows[id], jobs, instant, mood, PassedSched(w, id, rows[id], jobs, instant, mood))
    {
      PassedIs(w, id, rows[id], jobs, instant, mood);
    }
  }

  class Scheduler {
    var scheds: map<Id, Sched>
    var jobs: map<Key, Made>
    var paused: bool

    method Save(id: Id, c: Config, expected: Option<nat>, mustExist: bool) returns (ok: bool)
      modifies this`scheds
      ensures ok == CanSave(old(scheds), id, expected, mustExist)
      ensures scheds == if ok then old(scheds)[id := SavedAs(old(scheds), id, c)] else old(scheds)
      ensures forall o :: o != id && o in old(scheds) ==> o in scheds && scheds[o] == old(scheds)[o]
      ensures ok ==> id in scheds && scheds[id].config == c && scheds[id].retryAt.None?
      ensures ok && id in old(scheds) ==> expected == Some(old(scheds)[id].revision)
      ensures ok && id in old(scheds) ==>
        scheds[id].revision == old(scheds)[id].revision + 1 && scheds[id].lastDay == old(scheds)[id].lastDay
      ensures ok && id !in old(scheds) ==> !mustExist && scheds[id].revision == 1 && scheds[id].lastDay.None?
    {
      if id !in scheds && mustExist {
        return false;
      }
      var lastDay, revision := None, 1;
      if id in scheds {
        if expected != Some(scheds[id].revision) {
          return false;
        }
        lastDay, revision := scheds[id].lastDay, scheds[id].revision + 1;
      }
      scheds := scheds[id := Sched(c, lastDay, None, revision)];
      ok := true;
    }

    /** One row of a pass: submit under the occurrence key and write the payload back. */
    method RunRow(w: World, id: Id, row: Sched, instant: int, m: Mood) returns (ok: bool)
      modifies this`scheds, this`jobs
      ensures var k := KeyOf(w, id, row.config, instant);
        && ok == Accepts(old(jobs), k, row.config.job, m)
        && jobs == WithJob(old(jobs), k, Made(row.config.job, instant), ok)
        && scheds == WrittenBack(old(scheds), id, Attempted(w, row, instant, ok))
      ensures var k := Key(row.config.client, id, w.day(row.config.zone, instant), row.config.time);
        && (ok <==> m.actorOk && if k in old(jobs) then old(jobs)[k].job == row.config.job && !m.gone else m.room)
        && (jobs == if ok && k !in old(jobs) then old(jobs)[k := Made(row.config.job, instant)] else old(jobs))
        && (scheds.Keys == old(scheds).Keys && forall o :: o in scheds && o != id ==> scheds[o] == old(scheds)[o])
        && (id in scheds ==>
              if old(scheds)[id].revision == row.revision then TriedAs(row, scheds[id], k.day, instant, ok)
              else scheds[id] == old(scheds)[id])
    {
      var k := KeyOf(w, id, row.config, instant);
      ok := m.actorOk && if k in jobs then jobs[k].job == row.config.job && !m.gone else m.room;
      if ok && k !in jobs {
        jobs := jobs[k := Made(row.config.job, instant)];
      }
      var data := if ok then row.(lastDay := Some(k.day), retryAt := None) else row.(retryAt := Some(instant + 60));
      if id in scheds && scheds[id].revision == row.revision {
        scheds := scheds[id := data];
      }
    }

    /** `run_due` without interference: every schedule is treated as if it were alone,
        because the occurrence key names it. */
    method RunDue(w: World, instant: int, mood: Key -> Mood) returns (outcomes: map<Id, bool>)
      modifies this`scheds, this`jobs
      ensures paused ==> scheds == old(scheds) && jobs == old(jobs) && outcomes == map[]
      ensures !paused ==>
        scheds == map id | id in old(scheds) :: PassedSched(w, id, old(scheds)[id], old(jobs), instant, mood)
      ensures !paused ==> PassJobs(w, old(scheds), {}, old(jobs), instant, mood, outcomes, jobs)
      ensures !paused ==> scheds.Keys == old(scheds).Keys && forall id :: id in scheds ==>
        PassedAs(w, id, old(scheds)[id], old(jobs), instant, mood, scheds[id])
    {
      AllPassed(w, scheds, jobs, instant, mood);
      hide PassedAs, Due, Accepts, Attempted, PassJobs;
      outcomes := map[];
      if paused {
        return;
      }
      var rows := scheds;
      var todo := rows.Keys;
      ghost var jobs0 := jobs;
      NothingRun(w, rows, jobs, instant, mood);
      while todo != {}
        invariant todo <= rows.Keys && scheds.Keys == rows.Keys && !paused
        invariant forall id :: id in rows ==>
          scheds[id] == if id in todo then rows[id] else PassedSched(w, id, rows[id], jobs0, instant, mood)
        invariant PassJobs(w, rows, todo, jobs0, instant, mood, outcomes, jobs)
        decreases |todo|
      {
        var id :| id in todo;
        var row := rows[id];
        ghost var before, was := jobs, outcomes;
        if Due(w, row, instant) {
          var ok := RunRow(w, id, row, instant, mood(KeyOf(w, id, row.config, instant)));
          outcomes := outcomes[id := ok];
        }
        RowRun(w, rows, todo, jobs0, instant, mood, was, before, id, outcomes, jobs);
        todo := todo - {id};
      }
    }
  }

  /** Whether the row's submission succeeds, as its own key decides. */
  predicate RowAccepts(w: World, id: Id, row: Sched, jobs: map<Key, Made>, instant: int, mood: Key -> Mood) {
    var k := KeyOf(w, id, row.config, instant);
    Accepts(jobs, k, row.config.job, mood(k))
  }

  /** The jobs and outcomes once all rows but `todo` were run: a due schedule succeeds
      as its own key decides, and exactly the successful ones have their job. */
  ghost predicate PassJobs(w: World, rows: map<Id, Sched>, todo: set<Id>, jobs0: map<Key, Made>, instant: int,
                           mood: Key -> Mood, outcomes: map<Id, bool>, jobs: map<Key, Made>) {
    && (forall id :: id in outcomes <==> id in rows && id !in todo && Due(w, rows[id], instant))
    && (forall id :: id in outcomes ==> outcomes[id] == RowAccepts(w, id, rows[id], jobs0, instant, mood))
    && JobsAre(w, rows, jobs0, instant, outcomes, jobs)
  }

  ghost predicate JobsAre(w: World, rows: map<Id, Sched>, jobs0: map<Key, Made>, instant: int,
                          outcomes: map<Id, bool>, jobs: map<Key, Made>) {
    && outcomes.Keys <= rows.Keys
    && (forall k ::
          k in jobs <==>
          k in jobs0 || (k.id in outcomes && outcomes[k.id] && k == KeyOf(w, k.id, rows[k.id].config, instant)))
    && (forall k :: k in jobs ==> jobs[k] == if k in jobs0 then jobs0[k] else Made(rows[k.id].config.job, instant))
  }

  lemma NothingRun(w: World, rows: map<Id, Sched>, jobs: map<Key, Made>, instant: int, mood: Key -> Mood)
    ensures PassJobs(w, rows, rows.Keys, jobs, instant, mood, map[], jobs)
  {
  }

  lemma RowRun(w: World, rows: map<Id, Sched>, todo: set<Id>, jobs0: map<Key, Made>, instant: int, mood: Key -> Mood,
               was: map<Id, bool>, before: map<Key, Made>, id: Id, outcomes: map<Id, bool>, jobs: map<Key, Made>)
    requires PassJobs(w, rows, todo, jobs0, instant, mood, was, before) && id in todo && id in rows
    requires !Due(w, rows[id], instant) ==> outcomes == was && jobs == before
    requires Due(w, rows[id], instant) ==> outcomes == was[id := RowAccepts(w, id, rows[id], before, instant, mood)]
    requires Due(w, rows[id], instant) ==>
      jobs == WithJob(before, KeyOf(w, id, rows[id].config, instant), Made(rows[id].config.job, instant), outcomes[id])
    ensures PassJobs(w, rows, todo - {id}, jobs0, instant, mood, outcomes, jobs)
    ensures RowAccepts(w, id, rows[id], before, instant, mood) == RowAccepts(w, id, rows[id], jobs0, instant, mood)
  {
    SameAccepts(w, rows, jobs0, instant, was, before, id, mood);
    if Due(w, rows[id], instant) { JobAdded(w, rows, jobs0, instant, was, before, id, outcomes[id]); }
    hide Due, RowAccepts, JobsAre;
  }

  function WithJob(jobs: map<Key, Made>, k: Key, m: Made, ok: bool): map<Key, Made> {
    if ok && k !in jobs then jobs[k := m] else jobs
  }

  /** The other rows' jobs do not matter to this row's submission. */
  lemma SameAccepts(w: World, rows: map<Id, Sched>, jobs0: map<Key, Made>, instant: int, was: map<Id, bool>,
                    before: map<Key, Made>, id: Id, mood: Key -> Mood)
    requires JobsAre(w, rows, jobs0, instant, was, before) && id in rows && id !in was
    ensures RowAccepts(w, id, rows[id], before, instant, mood) == RowAccepts(w, id, rows[id], jobs0, instant, mood)
  {
    var k := KeyOf(w, id, rows[id].config, instant);
    assert k in before <==> k in jobs0;
  }

  lemma JobAdded(w: World, rows: map<Id, Sched>, jobs0: map<Key, Made>, instant: int, was: map<Id, bool>,
                 before: map<Key, Made>, id: Id, ok: bool)
    requires JobsAre(w, rows, jobs0, instant, was, before) && id in rows && id !in was
    ensures
      var k := KeyOf(w, id, rows[id].config, instant);
      JobsAre(w, rows, jobs0, instant, was[id := ok], WithJob(before, k, Made(rows[id].config.job, instant), ok))
  {
    var k := KeyOf(w, id, rows[id].config, instant);
    assert k in before <==> k in jobs0;
  }

  // ------------------------------------------------------------ interleaved passes

  /** A pass in progress: the rows it read and the incarnations they came from, those
      still to do, and the payload it is about to write back. */
  datatype Pass = Pass(
    instant: int,
    rows: map<Id, Sched>,
    origins: map<Id, nat>,
    todo: set<Id>,
    pending: Option<(Id, Sched)>)

  /** The tables and the passes in progress, and the history.  A schedule deleted and
      saved again under its id is a new incarnation: `births` counts them, `origins`
      tells from which one the stored payload comes, and `versions` keeps what was
      saved under each incarnation and revision. */
  datatype Sys = Sys(
    scheds: map<Id, Sched>,
    jobs: map<Key, Made>,
    passes: map<nat, Pass>,
    births: map<Id, nat>,
    origins: map<Id, nat>,
    versions: map<(Id, nat, nat), Config>,
    saved: set<(Id, Config)>)

  function Empty(): Sys {
    Sys(map[], map[], map[], map[], map[], map[], {})
  }

  datatype Step =
    | Edit(id: Id, config: Config, expected: Option<nat>, mustExist: bool)
    | Remove(id: Id, expected: Option<nat>)
    | Begin(pass: nat, instant: int)
    | Visit(pass: nat, id: Id, mood: Mood)
    | WriteBack(pass: nat)
    | Crash(pass: nat)

  predicate Enabled(s: Sys, e: Step) {
    match e
    case Edit(id, _, expected, mustExist) => CanSave(s.scheds, id, expected, mustExist)
    case Remove(id, expected) => id in s.scheds && expected == Some(s.scheds[id].revision)
    case Begin(p, _) => p !in s.passes
    case Visit(p, id, _) =>
      p in s.passes && s.passes[p].pending.None? && id in s.passes[p].todo && id in s.passes[p].rows
    case WriteBack(p) => p in s.passes && s.passes[p].pending.Some?
    case Crash(p) => p in s.passes
  }

  function Counted(counts: map<Id, nat>, id: Id): nat {
    if id in counts then counts[id] else 0
  }

  /** The current incarnation of a schedule, 0 if it was never saved. */
  function Births(s: Sys, id: Id): nat {
    Counted(s.births, id)
  }

  function Edited(s: Sys, id: Id, c: Config): Sys {
    var now := SavedAs(s.scheds, id, c);
    var birth := if id in s.scheds then Births(s, id) else Births(s, id) + 1;
    s.(scheds := s.scheds[id := now], births := s.births[id := birth], origins := s.origins[id := birth],
       versions := s.versions[(id, birth, now.revision) := c], saved := s.saved + {(id, c)})
  }

  /** The guarded update of the table, with the incarnation its payload was read from. */
  function Overwritten(s: Sys, id: Id, data: Sched, origin: nat): Sys {
    if id in s.scheds && s.scheds[id].revision == data.revision
    then s.(scheds := WrittenBack(s.scheds, id, data), origins := s.origins[id := origin])
    else s
  }

  function Apply(w: World, s: Sys, e: Step): Sys
    requires Enabled(s, e)
  {
    match e
    case Edit(id, c, _, _) => Edited(s, id, c)
    case Remove(id, _) => s.(scheds := s.scheds - {id})
    case Begin(p, instant) => s.(passes := s.passes[p := Pass(instant, s.scheds, s.origins, s.scheds.Keys, None)])
    case Visit(p, id, m) => Visited(w, s, p, id, m)
    case WriteBack(p) =>
      var pass := s.passes[p];
      var (id, data) := pass.pending.value;
      Overwritten(s, id, data, Counted(pass.origins, id)).(passes := s.passes[p := pass.(pending := None)])
    case Crash(p) => s.(passes := s.passes - {p})
  }

  function Visited(w: World, s: Sys, p: nat, id: Id, m: Mood): Sys
    requires p in s.passes && id in s.passes[p].rows
  {
    var pass := s.passes[p];
    var row := pass.rows[id];
    var rest := pass.(todo := pass.todo - {id});
    if !Due(w, row, pass.instant) then s.(passes := s.passes[p := rest])
    else
      var k := KeyOf(w, id, row.config, pass.instant);
      var ok := Accepts(s.jobs, k, row.config.job, m);
      s.(jobs := WithJob(s.jobs, k, Made(row.config.job, pass.instant), ok),
         passes := s.passes[p := rest.(pending := Some((id, Attempted(w, row, pass.instant, ok))))])
  }

  ghost predicate Run(w: World, states: seq<Sys>, steps: seq<Step>) {
    && |states| == |steps| + 1 && states[0] == Empty()
    && forall i :: 0 <= i < |steps| ==> Enabled(states[i], steps[i]) && states[i + 1] == Apply(w, states[i], steps[i])
  }

  // ------------------------------------------------------------ occurrences

  /** Every configuration in the table or in a pass was saved by somebody. */
  ghost predicate ConfigsSaved(s: Sys) {
    && (forall id :: id in s.scheds ==> (id, s.scheds[id].config) in s.saved)
    && (forall p, id :: p in s.passes && id in s.passes[p].rows ==> (id, s.passes[p].rows[id].config) in s.saved)
    && (forall p :: p in s.passes && s.passes[p].pending.Some? ==>
          (s.passes[p].pending.value.0, s.passes[p].pending.value.1.config) in s.saved)
  }

  /** A scheduled job was asked for by an enabled configuration somebody saved, for the
      local day of its submission, and not before its time. */
  ghost predicate OccurrenceOk(w: World, s: Sys, k: Key, m: Made) {
    exists c ::
      && (k.id, c) in s.saved && c.enabled && m.job == c.job
      && k == KeyOf(w, k.id, c, m.instant) && w.minute(c.zone, m.instant) >= c.time
  }

  ghost predicate JobsOk(w: World, s: Sys) {
    forall k :: k in s.jobs ==> OccurrenceOk(w, s, k, s.jobs[k])
  }

  lemma StepKeepsConfigs(w: World, s: Sys, e: Step)
    requires Enabled(s, e) && ConfigsSaved(s)
    ensures ConfigsSaved(Apply(w, s, e))
  {
    hide Visited, ConfigsSaved;
    match e
    case Visit(p, id, m) => VisitKeepsConfigs(w, s, p, id, m);
    case _ => OtherKeepsConfigs(w, s, e);
  }

  lemma OtherKeepsConfigs(w: World, s: Sys, e: Step)
    requires Enabled(s, e) && ConfigsSaved(s) && !e.Visit?
    ensures ConfigsSaved(Apply(w, s, e))
  {
  }

  lemma VisitKeepsConfigs(w: World, s: Sys, p: nat, id: Id, m: Mood)
    requires p in s.passes && id in s.passes[p].rows && ConfigsSaved(s)
    ensures ConfigsSaved(Visited(w, s, p, id, m))
  {
    VisitRewritesPass(w, s, p, id, m);
    hide Visited;
  }

  /** Visiting a row admits at most its job and leaves the rows of the pass alone. */
  lemma VisitRewritesPass(w: World, s: Sys, p: nat, id: Id, m: Mood)
    requires p in s.passes && id in s.passes[p].rows
    ensures var t := Visited(w, s, p, id, m);
      && p in t.passes && t == s.(jobs := t.jobs, passes := s.passes[p := t.passes[p]])
      && t.passes[p].rows == s.passes[p].rows
      && (t.passes[p].pending == s.passes[p].pending
          || (t.passes[p].pending.Some? && t.passes[p].pending.value.0 == id
              && t.passes[p].pending.value.1.config == s.passes[p].rows[id].config))
  {
    hide Due, Accepts, WithJob;
  }

  lemma StillOccurs(w: World, s: Sys, t: Sys, k: Key, m: Made)
    requires OccurrenceOk(w, s, k, m) && s.saved <= t.saved
    ensures OccurrenceOk(w, t, k, m)
  {
  }

  /** A step inserts at most one job, and only an occurrence that is due. */
  lemma StepInserts(w: World, s: Sys, e: Step, k: Key)
    requires Enabled(s, e) && ConfigsSaved(s)
    ensures var t := Apply(w, s, e);
      && s.saved <= t.saved && (k in s.jobs ==> k in t.jobs && t.jobs[k] == s.jobs[k])
      && (k in t.jobs && k !in s.jobs ==> OccurrenceOk(w, t, k, t.jobs[k]))
  {
    var t := Apply(w, s, e);
    if k in t.jobs && k !in s.jobs {
      assert e.Visit?;
      assert (e.id, s.passes[e.pass].rows[e.id].config) in t.saved;
    }
  }

  lemma StepKeepsJobs(w: World, s: Sys, e: Step)
    requires Enabled(s, e) && ConfigsSaved(s) && JobsOk(w, s)
    ensures JobsOk(w, Apply(w, s, e))
  {
    hide OccurrenceOk, Apply, Enabled, ConfigsSaved;
    var t := Apply(w, s, e);
    forall k | k in t.jobs ensures OccurrenceOk(w, t, k, t.jobs[k]) {
      StepInserts(w, s, e, k);
      if k in s.jobs { StillOccurs(w, s, t, k, s.jobs[k]); }
    }
  }

  /** Over every run of edits, deletions, overlapping and crashed passes. */
  lemma {:induction false} EveryOccurrenceIsDue(w: World, states: seq<Sys>, steps: seq<Step>, k: nat)
    requires Run(w, states, steps) && k < |states|
    ensures ConfigsSaved(states[k]) && JobsOk(w, states[k])
  {
    if k > 0 {
      EveryOccurrenceIsDue(w, states, steps, k - 1);
      StepKeepsConfigs(w, states[k - 1], steps[k - 1]);
      StepKeepsJobs(w, states[k - 1], steps[k - 1]);
    }
  }

  /** An admitted occurrence is never replaced or admitted again. */
  lemma {:induction false} JobsStay(w: World, states: seq<Sys>, steps: seq<Step>, j: nat, k: nat, key: Key)
    requires Run(w, states, steps) && j <= k < |states| && key in states[j].jobs
    ensures key in states[k].jobs && states[k].jobs[key] == states[j].jobs[key]
    decreases k
  {
    if j < k {
      JobsStay(w, states, steps, j, k - 1, key);
      EveryOccurrenceIsDue(w, states, steps, k - 1);
      StepInserts(w, states[k - 1], steps[k - 1], key);
    }
  }

  /** All saves of the schedule agree on its time and its owner. */
  ghost predicate Unedited(s: Sys, id: Id) {
    forall c, d :: (id, c) in s.saved && (id, d) in s.saved ==> c.time == d.time && c.client == d.client
  }

  /** A schedule whose time and owner never changed has at most one job per local day. */
  lemma OncePerDay(w: World, states: seq<Sys>, steps: seq<Step>, n: nat, a: Key, b: Key)
    requires Run(w, states, steps) && n < |states| && a in states[n].jobs && b in states[n].jobs
    requires a.id == b.id && a.day == b.day && Unedited(states[n], a.id)
    ensures a == b
  {
    EveryOccurrenceIsDue(w, states, steps, n);
    var s := states[n];
    assert OccurrenceOk(w, s, a, s.jobs[a]) && OccurrenceOk(w, s, b, s.jobs[b]);
  }

  // ------------------------------------------------------------ write-back

  /** A copy of a schedule holds what was saved under its incarnation and revision. */
  predicate CopyOk(s: Sys, id: Id, birth: nat, row: Sched) {
    && birth <= Births(s, id)
    && (id, birth, row.revision) in s.versions && s.versions[(id, birth, row.revision)] == row.config
  }

  /** What was saved last under a stored schedule's own revision. */
  predicate HasLatest(s: Sys, id: Id) {
    id in s.scheds && (id, Births(s, id), s.scheds[id].revision) in s.versions
  }

  ghost predicate VersionsOk(s: Sys, id: Id) {
    && (id in s.scheds ==> HasLatest(s, id) && CopyOk(s, id, Counted(s.origins, id), s.scheds[id]))
    && (forall p :: p in s.passes ==> PassOk(s, s.passes[p], id))
    && (forall v :: v in s.versions && v.0 == id ==>
          v.1 <= Births(s, id) && (v.1 == Births(s, id) && id in s.scheds ==> v.2 <= s.scheds[id].revision))
  }

  predicate PassOk(s: Sys, pass: Pass, id: Id) {
    && (id in pass.rows ==> CopyOk(s, id, Counted(pass.origins, id), pass.rows[id]))
    && (pass.pending.Some? && pass.pending.value.0 == id ==>
          CopyOk(s, id, Counted(pass.origins, id), pass.pending.value.1))
  }

  lemma StepKeepsVersions(w: World, s: Sys, e: Step, id: Id)
    requires Enabled(s, e) && VersionsOk(s, id)
    ensures VersionsOk(Apply(w, s, e), id)
  {
    hide Visited, Edited, Overwritten, VersionsOk;
    match e
    case Edit(e_id, c, _, _) => EditKeepsVersions(s, e_id, c, id);
    case Remove(gone, _) => RemoveKeepsVersions(s, gone, id);
    case Begin(p, instant) => PassKeepsVersions(s, s, p, Pass(instant, s.scheds, s.origins, s.scheds.Keys, None), id);
    case Visit(p, v, m) => VisitKeepsVersions(w, s, p, v, m, id);
    case WriteBack(p) => WriteBackKeepsVersions(s, p, id);
    case Crash(p) => CrashKeepsVersions(s, p, id);
  }

  lemma EditKeepsVersions(s: Sys, e: Id, c: Config, id: Id)
    requires VersionsOk(s, id)
    ensures VersionsOk(Edited(s, e, c), id)
  {
    var t := Edited(s, e, c);
    forall p | p in t.passes ensures PassOk(t, t.passes[p], id) { assert PassOk(s, s.passes[p], id); }
  }

  lemma RemoveKeepsVersions(s: Sys, gone: Id, id: Id)
    requires VersionsOk(s, id)
    ensures VersionsOk(s.(scheds := s.scheds - {gone}), id)
  {
    var t := s.(scheds := s.scheds - {gone});
    forall p | p in t.passes ensures PassOk(t, t.passes[p], id) { assert PassOk(s, s.passes[p], id); }
  }

  lemma CrashKeepsVersions(s: Sys, p: nat, id: Id)
    requires VersionsOk(s, id)
    ensures VersionsOk(s.(passes := s.passes - {p}), id)
  {
    var t := s.(passes := s.passes - {p});
    forall q | q in t.passes ensures PassOk(t, t.passes[q], id) { assert PassOk(s, s.passes[q], id); }
  }

  /** A pass may take what the table holds, or keep what it had. */
  lemma PassKeepsVersions(s: Sys, t: Sys, p: nat, pass: Pass, id: Id)
    requires VersionsOk(s, id) && t == s.(jobs := t.jobs)
    requires (pass.rows == s.scheds && pass.origins == s.origins && pass.pending.None?) || PassOk(s, pass, id)
    ensures VersionsOk(t.(passes := s.passes[p := pass]), id)
  {
    var u := t.(passes := s.passes[p := pass]);
    forall q | q in u.passes ensures PassOk(u, u.passes[q], id) { if q != p { assert PassOk(s, s.passes[q], id); } }
  }

  lemma VisitKeepsVersions(w: World, s: Sys, p: nat, v: Id, m: Mood, id: Id)
    requires VersionsOk(s, id) && p in s.passes && v in s.passes[p].rows
    ensures VersionsOk(Visited(w, s, p, v, m), id)
  {
    hide Due, Accepts, WithJob, VersionsOk, CopyOk;
    var t := Visited(w, s, p, v, m);
    PassIsOk(s, p, id);
    assert t == s.(jobs := t.jobs, passes := s.passes[p := t.passes[p]]);
    PassKeepsVersions(s, s.(jobs := t.jobs), p, t.passes[p], id) by { VisitKeepsPass(w, s, p, v, m, id); }
  }

  lemma PassIsOk(s: Sys, p: nat, id: Id)
    requires VersionsOk(s, id) && p in s.passes
    ensures PassOk(s, s.passes[p], id)
  {
  }

  lemma VisitKeepsPass(w: World, s: Sys, p: nat, v: Id, m: Mood, id: Id)
    requires p in s.passes && v in s.passes[p].rows && PassOk(s, s.passes[p], id)
    ensures p in Visited(w, s, p, v, m).passes && PassOk(s, Visited(w, s, p, v, m).passes[p], id)
  {
    hide Due, Accepts, WithJob;
  }

  lemma WriteBackKeepsVersions(s: Sys, p: nat, id: Id)
    requires VersionsOk(s, id) && p in s.passes && s.passes[p].pending.Some?
    ensures var pass := s.passes[p]; var (e, data) := pass.pending.value;
      var t := Overwritten(s, e, data, Counted(pass.origins, e));
      VersionsOk(t.(passes := s.passes[p := pass.(pending := None)]), id)
  {
    var pass := s.passes[p];
    var (e, data) := pass.pending.value;
    var t := Overwritten(s, e, data, Counted(pass.origins, e)).(passes := s.passes[p := pass.(pending := None)]);
    assert PassOk(s, pass, id);
    forall q | q in t.passes ensures PassOk(t, t.passes[q], id) { assert PassOk(s, s.passes[q], id); }
  }

  lemma {:induction false} CopiesAreSaved(w: World, states: seq<Sys>, steps: seq<Step>, k: nat, id: Id)
    requires Run(w, states, steps) && k < |states|
    ensures VersionsOk(states[k], id)
  {
    if k > 0 {
      CopiesAreSaved(w, states, steps, k - 1, id);
      StepKeepsVersions(w, states[k - 1], steps[k - 1], id);
    }
  }

  /** A pass is about to write `id` back under the current revision number, with a
      configuration other than the stored one. */
  predicate Replaces(s: Sys, p: nat, id: Id) {
    && p in s.passes && s.passes[p].pending.Some? && s.passes[p].pending.value.0 == id && id in s.scheds
    && s.passes[p].pending.value.1.revision == s.scheds[id].revision
    && s.passes[p].pending.value.1.config != s.scheds[id].config
  }

  /** The stored configuration is not the one that was saved last. */
  predicate Lost(s: Sys, id: Id) {
    HasLatest(s, id) && s.scheds[id].config != s.versions[(id, Births(s, id), s.scheds[id].revision)]
  }

  /** Over every run: a write-back changes the stored configuration only if it brings
      the payload of another incarnation. */
  lemma WriteBackChanges(w: World, states: seq<Sys>, steps: seq<Step>, k: nat, p: nat, id: Id)
    requires Run(w, states, steps) && k < |steps| && steps[k] == WriteBack(p) && id in states[k].scheds
    ensures id in states[k + 1].scheds && states[k + 1].scheds[id].revision == states[k].scheds[id].revision
    ensures states[k + 1].scheds[id].config != states[k].scheds[id].config <==>
      Replaces(states[k], p, id) && Counted(states[k].passes[p].origins, id) != Counted(states[k].origins, id)
  {
    CopiesAreSaved(w, states, steps, k, id);
    assert PassOk(states[k], states[k].passes[p], id);
  }

  /** Over every run: a write-back undoes the last edit of a schedule if and only if
      its pass read an earlier incarnation with the current revision number and a
      different configuration. */
  lemma EditsSurvive(w: World, states: seq<Sys>, steps: seq<Step>, k: nat, p: nat, id: Id)
    requires Run(w, states, steps) && k < |steps| && steps[k] == WriteBack(p) && id in states[k].scheds
    requires !Lost(states[k], id)
    ensures Lost(states[k + 1], id) <==>
      Replaces(states[k], p, id) && Counted(states[k].passes[p].origins, id) < Births(states[k], id)
  {
    CopiesAreSaved(w, states, steps, k, id);
    assert PassOk(states[k], states[k].passes[p], id);
  }

  /** No other step undoes an edit. */
  lemma OthersLoseNothing(w: World, s: Sys, e: Step, id: Id)
    requires Enabled(s, e) && VersionsOk(s, id) && !e.WriteBack? && Lost(Apply(w, s, e), id)
    ensures Lost(s, id) && Births(Apply(w, s, e), id) == Births(s, id)
    ensures Apply(w, s, e).scheds[id].revision == s.scheds[id].revision
  {
    hide Due, Accepts;
  }

  /** Whenever an edit has been undone, `m` is the write-back that did it: by a pass
      that had read an earlier incarnation, under the same revision number. */
  lemma {:induction false} LossHasCause(w: World, states: seq<Sys>, steps: seq<Step>, n: nat, id: Id) returns (m: nat)
    requires Run(w, states, steps) && n < |states| && Lost(states[n], id)
    ensures m < n && steps[m].WriteBack? && Replaces(states[m], steps[m].pass, id)
    ensures Counted(states[m].passes[steps[m].pass].origins, id) < Births(states[m], id) == Births(states[n], id)
    ensures states[m].scheds[id].revision == states[n].scheds[id].revision
  {
    hide Apply, Enabled;
    assert n > 0 by { assert !Lost(Empty(), id); }
    CopiesAreSaved(w, states, steps, n - 1, id);
    if !steps[n - 1].WriteBack? {
      OthersLoseNothing(w, states[n - 1], steps[n - 1], id);
      m := LossHasCause(w, states, steps, n - 1, id);
    } else {
      WriteBackLosesHere(w, states[n - 1], steps[n - 1], id);
      if Lost(states[n - 1], id) {
        m := LossHasCause(w, states, steps, n - 1, id);
      } else {
        EditsSurvive(w, states, steps, n - 1, steps[n - 1].pass, id);
        m := n - 1;
      }
    }
  }

  lemma WriteBackLosesHere(w: World, s: Sys, e: Step, id: Id)
    requires Enabled(s, e) && e.WriteBack? && Lost(Apply(w, s, e), id)
    ensures id in s.scheds && Births(Apply(w, s, e), id) == Births(s, id)
    ensures Apply(w, s, e).scheds[id].revision == s.scheds[id].revision
  {
  }

  // ------------------------------------------------------------ where the stronger claims fail

  /** `s` is the last state of some run. */
  ghost predicate Reached(w: World, s: Sys) {
    exists states, steps :: Run(w, states, steps) && states[|steps|] == s
  }

  lemma StartIsReached(w: World)
    ensures Reached(w, Empty())
  {
    assert Run(w, [Empty()], []) && [Empty()][0] == Empty();
  }

  lemma Advance(w: World, s: Sys, e: Step) returns (t: Sys)
    requires Reached(w, s) && Enabled(s, e)
    ensures Reached(w, t) && t == Apply(w, s, e)
  {
    hide Enabled, Apply;
    var states, steps :| Run(w, states, steps) && states[|steps|] == s;
    t := Apply(w, s, e);
    var states', steps' := states + [t], steps + [e];
    assert Run(w, states', steps') && states'[|steps'|] == t;
  }

  /** One schedule, and a pass that has read and visited it. */
  lemma OneVisited(w: World, id: Id, c: Config, instant: int, m: Mood) returns (s: Sys)
    requires c.enabled && w.minute(c.zone, instant) >= c.time
    ensures Reached(w, s) && s.scheds == map[id := Sched(c, None, None, 1)] && s.births == map[id := 1]
    ensures s.origins == map[id := 1] && s.versions == map[(id, 1, 1) := c] && s.passes.Keys == {0}
    ensures var k := KeyOf(w, id, c, instant); var ok := m.actorOk && m.room;
      && s.jobs == (if ok then map[k := Made(c.job, instant)] else map[])
      && s.passes[0].pending == Some((id, Attempted(w, Sched(c, None, None, 1), instant, ok)))
      && s.passes[0].origins == s.origins
  {
    StartIsReached(w);
    s := Advance(w, Empty(), Edit(id, c, None, false));
    assert s.scheds == map[id := Sched(c, None, None, 1)] && s.scheds.Keys == {id};
    s := Advance(w, s, Begin(0, instant));
    assert s.passes == map[0 := Pass(instant, s.scheds, map[id := 1], {id}, None)];
    s := Advance(w, s, Visit(0, id, m));
  }

  /** Created again under the same id, a schedule starts at revision 1 again, and a
      pass that read its predecessor writes the old configuration back over it. */
  lemma RecreatedIsOverwritten(w: World, id: Id, before: Config, after: Config, instant: int) returns (t: Sys)
    requires before.enabled && w.minute(before.zone, instant) >= before.time && after != before
    ensures Reached(w, t) && Births(t, id) == 2 && Lost(t, id)
    ensures t.scheds[id].config == before && (id, 2, 1) in t.versions && t.versions[(id, 2, 1)] == after
  {
    t := OneVisited(w, id, before, instant, Mood(false, false, false));
    t := Advance(w, t, Remove(id, Some(1)));
    t := Advance(w, t, Edit(id, after, None, false));
    hide Due, Accepts;
    t := Advance(w, t, WriteBack(0));
  }

  /** An edit of the time or of the owner between a submission and its write-back
      discards the write-back, and the schedule runs a second time that day. */
  lemma EditRunsTwice(w: World, id: Id, c: Config, d: Config, instant: int) returns (t: Sys)
    requires c.enabled && c.time <= w.minute(c.zone, instant) && d.enabled && d.time <= w.minute(d.zone, instant)
    requires d.zone == c.zone && (d.time != c.time || d.client != c.client)
    ensures Reached(w, t) && KeyOf(w, id, c, instant) in t.jobs && KeyOf(w, id, d, instant) in t.jobs
    ensures KeyOf(w, id, c, instant) != KeyOf(w, id, d, instant)
    ensures KeyOf(w, id, c, instant).day == KeyOf(w, id, d, instant).day
  {
    var m := Mood(true, true, false);
    t := OneVisited(w, id, c, instant, m);
    t := Advance(w, t, Edit(id, d, Some(1), true));
    assert t.scheds == map[id := Sched(d, None, None, 2)] && t.scheds.Keys == {id};
    ghost var edited := t;
    t := Advance(w, t, WriteBack(0));
    assert t.scheds == edited.scheds && t.jobs == edited.jobs && 1 !in t.passes;
    t := Advance(w, t, Begin(1, instant));
    assert t.passes[1] == Pass(instant, edited.scheds, t.origins, {id}, None);
    t := Advance(w, t, Visit(1, id, m));
  }
}
