/** Dataset dirty and revision markers (alphapilot/research/guards.py and
    alphapilot/research/executor.py): nested guarded calls and data jobs write to a
    dataset, and may fail or die at any point. */
module Markers {
  import opened Wrappers

  type Exec = nat
  type Path = string

  /** The source and adjustment mode a conversion was made with. */
  datatype Setting = Setting(source: string, adjust: string)

  /** A dirty marker names the execution whose guarded call wrote it, or was written
      by a data job, which names no owner. */
  datatype Marker = ByCall(owner: Exec) | ByJob

  /** The two marker files of one dataset directory. */
  datatype Root = Root(dirty: Option<Marker>, revision: Option<Setting>)

  /** After the call: a repair is a completed convert or pipeline. */
  function Published(r: Root, repair: Option<Setting>): Root {
    if repair.Some? then r.(revision := repair) else r
  }

  /** Whether a finished guarded call removes the dirty marker. */
  predicate CallCleans(before: Option<Marker>, exec: Exec, repair: Option<Setting>) {
    before.None? || (repair.Some? && before.value != ByCall(exec))
  }

  function Cleared(r: Root, cleans: bool): Root {
    if cleans then r.(dirty := None) else r
  }

  /** What a finished call leaves of a directory whose marker was `before`: a convert or
      pipeline publishes its setting, and the marker goes if there was none before, or if
      it was another execution's and the call is a convert or pipeline. */
  predicate Swept(was: Root, now: Root, before: Option<Marker>, exec: Exec, repair: Option<Setting>) {
    && now.revision == (if repair.Some? then repair else was.revision)
    && now.dirty ==
       if before.None? || (repair.Some? && before != Some(ByCall(exec))) then None else was.dirty
  }

  lemma IsSwept(r: Root, before: Option<Marker>, exec: Exec, repair: Option<Setting>)
    ensures Swept(r, Cleared(Published(r, repair), CallCleans(before, exec, repair)), before, exec, repair)
  {
  }

  // ------------------------------------------------------------ the wrapper

  /** The marker files of all dataset directories. */
  class Files {
    var roots: map<Path, Root>

    function At(p: Path): Root
      reads this
    {
      if p in roots then roots[p] else Root(None, None)
    }

    /** Before the call: remember and replace the marker of every eligible root, once
        even when the list names it twice. */
    method MarkRoots(paths: seq<Path>, eligible: set<Path>, exec: Exec) returns (before: map<Path, Option<Marker>>)
      modifies this
      ensures before.Keys == set p | p in paths && p in eligible
      ensures forall p :: p in before ==>
        before[p] == old(At(p)).dirty && At(p) == old(At(p)).(dirty := Some(ByCall(exec)))
      ensures forall p :: p !in before ==> At(p) == old(At(p))
    {
      before := map[];
      for i := 0 to |paths|
        invariant before.Keys == set p | p in paths[..i] && p in eligible
        invariant forall p :: p in before ==>
          before[p] == old(At(p)).dirty && At(p) == old(At(p)).(dirty := Some(ByCall(exec)))
        invariant forall p :: p !in before ==> At(p) == old(At(p))
      {
        var p := paths[i];
        if p in eligible && p !in before {
          before := before[p := At(p).dirty];
          roots := roots[p := At(p).(dirty := Some(ByCall(exec)))];
        }
        assert paths[..i + 1] == paths[..i] + [p];
      }
      assert paths[..|paths|] == paths;
    }

    /** After the call: publish the revision of every marked root, then clean it or
        leave it dirty. */
    method ClearRoots(before: map<Path, Option<Marker>>, exec: Exec, repair: Option<Setting>)
      modifies this
      ensures forall p :: p in before ==> Swept(old(At(p)), At(p), before[p], exec, repair)
      ensures forall p :: p !in before ==> At(p) == old(At(p))
    {
      hide Swept;
      var todo := before.Keys;
      while todo != {}
        invariant todo <= before.Keys
        invariant forall p :: p in before && p !in todo ==>
          Swept(old(At(p)), At(p), before[p], exec, repair)
        invariant forall p :: p in todo || p !in before ==> At(p) == old(At(p))
        decreases |todo|
      {
        var p :| p in todo;
        IsSwept(At(p), before[p], exec, repair);
        roots := roots[p := Published(At(p), repair)];
        if before[p].None? || (repair.Some? && before[p].value != ByCall(exec)) {
          roots := roots[p := At(p).(dirty := None)];
        }
        todo := todo - {p};
      }
    }

    /** `execute_data`, before it calls the data system. */
    method StartJob(p: Path) returns (wasDirty: bool)
      modifies this
      ensures wasDirty == old(At(p)).dirty.Some? && At(p) == old(At(p)).(dirty := Some(ByJob))
      ensures forall o :: o != p ==> At(o) == old(At(o))
    {
      wasDirty := At(p).dirty.Some?;
      roots := roots[p := At(p).(dirty := Some(ByJob))];
    }

    /** `execute_data`, after the data system returned. */
    method FinishJob(p: Path, wasDirty: bool, repair: Option<Setting>)
      modifies this
      ensures At(p).revision == if repair.Some? then repair else old(At(p)).revision
      ensures At(p).dirty == if !wasDirty || repair.Some? then None else old(At(p)).dirty
      ensures forall o :: o != p ==> At(o) == old(At(o))
    {
      roots := roots[p := Published(At(p), repair)];
      if !wasDirty || repair.Some? {
        roots := roots[p := At(p).(dirty := None)];
      }
    }

    /** `execute_data` converting the dataset at `target`: the guarded call inside covers
        every directory of `paths`, not only the one it converts. */
    method ConvertJob(target: Path, paths: seq<Path>, eligible: set<Path>, exec: Exec, want: Setting)
      requires target in paths && target in eligible
      modifies this
      ensures Ready(At(target), want)
      ensures forall p :: p in paths && p in eligible && p != target ==>
        && At(p).revision == Some(want)
        && (At(p).dirty.None? <==> old(At(p)).dirty != Some(ByCall(exec)))
      ensures forall p :: p !in paths || p !in eligible ==> At(p) == old(At(p))
    {
      var wasDirty := StartJob(target);
      var before := MarkRoots(paths, eligible, exec);
      ClearRoots(before, exec, Some(want));
      FinishJob(target, wasDirty, Some(want));
    }
  }

  /** `bind_dataset`: the dataset has no dirty marker and was last published as asked. */
  predicate Ready(r: Root, want: Setting) {
    r.dirty.None? && r.revision == Some(want)
  }

  // ------------------------------------------------------------ the protocol of one dataset

  /** Entering: the old marker was read, the new one not yet written.  Running: the
      call may be writing.  Done: it returned and published the revision. */
  datatype Phase = Entering | Running | Done

  /** A convert or pipeline: `shown` is the setting it publishes in every directory it
      covers, `made` the one it converts this directory to, or none if its target is
      another. */
  datatype Repair = Repair(shown: Setting, made: Option<Setting>)

  /** A call in progress.  `marked` says that the directory was eligible for a marker;
      `rows` is the setting of the rows that a call other than a conversion writes into
      the dataset, if any.  `failed` records that a write inside it broke off since the last completed
      conversion of this dataset, and the call went on. */
  datatype Frame = Frame(
    job: bool,
    marked: bool,
    before: Option<Marker>,
    repair: Option<Repair>,
    rows: Option<Setting>,
    phase: Phase,
    failed: bool)

  /** The call converts this dataset. */
  predicate Own(f: Frame) {
    f.repair.Some? && f.repair.value.made.Some?
  }

  /** Whatever is not a conversion of another dataset may write to this one. */
  predicate Writes(f: Frame) {
    f.repair.Some? ==> Own(f)
  }

  function Elements(x: Option<Setting>): set<Setting> {
    if x.Some? then {x.value} else {}
  }

  function Shown(f: Frame): Option<Setting> {
    if f.repair.Some? then Some(f.repair.value.shown) else None
  }

  /** Why a broken-off write may have no marker: a call around it went on and returned;
      a conversion of another dataset removed another execution's marker; or the call
      that broke off had found nothing to mark. */
  datatype Cause = Swallowed | Lifted | Unmarked

  /** `exec` owns the calls on the stack: the write lock of the directory admits one
      execution at a time.  The rest is history since the last completed conversion of
      this dataset: `data` holds the settings of the rows written by calls that returned,
      `interrupted` says that some call broke off while it might be writing, and `causes`
      what kept it unmarked. */
  datatype Sys = Sys(
    root: Root,
    data: set<Setting>,
    exec: Exec,
    stack: seq<Frame>,
    interrupted: bool,
    causes: set<Cause>)

  function Fresh(): Sys {
    Sys(Root(None, None), {}, 0, [], false, {})
  }

  datatype Step =
    | EnterCall(exec: Exec, marked: bool, repair: Option<Repair>, rows: Option<Setting>)
    | EnterJob(exec: Exec, want: Option<Setting>)
    | Mark
    | Complete
    | Leave
    | Fail
    | Die

  function Top(s: Sys): Frame
    requires s.stack != []
  {
    s.stack[|s.stack| - 1]
  }

  function Below(s: Sys): seq<Frame>
    requires s.stack != []
  {
    s.stack[..|s.stack| - 1]
  }

  /** What the code can do next.  The only conversion inside a data job of this dataset
      is the job's own, which names the directory; the job does nothing more to the
      dataset once that has completed. */
  predicate Enabled(s: Sys, e: Step) {
    match e
    case EnterCall(x, marked, repair, _) =>
      || s.stack == []
      || (x == s.exec && Top(s).phase.Running?
          && (s.stack[0].job && repair.Some? ==> |s.stack| == 1 && marked && repair == s.stack[0].repair))
    case EnterJob(_, _) => s.stack == []
    case Mark => s.stack != [] && Top(s).phase.Entering?
    case Complete => s.stack != [] && Top(s).phase.Running? && !(Top(s).job && Top(s).repair.Some?)
    case Leave => s.stack != [] && Top(s).phase.Done?
    case Fail => s.stack != []
    case Die => true
  }

  /** The top call may be writing, and did not mark the directory. */
  predicate Bare(f: Frame) {
    f.phase.Running? && Writes(f) && !f.marked
  }

  /** Leaving the top call takes another execution's marker away, although the call has
      converted another directory and a write to this one had broken off. */
  predicate Lifts(s: Sys)
    requires s.stack != []
  {
    var f := Top(s);
    && f.marked && f.repair.Some? && !Own(f) && f.before.Some? && f.before.value != ByCall(s.exec)
    && s.interrupted
  }

  function Unfailed(stack: seq<Frame>): (r: seq<Frame>)
    ensures |r| == |stack| && forall i :: 0 <= i < |r| ==> r[i] == stack[i].(failed := false)
  {
    seq(|stack|, i requires 0 <= i < |stack| => stack[i].(failed := false))
  }

  /** A job is through with the dataset when its conversion is. */
  function JobDone(below: seq<Frame>): (r: seq<Frame>)
    ensures |r| == |below| && forall i :: 0 < i < |r| ==> r[i] == below[i]
  {
    if |below| == 1 && below[0].job then [below[0].(phase := Done)] else below
  }

  function Completed(s: Sys): Sys
    requires s.stack != []
  {
    var top := Top(s);
    var root := if top.marked then Published(s.root, Shown(top)) else s.root;
    var done := [top.(phase := Done, failed := false)];
    if Own(top) then
      s.(root := root, data := Elements(top.repair.value.made), interrupted := false, causes := {},
         stack := JobDone(Unfailed(Below(s))) + done)
    else
      s.(root := root, data := s.data + if top.repair.None? then Elements(top.rows) else {},
         causes := s.causes + (if top.failed then {Swallowed} else {}), stack := Below(s) + done)
  }

  function Left(s: Sys): Sys
    requires s.stack != []
  {
    var f := Top(s);
    if f.job then
      s.(stack := Below(s), root := Cleared(Published(s.root, Shown(f)), f.before.None? || f.repair.Some?))
    else if !f.marked then s.(stack := Below(s))
    else
      s.(stack := Below(s), root := Cleared(s.root, CallCleans(f.before, s.exec, Shown(f))),
         causes := s.causes + (if Lifts(s) then {Lifted} else {}))
  }

  /** An exception leaves the call; the caller below may go on. */
  function Failed(s: Sys): Sys
    requires s.stack != []
  {
    var top, below := Top(s), Below(s);
    if !(top.phase.Running? && (Writes(top) || top.failed)) then s.(stack := below)
    else
      s.(stack := if below == [] then [] else below[|below| - 1 := below[|below| - 1].(failed := true)],
         interrupted := true, causes := s.causes + (if Bare(top) then {Unmarked} else {}))
  }

  function Died(s: Sys): Sys {
    s.(stack := [], interrupted := s.interrupted || exists f :: f in s.stack && f.phase.Running? && Writes(f),
       causes := s.causes + (if exists f :: f in s.stack && Bare(f) then {Unmarked} else {}))
  }

  function Apply(s: Sys, e: Step): Sys
    requires Enabled(s, e)
  {
    match e
    case EnterCall(x, marked, repair, rows) =>
      s.(exec := x, stack := s.stack + [Frame(false, marked, s.root.dirty, repair, rows, Entering, false)])
    case EnterJob(x, want) =>
      var own := if want.Some? then Some(Repair(want.value, want)) else None;
      s.(exec := x, stack := [Frame(true, true, s.root.dirty, own, None, Entering, false)])
    case Mark => Marked(s)
    case Complete => Completed(s)
    case Leave => Left(s)
    case Fail => Failed(s)
    case Die => Died(s)
  }

  function Marked(s: Sys): Sys
    requires s.stack != []
  {
    var top := Top(s);
    var mine := if top.job then ByJob else ByCall(s.exec);
    s.(root := if top.marked then s.root.(dirty := Some(mine)) else s.root,
       stack := Below(s) + [top.(phase := Running)])
  }

  ghost predicate Run(states: seq<Sys>, steps: seq<Step>) {
    && |states| == |steps| + 1 && states[0] == Fresh()
    && forall i :: 0 <= i < |steps| ==> Enabled(states[i], steps[i]) && states[i + 1] == Apply(states[i], steps[i])
  }

  // ------------------------------------------------------------ the invariant

  /** The job of this dataset has just converted it, and only has to return. */
  predicate Converted(f: Frame) {
    f.job && f.phase.Done? && Own(f)
  }

  /** A job, if any, stands at the bottom, with at most its own conversion above it. */
  predicate Shape(s: Sys) {
    && (forall i :: 0 < i < |s.stack| ==> !s.stack[i].job)
    && (forall i :: 0 <= i < |s.stack| - 1 ==> s.stack[i].phase.Running? || (i == 0 && Converted(s.stack[0])))
    && (s.stack != [] && s.stack[0].job ==> JobShape(s))
  }

  predicate JobShape(s: Sys)
    requires s.stack != []
  {
    && s.stack[0].marked && (s.stack[0].repair.Some? ==> s.stack[0].repair.value.made == Shown(s.stack[0]))
    && (forall i :: 0 < i < |s.stack| && s.stack[i].repair.Some? ==>
          i == 1 && s.stack[1].marked && s.stack[1].repair == s.stack[0].repair)
    && (|s.stack| > 1 && s.stack[0].phase.Done? ==> s.stack[1].repair.Some?)
    && (|s.stack| > 1 && s.stack[1].repair.Some? ==> (s.stack[0].phase.Done? <==> s.stack[1].phase.Done?))
    && (Converted(s.stack[0]) ==> s.root.revision == Shown(s.stack[0]))
  }

  /** A marker these calls can have left: the execution's, or its job's. */
  predicate Ours(s: Sys, m: Option<Marker>)
    requires s.stack != []
  {
    m == Some(ByCall(s.exec)) || (s.stack[0].job && m == Some(ByJob))
  }

  /** While a call that marked the directory goes on, the marker stays, and calls inside
      it have found it. */
  predicate Standing(s: Sys) {
    && (forall f :: f in s.stack && f.marked && f.phase.Running? ==> Ours(s, s.root.dirty))
    && (forall i, j :: 0 <= i < j < |s.stack| && s.stack[i].marked && s.stack[j].marked ==> Ours(s, s.stack[j].before))
  }

  /** A failure at or above call `i` is still pending. */
  predicate Pending(s: Sys, i: nat) {
    exists j :: i <= j < |s.stack| && s.stack[j].failed
  }

  /** A broken-off write is marked, or there is a cause why not; and the marker outlives
      every call that would remove it, unless the failure is still pending in it. */
  predicate Accounted(s: Sys) {
    && (s.causes != {} ==> s.interrupted)
    && (s.interrupted && s.causes == {} ==> s.root.dirty.Some?)
    && (forall f :: f in s.stack && f.failed ==> s.interrupted && f.phase.Running?)
    && (s.interrupted && s.causes == {} ==>
          forall i :: 0 <= i < |s.stack| && s.stack[i].marked && s.stack[i].before.None? ==> Pending(s, i))
    && (forall f :: f in s.stack && f.phase.Done? && Own(f) ==> !s.interrupted)
  }

  predicate Inv(s: Sys) {
    Shape(s) && Standing(s) && Accounted(s)
  }

  lemma StepKeeps(s: Sys, e: Step)
    requires Inv(s) && Enabled(s, e)
    ensures Inv(Apply(s, e))
  {
    match e
    case EnterCall(_, _, _, _) => EnterKeeps(s, e);
    case EnterJob(_, _) =>
    case Mark => MarkKeeps(s);
    case Complete => CompleteKeeps(s);
    case Leave => LeaveKeeps(s);
    case Fail => FailKeeps(s);
    case Die => DieKeeps(s);
  }

  lemma EnterKeeps(s: Sys, e: Step)
    requires Inv(s) && e.EnterCall? && Enabled(s, e)
    ensures Inv(Apply(s, e))
  {
    var t := Apply(s, e);
    PendingStays(s, t);
  }

  lemma MarkKeeps(s: Sys)
    requires Inv(s) && Enabled(s, Mark)
    ensures Inv(Apply(s, Mark))
  {
    MarkStands(s);
    MarkAccounts(s);
  }

  lemma MarkStands(s: Sys)
    requires Shape(s) && Standing(s) && Enabled(s, Mark)
    ensures Shape(Marked(s)) && Standing(Marked(s))
  {
  }

  lemma MarkAccounts(s: Sys)
    requires Accounted(s) && Enabled(s, Mark)
    ensures Accounted(Marked(s))
  {
    PendingStays(s, Marked(s));
  }

  lemma CompleteKeeps(s: Sys)
    requires Inv(s) && Enabled(s, Complete)
    ensures Inv(Apply(s, Complete))
  {
    if Own(Top(s)) { ConvertKeeps(s); } else { ReturnKeeps(s); }
  }

  lemma ConvertKeeps(s: Sys)
    requires Inv(s) && Enabled(s, Complete) && Own(Top(s))
    ensures Inv(Completed(s))
  {
    ConvertFrames(s);
    ConvertAccounts(s);
    ConvertShape(s, Completed(s));
    hide Completed, Accounted, Shape;
    ConvertStands(s, Completed(s));
  }

  /** Nothing but phases and failure flags changes, and only at the top and at a job
      right below its conversion. */
  lemma ConvertFrames(s: Sys)
    requires Shape(s) && s.stack != [] && Own(Top(s))
    ensures var t, n := Completed(s), |s.stack|;
      && t.root.dirty == s.root.dirty && t.exec == s.exec && |t.stack| == n
      && (Top(s).marked ==> t.root.revision == Shown(Top(s)))
      && t.stack[n - 1] == Top(s).(phase := Done, failed := false)
      && (forall i :: 0 <= i < n ==> SameCall(s.stack[i], t.stack[i]))
      && (forall i :: 0 <= i < n - 1 ==>
            t.stack[i].phase == if n == 2 && s.stack[0].job then Done else s.stack[i].phase)
  {
  }

  lemma ConvertShape(s: Sys, t: Sys)
    requires Shape(s) && Enabled(s, Complete) && Own(Top(s)) && |t.stack| == |s.stack|
    requires var n := |s.stack|;
      && (Top(s).marked ==> t.root.revision == Shown(Top(s)))
      && t.stack[n - 1] == Top(s).(phase := Done, failed := false)
      && (forall i :: 0 <= i < n ==> SameCall(s.stack[i], t.stack[i]))
      && (forall i :: 0 <= i < n - 1 ==>
            t.stack[i].phase == if n == 2 && s.stack[0].job then Done else s.stack[i].phase)
    ensures Shape(t)
  {
  }

  lemma ConvertStands(s: Sys, t: Sys)
    requires Standing(s) && t.root.dirty == s.root.dirty && t.exec == s.exec && |t.stack| == |s.stack|
    requires forall i :: 0 <= i < |s.stack| ==> SameCall(s.stack[i], t.stack[i])
    requires forall i :: 0 <= i < |s.stack| ==> t.stack[i].phase.Done? || t.stack[i].phase == s.stack[i].phase
    ensures Standing(t)
  {
    forall f | f in t.stack && f.marked && f.phase.Running? ensures Ours(t, t.root.dirty) {
      var i :| 0 <= i < |t.stack| && t.stack[i] == f;
      assert s.stack[i] in s.stack;
    }
  }

  /** After a conversion of the dataset nothing is broken off. */
  lemma ConvertAccounts(s: Sys)
    requires s.stack != [] && Own(Top(s))
    ensures Accounted(Completed(s))
  {
    var t, n := Completed(s), |s.stack|;
    assert forall i :: 0 <= i < n ==> !t.stack[i].failed;
  }

  predicate SameCall(f: Frame, g: Frame) {
    g.job == f.job && g.marked == f.marked && g.before == f.before && g.repair == f.repair
  }

  lemma ReturnKeeps(s: Sys)
    requires Inv(s) && Enabled(s, Complete) && !Own(Top(s))
    ensures Inv(Completed(s))
  {
    ReturnStands(s);
    ReturnAccounts(s);
  }

  lemma ReturnStands(s: Sys)
    requires Shape(s) && Standing(s) && Enabled(s, Complete) && !Own(Top(s))
    ensures Shape(Completed(s)) && Standing(Completed(s))
  {
  }

  lemma ReturnAccounts(s: Sys)
    requires Accounted(s) && Enabled(s, Complete) && !Own(Top(s))
    ensures Accounted(Completed(s))
  {
    var t := Completed(s);
    assert Top(s).failed ==> Swallowed in t.causes;
    if !Top(s).failed { PendingStays(s, t); }
  }

  /** Pending failures are pending in every stack that still holds them. */
  lemma PendingStays(s: Sys, t: Sys)
    requires forall j :: 0 <= j < |s.stack| && s.stack[j].failed ==> j < |t.stack| && t.stack[j].failed
    ensures forall i: nat :: Pending(s, i) ==> Pending(t, i)
  {
    forall i: nat | Pending(s, i) ensures Pending(t, i) {
      var j :| i <= j < |s.stack| && s.stack[j].failed;
      assert t.stack[j].failed;
    }
  }

  lemma LeaveKeeps(s: Sys)
    requires Inv(s) && Enabled(s, Leave)
    ensures Inv(Apply(s, Leave))
  {
    LeaveStands(s);
    LeaveAccounts(s);
  }

  /** A call takes the marker away only when no call below it has marked the directory,
      or right inside its job, which is then through. */
  lemma LeaveStands(s: Sys)
    requires Shape(s) && Standing(s) && Enabled(s, Leave)
    ensures Shape(Left(s)) && Standing(Left(s))
  {
  }

  lemma LeaveAccounts(s: Sys)
    requires Inv(s) && Enabled(s, Leave)
    ensures Accounted(Left(s))
  {
    hide Standing;
    var t := Left(s);
    assert !Top(s).failed;
    PendingStays(s, t);
    if Lifts(s) { assert Lifted in t.causes; }
  }

  lemma FailKeeps(s: Sys)
    requires Inv(s) && Enabled(s, Fail)
    ensures Inv(Apply(s, Fail))
  {
    FailFrames(s);
    FailAccounts(s);
    hide Failed, Accounted;
    FailStands(s, Failed(s));
  }

  lemma FailFrames(s: Sys)
    requires s.stack != []
    ensures var t := Failed(s);
      && t.root == s.root && t.exec == s.exec && |t.stack| == |s.stack| - 1
      && forall i :: 0 <= i < |t.stack| ==> t.stack[i] == s.stack[i] || t.stack[i] == s.stack[i].(failed := true)
  {
  }

  lemma FailStands(s: Sys, t: Sys)
    requires Shape(s) && Standing(s) && t.root == s.root && t.exec == s.exec && |t.stack| == |s.stack| - 1
    requires forall i :: 0 <= i < |t.stack| ==> t.stack[i] == s.stack[i] || t.stack[i] == s.stack[i].(failed := true)
    ensures Shape(t) && Standing(t)
  {
  }

  lemma FailAccounts(s: Sys)
    requires Inv(s) && Enabled(s, Fail)
    ensures Accounted(Failed(s))
  {
    var t := Failed(s);
    var top := Top(s);
    if top.phase.Running? && (Writes(top) || top.failed) {
      assert |t.stack| > 0 ==> t.stack[|t.stack| - 1].failed;
    } else {
      PendingStays(s, t);
    }
  }

  lemma DieKeeps(s: Sys)
    requires Inv(s)
    ensures Inv(Died(s))
  {
  }

  lemma {:induction false} RunKeeps(states: seq<Sys>, steps: seq<Step>, k: nat)
    requires Run(states, steps) && k < |states|
    ensures Inv(states[k])
  {
    hide Inv, Apply, Enabled;
    if k == 0 {
      FreshHolds();
    } else {
      RunKeeps(states, steps, k - 1);
      StepKeeps(states[k - 1], steps[k - 1]);
    }
  }

  lemma FreshHolds()
    ensures Inv(Fresh())
  {
  }

  // ------------------------------------------------------------ readiness

  predicate Converts(s: Sys, e: Step) {
    e.Complete? && s.stack != [] && Own(Top(s))
  }

  /** The step through which a broken-off write goes, or stays, unmarked. */
  predicate Happens(s: Sys, e: Step, c: Cause) {
    match c
    case Swallowed => e.Complete? && s.stack != [] && Top(s).failed && !Own(Top(s))
    case Lifted => e.Leave? && s.stack != [] && !Top(s).job && Lifts(s)
    case Unmarked =>
      || (e.Fail? && s.stack != [] && Bare(Top(s)))
      || (e.Die? && exists f :: f in s.stack && Bare(f))
  }

  /** It happened before state `k`, and the dataset has not been converted since. */
  ghost predicate Happened(states: seq<Sys>, steps: seq<Step>, k: nat, c: Cause)
    requires |states| == |steps| + 1 && k < |states|
  {
    exists m :: 0 <= m < k && Happens(states[m], steps[m], c)
                && forall i :: m < i < k ==> !Converts(states[i], steps[i])
  }

  lemma {:induction false} CausesHappened(states: seq<Sys>, steps: seq<Step>, k: nat, c: Cause)
    requires Run(states, steps) && k < |states|
    ensures c in states[k].causes <==> Happened(states, steps, k, c)
  {
    if k > 0 {
      CausesHappened(states, steps, k - 1, c);
      CauseStep(states[k - 1], steps[k - 1], c);
      HappenedStep(states, steps, k, c);
    }
  }

  lemma CauseStep(s: Sys, e: Step, c: Cause)
    requires Enabled(s, e)
    ensures c in Apply(s, e).causes <==> Happens(s, e, c) || (c in s.causes && !Converts(s, e))
  {
  }

  lemma HappenedStep(states: seq<Sys>, steps: seq<Step>, k: nat, c: Cause)
    requires |states| == |steps| + 1 && 0 < k < |states|
    ensures Happened(states, steps, k, c) <==>
      || Happens(states[k - 1], steps[k - 1], c)
      || (Happened(states, steps, k - 1, c) && !Converts(states[k - 1], steps[k - 1]))
  {
    hide Happens, Converts;
    if Happened(states, steps, k - 1, c) && !Converts(states[k - 1], steps[k - 1]) {
      var m :| 0 <= m < k - 1 && Happens(states[m], steps[m], c)
        && forall i :: m < i < k - 1 ==> !Converts(states[i], steps[i]);
      assert forall i :: m < i < k ==> !Converts(states[i], steps[i]);
    }
  }

  /** Over every run: when no write is in progress, a dataset that passes the readiness
      check holds a broken-off write if and only if, since its own last conversion, a
      call swallowed the failure, or a conversion of another dataset removed another
      execution's marker, or the write was made by a call that had marked nothing. */
  lemma ReadyIsWhole(states: seq<Sys>, steps: seq<Step>, k: nat, want: Setting)
    requires Run(states, steps) && k < |states| && states[k].stack == [] && Ready(states[k].root, want)
    ensures states[k].interrupted <==> exists c :: Happened(states, steps, k, c)
  {
    RunKeeps(states, steps, k);
    forall c: Cause ensures c in states[k].causes <==> Happened(states, steps, k, c) {
      CausesHappened(states, steps, k, c);
    }
    if states[k].interrupted {
      var c :| c in states[k].causes;
      assert Happened(states, steps, k, c);
    }
  }

  /** A writing call marks the directory; a failure inside a call ends it too; and a
      conversion of another dataset finds no marker of another execution here. */
  predicate Careful(s: Sys, e: Step) {
    match e
    case EnterCall(_, marked, repair, _) => marked || (repair.Some? && repair.value.made.None?)
    case Complete => s.stack != [] ==> !Top(s).failed
    case Leave => s.stack != [] ==> Misses(Top(s), s.exec)
    case _ => true
  }

  predicate Misses(f: Frame, exec: Exec) {
    f.repair.Some? && !Own(f) && f.marked ==> f.before.None? || f.before == Some(ByCall(exec))
  }

  /** If every step is careful, crashes at any point and nested calls notwithstanding,
      the readiness check accepts no half-written dataset. */
  lemma NeverHalfWritten(states: seq<Sys>, steps: seq<Step>, k: nat, want: Setting)
    requires Run(states, steps) && k < |states| && states[k].stack == [] && Ready(states[k].root, want)
    requires forall i :: 0 <= i < k ==> Careful(states[i], steps[i])
    ensures !states[k].interrupted
  {
    hide Apply;
    ReadyIsWhole(states, steps, k, want);
    forall c: Cause ensures !Happened(states, steps, k, c) {
      forall m | 0 <= m < k ensures !Happens(states[m], steps[m], c) { AllMarked(states, steps, m); }
    }
  }

  lemma {:induction false} AllMarked(states: seq<Sys>, steps: seq<Step>, k: nat)
    requires Run(states, steps) && k < |states|
    requires forall i :: 0 <= i < k ==> Careful(states[i], steps[i])
    ensures forall f :: f in states[k].stack && Writes(f) ==> f.marked
  {
    if k > 0 {
      AllMarked(states, steps, k - 1);
      StaysMarked(states[k - 1], steps[k - 1]);
    }
  }

  lemma StaysMarked(s: Sys, e: Step)
    requires Enabled(s, e) && Careful(s, e) && forall f :: f in s.stack && Writes(f) ==> f.marked
    ensures forall f :: f in Apply(s, e).stack && Writes(f) ==> f.marked
  {
    var t := Apply(s, e);
    assert forall i :: 0 <= i < |s.stack| && Writes(s.stack[i]) ==> s.stack[i].marked;
    assert forall i :: 0 <= i < |t.stack| && Writes(t.stack[i]) ==> t.stack[i].marked;
  }

  // ------------------------------------------------------------ the published setting

  /** The revision names the setting of everything that was written since the last
      conversion of the dataset. */
  predicate Truthful(s: Sys) {
    s.data == Elements(s.root.revision)
  }

  /** A call returns that changes what is published or what is there. */
  predicate Relabels(s: Sys, e: Step) {
    && e.Complete? && s.stack != []
    && if Top(s).repair.Some? then Own(Top(s)) || Top(s).marked else Top(s).rows.Some?
  }

  /** The two part: rows of another setting are added; a conversion of another dataset
      publishes other than what is here; this dataset is converted to another setting
      than the one published; or it is converted and nothing is published. */
  predicate Misleads(s: Sys, e: Step) {
    Relabels(s, e) &&
      var f := Top(s);
      if f.repair.None? then s.data + {f.rows.value} != Elements(s.root.revision)
      else if !Own(f) then s.data != {f.repair.value.shown}
      else if f.marked then f.repair.value.made != Shown(f)
      else s.root.revision != f.repair.value.made
  }

  ghost predicate Misled(states: seq<Sys>, steps: seq<Step>, k: nat)
    requires |states| == |steps| + 1 && k < |states|
  {
    exists m :: 0 <= m < k && Misleads(states[m], steps[m])
                && forall i :: m < i < k ==> !Relabels(states[i], steps[i])
  }

  /** Over every run: the revision is untrue if and only if the last call that changed
      it, or what is there, was one of these. */
  lemma {:induction false} PublishedIsMade(states: seq<Sys>, steps: seq<Step>, k: nat)
    requires Run(states, steps) && k < |states|
    ensures Truthful(states[k]) <==> !Misled(states, steps, k)
  {
    hide Apply, Enabled, Inv, Relabels, Misleads;
    if k > 0 {
      PublishedIsMade(states, steps, k - 1);
      RunKeeps(states, steps, k - 1);
      LabelStep(states[k - 1], steps[k - 1]);
      MisledStep(states, steps, k);
    }
  }

  lemma LabelStep(s: Sys, e: Step)
    requires Inv(s) && Enabled(s, e)
    ensures var t := Apply(s, e);
      if Relabels(s, e) then Truthful(t) <==> !Misleads(s, e)
      else t.root.revision == s.root.revision && t.data == s.data && !Misleads(s, e)
  {
    assert forall a, b: Setting :: {a} == {b} ==> a in {b};
  }

  lemma MisledStep(states: seq<Sys>, steps: seq<Step>, k: nat)
    requires |states| == |steps| + 1 && 0 < k < |states|
    ensures Misled(states, steps, k) <==>
      || Misleads(states[k - 1], steps[k - 1])
      || (Misled(states, steps, k - 1) && !Relabels(states[k - 1], steps[k - 1]))
  {
    hide Misleads, Relabels;
    if Misled(states, steps, k - 1) && !Relabels(states[k - 1], steps[k - 1]) {
      var m :| 0 <= m < k - 1 && Misleads(states[m], steps[m])
        && forall i :: m < i < k - 1 ==> !Relabels(states[i], steps[i]);
      assert forall i :: m < i < k ==> !Relabels(states[i], steps[i]);
    }
  }

  // ------------------------------------------------------------ calls on their own

  /** A guarded call on its own.  Of an eligible directory it removes the marker if there
      was none before, or if it is a convert or pipeline and the marker is another
      execution's; the data it repairs only if they are its own target. */
  lemma RepairCleans(s: Sys, x: Exec, marked: bool, repair: Option<Repair>, rows: Option<Setting>,
                     a: Sys, b: Sys, c: Sys, done: Sys)
    requires s.stack == [] && a == Apply(s, EnterCall(x, marked, repair, rows))
    requires Enabled(a, Mark) && b == Apply(a, Mark)
    requires Enabled(b, Complete) && c == Apply(b, Complete) && Enabled(c, Leave) && done == Apply(c, Leave)
    ensures done.stack == [] && done.exec == x
    ensures !marked ==> done.root == s.root
    ensures marked ==>
      (done.root.dirty.None? <==> s.root.dirty.None? || (repair.Some? && s.root.dirty != Some(ByCall(x))))
    ensures marked ==>
      done.root.revision == if repair.Some? then Some(repair.value.shown) else s.root.revision
    ensures
      if repair.Some? && repair.value.made.Some? then done.data == Elements(repair.value.made) && !done.interrupted
      else done.data == s.data + (if repair.None? then Elements(rows) else {}) && done.interrupted == s.interrupted
  {
    var f := Frame(false, marked, s.root.dirty, repair, rows, Entering, false);
    assert a == s.(exec := x, stack := [f]);
    AloneMarks(a, f);
    AloneCompletes(b, f.(phase := Running));
    hide Apply, Completed;
    AloneLeaves(c, f.(phase := Done));
  }

  /** A data job on its own, of which `convert` says whether it converts: it leaves the
      directory clean if it was clean or the job converted it, and ready as converted. */
  lemma JobCleans(s: Sys, x: Exec, convert: Option<Setting>) returns (t: Sys)
    requires Reached(s) && s.stack == []
    ensures Reached(t) && t.stack == []
    ensures t.root.dirty.None? <==> s.root.dirty.None? || convert.Some?
    ensures t.root.revision == if convert.Some? then convert else s.root.revision
    ensures convert.Some? ==> t.data == {convert.value} && !t.interrupted
    ensures convert.None? ==> t.data == s.data && t.interrupted == s.interrupted
  {
    hide Reached;
    t := JobBegins(s, x, convert);
    if convert.Some? {
      t := JobConverts(t, x, convert.value);
    } else {
      t := JobWrites(t);
    }
    t := Advance(t, Leave);
  }

  lemma JobWrites(s: Sys) returns (t: Sys)
    requires Reached(s) && |s.stack| == 1 && s.stack[0].phase.Running? && s.stack[0].repair.None?
    requires s.stack[0].job && s.stack[0].marked && s.stack[0].rows.None? && !s.stack[0].failed
    ensures Reached(t) && t.stack == [s.stack[0].(phase := Done)] && t.exec == s.exec
    ensures t.root == s.root && t.data == s.data && t.interrupted == s.interrupted
  {
    hide Reached;
    t := Advance(s, Complete);
  }

  lemma JobBegins(s: Sys, x: Exec, convert: Option<Setting>) returns (t: Sys)
    requires Reached(s) && s.stack == []
    ensures Reached(t) && t.exec == x && t.root == s.root.(dirty := Some(ByJob))
    ensures t.data == s.data && t.interrupted == s.interrupted
    ensures var own := if convert.Some? then Some(Repair(convert.value, convert)) else None;
      t.stack == [Frame(true, true, s.root.dirty, own, None, Running, false)]
  {
    hide Reached;
    t := Advance(s, EnterJob(x, convert));
    t := Advance(t, Mark);
  }

  lemma JobConverts(s: Sys, x: Exec, want: Setting) returns (t: Sys)
    requires Reached(s) && |s.stack| == 1 && s.exec == x && s.stack[0].job && s.stack[0].phase.Running?
    requires s.stack[0].repair == Some(Repair(want, Some(want))) && s.root.dirty == Some(ByJob)
    ensures Reached(t) && t.stack == [s.stack[0].(phase := Done, failed := false)] && t.exec == x
    ensures t.root == Root(None, Some(want)) && t.data == {want} && !t.interrupted
  {
    hide Reached;
    t := Advance(s, EnterCall(x, true, Some(Repair(want, Some(want))), None));
    t := Advance(t, Mark);
    t := Advance(t, Complete);
    t := Advance(t, Leave);
  }

  lemma AloneMarks(s: Sys, f: Frame)
    requires s.stack == [f] && Enabled(s, Mark) && !f.job
    ensures Apply(s, Mark) == s.(
      root := if f.marked then s.root.(dirty := Some(ByCall(s.exec))) else s.root, stack := [f.(phase := Running)])
  {
  }

  lemma AloneCompletes(s: Sys, f: Frame)
    requires s.stack == [f] && Enabled(s, Complete) && !f.failed
    ensures var t := Apply(s, Complete);
      && t.stack == [f.(phase := Done)] && t.exec == s.exec
      && t.root == (if f.marked then Published(s.root, Shown(f)) else s.root)
      && t.interrupted == (!Own(f) && s.interrupted)
      && t.data == if Own(f) then Elements(f.repair.value.made)
                   else s.data + if f.repair.None? then Elements(f.rows) else {}
  {
  }

  lemma AloneLeaves(s: Sys, f: Frame)
    requires s.stack == [f] && Enabled(s, Leave) && !f.job
    ensures var t := Apply(s, Leave);
      && t.stack == [] && t.exec == s.exec && t.interrupted == s.interrupted && t.data == s.data
      && t.root == if f.marked then Cleared(s.root, CallCleans(f.before, s.exec, Shown(f))) else s.root
  {
  }

  // ------------------------------------------------------------ runs that look clean

  /** `s` is the last state of some run. */
  ghost predicate Reached(s: Sys) {
    exists states, steps :: Run(states, steps) && states[|steps|] == s
  }

  lemma StartIsReached()
    ensures Reached(Fresh())
  {
    assert Run([Fresh()], []) && [Fresh()][0] == Fresh();
  }

  lemma Advance(s: Sys, e: Step) returns (t: Sys)
    requires Reached(s) && Enabled(s, e)
    ensures Reached(t) && t == Apply(s, e)
  {
    hide Enabled, Apply;
    var states, steps :| Run(states, steps) && states[|steps|] == s;
    t := Apply(s, e);
    var states', steps' := states + [t], steps + [e];
    assert Run(states', steps') && states'[|steps'|] == t;
  }

  /** A call on its own that returns. */
  lemma Returns(s: Sys, x: Exec, marked: bool, repair: Option<Repair>, rows: Option<Setting>) returns (t: Sys)
    requires Reached(s) && s.stack == []
    ensures Reached(t) && t.stack == [] && t.exec == x
    ensures !marked ==> t.root == s.root
    ensures marked ==>
      (t.root.dirty.None? <==> s.root.dirty.None? || (repair.Some? && s.root.dirty != Some(ByCall(x))))
    ensures marked ==> t.root.revision == if repair.Some? then Some(repair.value.shown) else s.root.revision
    ensures
      if repair.Some? && repair.value.made.Some? then t.data == Elements(repair.value.made) && !t.interrupted
      else t.data == s.data + (if repair.None? then Elements(rows) else {}) && t.interrupted == s.interrupted
  {
    hide Apply, Reached, Enabled;
    var a, f := EntersAlone(s, x, marked, repair, rows);
    var b := MarksAlone(a, f);
    var c := CompletesAlone(b, f.(phase := Running));
    t := Advance(c, Leave);
    RepairCleans(s, x, marked, repair, rows, a, b, c, t);
  }

  lemma EntersAlone(s: Sys, x: Exec, marked: bool, repair: Option<Repair>, rows: Option<Setting>)
    returns (a: Sys, f: Frame)
    requires Reached(s) && s.stack == []
    ensures f == Frame(false, marked, s.root.dirty, repair, rows, Entering, false)
    ensures Enabled(s, EnterCall(x, marked, repair, rows)) && a == Apply(s, EnterCall(x, marked, repair, rows))
    ensures Reached(a) && a.stack == [f] && Enabled(a, Mark)
  {
    hide Reached;
    f := Frame(false, marked, s.root.dirty, repair, rows, Entering, false);
    a := Advance(s, EnterCall(x, marked, repair, rows));
  }

  lemma MarksAlone(a: Sys, f: Frame) returns (b: Sys)
    requires Reached(a) && a.stack == [f] && !f.job && Enabled(a, Mark)
    ensures Reached(b) && b == Apply(a, Mark) && b.stack == [f.(phase := Running)] && Enabled(b, Complete)
  {
    hide Reached, Apply;
    AloneMarks(a, f);
    b := Advance(a, Mark);
  }

  lemma CompletesAlone(b: Sys, f: Frame) returns (c: Sys)
    requires Reached(b) && b.stack == [f] && !f.job && !f.failed && Enabled(b, Complete)
    ensures Reached(c) && c == Apply(b, Complete) && Enabled(c, Leave)
  {
    hide Reached, Apply;
    AloneCompletes(b, f);
    c := Advance(b, Complete);
  }

  /** A call on its own that dies while it is writing. */
  lemma Dies(s: Sys, x: Exec, marked: bool, repair: Option<Repair>) returns (t: Sys)
    requires Reached(s) && s.stack == [] && (repair.Some? ==> repair.value.made.Some?)
    ensures Reached(t) && t.stack == [] && t.interrupted && t.data == s.data && t.root.revision == s.root.revision
    ensures t.root.dirty == if marked then Some(ByCall(x)) else s.root.dirty
  {
    hide Reached;
    var f;
    t, f := EntersAlone(s, x, marked, repair, None);
    t := MarksAlone(t, f);
    assert Top(t) in t.stack;
    t := Advance(t, Die);
  }

  /** An outer call on a clean dataset catches the failure of an inner write, returns,
      and removes the marker. */
  lemma SwallowedFailureLooksClean(x: Exec) returns (t: Sys)
    ensures Reached(t) && t.stack == [] && t.root.dirty.None? && t.interrupted
  {
    hide Reached;
    StartIsReached();
    var f;
    t, f := EntersAlone(Fresh(), x, true, None, None);
    t := MarksAlone(t, f);
    t := InnerFails(t, f.(phase := Running));
    t := Advance(t, Complete);
    t := Advance(t, Leave);
  }

  lemma InnerFails(s: Sys, f: Frame) returns (t: Sys)
    requires Reached(s) && s.stack == [f] && f.phase.Running? && !f.job && s.root.dirty.Some?
    ensures Reached(t) && t.stack == [f.(failed := true)] && t.interrupted && t.root == s.root.(dirty := t.root.dirty)
  {
    hide Reached;
    var g := Frame(false, true, s.root.dirty, None, None, Entering, false);
    t := Advance(s, EnterCall(s.exec, true, None, None));
    assert t == s.(stack := [f, g]);
    t := Advance(t, Mark);
    assert t == s.(stack := [f, g.(phase := Running)], root := s.root.(dirty := Some(ByCall(s.exec))));
    t := Advance(t, Fail);
  }

  /** A dataset is converted; a later write to it dies and leaves its marker; and a
      conversion of another dataset, by another execution, removes the marker and
      publishes its own setting: what is half-written passes the readiness check. */
  lemma LiftedMarkerLooksReady(x: Exec, y: Exec, made: Setting, want: Setting) returns (t: Sys)
    requires x != y
    ensures Reached(t) && t.stack == [] && Ready(t.root, want) && t.interrupted && t.data == {made}
  {
    StartIsReached();
    t := Returns(Fresh(), x, true, Some(Repair(made, Some(made))), None);
    t := Dies(t, x, true, None);
    t := Returns(t, y, true, Some(Repair(want, None)), None);
  }

  /** The first conversion of a directory that is not named marks nothing; it dies, and
      a conversion of another dataset makes what it left look ready. */
  lemma UnmarkedWriteLooksReady(x: Exec, y: Exec, made: Setting, want: Setting) returns (t: Sys)
    ensures Reached(t) && t.stack == [] && Ready(t.root, want) && t.interrupted
  {
    StartIsReached();
    t := Dies(Fresh(), x, false, Some(Repair(made, Some(made))));
    t := Returns(t, y, true, Some(Repair(want, None)), None);
  }

  /** With no failure at all, a dataset converted to one setting passes the check for
      another one after a conversion of another dataset (`t`); and it passes the check
      for its own after rows of another setting were written into it (`u`). */
  lemma OtherSettingLooksReady(x: Exec, made: Setting, want: Setting) returns (t: Sys, u: Sys)
    requires made != want
    ensures Reached(t) && t.stack == [] && Ready(t.root, want) && !t.interrupted && t.data == {made}
    ensures Reached(u) && u.stack == [] && Ready(u.root, made) && !u.interrupted && u.data == {made, want}
  {
    StartIsReached();
    var s := Returns(Fresh(), x, true, Some(Repair(made, Some(made))), None);
    t := Returns(s, x, true, Some(Repair(want, None)), None);
    u := Returns(s, x, true, None, Some(want));
  }
}
