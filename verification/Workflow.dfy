/** The resumable step loop (alphapilot/utils/workflow.py): how a class collects its
    steps, and what `run` keeps over every mixture of successes, skips and tracebacks. */
module Workflow {
  // ------------------------------------------------------------ collecting steps

  datatype Attr = Attr(name: string, callable: bool)

  /** A class; `declared` if its statement names the metaclass. */
  datatype Class = Class(declared: bool, bases: seq<Class>, attrs: seq<Attr>)

  /** A metaclass is inherited: only such a class has a `steps` attribute. */
  predicate Made(c: Class) {
    c.declared || exists i :: 0 <= i < |c.bases| && Made(c.bases[i])
  }

  /** The class that `path` leads to, going from base to base. */
  function Ancestor(c: Class, path: seq<nat>): Class {
    if path == [] || path[0] >= |c.bases| then c else Ancestor(c.bases[path[0]], path[1..])
  }

  /** So a class has steps if and only if it or some ancestor names the metaclass. */
  lemma {:induction false} MadeIff(c: Class)
    ensures Made(c) <==> exists path :: Ancestor(c, path).declared
  {
    if Made(c) {
      var path := PathToDeclared(c);
    }
    if path :| Ancestor(c, path).declared { DeclaredIsMade(c, path); }
  }

  lemma {:induction false} PathToDeclared(c: Class) returns (path: seq<nat>)
    requires Made(c)
    ensures Ancestor(c, path).declared
  {
    if c.declared {
      path := [];
    } else {
      var i :| 0 <= i < |c.bases| && Made(c.bases[i]);
      var rest := PathToDeclared(c.bases[i]);
      path := [i] + rest;
      assert path[1..] == rest;
    }
  }

  lemma {:induction false} DeclaredIsMade(c: Class, path: seq<nat>)
    requires Ancestor(c, path).declared
    ensures Made(c)
    decreases |path|
  {
    if path != [] && path[0] < |c.bases| { DeclaredIsMade(c.bases[path[0]], path[1..]); }
  }

  predicate NoDup(s: seq<string>) {
    forall i, j :: 0 <= i < j < |s| ==> s[i] != s[j]
  }

  /** A public callable is a step. */
  predicate IsStep(a: Attr) {
    a.callable && !(a.name != "" && a.name[0] == '_')
  }

  /** Append the names that are not there yet. */
  function Merge(s: seq<string>, more: seq<string>): seq<string>
    decreases more
  {
    if more == [] then s
    else Merge(if more[0] in s then s else s + [more[0]], more[1..])
  }

  function StepNames(attrs: seq<Attr>): seq<string> {
    if attrs == [] then [] else (if IsStep(attrs[0]) then [attrs[0].name] else []) + StepNames(attrs[1..])
  }

  /** `_get_steps`: for each base, the steps of its own bases and then its list. */
  function BaseSteps(bases: seq<Class>): seq<string> {
    if bases == [] then []
    else
      var last := bases[|bases| - 1];
      Merge(BaseSteps(bases[..|bases| - 1]), BaseSteps(last.bases) + Steps(last))
  }

  /** The `steps` attribute of a class, or the empty default for a plain one. */
  function Steps(c: Class): seq<string> {
    if Made(c) then Merge(BaseSteps(c.bases), StepNames(c.attrs)) else []
  }

  method MergeInto(s: seq<string>, more: seq<string>) returns (r: seq<string>)
    ensures r == Merge(s, more)
  {
    r := s;
    for i := 0 to |more|
      invariant Merge(s, more) == Merge(r, more[i..])
    {
      if more[i] !in r { r := r + [more[i]]; }
    }
  }

  method GetSteps(bases: seq<Class>) returns (r: seq<string>)
    ensures r == BaseSteps(bases)
    decreases bases, 0
  {
    r := [];
    for i := 0 to |bases|
      invariant r == BaseSteps(bases[..i])
    {
      var inherited := GetSteps(bases[i].bases);
      var own: seq<string> := [];
      if Made(bases[i]) { own := NewClass(bases[i]); }
      assert bases[..i + 1][..i] == bases[..i];
      r := MergeInto(r, inherited + own);
    }
    assert bases[..|bases|] == bases;
  }

  /** `__new__`: the inherited steps, then the new public methods in order. */
  method NewClass(c: Class) returns (steps: seq<string>)
    requires Made(c)
    ensures steps == Steps(c)
    decreases c, 1
  {
    steps := GetSteps(c.bases);
    ghost var inherited := steps;
    for i := 0 to |c.attrs|
      invariant Merge(inherited, StepNames(c.attrs)) == Merge(steps, StepNames(c.attrs[i..]))
    {
      var a := c.attrs[i];
      assert c.attrs[i..][1..] == c.attrs[i + 1..];
      MergeSplit(steps, if IsStep(a) then [a.name] else [], StepNames(c.attrs[i + 1..]));
      if IsStep(a) && a.name !in steps { steps := steps + [a.name]; }
    }
  }

  lemma {:induction false} MergeIs(s: seq<string>, more: seq<string>)
    ensures s <= Merge(s, more) && (NoDup(s) ==> NoDup(Merge(s, more)))
    ensures forall n :: n in Merge(s, more) <==> n in s || n in more
    decreases |more|
  {
    if more != [] {
      MergeIs(if more[0] in s then s else s + [more[0]], more[1..]);
      assert forall n :: n in more <==> n == more[0] || n in more[1..];
    }
  }

  lemma {:induction false} StepNamesIs(attrs: seq<Attr>)
    ensures forall n :: n in StepNames(attrs) <==> exists a :: a in attrs && IsStep(a) && a.name == n
  {
    if attrs != [] {
      StepNamesIs(attrs[1..]);
      forall n ensures n in StepNames(attrs) <==> exists a :: a in attrs && IsStep(a) && a.name == n {
        if n in StepNames(attrs[1..]) {
          var a :| a in attrs[1..] && IsStep(a) && a.name == n;
          assert a in attrs;
        }
      }
    }
  }

  predicate Public(a: Attr) {
    a.callable && (a.name == "" || a.name[0] != '_')
  }

  /** Some class of the ancestry, `c` included, was built by the metaclass and
      defines the public method `n`. */
  ghost predicate Defines(c: Class, n: string) {
    || (Made(c) && exists a :: a in c.attrs && Public(a) && a.name == n)
    || exists i :: 0 <= i < |c.bases| && Defines(c.bases[i], n)
  }

  ghost predicate AllPlain(bases: seq<Class>) {
    forall i :: 0 <= i < |bases| ==> !Made(bases[i])
  }

  /** Plain classes contribute nothing, whatever methods they have. */
  lemma {:induction false} PlainAddsNothing(bases: seq<Class>, n: string)
    requires AllPlain(bases)
    ensures BaseSteps(bases) == [] && forall i :: 0 <= i < |bases| ==> !Defines(bases[i], n)
  {
    if bases != [] {
      var k := |bases| - 1;
      PlainAddsNothing(bases[..k], n);
      PlainAddsNothing(bases[k].bases, n);
      forall i | 0 <= i < |bases| ensures !Defines(bases[i], n) {
        assert i < k ==> bases[i] == bases[..k][i];
      }
    }
  }

  /** The names of the public methods come in the order of the methods. */
  ghost predicate InTurn(attrs: seq<Attr>, names: seq<string>) {
    forall i, j :: 0 <= i < j < |attrs| && Public(attrs[i]) && Public(attrs[j]) ==>
      Turn(names, attrs[i].name, attrs[j].name)
  }

  ghost predicate Turn(names: seq<string>, m: string, n: string) {
    exists p, q :: 0 <= p < q < |names| && names[p] == m && names[q] == n
  }

  lemma {:induction false} InOrder(attrs: seq<Attr>)
    ensures InTurn(attrs, StepNames(attrs))
  {
    if attrs != [] {
      InOrder(attrs[1..]);
      forall i, j | 0 <= i < j < |attrs| && Public(attrs[i]) && Public(attrs[j])
        ensures Turn(StepNames(attrs), attrs[i].name, attrs[j].name)
      {
        assert attrs[1..][j - 1] == attrs[j];
        if i == 0 {
          FirstTurn(attrs, attrs[j]);
        } else {
          assert attrs[1..][i - 1] == attrs[i];
          LaterTurn(attrs, attrs[i].name, attrs[j].name);
        }
      }
    }
  }

  lemma FirstTurn(attrs: seq<Attr>, a: Attr)
    requires attrs != [] && Public(attrs[0]) && a in attrs[1..] && Public(a)
    ensures Turn(StepNames(attrs), attrs[0].name, a.name)
  {
    var rest := StepNames(attrs[1..]);
    StepNamesIs(attrs[1..]);
    assert a.name in rest && StepNames(attrs) == [attrs[0].name] + rest;
    hide StepNames;
    var q :| 0 <= q < |rest| && rest[q] == a.name;
    assert StepNames(attrs)[0] == attrs[0].name && StepNames(attrs)[q + 1] == a.name;
  }

  lemma LaterTurn(attrs: seq<Attr>, m: string, n: string)
    requires attrs != [] && Turn(StepNames(attrs[1..]), m, n)
    ensures Turn(StepNames(attrs), m, n)
  {
    var rest, names := StepNames(attrs[1..]), StepNames(attrs);
    var d := |names| - |rest|;
    assert names[d..] == rest;
    hide StepNames;
    var p, q :| 0 <= p < q < |rest| && rest[p] == m && rest[q] == n;
    assert names[d + p] == m && names[d + q] == n;
  }

  /** A class over plain bases, such as a workflow over `LoopBase`, has exactly its
      own public methods as steps, in the order of its body. */
  lemma OwnSteps(c: Class)
    requires Made(c) && AllPlain(c.bases) && NoDup(StepNames(c.attrs))
    ensures Steps(c) == StepNames(c.attrs) && InTurn(c.attrs, Steps(c))
  {
    InOrder(c.attrs);
    PlainAddsNothing(c.bases, "");
    assert [] + StepNames(c.attrs) == StepNames(c.attrs);
    MergeNew([], StepNames(c.attrs));
  }

  /** The steps of a class are the public methods that classes built by the metaclass
      define in its ancestry, each once; and a subclass keeps the order of its first
      such base: overriding moves nothing. */
  lemma {:induction false} StepsAre(c: Class)
    ensures NoDup(Steps(c)) && (forall n :: n in Steps(c) <==> Defines(c, n))
    ensures forall b :: 0 <= b < |c.bases| && AllPlain(c.bases[..b]) ==> Steps(c.bases[b]) <= Steps(c)
    decreases c, 1
  {
    if Made(c) {
      BaseStepsAre(c.bases);
      StepNamesIs(c.attrs);
      MergeIs(BaseSteps(c.bases), StepNames(c.attrs));
      forall b | 0 <= b < |c.bases| && AllPlain(c.bases[..b]) ensures Steps(c.bases[b]) <= Steps(c) {
        PrefixOn(Steps(c.bases[b]), BaseSteps(c.bases), Steps(c));
      }
      forall n ensures n in Steps(c) <==> Defines(c, n) {}
    } else {
      forall n ensures !Defines(c, n) { PlainAddsNothing(c.bases, n); }
    }
  }

  lemma PrefixOn(a: seq<string>, b: seq<string>, c: seq<string>)
    requires a <= b <= c
    ensures a <= c
  {
  }

  lemma {:induction false} BaseStepsAre(bases: seq<Class>)
    ensures NoDup(BaseSteps(bases))
    ensures forall n :: n in BaseSteps(bases) <==> exists i :: 0 <= i < |bases| && Defines(bases[i], n)
    ensures forall b :: 0 <= b < |bases| && AllPlain(bases[..b]) ==> Steps(bases[b]) <= BaseSteps(bases)
    decreases bases, 0
  {
    if bases != [] {
      hide Merge, Steps, StepNames, NoDup, AllPlain;
      var k := |bases| - 1;
      var last, front := bases[k], bases[..k];
      BaseStepsAre(front);
      BaseStepsAre(last.bases);
      StepsAre(last);
      MergeIs(BaseSteps(front), BaseSteps(last.bases) + Steps(last));
      forall n
        ensures n in BaseSteps(bases) <==> exists i :: 0 <= i < |bases| && Defines(bases[i], n)
      {
        OneMoreBase(bases, n);
      }
      forall b | 0 <= b < |bases| && AllPlain(bases[..b]) ensures Steps(bases[b]) <= BaseSteps(bases) {
        if b < k {
          assert bases[..b] == front[..b] && bases[b] == front[b];
          PrefixOn(Steps(bases[b]), BaseSteps(front), BaseSteps(bases));
        } else {
          hide Defines, BaseSteps;
          PlainBefore(bases);
        }
      }
    }
  }

  lemma PlainBefore(bases: seq<Class>)
    requires bases != [] && AllPlain(bases[..|bases| - 1])
    requires NoDup(BaseSteps(bases[|bases| - 1].bases)) && NoDup(Steps(bases[|bases| - 1]))
    ensures Steps(bases[|bases| - 1]) <= BaseSteps(bases)
  {
    hide Merge, Steps, StepNames, NoDup, AllPlain, Defines;
    PlainAddsNothing(bases[..|bases| - 1], "");
    FirstBase(bases[|bases| - 1]);
  }

  lemma OneMoreBase(bases: seq<Class>, n: string)
    requires bases != []
    ensures var last, front := bases[|bases| - 1], bases[..|bases| - 1];
      (exists i :: 0 <= i < |bases| && Defines(bases[i], n)) <==>
        || (exists i :: 0 <= i < |front| && Defines(front[i], n))
        || (exists i :: 0 <= i < |last.bases| && Defines(last.bases[i], n)) || Defines(last, n)
  {
  }

  /** A class's own list already starts with its bases' steps, so merging both
      starts with that list. */
  lemma FirstBase(c: Class)
    requires NoDup(BaseSteps(c.bases)) && NoDup(Steps(c))
    ensures Steps(c) <= Merge([], BaseSteps(c.bases) + Steps(c))
  {
    if Made(c) {
      var base, own := BaseSteps(c.bases), Steps(c);
      MergeIs(base, StepNames(c.attrs));
      assert own == base + own[|base|..];
      assert [] + base == base;
      MergeNew([], base);
      MergeSplit([], base, own);
      MergeSplit(base, base, own[|base|..]);
      MergeOld(base, base);
      MergeNew(base, own[|base|..]);
    }
  }

  lemma {:induction false} MergeSplit(s: seq<string>, a: seq<string>, b: seq<string>)
    ensures Merge(s, a + b) == Merge(Merge(s, a), b)
    decreases |a|
  {
    if a == [] {
      assert a + b == b;
    } else {
      assert (a + b)[1..] == a[1..] + b;
      MergeSplit(if a[0] in s then s else s + [a[0]], a[1..], b);
    }
  }

  lemma {:induction false} MergeNew(s: seq<string>, more: seq<string>)
    requires NoDup(s + more)
    ensures Merge(s, more) == s + more
    decreases |more|
  {
    if more != [] {
      assert (s + more)[|s|] == more[0];
      assert s + more == (s + [more[0]]) + more[1..];
      assert forall j :: 0 <= j < |s| ==> s[j] == (s + more)[j] != (s + more)[|s|];
      MergeNew(s + [more[0]], more[1..]);
    }
  }

  lemma {:induction false} MergeOld(s: seq<string>, more: seq<string>)
    requires forall n :: n in more ==> n in s
    ensures Merge(s, more) == s
    decreases |more|
  {
    if more != [] { MergeOld(s, more[1..]); }
  }

  // ------------------------------------------------------------ the loop

  /** What a step does: return a value, raise a skip error or a coder error, or
      raise anything else. */
  datatype Outcome<+V> = Done(value: V) | Skip | Traceback | Raise

  /** The steps' behaviour: what step `name` does on the outputs so far when run at
      `tick`, and whether the stop event is set after it.  The tick stands for
      everything outside the session. */
  datatype World<!V> = World(act: (string, map<string, V>, nat) -> Outcome<V>, stop: nat -> bool)

  /** The session, and beside its fields the bookkeeping of the model: the clock,
      when the current pass began, and when each output was made. */
  datatype State<+V> = State(
    loopIdx: nat,
    stepIdx: nat,
    out: map<string, V>,
    trace: map<nat, nat>,
    tick: nat,
    began: nat,
    made: map<string, nat>)

  predicate InRange<V>(steps: seq<string>, s: State<V>) {
    s.stepIdx < |steps|
  }

  function Count(trace: map<nat, nat>, li: nat): nat {
    if li in trace then trace[li] else 0
  }

  /** The next step of a round of `n` steps, 0 when the round is over. */
  function Following(i: nat, n: nat): (k: nat)
    requires i < n
    ensures k == (if i + 1 == n then 0 else i + 1)
  {
    (i + 1) % n
  }

  /** The state after a step returned: at the end of a round the outputs are dropped. */
  function Advanced<V>(steps: seq<string>, s: State<V>, v: V): State<V>
    requires InRange(steps, s)
  {
    var out, made := s.out[steps[s.stepIdx] := v], s.made[steps[s.stepIdx] := s.tick];
    var trace := s.trace[s.loopIdx := Count(s.trace, s.loopIdx) + 1];
    var next := Following(s.stepIdx, |steps|);
    if next == 0 then State(s.loopIdx + 1, 0, map[], trace, s.tick + 1, s.tick + 1, map[])
    else State(s.loopIdx, next, out, trace, s.tick + 1, s.began, made)
  }

  /** One iteration of `run`.  A skip or a traceback restarts at step 0 and leaves
      the outputs of the broken pass in place. */
  function Next<V>(w: World<V>, steps: seq<string>, s: State<V>): (t: State<V>)
    requires InRange(steps, s)
    ensures InRange(steps, t)
  {
    match w.act(steps[s.stepIdx], s.out, s.tick)
    case Done(v) => Advanced(steps, s, v)
    case Skip => s.(loopIdx := s.loopIdx + 1, stepIdx := 0, tick := s.tick + 1, began := s.tick + 1)
    case Traceback => s.(stepIdx := 0, tick := s.tick + 1, began := s.tick + 1)
    case Raise => s.(tick := s.tick + 1)
  }

  /** One iteration, told by what the step does: at the end of a round the next round begins
      with no outputs; a skip begins the next round, a traceback the same one, and both keep
      the outputs; an error moves nothing. */
  ghost predicate Moved<V>(w: World<V>, steps: seq<string>, s: State<V>, t: State<V>)
    requires InRange(steps, s)
  {
    match w.act(steps[s.stepIdx], s.out, s.tick)
    case Done(v) =>
      && t.trace == s.trace[s.loopIdx := (if s.loopIdx in s.trace then s.trace[s.loopIdx] else 0) + 1]
      && if s.stepIdx == |steps| - 1 then t.loopIdx == s.loopIdx + 1 && t.stepIdx == 0 && t.out == map[]
         else t.loopIdx == s.loopIdx && t.stepIdx == s.stepIdx + 1 && t.out == s.out[steps[s.stepIdx] := v]
    case Skip => t.loopIdx == s.loopIdx + 1 && t.stepIdx == 0 && t.out == s.out && t.trace == s.trace
    case Traceback => t.loopIdx == s.loopIdx && t.stepIdx == 0 && t.out == s.out && t.trace == s.trace
    case Raise => t.loopIdx == s.loopIdx && t.stepIdx == s.stepIdx && t.out == s.out && t.trace == s.trace
  }

  lemma NextMoves<V>(w: World<V>, steps: seq<string>, s: State<V>)
    requires InRange(steps, s)
    ensures Moved(w, steps, s, Next(w, steps, s)) && Next(w, steps, s).tick == s.tick + 1
  {
  }

  /** The trajectory: the state after `n` iterations. */
  function After<V>(w: World<V>, steps: seq<string>, s: State<V>, n: nat): (t: State<V>)
    requires InRange(steps, s)
    ensures InRange(steps, t)
    decreases n
  {
    if n == 0 then s else Next(w, steps, After(w, steps, s, n - 1))
  }

  predicate Succeeds<V>(w: World<V>, steps: seq<string>, s: State<V>)
    requires InRange(steps, s)
  {
    w.act(steps[s.stepIdx], s.out, s.tick).Done?
  }

  /** The snapshots of the first `n` iterations: the state after every success. */
  function Saved<V>(w: World<V>, steps: seq<string>, s: State<V>, n: nat): (r: seq<State<V>>)
    requires InRange(steps, s)
    ensures forall i :: 0 <= i < |r| ==> InRange(steps, r[i])
    decreases n
  {
    if n == 0 then []
    else
      var last := if Succeeds(w, steps, After(w, steps, s, n - 1)) then [After(w, steps, s, n)] else [];
      Saved(w, steps, s, n - 1) + last
  }

  datatype End = Finished | Raised | Stopped

  /** What the current step does. */
  function Acts<V>(w: World<V>, steps: seq<string>, s: State<V>): Outcome<V>
    requires InRange(steps, s)
  {
    w.act(steps[s.stepIdx], s.out, s.tick)
  }

  /** How `run` leaves the loop after the iteration that starts at `s`, if it does. */
  function Leaves<V>(w: World<V>, steps: seq<string>, s: State<V>): End
    requires InRange(steps, s)
  {
    match w.act(steps[s.stepIdx], s.out, s.tick)
    case Raise => Raised
    case Done(_) => if w.stop(s.tick) then Stopped else Finished
    case _ => Finished
  }

  /** LoopBase with the fields `run` updates; `snapshots` are the files it dumps,
      and `tick`, `began` and `made` the model's bookkeeping. */
  class Loop<V> {
    const steps: seq<string>
    var loopIdx: nat
    var stepIdx: nat
    var out: map<string, V>
    var trace: map<nat, nat>
    var snapshots: seq<State<V>>
    var tick: nat
    var began: nat
    var made: map<string, nat>

    constructor (steps: seq<string>)
      ensures this.steps == steps && Now() == Start() && snapshots == []
    {
      this.steps := steps;
      loopIdx, stepIdx, out, trace, snapshots := 0, 0, map[], map[], [];
      tick, began, made := 0, 0, map[];
    }

    function Now(): State<V>
      reads this
    {
      State(loopIdx, stepIdx, out, trace, tick, began, made)
    }

    /** `run`: follow the trajectory for `budget` iterations, or until a step raises
        or the stop event is seen, and dump after every success. */
    method Run(w: World<V>, budget: nat) returns (end: End, ghost used: nat)
      requires InRange(steps, Now())
      modifies this
      ensures used <= budget && Now() == After(w, steps, old(Now()), used)
      ensures snapshots == old(snapshots) + Saved(w, steps, old(Now()), used)
      ensures
        if end.Finished? then used == budget
        else used > 0 && Leaves(w, steps, After(w, steps, old(Now()), used - 1)) == end
      ensures forall k :: 0 <= k < used && Leaves(w, steps, After(w, steps, old(Now()), k)) != Finished ==>
        k == used - 1 && !end.Finished?
      ensures end.Raised? ==> used > 0 && Acts(w, steps, After(w, steps, old(Now()), used - 1)).Raise?
      ensures end.Stopped? ==>
        used > 0 && var last := After(w, steps, old(Now()), used - 1); Acts(w, steps, last).Done? && w.stop(last.tick)
      ensures forall k :: 0 <= k < used && (k < used - 1 || end.Finished?) ==>
        var s := After(w, steps, old(Now()), k);
        !Acts(w, steps, s).Raise? && !(Acts(w, steps, s).Done? && w.stop(s.tick))
    {
      hide Saved, After, Leaves, Next, Advanced;
      ghost var s0, saved0 := Now(), snapshots;
      used := 0;
      var left := budget;
      NoneYet(w, steps, s0);
      while left > 0
        invariant used + left == budget && InRange(steps, Now()) && Now() == After(w, steps, s0, used)
        invariant snapshots == saved0 + Saved(w, steps, s0, used)
        invariant forall k :: 0 <= k < used ==> Leaves(w, steps, After(w, steps, s0, k)) == Finished
      {
        left := left - 1;
        ghost var before := Now();
        end := Iterate(w);
        used := used + 1;
        OneMore(w, steps, s0, used);
        if end != Finished {
          LeftAtLast(w, steps, s0, used);
          return;
        }
      }
      end := Finished;
      LeftAtLast(w, steps, s0, used);
    }

    /** One pass through the body of the loop. */
    method Iterate(w: World<V>) returns (end: End)
      requires InRange(steps, Now())
      modifies this
      ensures Now() == Next(w, steps, old(Now())) && end == Leaves(w, steps, old(Now()))
      ensures Moved(w, steps, old(Now()), Now())
      ensures snapshots == old(snapshots) + if Succeeds(w, steps, old(Now())) then [Now()] else []
    {
      hide After, Saved, Advanced, Moved;
      NextMoves(w, steps, Now());
      var now := tick;
      match w.act(steps[stepIdx], out, now) {
        case Skip =>
          tick := tick + 1;
          loopIdx, stepIdx, began := loopIdx + 1, 0, tick;
          end := Finished;
        case Traceback =>
          tick := tick + 1;
          stepIdx, began := 0, tick;
          end := Finished;
        case Raise =>
          tick := tick + 1;
          end := Raised;
        case Done(v) =>
          Advance(v);
          end := if w.stop(now) then Stopped else Finished;
      }
    }

    /** After a success: record it, move to the next step, save. */
    method Advance(v: V)
      requires InRange(steps, Now())
      modifies this
      ensures Now() == Advanced(steps, old(Now()), v) && snapshots == old(snapshots) + [Now()]
    {
      hide After, Saved, Count;
      var name := steps[stepIdx];
      out, made := out[name := v], made[name := tick];
      tick := tick + 1;
      trace := trace[loopIdx := Count(trace, loopIdx) + 1];
      stepIdx := Following(stepIdx, |steps|);
      if stepIdx == 0 {
        loopIdx := loopIdx + 1;
        out, made, began := map[], map[], tick;
      }
      snapshots := snapshots + [Now()];
    }
  }

  lemma LeftAtLast<V>(w: World<V>, steps: seq<string>, s: State<V>, n: nat)
    requires InRange(steps, s)
    ensures forall k :: 0 <= k < n ==>
      var t := After(w, steps, s, k);
      && (Leaves(w, steps, t) == Raised <==> Acts(w, steps, t).Raise?)
      && (Leaves(w, steps, t) == Stopped <==> Acts(w, steps, t).Done? && w.stop(t.tick))
  {
  }

  function Start<V>(): State<V> {
    State(0, 0, map[], map[], 0, 0, map[])
  }

  lemma NoneYet<V>(w: World<V>, steps: seq<string>, s: State<V>)
    requires InRange(steps, s)
    ensures After(w, steps, s, 0) == s && Saved(w, steps, s, 0) == []
  {
  }

  lemma OneMore<V>(w: World<V>, steps: seq<string>, s: State<V>, n: nat)
    requires InRange(steps, s) && n > 0
    ensures After(w, steps, s, n) == Next(w, steps, After(w, steps, s, n - 1))
    ensures
      var last := if Succeeds(w, steps, After(w, steps, s, n - 1)) then [After(w, steps, s, n)] else [];
      Saved(w, steps, s, n) == Saved(w, steps, s, n - 1) + last
  {
  }

  // ------------------------------------------------------------ rounds

  /** The iteration that starts at `s` ends its round: the last step returned, or a step
      skipped the rest. */
  predicate EndsRound<V>(w: World<V>, steps: seq<string>, s: State<V>)
    requires InRange(steps, s)
  {
    Acts(w, steps, s).Skip? || (Acts(w, steps, s).Done? && s.stepIdx == |steps| - 1)
  }

  /** How many of the first `n` iterations end a round. */
  function Rounds<V>(w: World<V>, steps: seq<string>, s: State<V>, n: nat): nat
    requires InRange(steps, s)
    decreases n
  {
    if n == 0 then 0
    else Rounds(w, steps, s, n - 1) + if EndsRound(w, steps, After(w, steps, s, n - 1)) then 1 else 0
  }

  /** How many of them return while round `li` is going on. */
  function Returned<V>(w: World<V>, steps: seq<string>, s: State<V>, n: nat, li: nat): nat
    requires InRange(steps, s)
    decreases n
  {
    if n == 0 then 0
    else
      var last := After(w, steps, s, n - 1);
      Returned(w, steps, s, n - 1, li) + if Acts(w, steps, last).Done? && last.loopIdx == li then 1 else 0
  }

  /** Over every trajectory: the loop index counts the rounds ended, and the trace of a
      round the steps that returned in it.  A returned last step leaves no outputs and a
      new round at step 0; any other returned step adds its output and moves on by one; a
      skip or a traceback goes back to step 0 and keeps the outputs. */
  lemma {:induction false} RoundsAreCounted<V(!new)>(w: World<V>, steps: seq<string>, s: State<V>, n: nat, li: nat)
    requires InRange(steps, s)
    ensures var t := After(w, steps, s, n);
      && t.loopIdx == s.loopIdx + Rounds(w, steps, s, n)
      && Count(t.trace, li) == Count(s.trace, li) + Returned(w, steps, s, n, li)
      && t.tick == s.tick + n
    ensures n > 0 ==> Moved(w, steps, After(w, steps, s, n - 1), After(w, steps, s, n))
    decreases n
  {
    hide Next, Advanced;
    if n > 0 {
      RoundsAreCounted(w, steps, s, n - 1, li);
      NextMoves(w, steps, After(w, steps, s, n - 1));
    }
  }

  // ------------------------------------------------------------ what every run keeps

  /** The outputs of the steps before the current one come from the current pass, in
      order: each was returned by its step, in this pass, on a dictionary that held
      the same outputs of the steps before it. */
  ghost predicate PassOk<V(!new)>(w: World<V>, steps: seq<string>, s: State<V>) {
    && s.stepIdx < |steps| && s.began <= s.tick && s.out.Keys == s.made.Keys
    && forall j :: 0 <= j < s.stepIdx ==> MadeHere(w, steps, s, j)
  }

  ghost predicate MadeHere<V(!new)>(w: World<V>, steps: seq<string>, s: State<V>, j: nat)
    requires j < |steps|
  {
    && steps[j] in s.made && steps[j] in s.out && s.began <= s.made[steps[j]] < s.tick
    && (j > 0 ==> steps[j - 1] in s.made && s.made[steps[j - 1]] < s.made[steps[j]])
    && exists seen: map<string, V> ::
         SameBefore(steps, j, seen, s.out) && w.act(steps[j], seen, s.made[steps[j]]) == Done(s.out[steps[j]])
  }

  /** The two dictionaries hold the same outputs of the steps before `j`. */
  ghost predicate SameBefore<V>(steps: seq<string>, j: nat, a: map<string, V>, b: map<string, V>)
    requires j <= |steps|
  {
    forall i :: 0 <= i < j ==> steps[i] in a && steps[i] in b && a[steps[i]] == b[steps[i]]
  }

  lemma NextKeepsPass<V(!new)>(w: World<V>, steps: seq<string>, s: State<V>)
    requires NoDup(steps) && PassOk(w, steps, s)
    ensures PassOk(w, steps, Next(w, steps, s))
  {
    assert forall i :: 0 <= i < s.stepIdx ==> steps[i] != steps[s.stepIdx];
    hide MadeHere, Count, NoDup;
    var t := Next(w, steps, s);
    forall j | 0 <= j < t.stepIdx ensures MadeHere(w, steps, t, j) {
      if j < s.stepIdx { OlderStays(w, steps, s, t, j); } else { NewestMade(w, steps, s, t); }
    }
  }

  lemma NewestMade<V(!new)>(w: World<V>, steps: seq<string>, s: State<V>, t: State<V>)
    requires NoDup(steps) && PassOk(w, steps, s) && t == Next(w, steps, s) && Succeeds(w, steps, s)
    requires t.stepIdx == s.stepIdx + 1
    ensures MadeHere(w, steps, t, s.stepIdx)
  {
    hide Count, Following;
    var j := s.stepIdx;
    assert t.out == s.out[steps[j] := t.out[steps[j]]] && t.made == s.made[steps[j] := s.tick];
    forall i | 0 <= i < j
      ensures steps[i] in s.out && s.out[steps[i]] == t.out[steps[i]]
    {
      assert MadeHere(w, steps, s, i);
    }
    if j > 0 { assert MadeHere(w, steps, s, j - 1); }
    assert SameBefore(steps, j, s.out, t.out);
  }

  lemma OlderStays<V(!new)>(w: World<V>, steps: seq<string>, s: State<V>, t: State<V>, j: nat)
    requires NoDup(steps) && s.stepIdx < |steps| && j < s.stepIdx && MadeHere(w, steps, s, j) && t.began == s.began
    requires t.tick >= s.tick
    requires forall i :: 0 <= i < s.stepIdx ==>
      && (steps[i] in s.out ==> steps[i] in t.out && t.out[steps[i]] == s.out[steps[i]])
      && (steps[i] in s.made ==> steps[i] in t.made && t.made[steps[i]] == s.made[steps[i]])
    ensures MadeHere(w, steps, t, j)
  {
  }

  /** Over any sequence of outcomes, from a fresh session or any state a session can
      be in, the indices stay in range and the earlier outputs are those of the
      current pass. */
  lemma {:induction false} EarlierOutputsAreCurrent<V(!new)>(w: World<V>, steps: seq<string>, s: State<V>, n: nat)
    requires NoDup(steps) && ((steps != [] && s == Start()) || PassOk(w, steps, s))
    ensures PassOk(w, steps, After(w, steps, s, n))
    decreases n
  {
    if n > 0 {
      EarlierOutputsAreCurrent(w, steps, s, n - 1);
      NextKeepsPass(w, steps, After(w, steps, s, n - 1));
    }
  }

  ghost predicate Earlier(steps: seq<string>, k: nat, name: string) {
    exists j :: 0 <= j < k && j < |steps| && steps[j] == name
  }

  /** Whatever else the dictionary holds is left from a pass that was broken off. */
  ghost predicate OthersAreOld<V>(steps: seq<string>, s: State<V>) {
    && s.began <= s.tick
    && forall n :: n in s.made ==> s.made[n] < s.tick && (s.made[n] < s.began || Earlier(steps, s.stepIdx, n))
  }

  lemma NextKeepsOthers<V(!new)>(w: World<V>, steps: seq<string>, s: State<V>)
    requires InRange(steps, s) && OthersAreOld(steps, s)
    ensures OthersAreOld(steps, Next(w, steps, s))
  {
  }

  lemma {:induction false} OnlyEarlierOutputsAreCurrent<V(!new)>(w: World<V>, steps: seq<string>, s: State<V>,
                                                                 n: nat)
    requires InRange(steps, s) && (s == Start() || OthersAreOld(steps, s))
    ensures OthersAreOld(steps, After(w, steps, s, n))
    decreases n
  {
    if n > 0 {
      OnlyEarlierOutputsAreCurrent(w, steps, s, n - 1);
      NextKeepsOthers(w, steps, After(w, steps, s, n - 1));
    }
  }

  /** Old outputs do survive: a skip at the second step starts the next round with
      the first step's output still there. */
  lemma SkipLeavesOutputs(w: World<int>)
    requires w.act("a", map[], 0) == Done(7) && w.act("b", map["a" := 7], 1) == Skip
    ensures var s := After(w, ["a", "b"], Start(), 2); s.loopIdx == 1 && s.stepIdx == 0 && s.out == map["a" := 7]
  {
  }

  // ------------------------------------------------------------ resuming

  /** The steps do the same whenever they are run. */
  ghost predicate Deterministic<V(!new)>(w: World<V>) {
    forall name, out, t, u :: w.act(name, out, t) == w.act(name, out, u)
  }

  /** Equal but for the model's bookkeeping. */
  ghost predicate Same<V>(s: State<V>, t: State<V>) {
    s.loopIdx == t.loopIdx && s.stepIdx == t.stepIdx && s.out == t.out && s.trace == t.trace
  }

  lemma SameNext<V(!new)>(w: World<V>, steps: seq<string>, s: State<V>, t: State<V>)
    requires Deterministic(w) && InRange(steps, s) && Same(s, t)
    ensures Same(Next(w, steps, s), Next(w, steps, t))
  {
  }

  lemma {:induction false} SameAfter<V(!new)>(w: World<V>, steps: seq<string>, s: State<V>, t: State<V>, n: nat)
    requires Deterministic(w) && InRange(steps, s) && Same(s, t)
    ensures Same(After(w, steps, s, n), After(w, steps, t, n))
    decreases n
  {
    hide Deterministic, Next;
    if n > 0 {
      SameAfter(w, steps, s, t, n - 1);
      SameNext(w, steps, After(w, steps, s, n - 1), After(w, steps, t, n - 1));
    }
  }

  lemma {:induction false} AfterAdds<V>(w: World<V>, steps: seq<string>, s: State<V>, k: nat, n: nat)
    requires InRange(steps, s)
    ensures After(w, steps, After(w, steps, s, k), n) == After(w, steps, s, k + n)
    decreases n
  {
    hide Next;
    if n > 0 { AfterAdds(w, steps, s, k, n - 1); }
  }

  /** The last snapshot is the state after the last success: what came later was
      only skips, tracebacks and errors. */
  lemma {:induction false} LastSnapshot<V>(w: World<V>, steps: seq<string>, s: State<V>, n: nat) returns (k: nat)
    requires InRange(steps, s) && Saved(w, steps, s, n) != []
    ensures k <= n && Saved(w, steps, s, n)[|Saved(w, steps, s, n)| - 1] == After(w, steps, s, k)
    ensures forall i :: k <= i < n ==> !Succeeds(w, steps, After(w, steps, s, i))
  {
    hide Next, Succeeds;
    if Succeeds(w, steps, After(w, steps, s, n - 1)) { k := n; } else { k := LastSnapshot(w, steps, s, n - 1); }
  }

  /** So too in a session resumed from its last snapshot at any later time. */
  lemma ResumedOutputsAreCurrent<V(!new)>(w: World<V>, steps: seq<string>, s: State<V>, n: nat, later: nat, m: nat)
    requires NoDup(steps) && ((steps != [] && s == Start()) || PassOk(w, steps, s))
    requires var saved := Saved(w, steps, s, n); saved != [] && later >= saved[|saved| - 1].tick
    ensures var saved := Saved(w, steps, s, n);
      PassOk(w, steps, After(w, steps, saved[|saved| - 1].(tick := later), m))
  {
    var k := LastSnapshot(w, steps, s, n);
    EarlierOutputsAreCurrent(w, steps, s, k);
    var snapshot := After(w, steps, s, k);
    LaterIsCurrent(w, steps, snapshot, later);
    EarlierOutputsAreCurrent(w, steps, snapshot.(tick := later), m);
  }

  lemma LaterIsCurrent<V(!new)>(w: World<V>, steps: seq<string>, s: State<V>, later: nat)
    requires PassOk(w, steps, s) && later >= s.tick
    ensures PassOk(w, steps, s.(tick := later))
  {
    forall j | 0 <= j < s.stepIdx ensures MadeHere(w, steps, s.(tick := later), j) {
      assert MadeHere(w, steps, s, j);
    }
  }

  /** With deterministic steps, a session killed after `n` iterations and resumed from
      its last snapshot, at any later time, goes through the very states the
      uninterrupted session goes through from there. */
  lemma ResumeContinues<V(!new)>(w: World<V>, steps: seq<string>, s: State<V>, n: nat, resumed: State<V>)
    returns (k: nat)
    requires Deterministic(w) && InRange(steps, s) && Saved(w, steps, s, n) != []
    requires Same(resumed, Saved(w, steps, s, n)[|Saved(w, steps, s, n)| - 1])
    ensures k <= n && forall m: nat :: Same(After(w, steps, resumed, m), After(w, steps, s, k + m))
  {
    k := LastSnapshot(w, steps, s, n);
    forall m: nat ensures Same(After(w, steps, resumed, m), After(w, steps, s, k + m)) {
      SameAfter(w, steps, resumed, After(w, steps, s, k), m);
      AfterAdds(w, steps, s, k, m);
    }
  }
}
