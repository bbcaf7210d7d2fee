/** What the two factor libraries compute, each told by its own source: the expression
    engine the miners search with (modules/alphaforge/vendor/alphagen/data/expression.py)
    and the functions the translated text names
    (components/coder/factor_coder/function_lib.py).  Values are those of one instrument,
    day by day.  Arithmetic is exact; division, logarithm, root and power stand for the
    floating-point ones that both libraries share. */
module Operators {
  import opened Translate

  /** `missing` is what a value before the first day reads as. */
  datatype Calc = Calc(
    quotient: (real, real) -> real,
    log: real -> real,
    root: real -> real,
    power: (real, real) -> real,
    decimal: string -> real,
    missing: real)

  /** The columns of one instrument, by lower-case name and day. */
  type Data = (string, nat) -> real

  // ------------------------------------------------------------ statistics of a window

  function Size(w: seq<real>): real {
    |w| as real
  }

  function Magnitude(x: real): real {
    if x < 0.0 then -x else x
  }

  function Signum(x: real): real {
    if x < 0.0 then -1.0 else if x > 0.0 then 1.0 else 0.0
  }

  function Larger(x: real, y: real): real {
    if x < y then y else x
  }

  function Smaller(x: real, y: real): real {
    if x < y then x else y
  }

  function Total(w: seq<real>): real {
    if w == [] then 0.0 else Total(w[..|w| - 1]) + w[|w| - 1]
  }

  function Mean(w: seq<real>): real
    requires w != []
  {
    Total(w) / Size(w)
  }

  function Largest(w: seq<real>): real
    requires w != []
  {
    if |w| == 1 then w[0] else Larger(Largest(w[..|w| - 1]), w[|w| - 1])
  }

  function Smallest(w: seq<real>): real
    requires w != []
  {
    if |w| == 1 then w[0] else Smaller(Smallest(w[..|w| - 1]), w[|w| - 1])
  }

  /** The products of the deviations of two windows from their means. */
  function Deviations(v: seq<real>, w: seq<real>): seq<real>
    requires |v| == |w| > 0
  {
    seq(|v|, i requires 0 <= i < |v| => (v[i] - Mean(v)) * (w[i] - Mean(w)))
  }

  function Covariance(k: Calc, v: seq<real>, w: seq<real>): real
    requires |v| == |w| > 0
  {
    k.quotient(Total(Deviations(v, w)), Size(v) - 1.0)
  }

  function Spread(k: Calc, w: seq<real>): real
    requires w != []
  {
    k.root(Covariance(k, w, w))
  }

  function Distances(w: seq<real>, from: real): seq<real> {
    seq(|w|, i requires 0 <= i < |w| => Magnitude(w[i] - from))
  }

  function Insert(x: real, s: seq<real>): (r: seq<real>)
    ensures |r| == |s| + 1
  {
    if s == [] || x <= s[0] then [x] + s else [s[0]] + Insert(x, s[1..])
  }

  function Sorted(s: seq<real>): (r: seq<real>)
    ensures |r| == |s|
  {
    if s == [] then [] else Insert(s[0], Sorted(s[1..]))
  }

  /** torch takes the lower of the two middle values, pandas and numpy their mean. */
  function LowerMedian(w: seq<real>): real
    requires w != []
  {
    Sorted(w)[(|w| - 1) / 2]
  }

  function MiddleMedian(w: seq<real>): real
    requires w != []
  {
    (Sorted(w)[(|w| - 1) / 2] + Sorted(w)[|w| / 2]) / 2.0
  }

  /** `ts_mad`: the mean distance from the mean. */
  function MeanDistance(w: seq<real>): real
    requires w != []
  {
    Mean(Distances(w, Mean(w)))
  }

  /** `TS_MAD`: the median distance from the median. */
  function MedianDistance(w: seq<real>): real
    requires w != []
  {
    MiddleMedian(Distances(w, MiddleMedian(w)))
  }

  function Above(w: seq<real>, x: real): nat {
    if w == [] then 0 else Above(w[..|w| - 1], x) + if x < w[|w| - 1] then 1 else 0
  }

  function Below(w: seq<real>, x: real): nat {
    if w == [] then 0 else Below(w[..|w| - 1], x) + if w[|w| - 1] < x then 1 else 0
  }

  /** `ts_rank`: the rank of the last value counted from the top. */
  function RankFromTop(w: seq<real>): real
    requires w != []
  {
    var last := w[|w| - 1];
    var above, notBelow := Above(w, last), |w| - Below(w, last);
    (notBelow + above + (if notBelow > above then 1 else 0)) as real / (2.0 * Size(w))
  }

  /** `TS_RANK`: its rank counted from the bottom, the mean of ties. */
  function RankFromBottom(w: seq<real>): real
    requires w != []
  {
    var last := w[|w| - 1];
    var equal := |w| - Below(w, last) - Above(w, last);
    (Below(w, last) as real + (equal as real + 1.0) / 2.0) / Size(w)
  }

  function Weighted(weights: seq<real>, w: seq<real>): seq<real>
    requires |weights| == |w|
  {
    seq(|w|, i requires 0 <= i < |w| => weights[i] * w[i])
  }

  /** The weights of `ts_wma`, 0 for the oldest value. */
  function Ramp(n: nat): seq<real> {
    seq(n, i requires 0 <= i < n => i as real)
  }

  function Powers(base: real, n: nat): real {
    if n == 0 then 1.0 else base * Powers(base, n - 1)
  }

  /** Weights that fall by the factor `base` with every day further back. */
  function Decaying(base: real, n: nat): seq<real> {
    seq(n, i requires 0 <= i < n => Powers(base, n - 1 - i))
  }

  /** The same one day further back, as `ts_ema` has them. */
  function Fading(base: real, n: nat): seq<real> {
    seq(n, i requires 0 <= i < n => Powers(base, n - i))
  }

  function Average(k: Calc, weights: seq<real>, w: seq<real>): real
    requires |weights| == |w|
  {
    k.quotient(Total(Weighted(weights, w)), Total(weights))
  }

  /** The decay of an exponential average over `n` days. */
  function Decay(n: nat): real {
    1.0 - 2.0 / (1.0 + n as real)
  }

  // ------------------------------------------------------------ the engine

  /** The days before `t` that evaluating at `t` looks at. */
  function Back(e: Expr): nat {
    match e
    case Unary(_, x) => Back(x)
    case Binary(_, l, r) => if Back(l) < Back(r) then Back(r) else Back(l)
    case Rolling(op, x, dt) => Back(x) + if Shifts(op) then Days(dt) else Days(dt) - 1
    case Pair(_, l, r, dt) => (if Back(l) < Back(r) then Back(r) else Back(l)) + Days(dt) - 1
    case _ => 0
  }

  /** These look at one day `dt` days ago, the others at the last `dt` days. */
  predicate Shifts(op: RollingOp) {
    op.Ref? || op.Delta? || op.PctChange? || op.RatioToRef?
  }

  function Days(dt: int): (n: nat)
    ensures n >= 1
  {
    if dt < 1 then 1 else dt
  }

  /** Windows are at least a day long. */
  predicate Windowed(e: Expr) {
    match e
    case Unary(_, x) => Windowed(x)
    case Binary(_, l, r) => Windowed(l) && Windowed(r)
    case Rolling(_, x, dt) => dt >= 1 && Windowed(x)
    case Pair(_, l, r, dt) => dt >= 1 && Windowed(l) && Windowed(r)
    case _ => true
  }

  function ConstantOf(k: Calc, c: Const): real {
    match c
    case Whole(n) => n as real
    case Decimal(negative, text) => if negative then -Literal(k, text) else Literal(k, text)
  }

  function EngineUnary(k: Calc, op: UnaryOp, x: real): real {
    match op
    case Abs => Magnitude(x)
    case Sign => Signum(x)
    case Log => k.log(x)
    case Inv => k.quotient(1.0, x)
    case SLog1p => Signum(x) * k.log(Magnitude(x) + 1.0)
    case _ => k.missing
  }

  function EngineBinary(k: Calc, op: BinaryOp, x: real, y: real): real {
    match op
    case Add => x + y
    case Sub => x - y
    case Mul => x * y
    case Div => k.quotient(x, y)
    case Pow => k.power(x, y)
    case Greater => Larger(x, y)
    case Less => Smaller(x, y)
    case _ => k.missing
  }

  /** The operators that see one day and one `dt` days before it. */
  function EngineShift(k: Calc, op: RollingOp, now: real, past: real): real {
    match op
    case Ref => past
    case Delta => now - past
    case PctChange => k.quotient(now, past) - 1.0
    case RatioToRef => k.quotient(now, past)
    case _ => k.missing
  }

  /** The operators that see a window. */
  function EngineWindow(k: Calc, op: RollingOp, w: seq<real>): real
    requires w != []
  {
    match op
    case Mean => Mean(w)
    case Sum => Total(w)
    case Std => Spread(k, w)
    case Var => Covariance(k, w, w)
    case Max => Largest(w)
    case Min => Smallest(w)
    case Med => LowerMedian(w)
    case Mad => MeanDistance(w)
    case Rank => RankFromTop(w)
    case Wma => Average(k, Ramp(|w|), w)
    case Ema => Average(k, Fading(Decay(|w|), |w|), w)
    case Ir => k.quotient(Mean(w), Spread(k, w))
    case MaxDiff => w[|w| - 1] - Largest(w)
    case MinDiff => w[|w| - 1] - Smallest(w)
    case MinMaxDiff => Largest(w) - Smallest(w)
    case _ => k.missing
  }

  function EnginePair(k: Calc, op: PairOp, v: seq<real>, w: seq<real>): real
    requires |v| == |w| > 0
  {
    match op
    case Cov => Covariance(k, v, w)
    case Corr =>
      var vv, ww := Total(Deviations(v, v)), Total(Deviations(w, w));
      if vv < 0.000001 || ww < 0.000001 then k.quotient(Total(Deviations(v, w)), 1.0)
      else k.quotient(Total(Deviations(v, w)), k.root(vv * ww))
    case _ => k.missing
  }

  /** `Expression.evaluate` on one day. */
  function EngineAt(k: Calc, data: Data, e: Expr, t: nat): real
    requires Back(e) <= t
    decreases e
  {
    match e
    case Feature(name) => data(Lowered(name), t)
    case Constant(c) => ConstantOf(k, c)
    case Unary(op, x) => EngineUnary(k, op, EngineAt(k, data, x, t))
    case Binary(op, l, r) => EngineBinary(k, op, EngineAt(k, data, l, t), EngineAt(k, data, r, t))
    case Rolling(op, x, dt) =>
      var n := Days(dt);
      if Shifts(op) then EngineShift(k, op, EngineAt(k, data, x, t), EngineAt(k, data, x, t - n))
      else EngineWindow(k, op, seq(n, i requires 0 <= i < n => EngineAt(k, data, x, t - n + 1 + i)))
    case Pair(op, l, r, dt) =>
      var n := Days(dt);
      EnginePair(k, op, seq(n, i requires 0 <= i < n => EngineAt(k, data, l, t - n + 1 + i)),
                 seq(n, i requires 0 <= i < n => EngineAt(k, data, r, t - n + 1 + i)))
    case Other(_) => k.missing
  }

  // ------------------------------------------------------------ the function library

  function LibraryOne(k: Calc, f: string, x: real): real {
    if f == "ABS" then Magnitude(x)
    else if f == "SIGN" then Signum(x)
    else if f == "LOG" then k.log(x)
    else if f == "INV" then k.quotient(1.0, x)
    else k.missing
  }

  predicate Pointwise(f: string) {
    f == "ADD" || f == "MULTIPLY" || f == "DIVIDE" || f == "POW" || f == "MAX" || f == "MIN"
  }

  function LibraryTwo(k: Calc, f: string, x: real, y: real): real {
    if f == "ADD" then x + y
    else if f == "MULTIPLY" then x * y
    else if f == "DIVIDE" then k.quotient(x, y)
    else if f == "POW" then k.power(x, y)
    else if f == "MAX" then Larger(x, y)
    else if f == "MIN" then Smaller(x, y)
    else k.missing
  }

  function LibraryInfix(k: Calc, op: char, x: real, y: real): real {
    if op == '+' then x + y
    else if op == '-' then x - y
    else if op == '*' then x * y
    else if op == '/' then k.quotient(x, y)
    else k.missing
  }

  predicate Lagged(f: string) {
    f == "DELAY" || f == "DELTA" || f == "TS_PCTCHANGE"
  }

  function LibraryLag(k: Calc, f: string, now: real, past: real): real {
    if f == "DELAY" then past
    else if f == "DELTA" then now - past
    else if f == "TS_PCTCHANGE" then k.quotient(now, past) - 1.0
    else k.missing
  }

  /** The rolling functions; near the first day the window is shorter. */
  function LibraryWindow(k: Calc, f: string, w: seq<real>): real
    requires w != []
  {
    if f == "TS_MEAN" then Mean(w)
    else if f == "TS_SUM" then Total(w)
    else if f == "TS_STD" then Spread(k, w)
    else if f == "TS_VAR" then Covariance(k, w, w)
    else if f == "TS_MAX" then Largest(w)
    else if f == "TS_MIN" then Smallest(w)
    else if f == "TS_MEDIAN" then MiddleMedian(w)
    else if f == "TS_MAD" then MedianDistance(w)
    else if f == "TS_RANK" then RankFromBottom(w)
    else if f == "WMA" then Average(k, Decaying(0.9, |w|), w)
    else k.missing
  }

  function LibraryPair(k: Calc, f: string, v: seq<real>, w: seq<real>): real
    requires |v| == |w| > 0
  {
    if f == "TS_COVARIANCE" then Covariance(k, v, w)
    else if f == "TS_CORR" then
      k.quotient(Total(Deviations(v, w)), k.root(Total(Deviations(v, v)) * Total(Deviations(w, w))))
    else k.missing
  }

  /** A number literal. */
  function Literal(k: Calc, text: string): real {
    if forall i :: 0 <= i < |text| ==> Digit(text[i]) then NumberOf(text) as real else k.decimal(text)
  }

  /** A period argument. */
  function Period(d: Dsl): int {
    match d
    case Number(text) => if forall i :: 0 <= i < |text| ==> Digit(text[i]) then NumberOf(text) else 0
    case _ => 0
  }

  /** The text's value on one day. */
  function LibraryAt(k: Calc, data: Data, d: Dsl, t: nat): real
    decreases d, 0
  {
    match d
    case Field(name) => data(name, t)
    case Number(text) => Literal(k, text)
    case Minus(text) => -Literal(k, text)
    case Window(text) => -Literal(k, text)
    case Infix(op, l, r) => LibraryInfix(k, op, LibraryAt(k, data, l, t), LibraryAt(k, data, r, t))
    case Call(f, Last(a)) => LibraryOne(k, f, LibraryAt(k, data, a, t))
    case Call(f, More(a, Last(b))) =>
      if Pointwise(f) then LibraryTwo(k, f, LibraryAt(k, data, a, t), LibraryAt(k, data, b, t))
      else
        var p := Period(b);
        if p < 1 then k.missing
        else if Lagged(f) then
          if t < p then k.missing else LibraryLag(k, f, LibraryAt(k, data, a, t), LibraryAt(k, data, a, t - p))
        else if f == "EMA" then
          Average(k, Decaying(Decay(p), t + 1), LastDays(k, data, a, t + 1, t))
        else LibraryWindow(k, f, LastDays(k, data, a, p, t))
    case Call(f, More(a, More(b, Last(c)))) =>
      var p := Period(c);
      if p < 1 then k.missing else LibraryPair(k, f, LastDays(k, data, a, p, t), LastDays(k, data, b, p, t))
    case _ => k.missing
  }

  /** The last `p` days up to `t`, or as many as there are. */
  function LastDays(k: Calc, data: Data, d: Dsl, p: nat, t: nat): (w: seq<real>)
    requires p >= 1
    ensures |w| == (if p <= t + 1 then p else t + 1)
    decreases d, 1
  {
    var n := if p <= t + 1 then p else t + 1;
    seq(n, i requires 0 <= i < n => LibraryAt(k, data, d, t - n + 1 + i))
  }

  // ------------------------------------------------------------ where they agree

  /** The window operators the two libraries define alike on windows of `n` days. */
  predicate Alike(op: RollingOp, n: int) {
    match op
    case Med => n % 2 == 1
    case Mad => n <= 2
    case Rank => n == 1
    case Wma => false
    case Ema => false
    case OtherRolling(_) => false
    case _ => true
  }

  /** Only operators both libraries define alike. */
  predicate Faithful(e: Expr) {
    match e
    case Feature(_) => true
    case Constant(_) => true
    case Unary(op, x) => !op.CSRank? && !op.OtherUnary? && Faithful(x)
    case Binary(op, l, r) => !op.OtherBinary? && Faithful(l) && Faithful(r)
    case Rolling(op, x, dt) => Alike(op, dt) && Faithful(x)
    case Pair(op, l, r, _) => op.Cov? && Faithful(l) && Faithful(r)
    case Other(_) => false
  }

  lemma PeriodIs(n: int)
    requires n >= 1
    ensures Period(IntTree(n)) == n
  {
    DigitsReadBack(n);
  }

  lemma ConstantsAgree(k: Calc, data: Data, c: Const, t: nat)
    ensures LibraryAt(k, data, ConstTree(c), t) == ConstantOf(k, c)
  {
    hide Digits, NumberOf;
    if c.Whole? { DigitsReadBack(if c.n < 0 then -c.n else c.n); }
  }

  lemma UnaryAgrees(k: Calc, data: Data, op: UnaryOp, x: Dsl, t: nat)
    requires !op.CSRank? && !op.OtherUnary?
    ensures var tree := if op.SLog1p? then LogTree(x) else Call(UnaryName(op).value, Arg1(x));
      LibraryAt(k, data, tree, t) == EngineUnary(k, op, LibraryAt(k, data, x, t))
  {
    if op.SLog1p? {
      var grown := Call("ADD", Arg2(Call("ABS", Arg1(x)), Number("1")));
      assert NumberOf("1") == 1 by { assert "1"[..0] == ""; }
      assert LibraryAt(k, data, Number("1"), t) == 1.0;
      assert LibraryAt(k, data, grown, t) == Magnitude(LibraryAt(k, data, x, t)) + 1.0;
    }
  }

  lemma BinaryAgrees(k: Calc, data: Data, op: BinaryOp, l: Dsl, r: Dsl, t: nat)
    requires !op.OtherBinary?
    ensures
      var tree := if InfixOf(op).Some? then Infix(InfixOf(op).value, l, r) else Call(BinaryName(op).value, Arg2(l, r));
      LibraryAt(k, data, tree, t) == EngineBinary(k, op, LibraryAt(k, data, l, t), LibraryAt(k, data, r, t))
  {
  }

  /** A call with a period, told apart by the kind of its function. */
  lemma CallWithPeriod(k: Calc, data: Data, f: string, a: Dsl, n: int, t: nat)
    requires n >= 1 && !Pointwise(f) && f != "EMA" && t >= n - 1
    ensures var d := Call(f, Arg2(a, IntTree(n)));
      if Lagged(f) then t >= n ==>
        LibraryAt(k, data, d, t) == LibraryLag(k, f, LibraryAt(k, data, a, t), LibraryAt(k, data, a, t - n))
      else LibraryAt(k, data, d, t) == LibraryWindow(k, f, LastDays(k, data, a, n, t))
  {
    PeriodIs(n);
    hide Period, IntTree;
  }

  lemma ShiftAgrees(k: Calc, data: Data, op: RollingOp, x: Dsl, n: int, t: nat)
    requires Shifts(op) && n >= 1 && t >= n
    ensures LibraryAt(k, data, RollingTree(op, x, IntTree(n)), t) ==
      EngineShift(k, op, LibraryAt(k, data, x, t), LibraryAt(k, data, x, t - n))
  {
    CallWithPeriod(k, data, "DELAY", x, n, t);
    CallWithPeriod(k, data, "DELTA", x, n, t);
    CallWithPeriod(k, data, "TS_PCTCHANGE", x, n, t);
    hide IntTree, LastDays;
  }

  /** The call of the function named for `op`. */
  function Named(op: RollingOp, x: Dsl, d: Dsl): Dsl
    requires RollingName(op).Some?
  {
    Call(RollingName(op).value, Arg2(x, d))
  }

  /** On windows: the functions named in the text, or put together from named ones. */
  lemma WindowAgrees(k: Calc, data: Data, op: RollingOp, x: Dsl, n: int, t: nat)
    requires !Shifts(op) && Alike(op, n) && n >= 1 && t >= n - 1
    ensures LibraryAt(k, data, RollingTree(op, x, IntTree(n)), t) == EngineWindow(k, op, LastDays(k, data, x, n, t))
  {
    hide LibraryAt, EngineWindow, IntTree, LastDays, Named;
    if RollingName(op).Some? {
      NamedTree(op, x, IntTree(n));
      NamedAt(k, data, op, x, n, t);
    } else {
      CompositeAgrees(k, data, op, x, n, t);
    }
  }

  lemma NamedTree(op: RollingOp, x: Dsl, d: Dsl)
    requires RollingName(op).Some? && !Shifts(op)
    ensures RollingTree(op, x, d) == Named(op, x, d)
  {
  }

  lemma NamedAt(k: Calc, data: Data, op: RollingOp, x: Dsl, n: int, t: nat)
    requires RollingName(op).Some? && !Shifts(op) && Alike(op, n) && n >= 1 && t >= n - 1
    ensures LibraryAt(k, data, Named(op, x, IntTree(n)), t) == EngineWindow(k, op, LastDays(k, data, x, n, t))
  {
    NamesWindow(op);
    CallWithPeriod(k, data, RollingName(op).value, x, n, t);
    NamedAgrees(k, op, LastDays(k, data, x, n, t));
    hide LibraryAt, EngineWindow, LibraryWindow, IntTree, LastDays, RollingName, Alike;
  }

  lemma NamesWindow(op: RollingOp)
    requires RollingName(op).Some? && !Shifts(op)
    ensures !Pointwise(RollingName(op).value) && !Lagged(RollingName(op).value)
    ensures RollingName(op).value == "EMA" <==> op.Ema?
  {
  }

  lemma CompositeAgrees(k: Calc, data: Data, op: RollingOp, x: Dsl, n: int, t: nat)
    requires op in {Ir, MaxDiff, MinDiff, MinMaxDiff} && n >= 1 && t >= n - 1
    ensures LibraryAt(k, data, RollingTree(op, x, IntTree(n)), t) == EngineWindow(k, op, LastDays(k, data, x, n, t))
  {
    hide LibraryAt, EngineWindow, LastDays, IntTree, RollingTree, Named;
    var d, w := IntTree(n), LastDays(k, data, x, n, t);
    CompositeTrees(x, d);
    CompositeWindows(k, w);
    LastIsNow(k, data, x, n, t);
    match op
    case Ir =>
      NamedAt(k, data, RollingOp.Mean, x, n, t);
      NamedAt(k, data, Std, x, n, t);
      Quotients(k, data, Named(RollingOp.Mean, x, d), Named(Std, x, d), t);
    case MaxDiff =>
      NamedAt(k, data, Max, x, n, t);
      Differences(k, data, x, Named(Max, x, d), t);
    case MinDiff =>
      NamedAt(k, data, Min, x, n, t);
      Differences(k, data, x, Named(Min, x, d), t);
    case MinMaxDiff =>
      NamedAt(k, data, Max, x, n, t);
      NamedAt(k, data, Min, x, n, t);
      Differences(k, data, Named(Max, x, d), Named(Min, x, d), t);
  }

  lemma CompositeWindows(k: Calc, w: seq<real>)
    requires w != []
    ensures EngineWindow(k, Ir, w) == k.quotient(EngineWindow(k, RollingOp.Mean, w), EngineWindow(k, Std, w))
    ensures EngineWindow(k, MaxDiff, w) == w[|w| - 1] - EngineWindow(k, Max, w)
    ensures EngineWindow(k, MinDiff, w) == w[|w| - 1] - EngineWindow(k, Min, w)
    ensures EngineWindow(k, MinMaxDiff, w) == EngineWindow(k, Max, w) - EngineWindow(k, Min, w)
  {
    hide Mean, Spread, Largest, Smallest;
  }

  lemma CompositeTrees(x: Dsl, d: Dsl)
    ensures RollingTree(Ir, x, d) == Call("DIVIDE", Arg2(Named(RollingOp.Mean, x, d), Named(Std, x, d)))
    ensures RollingTree(MaxDiff, x, d) == Infix('-', x, Named(Max, x, d))
    ensures RollingTree(MinDiff, x, d) == Infix('-', x, Named(Min, x, d))
    ensures RollingTree(MinMaxDiff, x, d) == Infix('-', Named(Max, x, d), Named(Min, x, d))
  {
  }

  lemma Quotients(k: Calc, data: Data, x: Dsl, y: Dsl, t: nat)
    ensures LibraryAt(k, data, Call("DIVIDE", Arg2(x, y)), t) ==
      k.quotient(LibraryAt(k, data, x, t), LibraryAt(k, data, y, t))
  {
  }

  lemma Differences(k: Calc, data: Data, x: Dsl, y: Dsl, t: nat)
    ensures LibraryAt(k, data, Infix('-', x, y), t) == LibraryAt(k, data, x, t) - LibraryAt(k, data, y, t)
  {
  }

  lemma LastIsNow(k: Calc, data: Data, x: Dsl, n: int, t: nat)
    requires n >= 1
    ensures LastDays(k, data, x, n, t)[|LastDays(k, data, x, n, t)| - 1] == LibraryAt(k, data, x, t)
  {
  }

  lemma NamedAgrees(k: Calc, op: RollingOp, w: seq<real>)
    requires w != [] && !Shifts(op) && RollingName(op).Some? && Alike(op, |w|)
    ensures LibraryWindow(k, RollingName(op).value, w) == EngineWindow(k, op, w)
  {
    match op
    case Med => OddMedian(w);
    case Mad => SmallMad(w);
    case Rank => OneRank(w);
    case _ =>
    hide Mean, Total, Covariance, Spread, Largest, Smallest, Average, LowerMedian, MiddleMedian;
    hide MeanDistance, MedianDistance, RankFromTop, RankFromBottom;
  }

  lemma OddMedian(w: seq<real>)
    requires |w| % 2 == 1
    ensures LowerMedian(w) == MiddleMedian(w)
  {
    hide Sorted;
  }

  lemma OneRank(w: seq<real>)
    requires |w| == 1
    ensures RankFromTop(w) == 1.0 == RankFromBottom(w)
  {
    assert w[..0] == [] && Below(w, w[0]) == 0 && Above(w, w[0]) == 0;
  }

  lemma TotalOfTwo(w: seq<real>)
    ensures |w| == 1 ==> Total(w) == w[0]
    ensures |w| == 2 ==> Total(w) == w[0] + w[1]
  {
    if |w| == 1 { assert w[..0] == []; }
    if |w| == 2 { assert w[..1] == [w[0]] && w[..1][..0] == []; }
  }

  lemma SortedOfTwo(w: seq<real>)
    ensures |w| == 1 ==> Sorted(w) == w
    ensures |w| == 2 ==> Sorted(w) == if w[0] <= w[1] then w else [w[1], w[0]]
  {
    if |w| == 1 { assert w[1..] == []; }
    if |w| == 2 {
      SortedOfTwo(w[1..]);
      assert Sorted(w) == Insert(w[0], [w[1]]);
      hide Sorted;
      assert Insert(w[0], []) == [w[0]];
    }
  }

  lemma SmallMad(w: seq<real>)
    requires 1 <= |w| <= 2
    ensures MedianDistance(w) == MeanDistance(w)
  {
    MiddleIsMean(w);
    MiddleIsMean(Distances(w, Mean(w)));
    hide Mean, MiddleMedian;
  }

  lemma MiddleIsMean(w: seq<real>)
    requires 1 <= |w| <= 2
    ensures MiddleMedian(w) == Mean(w)
  {
    TotalOfTwo(w);
    SortedOfTwo(w);
    hide Total, Sorted;
    if |w| == 1 {
      assert Mean(w) == w[0] / 1.0;
    } else {
      assert Mean(w) == (w[0] + w[1]) / 2.0;
    }
  }

  lemma PairAgrees(k: Calc, data: Data, l: Dsl, r: Dsl, n: int, t: nat)
    requires n >= 1 && t >= n - 1
    ensures LibraryAt(k, data, Call("TS_COVARIANCE", More(l, Arg2(r, IntTree(n)))), t) ==
      Covariance(k, LastDays(k, data, l, n, t), LastDays(k, data, r, n, t))
  {
    PeriodIs(n);
    hide Period, IntTree, Covariance;
  }

  /** Over every expression of operators defined alike, for any data and any day with
      enough history: what the engine computes for the expression, the function library
      computes for its tree. */
  lemma {:induction false} ValueIsKept(k: Calc, data: Data, e: Expr, t: nat)
    requires Supported(e) && Faithful(e) && Windowed(e) && Back(e) <= t
    ensures LibraryAt(k, data, Tree(e), t) == EngineAt(k, data, e, t)
    decreases e, 0
  {
    hide LibraryAt, EngineUnary, EngineBinary, EngineShift, EngineWindow, RollingTree, UnaryName, BinaryName;
    hide LastDays, ConstTree, IntTree, LogTree, Alike;
    match e
    case Feature(name) => FieldAgrees(k, data, name, t);
    case Constant(c) => ConstantsAgree(k, data, c, t);
    case Unary(op, x) =>
      ValueIsKept(k, data, x, t);
      UnaryAgrees(k, data, op, Tree(x), t);
    case Binary(op, l, r) =>
      ValueIsKept(k, data, l, t);
      ValueIsKept(k, data, r, t);
      BinaryAgrees(k, data, op, Tree(l), Tree(r), t);
    case Rolling(op, x, n) => RollingIsKept(k, data, op, x, n, t);
    case Pair(_, l, r, n) =>
      WindowIsKept(k, data, l, n, t);
      WindowIsKept(k, data, r, n, t);
      PairAgrees(k, data, Tree(l), Tree(r), n, t);
  }

  lemma FieldAgrees(k: Calc, data: Data, name: string, t: nat)
    ensures LibraryAt(k, data, Field(Lowered(name)), t) == data(Lowered(name), t)
  {
  }

  lemma {:induction false} RollingIsKept(k: Calc, data: Data, op: RollingOp, x: Expr, n: int, t: nat)
    requires Supported(x) && Faithful(x) && Windowed(x) && n >= 1 && Alike(op, n) && Back(Rolling(op, x, n)) <= t
    ensures LibraryAt(k, data, RollingTree(op, Tree(x), IntTree(n)), t) == EngineAt(k, data, Rolling(op, x, n), t)
    decreases x, 2
  {
    hide LibraryAt, EngineShift, EngineWindow, RollingTree, IntTree, Alike, LastDays;
    if Shifts(op) {
      ValueIsKept(k, data, x, t);
      ValueIsKept(k, data, x, t - n);
      ShiftAgrees(k, data, op, Tree(x), n, t);
    } else {
      WindowIsKept(k, data, x, n, t);
      WindowAgrees(k, data, op, Tree(x), n, t);
    }
  }

  lemma {:induction false} WindowIsKept(k: Calc, data: Data, x: Expr, n: int, t: nat)
    requires Supported(x) && Faithful(x) && Windowed(x) && n >= 1 && Back(x) + n - 1 <= t
    ensures LastDays(k, data, Tree(x), n, t) == seq(n, i requires 0 <= i < n => EngineAt(k, data, x, t - n + 1 + i))
    decreases x, 1
  {
    hide LibraryAt, EngineAt, Faithful, Supported, Windowed, Back, Tree;
    var w, v := LastDays(k, data, Tree(x), n, t), seq(n, i requires 0 <= i < n => EngineAt(k, data, x, t - n + 1 + i));
    forall i | 0 <= i < n ensures w[i] == v[i] {
      ValueIsKept(k, data, x, t - n + 1 + i);
      assert w[i] == LibraryAt(k, data, Tree(x), t - n + 1 + i);
    }
    assert w == v;
  }

  /** So for the text: whatever is read back from it has the engine's value. */
  lemma TextKeepsValue(k: Calc, data: Data, e: Expr, d: Dsl, t: nat)
    requires Proper(e) && Faithful(e) && Windowed(e) && Back(e) <= t
    requires Translated(e).Some? && Reads(Translated(e).value, d)
    ensures LibraryAt(k, data, d, t) == EngineAt(k, data, e, t)
  {
    hide Reads, LibraryAt, EngineAt, Faithful;
    SucceedsIffSupported(e);
    TranslationReads(e);
    ValueIsKept(k, data, e, t);
  }

  // ------------------------------------------------------------ where they do not

  /** Division by anything but zero. */
  ghost predicate Divides(k: Calc) {
    forall x, y :: y != 0.0 ==> k.quotient(x, y) == x / y
  }

  /** The value both libraries give a named operator at the end of a history of which the
      last `n` days are its window. */
  predicate SameOn(k: Calc, op: RollingOp, n: nat, h: seq<real>)
    requires 1 <= n <= |h| && RollingName(op).Some?
  {
    EngineWindow(k, op, h[|h| - n..]) == LibraryNamed(k, op, n, h)
  }

  function LibraryNamed(k: Calc, op: RollingOp, n: nat, h: seq<real>): real
    requires 1 <= n <= |h| && RollingName(op).Some?
  {
    if RollingName(op).value == "EMA" then Average(k, Decaying(Decay(n), |h|), h)
    else LibraryWindow(k, RollingName(op).value, h[|h| - n..])
  }

  lemma {:induction false} TotalOfZeros(w: seq<real>)
    requires forall i :: 0 <= i < |w| ==> w[i] == 0.0
    ensures Total(w) == 0.0
  {
    if w != [] { TotalOfZeros(w[..|w| - 1]); }
  }

  lemma {:induction false} TotalIsPositive(w: seq<real>, i: nat)
    requires i < |w| && w[i] > 0.0 && forall j :: 0 <= j < |w| ==> w[j] >= 0.0
    ensures Total(w) >= w[i]
    decreases |w|
  {
    var k := |w| - 1;
    if i < k { TotalIsPositive(w[..k], i); } else { TotalIsNotNegative(w[..k]); }
  }

  lemma {:induction false} TotalIsNotNegative(w: seq<real>)
    requires forall j :: 0 <= j < |w| ==> w[j] >= 0.0
    ensures Total(w) >= 0.0
  {
    if w != [] { TotalIsNotNegative(w[..|w| - 1]); }
  }

  lemma {:induction false} PowersArePositive(base: real, n: nat)
    requires base > 0.0
    ensures Powers(base, n) > 0.0
  {
    if n > 0 { PowersArePositive(base, n - 1); }
  }

  lemma {:induction false} SortedAscending(s: seq<real>)
    requires forall i, j :: 0 <= i < j < |s| ==> s[i] <= s[j]
    ensures Sorted(s) == s
  {
    if s != [] {
      SortedAscending(s[1..]);
      assert [s[0]] + s[1..] == s;
    }
  }

  /** `n` days, all zero but the last. */
  function Spike(n: nat, v: real): (w: seq<real>)
    requires n >= 1
    ensures |w| == n
  {
    seq(n, i requires 0 <= i < n => if i == n - 1 then v else 0.0)
  }

  lemma TotalOfSpike(n: nat, v: real)
    requires n >= 1
    ensures Total(Spike(n, v)) == v
  {
    var w := Spike(n, v);
    TotalOfZeros(w[..n - 1]);
  }

  lemma {:induction false} NoneAside(w: seq<real>, x: real)
    requires forall i :: 0 <= i < |w| ==> w[i] == 0.0
    ensures x > 0.0 ==> Below(w, x) == |w| && Above(w, x) == 0
  {
    if w != [] { NoneAside(w[..|w| - 1], x); }
  }

  lemma RankDiffers(n: nat)
    requires n >= 2
    ensures RankFromTop(Spike(n, 1.0)) != RankFromBottom(Spike(n, 1.0))
  {
    var w := Spike(n, 1.0);
    NoneAside(w[..n - 1], 1.0);
    assert Below(w, 1.0) == n - 1 && Above(w, 1.0) == 0;
    assert RankFromTop(w) == 2.0 / (2.0 * n as real);
    assert RankFromBottom(w) == ((n - 1) as real + 1.0) / n as real == 1.0;
  }

  lemma MadDiffers(n: nat)
    requires n >= 3
    ensures MeanDistance(Spike(n, n as real)) != MedianDistance(Spike(n, n as real))
  {
    SpikeHasNoMedian(n, n as real);
    SpikeMean(n);
    SpikeDistances(n);
    hide Sorted, MiddleMedian, Total;
  }

  lemma SpikeHasNoMedian(n: nat, v: real)
    requires n >= 3 && v > 0.0
    ensures MiddleMedian(Spike(n, v)) == 0.0 && MedianDistance(Spike(n, v)) == 0.0
  {
    var w := Spike(n, v);
    SortedAscending(w);
    hide Sorted;
    assert MiddleMedian(w) == 0.0;
    assert Distances(w, 0.0) == w by { hide MiddleMedian; }
    hide Spike, Distances;
  }

  lemma SpikeMean(n: nat)
    requires n >= 3
    ensures Mean(Spike(n, n as real)) == 1.0
  {
    hide Total, Spike;
    TotalOfSpike(n, n as real);
    var x := n as real;
    assert x / x == 1.0;
  }

  lemma SpikeDistances(n: nat)
    requires n >= 3
    ensures Mean(Distances(Spike(n, n as real), 1.0)) > 0.0
  {
    var d := Distances(Spike(n, n as real), 1.0);
    assert d[0] == 1.0;
    TotalIsPositive(d, 0);
  }

  lemma MedDiffers(n: nat)
    requires n >= 2 && n % 2 == 0
    ensures var w := seq(n, i requires 0 <= i < n => if i < n / 2 then 0.0 else 1.0);
      LowerMedian(w) != MiddleMedian(w)
  {
    SortedAscending(seq(n, i requires 0 <= i < n => if i < n / 2 then 0.0 else 1.0));
  }

  /** `n` days, all zero but the first. */
  function Past(n: nat): (w: seq<real>)
    requires n >= 1
    ensures |w| == n
  {
    seq(n, i requires 0 <= i < n => if i == 0 then 1.0 else 0.0)
  }

  lemma WmaDiffers(k: Calc, n: nat)
    requires Divides(k) && n >= 2
    ensures Average(k, Ramp(n), Past(n)) != Average(k, Decaying(0.9, n), Past(n))
  {
    var w := Past(n);
    TotalOfZeros(Weighted(Ramp(n), w));
    TotalIsPositive(Ramp(n), 1);
    DecayIsFelt(0.9, n);
  }

  /** Under positive weights the oldest of `n` days still counts. */
  lemma DecayIsFelt(base: real, n: nat)
    requires base > 0.0 && n >= 1
    ensures Total(Weighted(Decaying(base, n), Past(n))) > 0.0 && Total(Decaying(base, n)) > 0.0
  {
    forall i: nat ensures Powers(base, i) > 0.0 { PowersArePositive(base, i); }
    TotalIsPositive(Decaying(base, n), 0);
    TotalIsPositive(Weighted(Decaying(base, n), Past(n)), 0);
  }

  lemma EmaDiffers(k: Calc, n: nat)
    requires Divides(k) && n >= 2
    ensures !SameOn(k, Ema, n, Past(n + 1))
  {
    var h, w := Past(n + 1), Past(n + 1)[1..];
    assert h[|h| - n..] == w;
    assert Decay(n) > 0.0;
    TotalOfZeros(Weighted(Fading(Decay(n), n), w));
    FadingCounts(Decay(n), n);
    DecayIsFelt(Decay(n), n + 1);
  }

  lemma FadingCounts(base: real, n: nat)
    requires base > 0.0 && n >= 1
    ensures Total(Fading(base, n)) > 0.0
  {
    forall i: nat ensures Powers(base, i) > 0.0 { PowersArePositive(base, i); }
    TotalIsPositive(Fading(base, n), 0);
  }

  /** On a one-day window these two averages of the engine divide zero by zero. */
  lemma OneDayDiffers(k: Calc)
    requires Divides(k)
    ensures var v := k.quotient(0.0, 0.0) + 1.0;
      !SameOn(k, Wma, 1, [v]) && !SameOn(k, Ema, 1, [0.0, v])
  {
    var v := k.quotient(0.0, 0.0) + 1.0;
    OneDayWma(k, v);
    OneDayEma(k, v);
    var h := [0.0, v];
    assert [v][|[v]| - 1..] == [v] && h[|h| - 1..] == [v];
    hide Average, Decay;
  }

  lemma OneDayWma(k: Calc, v: real)
    requires Divides(k)
    ensures Average(k, Ramp(1), [v]) == k.quotient(0.0, 0.0) && Average(k, Decaying(0.9, 1), [v]) == v
  {
    var a, b := Ramp(1), Decaying(0.9, 1);
    assert Powers(0.9, 0) == 1.0;
    assert a[0] == 0.0 && b[0] == 1.0 && Weighted(a, [v])[0] == 0.0 && Weighted(b, [v])[0] == v;
    TotalOfTwo(a);
    TotalOfTwo(b);
    TotalOfTwo(Weighted(a, [v]));
    TotalOfTwo(Weighted(b, [v]));
  }

  lemma OneDayEma(k: Calc, v: real)
    requires Divides(k)
    ensures Average(k, Fading(Decay(1), 1), [v]) == k.quotient(0.0, 0.0)
    ensures Average(k, Decaying(Decay(1), 2), [0.0, v]) == v
  {
    var a, b, h := Fading(Decay(1), 1), Decaying(Decay(1), 2), [0.0, v];
    assert Decay(1) == 0.0;
    assert Powers(0.0, 1) == 0.0 && Powers(0.0, 0) == 1.0;
    assert a[0] == 0.0 && b[0] == 0.0 && b[1] == 1.0;
    assert Weighted(a, [v])[0] == 0.0 && Weighted(b, h)[0] == 0.0 && Weighted(b, h)[1] == v;
    TotalOfTwo(a);
    TotalOfTwo(b);
    TotalOfTwo(Weighted(a, [v]));
    TotalOfTwo(Weighted(b, h));
  }

  /** A history on which the two differ. */
  lemma Differs(k: Calc, op: RollingOp, n: nat) returns (h: seq<real>)
    requires Divides(k) && n >= 1 && op in {Med, Mad, Rank, Wma, Ema} && !Alike(op, n)
    ensures |h| >= n && !SameOn(k, op, n, h)
  {
    hide Divides, MeanDistance, MedianDistance, LowerMedian, MiddleMedian, RankFromTop, RankFromBottom, Average;
    if n == 1 {
      OneDayDiffers(k);
      h := if op.Wma? then [k.quotient(0.0, 0.0) + 1.0] else [0.0, k.quotient(0.0, 0.0) + 1.0];
    } else if op.Ema? {
      EmaDiffers(k, n);
      h := Past(n + 1);
    } else {
      h := if op.Med? then seq(n, i requires 0 <= i < n => if i < n / 2 then 0.0 else 1.0)
           else if op.Mad? then Spike(n, n as real) else if op.Rank? then Spike(n, 1.0) else Past(n);
      assert h[|h| - n..] == h;
      match op
      case Med => MedDiffers(n);
      case Mad => MadDiffers(n);
      case Rank => RankDiffers(n);
      case Wma => WmaDiffers(k, n);
    }
  }

  /** Which of the named window operators the table may name: the two libraries agree on
      every history if and only if the operator is one of those defined alike. */
  lemma AgreeIffAlike(k: Calc, op: RollingOp, n: nat)
    requires Divides(k) && n >= 1 && RollingName(op).Some? && !Shifts(op)
    ensures (forall h :: |h| >= n ==> SameOn(k, op, n, h)) <==> Alike(op, n)
  {
    if Alike(op, n) {
      forall h | |h| >= n ensures SameOn(k, op, n, h) { NamedAgrees(k, op, h[|h| - n..]); }
    } else {
      var h := Differs(k, op, n);
      assert !SameOn(k, op, n, h);
    }
  }

  /** And so for the texts themselves: whatever the prices, the text of such an operator on
      a column has its value, if and only if the operator is defined alike. */
  lemma TextKeepsValueIff(k: Calc, op: RollingOp, n: nat)
    requires Divides(k) && n >= 1 && RollingName(op).Some? && !Shifts(op)
    ensures (forall data, t :: t >= n - 1 ==> KeptOn(k, data, op, n, t)) <==> Alike(op, n)
  {
    AgreeIffAlike(k, op, n);
    hide KeptOn, SameOn, Divides, RollingName, Alike;
    if Alike(op, n) {
      forall data, t | t >= n - 1 ensures KeptOn(k, data, op, n, t) { DayIsHistory(k, data, op, n, t); }
    } else {
      var h :| |h| >= n && !SameOn(k, op, n, h);
      var data := PricedSo(k, op, n, h);
      assert !KeptOn(k, data, op, n, |h| - 1);
    }
  }

  lemma PricedSo(k: Calc, op: RollingOp, n: nat, h: seq<real>) returns (data: Data)
    requires 1 <= n <= |h| && RollingName(op).Some? && !Shifts(op) && !SameOn(k, op, n, h)
    ensures !KeptOn(k, data, op, n, |h| - 1)
  {
    hide KeptOn, SameOn, RollingName;
    data := (name: string, d: nat) => if d < |h| then h[d] else 0.0;
    DayIsHistory(k, data, op, n, |h| - 1);
    assert Prices(data, 0, |h|) == h;
  }

  /** The tree of the operator on the closing price has the engine's value on day `t`. */
  predicate KeptOn(k: Calc, data: Data, op: RollingOp, n: nat, t: nat)
    requires n >= 1 && RollingName(op).Some? && !Shifts(op) && t >= n - 1
  {
    var e := Rolling(op, Feature("close"), n);
    LibraryAt(k, data, Tree(e), t) == EngineAt(k, data, e, t)
  }

  lemma DayIsHistory(k: Calc, data: Data, op: RollingOp, n: nat, t: nat)
    requires n >= 1 && RollingName(op).Some? && !Shifts(op) && t >= n - 1
    ensures KeptOn(k, data, op, n, t) <==>
      SameOn(k, op, n, Prices(data, 0, t + 1))
  {
    hide LibraryAt, EngineAt, LastDays, EngineWindow, LibraryWindow, Average, Decay;
    hide Tree, Named, IntTree, Decaying, RollingName;
    var h := Prices(data, 0, t + 1);
    ColumnDays(k, data, n, t);
    ColumnDays(k, data, t + 1, t);
    assert h[|h| - n..] == Prices(data, t + 1 - n, n);
    NamedValue(k, data, op, Field("close"), n, t);
    EngineOnColumn(k, data, op, n, t);
    ColumnTree(op, n);
    hide Prices;
  }

  lemma ColumnTree(op: RollingOp, n: nat)
    requires RollingName(op).Some? && !Shifts(op)
    ensures Tree(Rolling(op, Feature("close"), n)) == Named(op, Field("close"), IntTree(n))
    ensures RollingName(op).value == "EMA" <==> op.Ema?
  {
    assert Lowered("close") == "close";
    hide IntTree;
  }

  /** The closing prices of `n` days from day `from`. */
  function Prices(data: Data, from: nat, n: nat): (h: seq<real>)
    ensures |h| == n
  {
    seq(n, i requires 0 <= i < n => data("close", from + i))
  }

  lemma ColumnDays(k: Calc, data: Data, n: nat, t: nat)
    requires 1 <= n <= t + 1
    ensures LastDays(k, data, Field("close"), n, t) == Prices(data, t + 1 - n, n)
  {
    var w := LastDays(k, data, Field("close"), n, t);
    forall i | 0 <= i < n ensures w[i] == Prices(data, t + 1 - n, n)[i] {
      assert w[i] == LibraryAt(k, data, Field("close"), t - n + 1 + i);
    }
  }

  lemma EngineOnColumn(k: Calc, data: Data, op: RollingOp, n: nat, t: nat)
    requires n >= 1 && !Shifts(op) && t >= n - 1
    ensures EngineAt(k, data, Rolling(op, Feature("close"), n), t) == EngineWindow(k, op, Prices(data, t + 1 - n, n))
  {
    var w := seq(n, i requires 0 <= i < n => EngineAt(k, data, Feature("close"), t - n + 1 + i));
    assert Lowered("close") == "close";
    forall i | 0 <= i < n ensures w[i] == Prices(data, t + 1 - n, n)[i] {
      assert w[i] == EngineAt(k, data, Feature("close"), t - n + 1 + i);
    }
    assert w == Prices(data, t + 1 - n, n);
    hide EngineWindow;
  }

  lemma NamedValue(k: Calc, data: Data, op: RollingOp, x: Dsl, n: nat, t: nat)
    requires n >= 1 && RollingName(op).Some? && !Shifts(op) && t >= n - 1
    ensures LibraryAt(k, data, Named(op, x, IntTree(n)), t) ==
      if op.Ema? then Average(k, Decaying(Decay(n), t + 1), LastDays(k, data, x, t + 1, t))
      else LibraryWindow(k, RollingName(op).value, LastDays(k, data, x, n, t))
  {
    NamesWindow(op);
    if op.Ema? {
      EmaValue(k, data, x, n, t);
    } else {
      CallWithPeriod(k, data, RollingName(op).value, x, n, t);
    }
    hide LibraryAt, IntTree, LastDays, LibraryWindow, Average, Decaying, Decay, RollingName, Pointwise, Lagged;
  }

  lemma EmaValue(k: Calc, data: Data, x: Dsl, n: nat, t: nat)
    requires n >= 1
    ensures LibraryAt(k, data, Named(Ema, x, IntTree(n)), t) ==
      Average(k, Decaying(Decay(n), t + 1), LastDays(k, data, x, t + 1, t))
  {
    PeriodIs(n);
    hide Period, IntTree, LastDays, Average, Decaying, Decay;
  }

  // ------------------------------------------------------------ the other two

  /** Where both windows vary, the correlations agree too; where one hardly does, the
      engine divides by one instead. */
  lemma CorrelationsAgree(k: Calc, v: seq<real>, w: seq<real>)
    requires |v| == |w| > 0
    requires Total(Deviations(v, v)) >= 0.000001 && Total(Deviations(w, w)) >= 0.000001
    ensures EnginePair(k, Corr, v, w) == LibraryPair(k, PairName(Corr).value, v, w)
  {
  }

  /** The cross-sectional ranks of one day, of distinct values: the engine's are the places
      from 0, the library's the places from 1, both over the number of instruments. */
  function EngineCross(day: seq<real>, i: nat): real
    requires i < |day|
  {
    Below(day, day[i]) as real / Size(day)
  }

  function LibraryCross(day: seq<real>, i: nat): real
    requires i < |day|
  {
    var equal := |day| - Below(day, day[i]) - Above(day, day[i]);
    (Below(day, day[i]) as real + (equal as real + 1.0) / 2.0) / Size(day)
  }

  lemma CrossRanksDiffer(day: seq<real>, i: nat)
    requires i < |day| && forall a, b :: 0 <= a < b < |day| ==> day[a] != day[b]
    ensures LibraryCross(day, i) == EngineCross(day, i) + 1.0 / Size(day) != EngineCross(day, i)
  {
    OnlyItself(day, i, |day|);
    assert day[..|day|] == day;
  }

  lemma {:induction false} OnlyItself(day: seq<real>, i: nat, m: nat)
    requires i < |day| && m <= |day| && forall a, b :: 0 <= a < b < |day| ==> day[a] != day[b]
    ensures Below(day[..m], day[i]) + Above(day[..m], day[i]) == if i < m then m - 1 else m
  {
    if m > 0 {
      OnlyItself(day, i, m - 1);
      assert day[..m][..m - 1] == day[..m - 1];
    }
  }
}
