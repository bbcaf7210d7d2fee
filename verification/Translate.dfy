/** The expression-to-DSL printer (alphapilot/modules/alphaforge/translate.py): its
    text, the reader of the grammar it emits, and the meaning it keeps. */
module Translate {
  import opened Wrappers

  // ------------------------------------------------------------ expressions

  datatype UnaryOp = Abs | Sign | Log | Inv | CSRank | SLog1p | OtherUnary(name: string)
  datatype BinaryOp = Add | Sub | Mul | Div | Pow | Greater | Less | OtherBinary(name: string)
  datatype RollingOp =
    | Ref | Mean | Sum | Std | Var | Max | Min | Med | Mad | Rank | Delta | PctChange | Wma | Ema
    | RatioToRef | Ir | MaxDiff | MinDiff | MinMaxDiff | OtherRolling(name: string)
  datatype PairOp = Cov | Corr | OtherPair(name: string)

  /** A finite constant: a whole number, or a sign and the shortest decimal text of
      the magnitude. */
  datatype Const = Whole(n: int) | Decimal(negative: bool, text: string)

  datatype Expr =
    | Feature(name: string)
    | Constant(value: Const)
    | Unary(uop: UnaryOp, x: Expr)
    | Binary(bop: BinaryOp, lhs: Expr, rhs: Expr)
    | Rolling(rop: RollingOp, x: Expr, dt: int)
    | Pair(pop: PairOp, lhs: Expr, rhs: Expr, dt: int)
    | Other(kind: string)

  // ------------------------------------------------------------ characters

  predicate Digit(c: char) { '0' <= c <= '9' }

  predicate Upper(c: char) { 'A' <= c <= 'Z' }

  predicate NameChar(c: char) { Upper(c) || 'a' <= c <= 'z' || Digit(c) || c == '_' }

  predicate Operator(c: char) { c == '+' || c == '-' || c == '*' || c == '/' }

  /** A minus sign belongs to a number only as the sign of its exponent. */
  predicate NumberChar(s: string, i: nat)
    requires i < |s|
  {
    Digit(s[i]) || s[i] == '.' || s[i] == 'e' || (s[i] == '-' && i > 0 && s[i - 1] == 'e')
  }

  predicate IsNumber(t: string) {
    t != "" && Digit(t[0]) && Digit(t[|t| - 1]) && forall i :: 0 <= i < |t| ==> NumberChar(t, i)
  }

  predicate IsName(t: string) {
    t != "" && forall i :: 0 <= i < |t| ==> NameChar(t[i])
  }

  function Lower(c: char): char {
    if Upper(c) then (c as int + 32) as char else c
  }

  function Lowered(s: string): (r: string)
    ensures |r| == |s| && forall i :: 0 <= i < |s| ==>
      r[i] == Lower(s[i]) && if 'A' <= s[i] <= 'Z' then r[i] - 'a' == s[i] - 'A' else r[i] == s[i]
  {
    seq(|s|, i requires 0 <= i < |s| => Lower(s[i]))
  }

  /** `str` of a natural number. */
  function Digits(n: nat): (t: string)
    ensures t != "" && forall i :: 0 <= i < |t| ==> Digit(t[i])
  {
    (if n < 10 then "" else Digits(n / 10)) + [(n % 10 + '0' as int) as char]
  }

  function NumberOf(t: string): nat
    requires forall i :: 0 <= i < |t| ==> Digit(t[i])
  {
    if t == "" then 0 else assert Digit(t[|t| - 1]); NumberOf(t[..|t| - 1]) * 10 + (t[|t| - 1] as int - '0' as int)
  }

  lemma {:induction false} DigitsReadBack(n: nat)
    ensures NumberOf(Digits(n)) == n
  {
    var t := Digits(n);
    if n >= 10 {
      DigitsReadBack(n / 10);
      assert t[..|t| - 1] == Digits(n / 10);
    } else {
      assert t[..|t| - 1] == "";
    }
  }

  function Int(n: int): string {
    if n < 0 then "-" + Digits(-n) else Digits(n)
  }

  // ------------------------------------------------------------ the printer

  function UnaryName(op: UnaryOp): Option<string> {
    match op
    case Abs => Some("ABS")
    case Sign => Some("SIGN")
    case Log => Some("LOG")
    case Inv => Some("INV")
    case CSRank => Some("RANK")
    case _ => None
  }

  function InfixOf(op: BinaryOp): Option<char> {
    match op
    case Add => Some('+')
    case Sub => Some('-')
    case Mul => Some('*')
    case Div => Some('/')
    case _ => None
  }

  function BinaryName(op: BinaryOp): Option<string> {
    match op
    case Pow => Some("POW")
    case Greater => Some("MAX")
    case Less => Some("MIN")
    case _ => None
  }

  function RollingName(op: RollingOp): Option<string> {
    match op
    case Ref => Some("DELAY")
    case Mean => Some("TS_MEAN")
    case Sum => Some("TS_SUM")
    case Std => Some("TS_STD")
    case Var => Some("TS_VAR")
    case Max => Some("TS_MAX")
    case Min => Some("TS_MIN")
    case Med => Some("TS_MEDIAN")
    case Mad => Some("TS_MAD")
    case Rank => Some("TS_RANK")
    case Delta => Some("DELTA")
    case PctChange => Some("TS_PCTCHANGE")
    case Wma => Some("WMA")
    case Ema => Some("EMA")
    case _ => None
  }

  function PairName(op: PairOp): Option<string> {
    match op
    case Cov => Some("TS_COVARIANCE")
    case Corr => Some("TS_CORR")
    case _ => None
  }

  /** `_fmt_const`: a negative constant is parenthesised. */
  function FormatConst(c: Const): string {
    match c
    case Whole(n) => if n < 0 then "(" + Int(n) + ")" else Int(n)
    case Decimal(negative, text) => if negative then "(-" + text + ")" else text
  }

  /** The text of a rolling operator over the operand text `x` and window `dt`. */
  function RollingText(op: RollingOp, x: string, dt: string): Option<string> {
    if RollingName(op).Some? then Some(RollingName(op).value + "(" + x + "," + dt + ")")
    else match op
         case RatioToRef => Some("DIVIDE(" + x + ",DELAY(" + x + "," + dt + "))")
         case Ir => Some("DIVIDE(TS_MEAN(" + x + "," + dt + "),TS_STD(" + x + "," + dt + "))")
         case MaxDiff => Some("(" + x + "-TS_MAX(" + x + "," + dt + "))")
         case MinDiff => Some("(" + x + "-TS_MIN(" + x + "," + dt + "))")
         case MinMaxDiff => Some("(TS_MAX(" + x + "," + dt + ")-TS_MIN(" + x + "," + dt + "))")
         case _ => None
  }

  /** `translate`; None stands for UntranslatableError. */
  function Translated(e: Expr): Option<string> {
    match e
    case Feature(name) => Some("$" + Lowered(name))
    case Constant(c) => Some(FormatConst(c))
    case Unary(op, operand) =>
      var x := Translated(operand);
      if x.None? then None
      else if UnaryName(op).Some? then Some(UnaryName(op).value + "(" + x.value + ")")
      else if op.SLog1p? then Some("MULTIPLY(SIGN(" + x.value + "),LOG(ADD(ABS(" + x.value + "),1)))")
      else None
    case Binary(op, l, r) =>
      var lhs, rhs := Translated(l), Translated(r);
      if lhs.None? || rhs.None? then None
      else if InfixOf(op).Some? then Some("(" + lhs.value + [InfixOf(op).value] + rhs.value + ")")
      else if BinaryName(op).Some? then Some(BinaryName(op).value + "(" + lhs.value + "," + rhs.value + ")")
      else None
    case Rolling(op, operand, dt) =>
      var x := Translated(operand);
      if x.None? then None else RollingText(op, x.value, Int(dt))
    case Pair(op, l, r, dt) =>
      var lhs, rhs := Translated(l), Translated(r);
      if lhs.None? || rhs.None? || PairName(op).None? then None
      else Some(PairName(op).value + "(" + lhs.value + "," + rhs.value + "," + Int(dt) + ")")
    case Other(_) => None
  }

  /** Every node is in the supported set. */
  predicate Supported(e: Expr) {
    match e
    case Feature(_) => true
    case Constant(_) => true
    case Unary(op, x) => !op.OtherUnary? && Supported(x)
    case Binary(op, l, r) => !op.OtherBinary? && Supported(l) && Supported(r)
    case Rolling(op, x, _) => !op.OtherRolling? && Supported(x)
    case Pair(op, l, r, _) => !op.OtherPair? && Supported(l) && Supported(r)
    case Other(_) => false
  }

  /** Names and decimal texts as the engine makes them. */
  predicate Proper(e: Expr) {
    match e
    case Feature(name) => IsName(name)
    case Constant(Whole(_)) => true
    case Constant(Decimal(_, text)) => IsNumber(text)
    case Unary(_, x) => Proper(x)
    case Binary(_, l, r) => Proper(l) && Proper(r)
    case Rolling(_, x, _) => Proper(x)
    case Pair(_, l, r, _) => Proper(l) && Proper(r)
    case Other(_) => true
  }

  // ------------------------------------------------------------ the DSL

  /** A DSL tree.  `Window` is a bare negative number, legal only as an argument. */
  datatype Dsl =
    | Field(name: string)
    | Number(text: string)
    | Minus(text: string)
    | Window(text: string)
    | Call(name: string, args: Args)
    | Infix(op: char, left: Dsl, right: Dsl)

  datatype Args = Last(arg: Dsl) | More(arg: Dsl, rest: Args)

  /** The trees of the emitted grammar; `inArgs` where a bare window may stand. */
  predicate Good(d: Dsl, inArgs: bool) {
    match d
    case Field(name) => IsName(name)
    case Number(text) => IsNumber(text)
    case Minus(text) => IsNumber(text)
    case Window(text) => inArgs && IsNumber(text)
    case Call(name, args) => IsName(name) && Upper(name[0]) && GoodArgs(args)
    case Infix(op, l, r) => Operator(op) && Good(l, false) && Good(r, false)
  }

  predicate GoodArgs(args: Args) {
    Good(args.arg, true) && (args.More? ==> GoodArgs(args.rest))
  }

  function Show(d: Dsl): string {
    match d
    case Field(name) => "$" + name
    case Number(text) => text
    case Minus(text) => "(-" + text + ")"
    case Window(text) => "-" + text
    case Call(name, args) => name + "(" + ShowArgs(args)
    case Infix(op, l, r) => "(" + Show(l) + [op] + Show(r) + ")"
  }

  /** The arguments with their closing parenthesis. */
  function ShowArgs(args: Args): string {
    match args
    case Last(a) => Show(a) + ")"
    case More(a, rest) => Show(a) + "," + ShowArgs(rest)
  }

  // ------------------------------------------------------------ the reader

  function NumberEnd(s: string, i: nat): (k: nat)
    requires i <= |s|
    ensures i <= k <= |s|
    decreases |s| - i
  {
    if i < |s| && NumberChar(s, i) then NumberEnd(s, i + 1) else i
  }

  function NameEnd(s: string, i: nat): (k: nat)
    requires i <= |s|
    ensures i <= k <= |s|
    decreases |s| - i
  {
    if i < |s| && NameChar(s[i]) then NameEnd(s, i + 1) else i
  }

  datatype Read<+T> = Nothing | Got(tree: T, rest: string)

  function ReadNumber(s: string): (r: Read<string>)
    ensures r.Got? ==> |r.rest| < |s|
  {
    var k := NumberEnd(s, 0);
    if k > 0 && IsNumber(s[..k]) then Got(s[..k], s[k..]) else Nothing
  }

  function ReadName(s: string): (r: Read<string>)
    ensures r.Got? ==> |r.rest| < |s| && r.tree != ""
  {
    var k := NameEnd(s, 0);
    if k > 0 then Got(s[..k], s[k..]) else Nothing
  }

  function ReadDsl(s: string): (r: Read<Dsl>)
    ensures r.Got? ==> |r.rest| < |s|
    decreases |s|, 0
  {
    if s == "" then Nothing
    else if s[0] == '$' then
      match ReadName(s[1..]) {
        case Nothing => Nothing
        case Got(name, rest) => Got(Field(name), rest)
      }
    else if Digit(s[0]) then
      match ReadNumber(s) {
        case Nothing => Nothing
        case Got(text, rest) => Got(Number(text), rest)
      }
    else if Upper(s[0]) then
      match ReadName(s) {
        case Nothing => Nothing
        case Got(name, rest) =>
          if rest == "" || rest[0] != '(' then Nothing
          else match ReadArgs(rest[1..]) {
                 case Nothing => Nothing
                 case Got(args, after) => Got(Call(name, args), after)
               }
      }
    else if s[0] != '(' then Nothing
    else if |s| > 1 && s[1] == '-' then
      match ReadNumber(s[2..]) {
        case Nothing => Nothing
        case Got(text, rest) => if rest == "" || rest[0] != ')' then Nothing else Got(Minus(text), rest[1..])
      }
    else ReadInfix(s[1..])
  }

  function ReadInfix(s: string): (r: Read<Dsl>)
    ensures r.Got? ==> |r.rest| < |s|
    decreases |s|, 2
  {
    match ReadDsl(s) {
      case Nothing => Nothing
      case Got(l, rest) =>
        if rest == "" || !Operator(rest[0]) then Nothing
        else match ReadDsl(rest[1..]) {
               case Nothing => Nothing
               case Got(r, after) =>
                 if after == "" || after[0] != ')' then Nothing else Got(Infix(rest[0], l, r), after[1..])
             }
    }
  }

  function ReadArg(s: string): (r: Read<Dsl>)
    ensures r.Got? ==> |r.rest| < |s|
    decreases |s|, 1
  {
    if s != "" && s[0] == '-' then
      match ReadNumber(s[1..]) {
        case Nothing => Nothing
        case Got(text, rest) => Got(Window(text), rest)
      }
    else ReadDsl(s)
  }

  function ReadArgs(s: string): (r: Read<Args>)
    ensures r.Got? ==> |r.rest| < |s|
    decreases |s|, 2
  {
    match ReadArg(s) {
      case Nothing => Nothing
      case Got(a, rest) =>
        if rest == "" then Nothing
        else if rest[0] == ')' then Got(Last(a), rest[1..])
        else if rest[0] != ',' then Nothing
        else match ReadArgs(rest[1..]) {
               case Nothing => Nothing
               case Got(more, after) => Got(More(a, more), after)
             }
    }
  }

  // ------------------------------------------------------------ one tree per text

  /** What may follow a tree: the end, a comma, a parenthesis or an operator. */
  predicate Stops(rest: string) {
    rest == "" || rest[0] == ',' || rest[0] == ')' || Operator(rest[0])
  }

  lemma {:induction false} NumberEnds(t: string, rest: string, i: nat)
    requires IsNumber(t) && Stops(rest) && i <= |t|
    ensures NumberEnd(t + rest, i) == |t|
    decreases |t| - i
  {
    var s := t + rest;
    if i < |t| {
      assert NumberChar(t, i);
      assert s[i] == t[i] && (i > 0 ==> s[i - 1] == t[i - 1]);
      NumberEnds(t, rest, i + 1);
    } else {
      assert s[i - 1] == t[i - 1] && (rest != "" ==> s[i] == rest[0]);
    }
  }

  lemma {:induction false} NameEnds(t: string, rest: string, i: nat)
    requires IsName(t) && (rest == "" || !NameChar(rest[0])) && i <= |t|
    ensures NameEnd(t + rest, i) == |t|
    decreases |t| - i
  {
    var s := t + rest;
    if i < |t| {
      assert s[i] == t[i];
      NameEnds(t, rest, i + 1);
    } else {
      assert rest != "" ==> s[i] == rest[0];
    }
  }

  lemma NumberReads(t: string, rest: string)
    requires IsNumber(t) && Stops(rest)
    ensures ReadNumber(t + rest) == Got(t, rest)
  {
    NumberEnds(t, rest, 0);
    assert (t + rest)[..|t|] == t && (t + rest)[|t|..] == rest;
  }

  lemma NameReads(t: string, rest: string)
    requires IsName(t) && (rest == "" || !NameChar(rest[0]))
    ensures ReadName(t + rest) == Got(t, rest)
  {
    NameEnds(t, rest, 0);
    assert (t + rest)[..|t|] == t && (t + rest)[|t|..] == rest;
  }

  /** A tree outside an argument list never starts with an operator. */
  lemma FirstChar(d: Dsl)
    requires Good(d, false)
    ensures Show(d) != "" && (Show(d)[0] == '$' || Digit(Show(d)[0]) || Upper(Show(d)[0]) || Show(d)[0] == '(')
  {
  }

  /** Whatever tree was printed, the reader gets that tree and stops where it ends. */
  lemma {:induction false} ReadsBack(d: Dsl, rest: string)
    requires Good(d, false) && Stops(rest)
    ensures ReadDsl(Show(d) + rest) == Got(d, rest)
    decreases d, 1
  {
    match d
    case Call(_, _) => CallReadsBack(d, rest);
    case Infix(op, l, r) =>
      hide ReadInfix, IsName, IsNumber;
      var s := Show(d) + rest;
      FirstChar(l);
      assert s[1..] == Show(l) + ([op] + Show(r) + ")" + rest);
      assert s[1] == Show(l)[0];
      InfixReadsBack(d, rest);
    case _ => LeafReadsBack(d, rest);
  }

  lemma LeafReadsBack(d: Dsl, rest: string)
    requires (d.Field? || d.Number? || d.Minus?) && Good(d, false) && Stops(rest)
    ensures ReadDsl(Show(d) + rest) == Got(d, rest)
  {
    hide ReadNumber, ReadName, IsName, IsNumber;
    var s := Show(d) + rest;
    match d
    case Field(name) =>
      NameReads(name, rest);
      assert s[1..] == name + rest;
    case Number(text) =>
      NumberReads(text, rest);
      NumberStart(text);
    case Minus(text) =>
      NumberReads(text, ")" + rest);
      assert s[2..] == text + (")" + rest);
      assert (")" + rest)[1..] == rest;
  }

  lemma {:induction false} CallReadsBack(d: Dsl, rest: string)
    requires d.Call? && Good(d, false)
    ensures ReadDsl(Show(d) + rest) == Got(d, rest)
    decreases d, 0
  {
    hide ReadNumber, ReadName, IsName, IsNumber, GoodArgs, ReadArgs, ReadInfix;
    var s, tail := Show(d) + rest, "(" + ShowArgs(d.args) + rest;
    assert s == d.name + tail;
    NameReads(d.name, tail);
    NameStart(d.name);
    assert tail[1..] == ShowArgs(d.args) + rest;
    ArgsReadBack(d.args, rest);
  }

  lemma NumberStart(t: string)
    requires IsNumber(t)
    ensures t != "" && Digit(t[0])
  {
  }

  lemma NameStart(t: string)
    requires IsName(t)
    ensures t != ""
  {
  }

  lemma {:induction false} InfixReadsBack(d: Dsl, rest: string)
    requires d.Infix? && Good(d.left, false) && Good(d.right, false) && Operator(d.op)
    ensures ReadInfix(Show(d.left) + ([d.op] + Show(d.right) + ")" + rest)) == Got(d, rest)
    decreases d, 0
  {
    hide Show, Good, ReadDsl;
    var tail := [d.op] + Show(d.right) + ")" + rest;
    ReadsBack(d.left, tail);
    assert tail[1..] == Show(d.right) + (")" + rest);
    ReadsBack(d.right, ")" + rest);
    assert (")" + rest)[1..] == rest;
  }

  lemma {:induction false} ArgsReadBack(args: Args, rest: string)
    requires GoodArgs(args)
    ensures ReadArgs(ShowArgs(args) + rest) == Got(args, rest)
    decreases args, 0
  {
    hide Show, Good, ReadDsl, ReadArg;
    match args
    case Last(a) =>
      ArgReadsBack(a, ")" + rest);
      assert ShowArgs(args) + rest == Show(a) + (")" + rest);
      assert (")" + rest)[1..] == rest;
    case More(a, more) =>
      var tail := "," + (ShowArgs(more) + rest);
      ArgReadsBack(a, tail);
      assert ShowArgs(args) + rest == Show(a) + tail;
      assert tail[1..] == ShowArgs(more) + rest;
      ArgsReadBack(more, rest);
  }

  lemma {:induction false} ArgReadsBack(d: Dsl, rest: string)
    requires Good(d, true) && Stops(rest)
    ensures ReadArg(Show(d) + rest) == Got(d, rest)
    decreases d, 2
  {
    if d.Window? {
      NumberReads(d.text, rest);
      assert (Show(d) + rest)[1..] == d.text + rest;
    } else {
      FirstChar(d);
      ReadsBack(d, rest);
    }
  }

  /** The reader accepts nothing else: what it reads is a good tree, and the text it
      read is that tree's own text. */
  lemma {:induction false} ReadIsShown(s: string)
    ensures var r := ReadDsl(s); r.Got? ==> Good(r.tree, false) && s == Show(r.tree) + r.rest
    decreases |s|, 0
  {
    hide ReadNumber, ReadName, IsNumber, IsName;
    var r := ReadDsl(s);
    if r.Got? {
      if s[0] == '$' {
        NameIsRead(s[1..]);
      } else if Digit(s[0]) {
        NumberIsRead(s);
      } else if Upper(s[0]) {
        NameIsRead(s);
        var rest := ReadName(s).rest;
        ArgsAreShown(rest[1..]);
      } else if s[1] == '-' {
        NumberIsRead(s[2..]);
      } else {
        InfixIsShown(s[1..]);
      }
    }
  }

  lemma {:induction false} NameIsRead(s: string)
    ensures var r := ReadName(s); r.Got? ==> IsName(r.tree) && s == r.tree + r.rest
  {
    NameSpan(s, 0);
  }

  lemma {:induction false} NameSpan(s: string, i: nat)
    requires i <= |s|
    ensures forall j :: i <= j < NameEnd(s, i) ==> NameChar(s[j])
    decreases |s| - i
  {
    if i < |s| && NameChar(s[i]) { NameSpan(s, i + 1); }
  }

  lemma NumberIsRead(s: string)
    ensures var r := ReadNumber(s); r.Got? ==> IsNumber(r.tree) && s == r.tree + r.rest
  {
  }

  lemma {:induction false} InfixIsShown(s: string)
    ensures var r := ReadInfix(s); r.Got? ==> r.tree.Infix? && Good(r.tree, false) && "(" + s == Show(r.tree) + r.rest
    decreases |s|, 2
  {
    hide ReadDsl;
    ReadIsShown(s);
    if ReadInfix(s).Got? {
      var first := ReadDsl(s);
      ReadIsShown(first.rest[1..]);
      var second := ReadDsl(first.rest[1..]);
      hide ReadInfix, Good, Show;
      InfixText(s, first.tree, first.rest, second.tree, second.rest);
    }
  }

  lemma InfixText(s: string, l: Dsl, middle: string, r: Dsl, after: string)
    requires s == Show(l) + middle && middle != "" && middle[1..] == Show(r) + after && after != "" && after[0] == ')'
    ensures "(" + s == Show(Infix(middle[0], l, r)) + after[1..]
  {
    var a, m, b, tail := Show(l), [middle[0]], Show(r), after[1..];
    assert after == ")" + tail;
    assert middle == m + (b + after);
    Regroup("(", a, m + (b + after));
    Regroup("(" + a, m, b + after);
    Regroup("(" + a + m, b, after);
    Regroup("(" + a + m + b, ")", tail);
  }

  lemma Regroup(a: string, b: string, c: string)
    ensures a + (b + c) == (a + b) + c
  {
  }

  lemma {:induction false} ArgIsShown(s: string)
    ensures var r := ReadArg(s); r.Got? ==> Good(r.tree, true) && s == Show(r.tree) + r.rest
    decreases |s|, 1
  {
    hide ReadDsl, ReadNumber, IsNumber;
    if s != "" && s[0] == '-' { NumberIsRead(s[1..]); } else {
      ReadIsShown(s);
      if ReadDsl(s).Got? { GoodAnywhere(ReadDsl(s).tree); }
    }
  }

  lemma GoodAnywhere(d: Dsl)
    requires Good(d, false)
    ensures Good(d, true)
  {
  }

  lemma {:induction false} ArgsAreShown(s: string)
    ensures var r := ReadArgs(s); r.Got? ==> GoodArgs(r.tree) && s == ShowArgs(r.tree) + r.rest
    decreases |s|, 2
  {
    hide ReadArg;
    ArgIsShown(s);
    var r := ReadArgs(s);
    if r.Got? {
      var rest := ReadArg(s).rest;
      if rest[0] == ',' { ArgsAreShown(rest[1..]); }
    }
  }

  // ------------------------------------------------------------ no two operators meet

  predicate Apart(s: string) {
    forall i :: 0 <= i < |s| - 1 ==> !(Operator(s[i]) && Operator(s[i + 1]))
  }

  /** Safe next to an operator on the right, and unless it is a bare window on the left. */
  predicate Calm(s: string, inArgs: bool) {
    s != "" && Apart(s) && !Operator(s[|s| - 1]) && (inArgs || !Operator(s[0]))
  }

  lemma ApartJoin(a: string, b: string)
    requires Apart(a) && Apart(b) && (a == "" || b == "" || !(Operator(a[|a| - 1]) && Operator(b[0])))
    ensures Apart(a + b)
  {
  }

  lemma NumberApart(t: string)
    requires IsNumber(t)
    ensures Calm(t, false)
  {
    forall i | 0 <= i < |t| - 1 ensures !(Operator(t[i]) && Operator(t[i + 1])) {
      assert NumberChar(t, i) && NumberChar(t, i + 1);
    }
  }

  lemma NameApart(t: string)
    requires IsName(t)
    ensures Calm(t, false)
  {
  }

  lemma {:induction false} ShowApart(d: Dsl, inArgs: bool)
    requires Good(d, inArgs)
    ensures Calm(Show(d), inArgs)
    decreases d
  {
    hide IsNumber, IsName, Apart;
    match d
    case Field(name) => NameApart(name); ApartJoin1("$", name);
    case Number(text) => NumberApart(text);
    case Minus(text) => NumberApart(text); ApartJoin1("(", "-"); ApartJoin("(-", text); ApartJoin1("(-" + text, ")");
    case Window(text) => NumberApart(text); ApartJoin1("-", text);
    case Call(name, args) =>
      NameApart(name);
      ArgsApart(args);
      ApartJoin1(name, "(");
      ApartJoin(name + "(", ShowArgs(args));
    case Infix(op, l, r) =>
      ShowApart(l, false);
      ShowApart(r, false);
      ApartJoin1("(", Show(l));
      ApartJoin1("(" + Show(l), [op]);
      ApartJoin("(" + Show(l) + [op], Show(r));
      ApartJoin1("(" + Show(l) + [op] + Show(r), ")");
  }

  /** Joining a single character. */
  lemma ApartJoin1(a: string, b: string)
    requires |a| == 1 || |b| == 1
    requires (|a| == 1 || Apart(a)) && (|b| == 1 || Apart(b))
    requires a == "" || b == "" || !(Operator(a[|a| - 1]) && Operator(b[0]))
    ensures Apart(a + b)
  {
  }

  lemma {:induction false} ArgsApart(args: Args)
    requires GoodArgs(args)
    ensures Calm(ShowArgs(args), true)
    decreases args
  {
    hide Apart;
    ShowApart(args.arg, true);
    match args
    case Last(a) => ApartJoin1(Show(a), ")");
    case More(a, rest) =>
      ArgsApart(rest);
      ApartJoin1(Show(a), ",");
      ApartJoin(Show(a) + ",", ShowArgs(rest));
  }

  // ------------------------------------------------------------ from expression to tree

  function Arg1(a: Dsl): Args { Last(a) }

  function Arg2(a: Dsl, b: Dsl): Args { More(a, Last(b)) }

  function IntTree(n: int): Dsl {
    if n < 0 then Window(Digits(-n)) else Number(Digits(n))
  }

  function ConstTree(c: Const): Dsl {
    match c
    case Whole(n) => if n < 0 then Minus(Digits(-n)) else Number(Digits(n))
    case Decimal(negative, text) => if negative then Minus(text) else Number(text)
  }

  /** The DSL tree an expression stands for. */
  function Tree(e: Expr): Dsl
    requires Supported(e)
  {
    match e
    case Feature(name) => Field(Lowered(name))
    case Constant(c) => ConstTree(c)
    case Unary(op, x) =>
      if op.SLog1p? then LogTree(Tree(x)) else Call(UnaryName(op).value, Arg1(Tree(x)))
    case Binary(op, l, r) =>
      if InfixOf(op).Some? then Infix(InfixOf(op).value, Tree(l), Tree(r))
      else Call(BinaryName(op).value, Arg2(Tree(l), Tree(r)))
    case Rolling(op, x, dt) => RollingTree(op, Tree(x), IntTree(dt))
    case Pair(op, l, r, dt) => Call(PairName(op).value, More(Tree(l), Arg2(Tree(r), IntTree(dt))))
  }

  function LogTree(x: Dsl): Dsl {
    var grown := Call("ADD", Arg2(Call("ABS", Arg1(x)), Number("1")));
    Call("MULTIPLY", Arg2(Call("SIGN", Arg1(x)), Call("LOG", Arg1(grown))))
  }

  function RollingTree(op: RollingOp, x: Dsl, dt: Dsl): Dsl
    requires !op.OtherRolling?
  {
    if RollingName(op).Some? then Call(RollingName(op).value, Arg2(x, dt))
    else match op
         case RatioToRef => Call("DIVIDE", Arg2(x, Call("DELAY", Arg2(x, dt))))
         case Ir => Call("DIVIDE", Arg2(Call("TS_MEAN", Arg2(x, dt)), Call("TS_STD", Arg2(x, dt))))
         case MaxDiff => Infix('-', x, Call("TS_MAX", Arg2(x, dt)))
         case MinDiff => Infix('-', x, Call("TS_MIN", Arg2(x, dt)))
         case MinMaxDiff => Infix('-', Call("TS_MAX", Arg2(x, dt)), Call("TS_MIN", Arg2(x, dt)))
  }

  lemma DigitsAreNumber(n: nat)
    ensures IsNumber(Digits(n))
  {
  }

  lemma IntShows(n: int)
    ensures Good(IntTree(n), true) && Show(IntTree(n)) == Int(n)
  {
  }

  lemma ConstShows(c: Const)
    requires Proper(Constant(c))
    ensures Good(ConstTree(c), false) && Show(ConstTree(c)) == FormatConst(c)
  {
    hide IsNumber;
    if c.Whole? {
      DigitsAreNumber(if c.n < 0 then -c.n else c.n);
      assert c.n < 0 ==> "(" + Int(c.n) + ")" == "(-" + Digits(-c.n) + ")";
    }
  }

  /** The text of an expression is the text of its tree, and the tree is a good one. */
  lemma {:induction false} TextIsTree(e: Expr)
    requires Supported(e) && Proper(e)
    ensures Good(Tree(e), false) && Translated(e) == Some(Show(Tree(e)))
  {
    hide IsName, IsNumber, Good, Show;
    match e
    case Feature(name) => FieldShows(name);
    case Constant(c) => ConstShows(c);
    case Unary(op, x) =>
      TextIsTree(x);
      if op.SLog1p? { LogShows(Tree(x)); } else { UnaryShows(op, Tree(x)); }
    case Binary(op, l, r) =>
      TextIsTree(l);
      TextIsTree(r);
      BinaryShows(op, Tree(l), Tree(r));
    case Rolling(op, x, dt) =>
      TextIsTree(x);
      RollingShows(op, Tree(x), dt);
    case Pair(op, l, r, dt) =>
      TextIsTree(l);
      TextIsTree(r);
      PairShows(op, Tree(l), Tree(r), dt);
  }

  lemma FieldShows(name: string)
    requires IsName(name)
    ensures Good(Field(Lowered(name)), false) && Show(Field(Lowered(name))) == "$" + Lowered(name)
  {
  }

  lemma Call1Shows(f: string, x: Dsl)
    requires IsName(f) && Upper(f[0]) && Good(x, true)
    ensures Good(Call(f, Arg1(x)), false) && Show(Call(f, Arg1(x))) == f + "(" + Show(x) + ")"
  {
  }

  lemma Call2Shows(f: string, x: Dsl, y: Dsl)
    requires IsName(f) && Upper(f[0]) && Good(x, true) && Good(y, true)
    ensures Good(Call(f, Arg2(x, y)), false) && Show(Call(f, Arg2(x, y))) == f + "(" + Show(x) + "," + Show(y) + ")"
  {
    assert ShowArgs(Last(y)) == Show(y) + ")" && GoodArgs(Last(y));
    assert Show(Call(f, Arg2(x, y))) == f + "(" + (Show(x) + "," + (Show(y) + ")"));
  }

  lemma UnaryShows(op: UnaryOp, x: Dsl)
    requires UnaryName(op).Some? && Good(x, false)
    ensures Good(Call(UnaryName(op).value, Arg1(x)), false)
    ensures Show(Call(UnaryName(op).value, Arg1(x))) == UnaryName(op).value + "(" + Show(x) + ")"
  {
  }

  lemma BinaryShows(op: BinaryOp, l: Dsl, r: Dsl)
    requires !op.OtherBinary? && Good(l, false) && Good(r, false)
    ensures InfixOf(op).Some? ==>
      && Good(Infix(InfixOf(op).value, l, r), false)
      && Show(Infix(InfixOf(op).value, l, r)) == "(" + Show(l) + [InfixOf(op).value] + Show(r) + ")"
    ensures InfixOf(op).None? ==> BinaryName(op).Some? && Good(Call(BinaryName(op).value, Arg2(l, r)), false)
    ensures InfixOf(op).None? ==>
      Show(Call(BinaryName(op).value, Arg2(l, r))) == BinaryName(op).value + "(" + Show(l) + "," + Show(r) + ")"
  {
    GoodAnywhere(l);
    GoodAnywhere(r);
    if BinaryName(op).Some? { Call2Shows(BinaryName(op).value, l, r); }
  }

  lemma LogShows(x: Dsl)
    requires Good(x, false)
    ensures Good(LogTree(x), false)
    ensures Show(LogTree(x)) == "MULTIPLY(SIGN(" + Show(x) + "),LOG(ADD(ABS(" + Show(x) + "),1)))"
  {
    GoodAnywhere(x);
    hide Good, Show;
    LogNames();
    var abs := Call("ABS", Arg1(x));
    Call1Shows("ABS", x);
    GoodAnywhere(abs);
    Call2Shows("ADD", abs, Number("1"));
    var add := Call("ADD", Arg2(abs, Number("1")));
    GoodAnywhere(add);
    Call1Shows("LOG", add);
    GoodAnywhere(Call("LOG", Arg1(add)));
    Call1Shows("SIGN", x);
    GoodAnywhere(Call("SIGN", Arg1(x)));
    Call2Shows("MULTIPLY", Call("SIGN", Arg1(x)), Call("LOG", Arg1(add)));
    LogText(Show(x));
  }

  lemma LogNames()
    ensures IsName("ABS") && IsName("ADD") && IsName("LOG") && IsName("SIGN") && IsName("MULTIPLY")
    ensures Good(Number("1"), true) && Show(Number("1")) == "1"
  {
  }

  lemma LogText(x: string)
    ensures
      var add := "ADD" + "(" + ("ABS" + "(" + x + ")") + "," + "1" + ")";
      "MULTIPLY" + "(" + ("SIGN" + "(" + x + ")") + "," + ("LOG" + "(" + add + ")") + ")" ==
      "MULTIPLY(SIGN(" + x + "),LOG(ADD(ABS(" + x + "),1)))"
  {
  }

  lemma RollingIsName(op: RollingOp)
    requires RollingName(op).Some?
    ensures IsName(RollingName(op).value) && Upper(RollingName(op).value[0])
  {
  }

  lemma RollingShows(op: RollingOp, x: Dsl, n: int)
    requires !op.OtherRolling? && Good(x, false)
    ensures Good(RollingTree(op, x, IntTree(n)), false)
    ensures RollingText(op, Show(x), Int(n)) == Some(Show(RollingTree(op, x, IntTree(n))))
  {
    GoodAnywhere(x);
    IntShows(n);
    hide Good, Show, IsName, RollingName, IntTree;
    var dt := IntTree(n);
    if RollingName(op).Some? {
      RollingIsName(op);
      Call2Shows(RollingName(op).value, x, dt);
    } else {
      SplitShows(op, x, dt, Int(n));
    }
  }

  lemma WindowCall(f: string, x: Dsl, dt: Dsl)
    requires IsName(f) && Upper(f[0]) && Good(x, false) && Good(dt, true)
    ensures Good(Call(f, Arg2(x, dt)), false) && Good(Call(f, Arg2(x, dt)), true)
    ensures Show(Call(f, Arg2(x, dt))) == f + "(" + Show(x) + "," + Show(dt) + ")"
  {
    GoodAnywhere(x);
    Call2Shows(f, x, dt);
  }

  lemma MinusShows(l: Dsl, r: Dsl)
    requires Good(l, false) && Good(r, false)
    ensures Good(Infix('-', l, r), false) && Show(Infix('-', l, r)) == "(" + Show(l) + "-" + Show(r) + ")"
  {
  }

  lemma SplitNames()
    ensures IsName("DIVIDE") && IsName("DELAY") && IsName("TS_MEAN") && IsName("TS_STD") && IsName("TS_MAX")
    ensures IsName("TS_MIN")
  {
  }

  /** The rolling operators without a DSL function of their own. */
  lemma SplitShows(op: RollingOp, x: Dsl, dt: Dsl, n: string)
    requires !op.OtherRolling? && RollingName(op).None? && Good(x, false) && Good(dt, true) && Show(dt) == n
    ensures Good(RollingTree(op, x, dt), false) && RollingText(op, Show(x), n) == Some(Show(RollingTree(op, x, dt)))
  {
    SplitNames();
    match op
    case RatioToRef => RatioShows(x, dt, n);
    case Ir => IrShows(x, dt, n);
    case _ => DiffShows(op, x, dt, n);
  }

  lemma RatioShows(x: Dsl, dt: Dsl, n: string)
    requires Good(x, false) && Good(dt, true) && Show(dt) == n
    ensures Good(RollingTree(RatioToRef, x, dt), false)
    ensures RollingText(RatioToRef, Show(x), n) == Some(Show(RollingTree(RatioToRef, x, dt)))
  {
    hide Good, Show, IsName;
    SplitNames();
    WindowCall("DELAY", x, dt);
    WindowCall("DIVIDE", x, Call("DELAY", Arg2(x, dt)));
    RatioText(Show(x), n);
  }

  lemma IrShows(x: Dsl, dt: Dsl, n: string)
    requires Good(x, false) && Good(dt, true) && Show(dt) == n
    ensures Good(RollingTree(Ir, x, dt), false) && RollingText(Ir, Show(x), n) == Some(Show(RollingTree(Ir, x, dt)))
  {
    hide Good, Show, IsName;
    SplitNames();
    WindowCall("TS_MEAN", x, dt);
    WindowCall("TS_STD", x, dt);
    WindowCall("DIVIDE", Call("TS_MEAN", Arg2(x, dt)), Call("TS_STD", Arg2(x, dt)));
    IrText(Show(x), n);
  }

  lemma DiffShows(op: RollingOp, x: Dsl, dt: Dsl, n: string)
    requires (op.MaxDiff? || op.MinDiff? || op.MinMaxDiff?) && Good(x, false) && Good(dt, true) && Show(dt) == n
    ensures Good(RollingTree(op, x, dt), false) && RollingText(op, Show(x), n) == Some(Show(RollingTree(op, x, dt)))
  {
    hide Good, Show, IsName;
    SplitNames();
    WindowCall("TS_MAX", x, dt);
    WindowCall("TS_MIN", x, dt);
    var high, low := Call("TS_MAX", Arg2(x, dt)), Call("TS_MIN", Arg2(x, dt));
    if op.MaxDiff? {
      MinusShows(x, high);
      MaxText(Show(x), n);
    } else if op.MinDiff? {
      MinusShows(x, low);
      MinText(Show(x), n);
    } else {
      MinusShows(high, low);
      MinMaxText(Show(x), n);
    }
  }

  lemma RatioText(x: string, n: string)
    ensures "DIVIDE" + "(" + x + "," + ("DELAY" + "(" + x + "," + n + ")") + ")" ==
      "DIVIDE(" + x + ",DELAY(" + x + "," + n + "))"
  {
  }

  lemma IrText(x: string, n: string)
    ensures "DIVIDE" + "(" + ("TS_MEAN" + "(" + x + "," + n + ")") + "," + ("TS_STD" + "(" + x + "," + n + ")") + ")"
         == "DIVIDE(TS_MEAN(" + x + "," + n + "),TS_STD(" + x + "," + n + "))"
  {
  }

  lemma MaxText(x: string, n: string)
    ensures "(" + x + "-" + ("TS_MAX" + "(" + x + "," + n + ")") + ")" == "(" + x + "-TS_MAX(" + x + "," + n + "))"
  {
  }

  lemma MinText(x: string, n: string)
    ensures "(" + x + "-" + ("TS_MIN" + "(" + x + "," + n + ")") + ")" == "(" + x + "-TS_MIN(" + x + "," + n + "))"
  {
  }

  lemma MinMaxText(x: string, n: string)
    ensures "(" + ("TS_MAX" + "(" + x + "," + n + ")") + "-" + ("TS_MIN" + "(" + x + "," + n + ")") + ")"
         == "(TS_MAX(" + x + "," + n + ")-TS_MIN(" + x + "," + n + "))"
  {
  }

  lemma PairIsName(op: PairOp)
    requires !op.OtherPair?
    ensures IsName(PairName(op).value) && Upper(PairName(op).value[0])
  {
  }

  lemma Call3Shows(f: string, x: Dsl, y: Dsl, z: Dsl)
    requires IsName(f) && Upper(f[0]) && Good(x, true) && Good(y, true) && Good(z, true)
    ensures Good(Call(f, More(x, Arg2(y, z))), false)
    ensures Show(Call(f, More(x, Arg2(y, z)))) == f + "(" + Show(x) + "," + Show(y) + "," + Show(z) + ")"
  {
    hide IsName, Show, Good;
    CallShows(f, More(x, Arg2(y, z)));
    assert ShowArgs(Last(z)) == Show(z) + ")" && GoodArgs(Last(z));
    assert ShowArgs(Arg2(y, z)) == Show(y) + "," + (Show(z) + ")") && GoodArgs(Arg2(y, z));
    assert ShowArgs(More(x, Arg2(y, z))) == Show(x) + "," + (Show(y) + "," + (Show(z) + ")"));
  }

  lemma CallShows(f: string, args: Args)
    requires IsName(f) && Upper(f[0])
    ensures Show(Call(f, args)) == f + "(" + ShowArgs(args) && (Good(Call(f, args), false) <==> GoodArgs(args))
  {
  }

  lemma PairShows(op: PairOp, l: Dsl, r: Dsl, n: int)
    requires !op.OtherPair? && Good(l, false) && Good(r, false)
    ensures Good(Call(PairName(op).value, More(l, Arg2(r, IntTree(n)))), false)
    ensures Show(Call(PairName(op).value, More(l, Arg2(r, IntTree(n))))) ==
      PairName(op).value + "(" + Show(l) + "," + Show(r) + "," + Int(n) + ")"
  {
    GoodAnywhere(l);
    GoodAnywhere(r);
    IntShows(n);
    hide Good, Show, IsName, IntTree, PairName;
    PairIsName(op);
    Call3Shows(PairName(op).value, l, r, IntTree(n));
  }

  // ------------------------------------------------------------ main results

  /** Translation succeeds exactly on the supported set. */
  lemma {:induction false} SucceedsIffSupported(e: Expr)
    ensures Translated(e).Some? <==> Supported(e)
  {
    match e
    case Unary(_, x) => SucceedsIffSupported(x);
    case Binary(_, l, r) => SucceedsIffSupported(l); SucceedsIffSupported(r);
    case Rolling(_, x, _) => SucceedsIffSupported(x);
    case Pair(_, l, r, _) => SucceedsIffSupported(l); SucceedsIffSupported(r);
    case _ =>
  }

  /** The whole text reads as one tree. */
  predicate Reads(text: string, d: Dsl) {
    ReadDsl(text) == Got(d, "")
  }

  /** A text and a good tree determine each other. */
  lemma OneTreePerText(text: string, d: Dsl)
    ensures Reads(text, d) <==> Good(d, false) && text == Show(d)
  {
    if Good(d, false) && text == Show(d) {
      ReadsBack(d, "");
      assert Show(d) + "" == text;
    }
    if Reads(text, d) {
      ReadIsShown(text);
      assert Show(d) + "" == Show(d);
    }
  }

  /** No two operator characters meet, and the reader recovers the expression's tree. */
  lemma TranslationReads(e: Expr)
    requires Supported(e) && Proper(e)
    ensures Translated(e).Some? && Apart(Translated(e).value)
    ensures forall d :: Reads(Translated(e).value, d) <==> d == Tree(e)
  {
    hide Apart, Reads;
    TextIsTree(e);
    ShowApart(Tree(e), false);
    OneTreePerText(Translated(e).value, Tree(e));
    forall d | Reads(Translated(e).value, d) ensures d == Tree(e) { ReadOnce(Translated(e).value, d, Tree(e)); }
  }

  lemma ReadOnce(text: string, a: Dsl, b: Dsl)
    requires Reads(text, a) && Reads(text, b)
    ensures a == b
  {
  }

  // ------------------------------------------------------------ meaning

  /** What the DSL's functions and the engine's operators compute on a value type. */
  datatype Algebra<!V> = Algebra(
    field: string -> V,
    number: string -> V,
    negate: V -> V,
    call: (string, seq<V>) -> V,
    infix: (char, V, V) -> V)

  datatype Engine<!V> = Engine(
    feature: string -> V,
    constant: Const -> V,
    unary: (UnaryOp, V) -> V,
    binary: (BinaryOp, V, V) -> V,
    rolling: (RollingOp, V, int) -> V,
    pair: (PairOp, V, V, int) -> V)

  function Value<V>(a: Algebra<V>, d: Dsl): V {
    match d
    case Field(name) => a.field(name)
    case Number(text) => a.number(text)
    case Minus(text) => a.negate(a.number(text))
    case Window(text) => a.negate(a.number(text))
    case Call(name, args) => a.call(name, Values(a, args))
    case Infix(op, l, r) => a.infix(op, Value(a, l), Value(a, r))
  }

  function Values<V>(a: Algebra<V>, args: Args): seq<V> {
    [Value(a, args.arg)] + if args.More? then Values(a, args.rest) else []
  }

  function Meaning<V>(g: Engine<V>, e: Expr): V
    requires Supported(e)
  {
    match e
    case Feature(name) => g.feature(name)
    case Constant(c) => g.constant(c)
    case Unary(op, x) => g.unary(op, Meaning(g, x))
    case Binary(op, l, r) => g.binary(op, Meaning(g, l), Meaning(g, r))
    case Rolling(op, x, dt) => g.rolling(op, Meaning(g, x), dt)
    case Pair(op, l, r, dt) => g.pair(op, Meaning(g, l), Meaning(g, r), dt)
  }

  function WholeValue<V>(a: Algebra<V>, n: int): V {
    if n < 0 then a.negate(a.number(Digits(-n))) else a.number(Digits(n))
  }

  /** The sign times the logarithm of one plus the magnitude. */
  function LogValue<V>(a: Algebra<V>, v: V): V {
    var grown := a.call("ADD", [a.call("ABS", [v]), a.number("1")]);
    a.call("MULTIPLY", [a.call("SIGN", [v]), a.call("LOG", [grown])])
  }

  /** The two sides agree operator by operator, as the lookup tables claim. */
  ghost predicate Agree<V(!new)>(g: Engine<V>, a: Algebra<V>) {
    && (forall name :: g.feature(name) == a.field(Lowered(name)))
    && (forall n :: g.constant(Whole(n)) == WholeValue(a, n))
    && (forall neg, t :: g.constant(Decimal(neg, t)) == if neg then a.negate(a.number(t)) else a.number(t))
    && (forall op, v :: UnaryName(op).Some? ==> g.unary(op, v) == a.call(UnaryName(op).value, [v]))
    && (forall v :: g.unary(SLog1p, v) == LogValue(a, v))
    && (forall op, v, w :: InfixOf(op).Some? ==> g.binary(op, v, w) == a.infix(InfixOf(op).value, v, w))
    && (forall op, v, w :: BinaryName(op).Some? ==> g.binary(op, v, w) == a.call(BinaryName(op).value, [v, w]))
    && (forall op: RollingOp, v: V, n: int :: !op.OtherRolling? ==>
          g.rolling(op, v, n) == RollingValue(a, op, v, WholeValue(a, n)))
    && (forall op, v, w, n :: PairName(op).Some? ==>
          g.pair(op, v, w, n) == a.call(PairName(op).value, [v, w, WholeValue(a, n)]))
  }

  function RollingValue<V>(a: Algebra<V>, op: RollingOp, v: V, n: V): V
    requires !op.OtherRolling?
  {
    if RollingName(op).Some? then a.call(RollingName(op).value, [v, n])
    else match op
         case RatioToRef => a.call("DIVIDE", [v, a.call("DELAY", [v, n])])
         case Ir => a.call("DIVIDE", [a.call("TS_MEAN", [v, n]), a.call("TS_STD", [v, n])])
         case MaxDiff => a.infix('-', v, a.call("TS_MAX", [v, n]))
         case MinDiff => a.infix('-', v, a.call("TS_MIN", [v, n]))
         case MinMaxDiff => a.infix('-', a.call("TS_MAX", [v, n]), a.call("TS_MIN", [v, n]))
  }

  lemma {:induction false} TreeMeans<V(!new)>(g: Engine<V>, a: Algebra<V>, e: Expr)
    requires Supported(e) && Agree(g, a)
    ensures Value(a, Tree(e)) == Meaning(g, e)
  {
    hide Agree, Value, RollingTree, RollingValue, UnaryName, BinaryName, PairName;
    match e
    case Feature(name) => FieldMeans(g, a, name);
    case Constant(c) => ConstMeans(g, a, c);
    case Unary(op, x) =>
      TreeMeans(g, a, x);
      UnaryMeans(g, a, op, Tree(x));
    case Binary(op, l, r) =>
      TreeMeans(g, a, l);
      TreeMeans(g, a, r);
      BinaryMeans(g, a, op, Tree(l), Tree(r));
    case Rolling(op, x, dt) =>
      TreeMeans(g, a, x);
      RollingMeans(g, a, op, Tree(x), dt);
    case Pair(op, l, r, dt) =>
      TreeMeans(g, a, l);
      TreeMeans(g, a, r);
      PairMeans(g, a, op, Tree(l), Tree(r), dt);
  }

  lemma FieldMeans<V(!new)>(g: Engine<V>, a: Algebra<V>, name: string)
    requires Agree(g, a)
    ensures g.feature(name) == Value(a, Field(Lowered(name)))
  {
  }

  lemma ConstMeans<V(!new)>(g: Engine<V>, a: Algebra<V>, c: Const)
    requires Agree(g, a)
    ensures g.constant(c) == Value(a, ConstTree(c))
  {
  }

  lemma UnaryMeans<V(!new)>(g: Engine<V>, a: Algebra<V>, op: UnaryOp, x: Dsl)
    requires Agree(g, a) && !op.OtherUnary?
    ensures g.unary(op, Value(a, x)) == Value(a, if op.SLog1p? then LogTree(x) else Call(UnaryName(op).value, Arg1(x)))
  {
    ArgValues(a, x, x);
    if op.SLog1p? { LogMeans(a, x); }
  }

  lemma BinaryMeans<V(!new)>(g: Engine<V>, a: Algebra<V>, op: BinaryOp, l: Dsl, r: Dsl)
    requires Agree(g, a) && !op.OtherBinary?
    ensures
      var tree := if InfixOf(op).Some? then Infix(InfixOf(op).value, l, r) else Call(BinaryName(op).value, Arg2(l, r));
      g.binary(op, Value(a, l), Value(a, r)) == Value(a, tree)
  {
    ArgValues(a, l, r);
  }

  lemma IntMeans<V>(a: Algebra<V>, n: int)
    ensures Value(a, IntTree(n)) == WholeValue(a, n)
  {
  }

  lemma RollingMeans<V(!new)>(g: Engine<V>, a: Algebra<V>, op: RollingOp, x: Dsl, n: int)
    requires Agree(g, a) && !op.OtherRolling?
    ensures g.rolling(op, Value(a, x), n) == Value(a, RollingTree(op, x, IntTree(n)))
  {
    IntMeans(a, n);
    RollingTreeMeans(a, op, x, IntTree(n));
    hide Value, RollingTree, RollingName, RollingValue, WholeValue, IntTree;
  }

  lemma PairMeans<V(!new)>(g: Engine<V>, a: Algebra<V>, op: PairOp, l: Dsl, r: Dsl, n: int)
    requires Agree(g, a) && !op.OtherPair?
    ensures g.pair(op, Value(a, l), Value(a, r), n) == Value(a, Call(PairName(op).value, More(l, Arg2(r, IntTree(n)))))
  {
    IntMeans(a, n);
    ArgValues(a, r, IntTree(n));
    assert Values(a, More(l, Arg2(r, IntTree(n)))) == [Value(a, l), Value(a, r), WholeValue(a, n)];
  }

  lemma ArgValues<V>(a: Algebra<V>, x: Dsl, y: Dsl)
    ensures Values(a, Arg1(x)) == [Value(a, x)] && Values(a, Arg2(x, y)) == [Value(a, x), Value(a, y)]
  {
  }

  lemma LogMeans<V>(a: Algebra<V>, x: Dsl)
    ensures var v := Value(a, x);
      Value(a, LogTree(x)) == LogValue(a, v)
  {
    ArgValues(a, x, x);
    ArgValues(a, Call("ABS", Arg1(x)), Number("1"));
    ArgValues(a, Call("ADD", Arg2(Call("ABS", Arg1(x)), Number("1"))), x);
    ArgValues(a, Call("SIGN", Arg1(x)), Call("LOG", Arg1(Call("ADD", Arg2(Call("ABS", Arg1(x)), Number("1"))))));
  }

  lemma RollingTreeMeans<V>(a: Algebra<V>, op: RollingOp, x: Dsl, dt: Dsl)
    requires !op.OtherRolling?
    ensures Value(a, RollingTree(op, x, dt)) == RollingValue(a, op, Value(a, x), Value(a, dt))
  {
    hide RollingName;
    ArgValues(a, x, dt);
    ArgValues(a, x, Call("DELAY", Arg2(x, dt)));
    ArgValues(a, Call("TS_MEAN", Arg2(x, dt)), Call("TS_STD", Arg2(x, dt)));
  }

  /** Whatever the reader recovers from the text means what the expression means. */
  lemma MeaningIsKept<V(!new)>(g: Engine<V>, a: Algebra<V>, e: Expr, d: Dsl)
    requires Proper(e) && Agree(g, a) && Translated(e).Some? && Reads(Translated(e).value, d)
    ensures Supported(e) && Value(a, d) == Meaning(g, e)
  {
    hide Agree, Reads;
    SucceedsIffSupported(e);
    TranslationReads(e);
    TreeMeans(g, a, e);
  }
}
