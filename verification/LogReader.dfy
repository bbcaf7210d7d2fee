/** Incremental reading of a growing UTF-8 log (alphapilot/research/tasks.py,
    `TaskService.logs`) with the decoder it uses: UTF-8 as in sections 3 and 4 of
    RFC 3629, errors replaced by U+FFFD, an unfinished character held back until
    more bytes arrive or the input is declared final. */
module LogReader {
  type Byte = x: int | 0 <= x < 256
  type Code = int

  const REPLACEMENT: Code := 0xFFFD

  /** How a byte string starts: with a whole character or a malformed sequence of
      `size` bytes, or with the beginning of a character that is not all there. */
  datatype Start = Unit(size: nat, code: Code) | Unfinished

  predicate Tail(b: Byte) {
    0x80 <= b < 0xC0
  }

  /** The bytes a lead byte calls for, 0 when it is no lead byte. */
  function Width(b: Byte): (n: nat)
    ensures n <= 4
  {
    if b < 0x80 then 1
    else if 0xC2 <= b < 0xE0 then 2
    else if 0xE0 <= b < 0xF0 then 3
    else if 0xF0 <= b < 0xF5 then 4
    else 0
  }

  /** The second bytes the grammar of RFC 3629 allows after a lead byte; they rule
      out overlong forms, surrogates and values above U+10FFFF. */
  predicate Second(lead: Byte, b: Byte) {
    if lead == 0xE0 then 0xA0 <= b < 0xC0
    else if lead == 0xED then 0x80 <= b < 0xA0
    else if lead == 0xF0 then 0x90 <= b < 0xC0
    else if lead == 0xF4 then 0x80 <= b < 0x90
    else Tail(b)
  }

  /** The payload bits of a tail byte. */
  function Low(b: Byte): int {
    b - 0x80
  }

  function CodeOf(s: seq<Byte>): Code
    requires 1 <= |s| <= 4
  {
    var lead: int := s[0];
    if |s| == 1 then lead
    else if |s| == 2 then (lead - 0xC0) * 0x40 + Low(s[1])
    else if |s| == 3 then (lead - 0xE0) * 0x1000 + Low(s[1]) * 0x40 + Low(s[2])
    else (lead - 0xF0) * 0x40000 + Low(s[1]) * 0x1000 + Low(s[2]) * 0x40 + Low(s[3])
  }

  /** How many bytes of `s` can still begin one character. */
  function Good(s: seq<Byte>): (n: nat)
    requires s != []
    ensures n <= |s| && n <= Width(s[0])
  {
    if Width(s[0]) <= 1 || |s| == 1 then (if Width(s[0]) == 0 then 0 else 1)
    else if !Second(s[0], s[1]) then 1
    else if Width(s[0]) == 2 || |s| == 2 then 2
    else if !Tail(s[2]) then 2
    else if Width(s[0]) == 3 || |s| == 3 then 3
    else if !Tail(s[3]) then 3
    else 4
  }

  /** The first unit of a byte string: the longest good beginning, whole,
      malformed because the next byte does not fit, or unfinished. */
  function First(s: seq<Byte>): (u: Start)
    requires s != []
    ensures u.Unit? ==> 1 <= u.size <= |s| && u.size <= 4
    ensures u.Unfinished? ==> |s| < 4
  {
    var n := Good(s);
    if n == 0 then Unit(1, REPLACEMENT)
    else if n == Width(s[0]) then Unit(n, CodeOf(s[..n]))
    else if n < |s| then Unit(n, REPLACEMENT)
    else Unfinished
  }

  datatype Decoded = Decoded(text: seq<Code>, pending: seq<Byte>)

  /** The decoder applied to everything it has not yet consumed. */
  function Decode(s: seq<Byte>, final: bool): (d: Decoded)
    decreases |s|
  {
    if s == [] then Decoded([], [])
    else match First(s)
      case Unit(n, c) =>
        var rest := Decode(s[n..], final);
        Decoded([c] + rest.text, rest.pending)
      case Unfinished => if final then Decoded([REPLACEMENT], []) else Decoded([], s)
  }

  /** What is held back is an unfinished character at the very end, never more
      than three bytes, and nothing is decoded only if everything is held back. */
  lemma {:induction false} HeldBack(s: seq<Byte>, final: bool)
    ensures var d := Decode(s, final);
      && |d.pending| <= |s| && |d.pending| < 4 && d.pending == s[|s| - |d.pending|..]
      && (final ==> d.pending == [])
      && (d.pending != [] ==> First(d.pending).Unfinished?)
      && (d.text == [] ==> d.pending == s)
    decreases |s|
  {
    if s != [] && First(s).Unit? { HeldBack(s[First(s).size..], final); }
  }

  /** More input never changes a unit that is already whole or malformed. */
  lemma FirstIsStable(s: seq<Byte>, more: seq<Byte>)
    requires s != [] && First(s).Unit?
    ensures First(s + more) == First(s)
  {
  }

  /** One unit is peeled off. */
  lemma DecodeUnit(s: seq<Byte>, final: bool)
    requires s != [] && First(s).Unit?
    ensures var rest := Decode(s[First(s).size..], final);
      Decode(s, final) == Decoded([First(s).code] + rest.text, rest.pending)
  {
  }

  /** Decode one piece, then what it held back together with the next piece. */
  function TwoPieces(a: seq<Byte>, b: seq<Byte>, final: bool): Decoded {
    var d := Decode(a, false);
    var e := Decode(d.pending + b, final);
    Decoded(d.text + e.text, e.pending)
  }

  /** Decoding in pieces is decoding at once. */
  lemma {:induction false} DecodeInPieces(a: seq<Byte>, b: seq<Byte>, final: bool)
    ensures TwoPieces(a, b, final) == Decode(a + b, final)
    decreases |a|
  {
    hide Decode, First;
    if a == [] || First(a).Unfinished? {
      NothingDecoded(a, b, final);
    } else {
      var n := First(a).size;
      FirstIsStable(a, b);
      assert (a + b)[n..] == a[n..] + b;
      DecodeUnit(a, false);
      DecodeUnit(a + b, final);
      DecodeInPieces(a[n..], b, final);
      var d := Decode(a[n..], false);
      var e := Decode(d.pending + b, final);
      assert [First(a).code] + (d.text + e.text) == ([First(a).code] + d.text) + e.text;
    }
  }

  lemma NothingDecoded(a: seq<Byte>, b: seq<Byte>, final: bool)
    requires a == [] || First(a).Unfinished?
    ensures TwoPieces(a, b, final) == Decode(a + b, final)
  {
  }

  // ------------------------------------------------- encoding, round trip

  /** Unicode scalar values. */
  predicate Scalar(c: Code) {
    0 <= c < 0xD800 || 0xE000 <= c < 0x110000
  }

  /** The encoding of section 3 of RFC 3629. */
  function EncodeOne(c: Code): (s: seq<Byte>)
    requires Scalar(c)
  {
    var c1 := c / 0x40;
    var c2 := c1 / 0x40;
    var c3 := c2 / 0x40;
    if c < 0x80 then [c]
    else if c < 0x800 then [0xC0 + c1, 0x80 + c % 0x40]
    else if c < 0x10000 then [0xE0 + c2, 0x80 + c1 % 0x40, 0x80 + c % 0x40]
    else [0xF0 + c3, 0x80 + c2 % 0x40, 0x80 + c1 % 0x40, 0x80 + c % 0x40]
  }

  function Encode(text: seq<Code>): seq<Byte>
    requires forall c :: c in text ==> Scalar(c)
  {
    if text == [] then [] else EncodeOne(text[0]) + Encode(text[1..])
  }

  lemma FirstOfEncoded(c: Code, rest: seq<Byte>)
    requires Scalar(c)
    ensures First(EncodeOne(c) + rest) == Unit(|EncodeOne(c)|, c)
  {
  }

  lemma DecodeEncoded(c: Code, rest: seq<Byte>, final: bool)
    requires Scalar(c)
    ensures Decode(EncodeOne(c) + rest, final) == Decoded([c] + Decode(rest, final).text, Decode(rest, final).pending)
  {
    hide Decode, First, EncodeOne, Scalar;
    FirstOfEncoded(c, rest);
    var s := EncodeOne(c) + rest;
    assert s[|EncodeOne(c)|..] == rest;
    DecodeUnit(s, final);
  }

  /** Well-formed text comes back exactly, and nothing is held back. */
  lemma {:induction false} RoundTrip(text: seq<Code>, final: bool)
    requires forall c :: c in text ==> Scalar(c)
    ensures Decode(Encode(text), final) == Decoded(text, [])
  {
    if text != [] {
      RoundTrip(text[1..], final);
      DecodeEncoded(text[0], Encode(text[1..]), final);
      assert [text[0]] + text[1..] == text;
    }
  }

  // ------------------------------------- the decoder, told by the encoding

  /** `s` is the beginning of some encoded character, and not all of it. */
  ghost predicate Begins(s: seq<Byte>) {
    exists c :: Scalar(c) && s < EncodeOne(c)
  }

  /** `s` starts with an encoded character. */
  ghost predicate StartsWhole(s: seq<Byte>) {
    exists c :: Scalar(c) && EncodeOne(c) <= s
  }

  /** Whatever the bytes: a whole character is decoded to itself; the beginning of one, with
      nothing behind it, is unfinished; and otherwise U+FFFD replaces the longest beginning
      of a character that `s` starts with, or one byte if there is none. */
  lemma FirstByEncoding(s: seq<Byte>)
    requires s != []
    ensures First(s).Unfinished? <==> Begins(s)
    ensures forall c :: Scalar(c) && EncodeOne(c) <= s ==> First(s) == Unit(|EncodeOne(c)|, c)
    ensures !Begins(s) && !StartsWhole(s) ==>
      && First(s).Unit? && First(s).code == 0xFFFD && (First(s).size == 1 || Begins(s[..First(s).size]))
      && forall m :: First(s).size < m <= |s| ==> !Begins(s[..m])
  {
    forall c | Scalar(c) && EncodeOne(c) <= s ensures First(s) == Unit(|EncodeOne(c)|, c) {
      FirstOfEncoded(c, s[|EncodeOne(c)|..]);
      assert EncodeOne(c) + s[|EncodeOne(c)|..] == s;
    }
    BeginsIff(s);
    if !Begins(s) && !StartsWhole(s) { Malformed(s); }
  }

  function Joined(pieces: seq<seq<Byte>>): seq<Byte> {
    if pieces == [] then [] else pieces[0] + Joined(pieces[1..])
  }

  /** The piece `b` of the input reads as `c`. */
  ghost predicate ReadsAs(b: seq<Byte>, c: Code) {
    || (Scalar(c) && b == EncodeOne(c))
    || (c == 0xFFFD && b != [] && !StartsWhole(b) && (|b| == 1 || Begins(b)))
  }

  /** No byte is lost or read twice: the input falls into one piece for each character of
      the text, and what is held back. */
  lemma {:induction false} EveryByteIsRead(s: seq<Byte>, final: bool) returns (pieces: seq<seq<Byte>>)
    ensures var d := Decode(s, final);
      && s == Joined(pieces) + d.pending && |pieces| == |d.text|
      && (forall i :: 0 <= i < |pieces| ==> ReadsAs(pieces[i], d.text[i]))
      && (d.pending == [] || (Begins(d.pending) && !final))
    decreases |s|
  {
    hide First, Decode, ReadsAs, Begins, StartsWhole;
    pieces := [];
    if s == [] || First(s).Unfinished? {
      pieces := LastPiece(s, final);
    } else {
      var n := First(s).size;
      FirstPiece(s);
      DecodeUnit(s, final);
      var more := EveryByteIsRead(s[n..], final);
      pieces := [s[..n]] + more;
      assert pieces[1..] == more;
      assert s == s[..n] + (Joined(more) + Decode(s[n..], final).pending);
    }
  }

  lemma LastPiece(s: seq<Byte>, final: bool) returns (pieces: seq<seq<Byte>>)
    requires s == [] || First(s).Unfinished?
    ensures var d := Decode(s, final);
      && s == Joined(pieces) + d.pending && |pieces| == |d.text|
      && (forall i :: 0 <= i < |pieces| ==> ReadsAs(pieces[i], d.text[i]))
      && (d.pending == [] || (Begins(d.pending) && !final))
  {
    hide First, Begins, StartsWhole;
    pieces := if s == [] || !final then [] else [s];
    if s != [] {
      FirstByEncoding(s);
      BeginsIsNotWhole(s);
      assert [s][1..] == [] && s + [] == s;
    }
  }

  lemma FirstPiece(s: seq<Byte>)
    requires s != [] && First(s).Unit?
    ensures ReadsAs(s[..First(s).size], First(s).code)
  {
    hide First, EncodeOne, Scalar;
    FirstByEncoding(s);
    if StartsWhole(s) {
      var c :| Scalar(c) && EncodeOne(c) <= s;
      assert s[..First(s).size] == EncodeOne(c);
    } else {
      StartsOnly(s, First(s).size);
    }
  }

  lemma StartsOnly(s: seq<Byte>, n: nat)
    requires n <= |s|
    ensures StartsWhole(s[..n]) ==> StartsWhole(s)
  {
    hide EncodeOne, Scalar;
    if c :| Scalar(c) && EncodeOne(c) <= s[..n] { assert EncodeOne(c) <= s; }
  }

  lemma BeginsIsNotWhole(s: seq<Byte>)
    requires s != [] && Begins(s)
    ensures !StartsWhole(s)
  {
    hide First;
    FirstByEncoding(s);
  }

  lemma Malformed(s: seq<Byte>)
    requires s != [] && First(s).Unit? && !StartsWhole(s)
    ensures First(s).code == 0xFFFD && (First(s).size == 1 || Begins(s[..First(s).size]))
    ensures forall m :: First(s).size < m <= |s| ==> !Begins(s[..m])
  {
    if Good(s) == Width(s[0]) > 0 { GoodStarts(s); }
    forall m | 1 <= m <= |s| ensures Begins(s[..m]) <==> m == Good(s[..m]) < Width(s[0]) { BeginsIff(s[..m]); }
    forall m | First(s).size < m <= |s| ensures !Begins(s[..m]) { GoodOfPrefix(s, m); }
    GoodOfPrefix(s, First(s).size);
  }

  lemma GoodStarts(s: seq<Byte>)
    requires s != [] && Good(s) == Width(s[0]) > 0
    ensures StartsWhole(s)
  {
    var n := Good(s);
    GoodOfPrefix(s, n);
    WholeIsEncoded(s[..n]);
    assert EncodeOne(CodeOf(s[..n])) <= s;
  }

  lemma GoodOfPrefix(s: seq<Byte>, m: nat)
    requires 1 <= m <= |s|
    ensures Good(s[..m]) == if Good(s) <= m then Good(s) else m
  {
  }

  /** A complete good sequence is the encoding of its code. */
  lemma WholeIsEncoded(s: seq<Byte>)
    requires 1 <= |s| <= 4 && Good(s) == Width(s[0]) == |s|
    ensures Scalar(CodeOf(s)) && EncodeOne(CodeOf(s)) == s
  {
    var c := CodeOf(s);
    if |s| == 2 {
      assert c == (s[0] - 0xC0) * 0x40 + Low(s[1]);
    } else if |s| == 3 {
      var hi := (s[0] - 0xE0) * 0x40 + Low(s[1]);
      assert c == hi * 0x40 + Low(s[2]) && c / 0x40 == hi;
    } else if |s| == 4 {
      var top := (s[0] - 0xF0) * 0x40 + Low(s[1]);
      var hi := top * 0x40 + Low(s[2]);
      assert c == hi * 0x40 + Low(s[3]) && c / 0x40 == hi && hi / 0x40 == top;
    }
  }

  /** Some way to complete a good beginning. */
  function Padded(s: seq<Byte>): seq<Byte>
    requires s != []
  {
    var second: Byte := if s[0] == 0xE0 then 0xA0 else if s[0] == 0xF0 then 0x90 else 0x80;
    var two := if |s| == 1 then s + [second] else s;
    two + seq(if Width(s[0]) > |two| then Width(s[0]) - |two| else 0, _ => 0x80)
  }

  lemma BeginsIff(s: seq<Byte>)
    requires s != []
    ensures Begins(s) <==> |s| == Good(s) < Width(s[0])
  {
    if |s| == Good(s) < Width(s[0]) {
      var t := Padded(s);
      assert |t| == Width(s[0]) && t[..|s|] == s && Good(t) == |t|;
      WholeIsEncoded(t);
      assert s < EncodeOne(CodeOf(t));
    }
    if Begins(s) {
      var c :| Scalar(c) && s < EncodeOne(c);
      var t := EncodeOne(c);
      FirstOfEncoded(c, []);
      assert t + [] == t && t[..|s|] == s && t[0] == s[0];
      EncodedIsGood(c);
      GoodOfPrefix(t, |s|);
    }
  }

  lemma EncodedIsGood(c: Code)
    requires Scalar(c)
    ensures var t := EncodeOne(c); t != [] && Good(t) == |t| == Width(t[0])
  {
  }

  /** The examples of section 7 of RFC 3629. */
  lemma EncodingExamples()
    ensures Encode([0x41, 0x2262, 0x0391, 0x2E]) == [0x41, 0xE2, 0x89, 0xA2, 0xCE, 0x91, 0x2E]
    ensures EncodeOne(0xD55C) == [0xED, 0x95, 0x9C] && EncodeOne(0x65E5) == [0xE6, 0x97, 0xA5]
    ensures EncodeOne(0x233B4) == [0xF0, 0xA3, 0x8E, 0xB4] && EncodeOne(0xFEFF) == [0xEF, 0xBB, 0xBF]
  {
    assert Encode([0x2E]) == [0x2E];
    assert [0x391, 0x2E][1..] == [0x2E] && [0x2262, 0x391, 0x2E][1..] == [0x391, 0x2E];
    assert [0x41, 0x2262, 0x0391, 0x2E][1..] == [0x2262, 0x391, 0x2E];
  }

  // ------------------------------------------------------------- polling

  /** The whole decoding, when `text` was emitted and `rest` is still to be read. */
  function Emitted(text: seq<Code>, rest: seq<Byte>, final: bool): Decoded {
    var d := Decode(rest, final);
    Decoded(text + d.text, d.pending)
  }

  lemma EmitOne(text: seq<Code>, rest: seq<Byte>, final: bool)
    requires rest != [] && First(rest).Unit?
    ensures Emitted(text, rest, final) == Emitted(text + [First(rest).code], rest[First(rest).size..], final)
  {
    hide Decode, First;
    DecodeUnit(rest, final);
    var d := Decode(rest[First(rest).size..], final);
    assert text + ([First(rest).code] + d.text) == (text + [First(rest).code]) + d.text;
  }

  lemma Exhausted(text: seq<Code>, rest: seq<Byte>, final: bool)
    requires rest == [] || First(rest).Unfinished?
    ensures Emitted(text, rest, final) ==
      if rest != [] && final then Decoded(text + [REPLACEMENT], []) else Decoded(text, rest)
  {
  }

  /** `codecs.getincrementaldecoder("utf-8")(errors="replace")`. */
  class Decoder {
    var pending: seq<Byte>

    constructor ()
      ensures pending == []
    {
      pending := [];
    }

    /** Emit unit after unit of what was held back and the new input; keep an
        unfinished character unless no more can come. */
    method Feed(input: seq<Byte>, final: bool) returns (text: seq<Code>)
      modifies this
      ensures Decoded(text, pending) == Decode(old(pending) + input, final)
    {
      hide Decode, First;
      text := [];
      var rest := pending + input;
      ghost var all := rest;
      while rest != [] && First(rest).Unit?
        invariant Decode(all, final) == Emitted(text, rest, final)
        decreases |rest|
      {
        var unit := First(rest);
        EmitOne(text, rest, final);
        text := text + [unit.code];
        rest := rest[unit.size..];
      }
      Exhausted(text, rest, final);
      if rest != [] && final {
        text := text + [REPLACEMENT];
        rest := [];
      }
      pending := rest;
    }
  }

  datatype Page = Page(text: seq<Code>, next: nat, complete: bool) | InvalidRange

  function Min(a: int, b: int): int {
    if a <= b then a else b
  }

  /** Position `c` of `s` is where a unit ends.  The byte after it may have been
      looked at: it is what shows that a malformed sequence is over.  The end of
      a finished input also ends its last, unfinished unit. */
  predicate Boundary(s: seq<Byte>, c: nat, final: bool)
    decreases |s|
  {
    || c == 0
    || (s != [] && match First(s)
          case Unit(n, _) => n <= c && Boundary(s[n..], c - n, final)
          case Unfinished => final && c == |s|)
  }

  /** A boundary stays one when the log grows. */
  lemma {:induction false} BoundaryIsStable(s: seq<Byte>, more: seq<Byte>, c: nat, final: bool)
    requires Boundary(s, c, false)
    ensures Boundary(s + more, c, final)
    decreases |s|
  {
    if c != 0 {
      var n := First(s).size;
      FirstIsStable(s, more);
      assert (s + more)[n..] == s[n..] + more;
      BoundaryIsStable(s[n..], more, c - n, final);
    }
  }

  /** Boundaries counted from a boundary are boundaries. */
  lemma {:induction false} BoundaryAdds(s: seq<Byte>, b: nat, c: nat, final: bool)
    requires Boundary(s, b, final) && b <= |s| && Boundary(s[b..], c, final)
    ensures Boundary(s, b + c, final)
    decreases |s|
  {
    hide First;
    if b == 0 {
      assert s[0..] == s;
    } else if First(s).Unit? {
      var n := First(s).size;
      assert s[n..][b - n..] == s[b..];
      BoundaryAdds(s[n..], b - n, c, final);
    } else {
      assert s[b..] == [];
    }
  }

  /** The text of a prefix that contains the first unit starts with that unit,
      even when the byte that ended a malformed unit is cut off. */
  lemma FirstOfCut(s: seq<Byte>, m: nat)
    requires s != [] && First(s).Unit? && First(s).size <= m <= |s|
    ensures Decode(s[..m], true).text == [First(s).code] + Decode(s[First(s).size..m], true).text
  {
    var n := First(s).size;
    var cut := s[..m];
    assert cut[n..] == s[n..m];
    assert Good(cut) == if Good(s) <= m then Good(s) else m;
    if First(cut).Unit? {
      assert First(s).size <= |cut|;
      assert cut[..n] == s[..n];
      DecodeUnit(cut, true);
    } else {
      assert n == m && s[n..m] == [];
    }
  }

  /** A boundary behind the first unit is a boundary of what follows it. */
  lemma PastFirst(s: seq<Byte>, c: nat, final: bool)
    requires s != [] && First(s).Unit? && Boundary(s, c, final) && c > 0
    ensures First(s).size <= c && Boundary(s[First(s).size..], c - First(s).size, final)
  {
  }

  lemma EndOfUnfinished(s: seq<Byte>, c: nat, final: bool)
    requires (s == [] || First(s).Unfinished?) && Boundary(s, c, final)
    ensures c == 0 || c == |s|
  {
  }

  lemma CutTwice(s: seq<Byte>, n: nat, c: nat, m: nat)
    requires n <= c <= m <= |s|
    ensures s[n..][..m - n] == s[n..m] && s[n..][..c - n] == s[n..c] && s[n..][c - n..m - n] == s[c..m]
  {
  }

  lemma Associates(a: seq<Code>, b: seq<Code>, c: seq<Code>)
    ensures a + (b + c) == (a + b) + c
  {
  }

  /** The text up to a later position is the text up to a boundary followed by
      the text from there. */
  lemma {:induction false} TextSplits(s: seq<Byte>, c: nat, m: nat, final: bool)
    requires Boundary(s, c, final) && c <= m <= |s|
    ensures Decode(s[..m], true).text == Decode(s[..c], true).text + Decode(s[c..m], true).text
    decreases |s|
  {
    hide Decode, First, Boundary;
    NothingToDecode(true);
    if c == 0 {
      assert s[..0] == [] && s[0..m] == s[..m];
    } else if s != [] && First(s).Unit? {
      var n := First(s).size;
      PastFirst(s, c, final);
      FirstOfCut(s, m);
      FirstOfCut(s, c);
      TextSplits(s[n..], c - n, m - n, final);
      CutTwice(s, n, c, m);
      Associates([First(s).code], Decode(s[n..c], true).text, Decode(s[c..m], true).text);
    } else {
      EndOfUnfinished(s, c, final);
      assert s[c..m] == [];
    }
  }

  lemma NothingToDecode(final: bool)
    ensures Decode([], final) == Decoded([], [])
  {
  }

  /** Where the decoder stands after a piece: at a boundary, having produced the
      text of the bytes before it. */
  lemma {:induction false} PendingIsBoundary(s: seq<Byte>)
    ensures var d := Decode(s, false);
      |d.pending| <= |s| && Boundary(s, |s| - |d.pending|, false) && d.text == Decode(s[..|s| - |d.pending|], true).text
    decreases |s|
  {
    hide Decode, First, Boundary;
    if s == [] || First(s).Unfinished? {
      AllPending(s);
    } else {
      var n := First(s).size;
      PendingIsBoundary(s[n..]);
      DecodeUnit(s, false);
      var k := |s| - |Decode(s, false).pending|;
      FirstThenBoundary(s, k, false);
      FirstOfCut(s, k);
      CutTwice(s, n, k, k);
    }
  }

  lemma AllPending(s: seq<Byte>)
    requires s == [] || First(s).Unfinished?
    ensures Decode(s, false) == Decoded([], s) && Boundary(s, 0, false) && Decode(s[..0], true).text == []
  {
  }

  lemma FirstThenBoundary(s: seq<Byte>, c: nat, final: bool)
    requires s != [] && First(s).Unit? && First(s).size <= c && Boundary(s[First(s).size..], c - First(s).size, final)
    ensures Boundary(s, c, final)
  {
  }

  /** What one poll from `start` promises: the text is the decoding of the bytes
      it moved past, it stops at a decoder boundary, it reads at most three bytes
      more than asked, and it moves unless an unfinished character is all there is. */
  ghost predicate PollOk(log: seq<Byte>, terminal: bool, start: nat, limit: nat, page: Page) {
    && page.Page? && start <= page.next <= |log| && page.next <= start + limit + 3
    && page.text == Decode(log[start..page.next], true).text
    && Boundary(log[start..], page.next - start, terminal)
    && (start < |log| && page.next == start ==> !terminal && First(log[start..]).Unfinished?)
    && (page.complete <==> terminal && page.next == |log|)
  }

  lemma {:induction false} EndIsBoundary(s: seq<Byte>)
    ensures Boundary(s, |s|, true)
    decreases |s|
  {
    if s != [] && First(s).Unit? { EndIsBoundary(s[First(s).size..]); }
  }

  /** Feeding one more piece to a decoder that has seen `log[start..pos]`. */
  lemma FeedMore(log: seq<Byte>, start: nat, pos: nat, end: nat, final: bool)
    requires start <= pos <= end <= |log|
    ensures var d := Decode(log[start..pos], false);
      var e := Decode(d.pending + log[pos..end], final);
      Decode(log[start..end], final) == Decoded(d.text + e.text, e.pending)
  {
    DecodeInPieces(log[start..pos], log[pos..end], final);
    assert log[start..pos] + log[pos..end] == log[start..end];
  }

  lemma Slices(log: seq<Byte>, start: nat, pos: nat, k: nat)
    requires start <= pos <= |log| && start + k <= pos
    ensures log[start..pos][..k] == log[start..start + k] && log[start..pos] + log[pos..] == log[start..]
  {
  }

  /** The reader stops short of the end of a finished log, or waits for more. */
  lemma PollStops(log: seq<Byte>, start: nat, limit: nat, pos: nat, terminal: bool)
    requires start <= pos <= |log| && pos <= start + limit + 3 && !(terminal && pos == |log|)
    requires pos < |log| ==> pos - start >= 4 || Decode(log[start..pos], false).text != []
    ensures var d := Decode(log[start..pos], false); var next := pos - |d.pending|;
      next >= 0 && PollOk(log, terminal, start, limit, Page(d.text, next, terminal && next >= |log|))
  {
    hide Decode, First;
    var s := log[start..pos];
    var k := |s| - |Decode(s, false).pending|;
    PendingIsBoundary(s);
    HeldBack(s, false);
    assert 0 <= k <= |s| && |s| == pos - start;
    Slices(log, start, pos, k);
    BoundaryIsStable(s, log[pos..], k, terminal);
    if start < |log| && k == 0 {
      NothingToDecode(true);
      assert s[..0] == [];
      assert pos == |log| && s == log[start..];
    }
  }

  /** The reader reached the end of a finished log and flushes the decoder. */
  lemma FinishPoll(log: seq<Byte>, start: nat, limit: nat, pos: nat)
    requires start <= pos == |log| && pos <= start + limit + 3
    ensures var d := Decode(log[start..pos], false); var e := Decode(d.pending + [], true);
      e.pending == [] && PollOk(log, true, start, limit, Page(d.text + e.text, pos, true))
  {
    hide Decode, First, Boundary;
    FeedMore(log, start, pos, pos, true);
    assert log[pos..pos] == [] && log[start..pos] == log[start..];
    EndIsBoundary(log[start..]);
    HeldBack(log[start..], true);
  }

  /** Read `limit` bytes, and up to three more while not one unit is complete. */
  method ReadEnough(decoder: Decoder, log: seq<Byte>, start: nat, limit: nat) returns (text: seq<Code>, pos: nat)
    requires decoder.pending == [] && start <= |log| && limit >= 1
    modifies decoder
    ensures start <= pos <= |log| && pos <= start + limit + 3
    ensures Decoded(text, decoder.pending) == Decode(log[start..pos], false)
    ensures pos < |log| ==> pos - start >= 4 || text != []
  {
    hide Decode, First;
    pos := Min(start + limit, |log|);
    assert [] + log[start..pos] == log[start..pos];
    text := decoder.Feed(log[start..pos], false);
    HeldBack(log[start..pos], false);
    if text == [] && decoder.pending != [] {
      var tries := 0;
      while tries < 3 && pos < |log| && text == []
        invariant start <= pos <= |log| && tries <= 3 && pos <= start + limit + tries
        invariant Decoded(text, decoder.pending) == Decode(log[start..pos], false)
        invariant pos < |log| ==> pos - start >= 1 + tries
      {
        text, pos := ReadByte(decoder, log, start, pos, text);
        tries := tries + 1;
      }
    }
  }

  /** One more byte goes through the decoder. */
  method ReadByte(decoder: Decoder, log: seq<Byte>, start: nat, pos: nat, text: seq<Code>)
    returns (more: seq<Code>, next: nat)
    requires start <= pos < |log| && Decoded(text, decoder.pending) == Decode(log[start..pos], false)
    modifies decoder
    ensures next == pos + 1 && Decoded(more, decoder.pending) == Decode(log[start..next], false)
  {
    hide Decode, First;
    FeedMore(log, start, pos, pos + 1, false);
    var new_text := decoder.Feed(log[pos..pos + 1], false);
    more, next := text + new_text, pos + 1;
  }

  /** One poll. */
  method ReadLog(log: seq<Byte>, terminal: bool, cursor: int, limit: int) returns (page: Page)
    ensures page.InvalidRange? <==> cursor < 0 || !(1 <= limit <= 65536)
    ensures page.Page? ==> PollOk(log, terminal, Min(cursor, |log|), limit, page)
  {
    if cursor < 0 || !(1 <= limit <= 65536) {
      return InvalidRange;
    }
    hide Decode, First, Boundary, PollOk;
    var start := Min(cursor, |log|);
    var decoder := new Decoder();
    var text, pos := ReadEnough(decoder, log, start, limit);
    if terminal && pos >= |log| {
      FinishPoll(log, start, limit, pos);
      var rest := decoder.Feed([], true);
      text := text + rest;
    } else {
      PollStops(log, start, limit, pos, terminal);
    }
    var next := pos - |decoder.pending|;
    page := Page(text, next, terminal && next >= |log|);
  }

  // ------------------------------------------------------ whole sessions

  datatype Poll = Poll(log: seq<Byte>, terminal: bool, limit: nat, page: Page)

  function Cursor(polls: seq<Poll>): nat
    requires forall p :: p in polls ==> p.page.Page?
  {
    if polls == [] then 0 else polls[|polls| - 1].page.next
  }

  function Texts(polls: seq<Poll>): seq<Code>
    requires forall p :: p in polls ==> p.page.Page?
  {
    if polls == [] then [] else Texts(polls[..|polls| - 1]) + polls[|polls| - 1].page.text
  }

  /** The log only grows, even after the job is terminal. */
  predicate Appended(p: Poll, q: Poll) {
    p.log <= q.log && (p.terminal ==> q.terminal)
  }

  /** Poll `p` came to the end of a terminal job's log and replaced the unfinished
      character there, and then bytes came that continue this character. */
  predicate Torn(p: Poll, q: Poll)
    requires Appended(p, q) && p.page.Page?
  {
    var tail := Decode(p.log, false).pending;
    && p.terminal && p.page.next == |p.log| < |q.log|
    && tail != [] && Good(tail + q.log[|p.log|..]) > |tail|
  }

  /** A client that polls from 0 and always passes on the cursor it got. */
  ghost predicate Session(polls: seq<Poll>)
    decreases |polls|
  {
    && (forall p :: p in polls ==> p.page.Page?)
    && (polls != [] ==>
          var k := |polls| - 1;
          && Session(polls[..k])
          && (k > 0 ==> Appended(polls[k - 1], polls[k]))
          && PollOk(polls[k].log, polls[k].terminal, Cursor(polls[..k]), polls[k].limit, polls[k].page))
  }

  ghost predicate NoneTorn(polls: seq<Poll>)
    requires Session(polls)
    decreases |polls|
  {
    |polls| > 1 ==>
      var k := |polls| - 1;
      NoneTorn(polls[..k]) && !Torn(polls[k - 1], polls[k])
  }

  /** A position short of the end does not become a boundary by declaring the end. */
  lemma {:induction false} ShortOfTheEnd(s: seq<Byte>, c: nat)
    requires Boundary(s, c, true) && c < |s|
    ensures Boundary(s, c, false)
    decreases |s|
  {
    if c != 0 { ShortOfTheEnd(s[First(s).size..], c - First(s).size); }
  }

  /** When more is appended, the end of the old log is still a boundary unless it cuts
      the character that was unfinished there. */
  lemma {:induction false} OldEnd(s: seq<Byte>, more: seq<Byte>)
    ensures var tail := Decode(s, false).pending;
      Boundary(s + more, |s|, true) <==> more == [] || tail == [] || Good(tail + more) == |tail|
    decreases |s|
  {
    if more == [] {
      assert s + more == s;
      EndIsBoundary(s);
    } else if s != [] && First(s).Unit? {
      var n := First(s).size;
      FirstIsStable(s, more);
      assert (s + more)[n..] == s[n..] + more;
      OldEnd(s[n..], more);
      hide First;
      DecodeUnit(s, false);
    } else if s != [] {
      CutUnfinished(s, more);
    }
  }

  lemma CutUnfinished(s: seq<Byte>, more: seq<Byte>)
    requires s != [] && First(s).Unfinished? && more != []
    ensures Good(s + more) >= |s| && (Boundary(s + more, |s|, true) <==> Good(s + more) == |s|)
  {
  }

  /** A tail byte on its own is malformed. */
  lemma {:induction false} TailsAlone(s: seq<Byte>, n: nat)
    requires n <= |s| && forall i :: 0 <= i < n ==> Tail(s[i])
    ensures |Decode(s, true).text| == n + |Decode(s[n..], true).text|
    decreases n
  {
    if n > 0 {
      assert First(s) == Unit(1, REPLACEMENT);
      hide First;
      DecodeUnit(s, true);
      assert s[1..][n - 1..] == s[n..];
      TailsAlone(s[1..], n - 1);
    }
  }

  lemma TailsInside(s: seq<Byte>, i: nat)
    requires s != [] && First(s).Unit? && 0 < i < First(s).size
    ensures Tail(s[i])
  {
  }

  /** Reading in two parts never gives less text, and it gives more if the second part
      starts inside a unit. */
  lemma {:induction false} SplitCosts(s: seq<Byte>, a: nat)
    requires a <= |s|
    ensures |Decode(s, true).text| <= |Decode(s[..a], true).text| + |Decode(s[a..], true).text|
    ensures !Boundary(s, a, true) ==>
      |Decode(s, true).text| < |Decode(s[..a], true).text| + |Decode(s[a..], true).text|
    decreases |s|
  {
    hide Decode, First;
    NothingToDecode(true);
    if a == 0 {
      assert s[..0] == [] && s[0..] == s;
    } else if First(s).Unfinished? {
      LastUnit(s, a);
    } else if First(s).size <= a {
      var n := First(s).size;
      DecodeUnit(s, true);
      FirstOfCut(s, a);
      SplitCosts(s[n..], a - n);
      CutTwice(s, n, a, |s|);
      assert s[n..][a - n..] == s[a..];
    } else {
      Straddles(s, a);
    }
  }

  lemma LastUnit(s: seq<Byte>, a: nat)
    requires s != [] && First(s).Unfinished? && 0 < a <= |s|
    ensures |Decode(s, true).text| == 1 && (Boundary(s, a, true) <==> a == |s|)
    ensures |Decode(s[..a], true).text| >= 1 && (a < |s| ==> |Decode(s[a..], true).text| >= 1)
  {
    HeldBack(s[..a], true);
    HeldBack(s[a..], true);
  }

  lemma Straddles(s: seq<Byte>, a: nat)
    requires s != [] && First(s).Unit? && 0 < a < First(s).size
    ensures |Decode(s, true).text| < |Decode(s[..a], true).text| + |Decode(s[a..], true).text|
  {
    hide Decode, First;
    var n := First(s).size;
    DecodeUnit(s, true);
    HeldBack(s[..a], true);
    forall i | 0 <= i < n - a ensures Tail(s[a..][i]) { TailsInside(s, a + i); }
    TailsAlone(s[a..], n - a);
    assert s[a..][n - a..] == s[n..];
  }

  /** The cursor stays a boundary unless the character before it was torn. */
  lemma CursorStays(p: Poll, q: Poll)
    requires p.page.Page? && Appended(p, q) && p.page.next <= |p.log|
    requires Boundary(p.log, p.page.next, p.terminal) && !Torn(p, q)
    ensures Boundary(q.log, p.page.next, q.terminal)
  {
    hide Decode, Good, Boundary;
    var more := q.log[|p.log|..];
    assert p.log + more == q.log;
    if p.terminal && p.page.next == |p.log| {
      OldEnd(p.log, more);
      if more != [] && Decode(p.log, false).pending != [] { GoodTail(p.log, more); }
    } else {
      if p.terminal { ShortOfTheEnd(p.log, p.page.next); }
      BoundaryIsStable(p.log, more, p.page.next, q.terminal);
    }
  }

  lemma GoodTail(s: seq<Byte>, more: seq<Byte>)
    requires Decode(s, false).pending != [] && more != []
    ensures Good(Decode(s, false).pending + more) >= |Decode(s, false).pending|
  {
    hide Decode;
    HeldBack(s, false);
    CutUnfinished(Decode(s, false).pending, more);
  }

  /** Whatever the byte limits and however the log grows between polls, the texts
      received so far are exactly the decoding of the bytes passed, if and only if no
      poll replaced an unfinished character that was continued afterwards; then the
      cursor is a boundary of the decoder that reads the log from its start. */
  lemma PolledTextIsDecoded(polls: seq<Poll>)
    requires polls != [] && Session(polls)
    ensures var last := polls[|polls| - 1];
      && Cursor(polls) <= |last.log|
      && (Texts(polls) == Decode(last.log[..Cursor(polls)], true).text <==> NoneTorn(polls))
      && (NoneTorn(polls) ==> Boundary(last.log, Cursor(polls), last.terminal))
  {
    if NoneTorn(polls) { UntornIsDecoded(polls); } else { TornIsLonger(polls); }
  }

  lemma {:induction false} UntornIsDecoded(polls: seq<Poll>)
    requires polls != [] && Session(polls) && NoneTorn(polls)
    ensures var last := polls[|polls| - 1];
      && Cursor(polls) <= |last.log| && Boundary(last.log, Cursor(polls), last.terminal)
      && Texts(polls) == Decode(last.log[..Cursor(polls)], true).text
    decreases |polls|
  {
    hide Decode, First, Torn;
    var k := |polls| - 1;
    var before, q := polls[..k], polls[k];
    NothingToDecode(true);
    if k == 0 {
      assert q.log[0..] == q.log && q.log[0..q.page.next] == q.log[..q.page.next];
      assert Texts(before) == [];
    } else {
      UntornIsDecoded(before);
      assert before[|before| - 1] == polls[k - 1];
      var p := polls[k - 1];
      assert p.log[..p.page.next] == q.log[..p.page.next];
      CursorStays(p, q);
      NextPoll(q, p.page.next);
    }
  }

  /** One poll more, from a boundary of the log. */
  lemma NextPoll(q: Poll, c: nat)
    requires c <= |q.log| && Boundary(q.log, c, q.terminal) && PollOk(q.log, q.terminal, c, q.limit, q.page)
    ensures Boundary(q.log, q.page.next, q.terminal)
    ensures Decode(q.log[..q.page.next], true).text == Decode(q.log[..c], true).text + q.page.text
  {
    hide Decode, First, Boundary;
    TextSplits(q.log, c, q.page.next, q.terminal);
    BoundaryAdds(q.log, c, q.page.next - c, q.terminal);
  }

  /** A torn character is never made good: the texts stay longer than the decoding. */
  lemma {:induction false} TornIsLonger(polls: seq<Poll>)
    requires polls != [] && Session(polls)
    ensures var last := polls[|polls| - 1];
      && Cursor(polls) <= |last.log|
      && |Texts(polls)| >= |Decode(last.log[..Cursor(polls)], true).text| + if NoneTorn(polls) then 0 else 1
    decreases |polls|
  {
    hide Decode, First, Torn, Boundary;
    var k := |polls| - 1;
    var before, q := polls[..k], polls[k];
    NothingToDecode(true);
    if k == 0 {
      assert q.log[0..q.page.next] == q.log[..q.page.next];
      assert Texts(before) == [];
    } else {
      TornIsLonger(before);
      assert before[|before| - 1] == polls[k - 1];
      var p := polls[k - 1];
      assert p.log[..p.page.next] == q.log[..p.page.next];
      PollCosts(p, q);
    }
  }

  lemma PollCosts(p: Poll, q: Poll)
    requires p.page.Page? && Appended(p, q) && p.page.next <= |p.log|
    requires PollOk(q.log, q.terminal, p.page.next, q.limit, q.page)
    ensures |Decode(q.log[..q.page.next], true).text| + (if Torn(p, q) then 1 else 0)
         <= |Decode(q.log[..p.page.next], true).text| + |q.page.text|
  {
    hide Decode, Boundary, First, Good;
    var c := p.page.next;
    var s := q.log[..q.page.next];
    SplitCosts(s, c);
    assert s[..c] == q.log[..c] && s[c..] == q.log[c..q.page.next];
    if Torn(p, q) {
      var more := q.log[c..q.page.next];
      assert s == p.log + more && q.log[|p.log|..][..|more|] == more;
      GoodOfCut(Decode(p.log, false).pending, q.log[|p.log|..], |more|);
      OldEnd(p.log, more);
    }
  }

  lemma GoodOfCut(tail: seq<Byte>, more: seq<Byte>, m: nat)
    requires tail != [] && 0 < m <= |more| && Good(tail + more) > |tail|
    ensures Good(tail + more[..m]) > |tail|
  {
  }

  /** From the moment the job is finished every poll moves or stands at the end of the
      log, and the page says which; so while the log rests, `n` more polls deliver `n`
      bytes at least or the rest of it. */
  lemma {:induction false} TerminalPollsFinish(polls: seq<Poll>, t: nat)
    requires Session(polls) && t < |polls| && forall i :: t <= i < |polls| ==> polls[i].terminal
    ensures Session(polls[..t])
    ensures var last := polls[|polls| - 1];
      && (last.page.complete <==> Cursor(polls) == |last.log|)
      && (Cursor(polls) > Cursor(polls[..|polls| - 1]) || last.page.complete)
      && ((forall i :: t <= i < |polls| ==> polls[i].log == last.log) ==>
            Cursor(polls) >= Min(Cursor(polls[..t]) + |polls| - t, |last.log|))
    decreases |polls|
  {
    hide Decode, First, Boundary, Torn;
    var k := |polls| - 1;
    if k > t {
      assert polls[..k][k - 1] == polls[k - 1] && polls[..k][..t] == polls[..t];
      TerminalPollsFinish(polls[..k], t);
    }
  }

  /** If the finished log is well-formed text, a session that reached its end has
      received that text, if and only if it tore no character of it. */
  lemma SessionDelivers(polls: seq<Poll>, text: seq<Code>)
    requires polls != [] && Session(polls) && forall c :: c in text ==> Scalar(c)
    requires polls[|polls| - 1].log == Encode(text) && polls[|polls| - 1].page.complete
    ensures Texts(polls) == text <==> NoneTorn(polls)
  {
    hide Decode, First, Boundary, Torn;
    PolledTextIsDecoded(polls);
    var log := Encode(text);
    assert log[..|log|] == log;
    RoundTrip(text, true);
  }

  /** It does happen: a two-byte character is polled after its first byte, when the job
      is already terminal and before the second byte is written. */
  lemma FlushCanTear() returns (polls: seq<Poll>)
    ensures Session(polls) && polls != [] && polls[|polls| - 1].page.complete
    ensures polls[|polls| - 1].log == Encode([0xE9]) && Texts(polls) == [REPLACEMENT, REPLACEMENT]
  {
    var first := Poll([0xC3], true, 1, Page([REPLACEMENT], 1, true));
    var second := Poll([0xC3, 0xA9], true, 1, Page([REPLACEMENT], 2, true));
    assert first.log[0..] == [0xC3] && first.log[0..1] == [0xC3];
    assert PollOk(first.log, true, 0, 1, first.page);
    OnePollMore([], first);
    assert [] + [first] == [first] && Cursor([first]) == 1;
    assert second.log[1..] == [0xA9] && second.log[1..2] == [0xA9];
    var one: seq<Byte> := [0xA9];
    assert one[1..] == [] && First(one) == Unit(1, REPLACEMENT) && Boundary(one[1..], 0, true);
    assert PollOk(second.log, true, 1, 1, second.page);
    hide Decode, First, PollOk;
    OnePollMore([first], second);
    polls := [first] + [second];
  }

  lemma OnePollMore(before: seq<Poll>, q: Poll)
    requires Session(before) && q.page.Page? && (before != [] ==> Appended(before[|before| - 1], q))
    requires PollOk(q.log, q.terminal, Cursor(before), q.limit, q.page)
    ensures Session(before + [q]) && Texts(before + [q]) == Texts(before) + q.page.text
    ensures Cursor(before + [q]) == q.page.next
  {
    hide PollOk;
    var polls := before + [q];
    assert polls[..|polls| - 1] == before && polls[|polls| - 1] == q;
    forall p | p in polls ensures p.page.Page? {}
  }
}
