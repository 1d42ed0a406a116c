/**
 * Bytes to text as Python does it: UTF-8 with `errors="replace"`, and
 * `str.splitlines`.  Characters are code points.
 */
module Text {
  import opened Basics

  type Byte = b: int | 0 <= b < 256
  type Bytes = seq<Byte>
  type Chars = seq<nat>

  const NL: Byte := 0x0A
  const REPLACEMENT: nat := 0xFFFD

  // --- UTF-8 ---

  predicate Continues(b: Byte) {
    0x80 <= b < 0xC0
  }

  /** Whether `b` may follow the lead byte: the ranges exclude overlong forms, surrogates and values past U+10FFFF. */
  predicate Second(lead: Byte, b: Byte) {
    Continues(b)
    && (lead == 0xE0 ==> 0xA0 <= b) && (lead == 0xED ==> b < 0xA0)
    && (lead == 0xF0 ==> 0x90 <= b) && (lead == 0xF4 ==> b < 0x90)
  }

  datatype Decoded = Decoded(point: nat, length: nat)

  /** The first character; an ill-formed or cut-off sequence gives one replacement for its longest valid beginning. */
  function DecodeOne(s: Bytes): (r: Decoded)
    requires s != []
    ensures 1 <= r.length <= |s|
  {
    var a := s[0];
    if a < 0x80 then Decoded(a, 1)
    else if a < 0xC2 || a > 0xF4 || |s| < 2 || !Second(a, s[1]) then Decoded(REPLACEMENT, 1)
    else if a < 0xE0 then Decoded(Join(a as int - 0xC0, s[1]), 2)
    else if |s| < 3 || !Continues(s[2]) then Decoded(REPLACEMENT, 2)
    else if a < 0xF0 then Decoded(Join(Join(a as int - 0xE0, s[1]), s[2]), 3)
    else if |s| < 4 || !Continues(s[3]) then Decoded(REPLACEMENT, 3)
    else Decoded(Join(Join(Join(a as int - 0xF0, s[1]), s[2]), s[3]), 4)
  }

  /** Six more bits. */
  function Join(high: nat, b: Byte): nat
    requires Continues(b)
  {
    high * 64 + (b as int - 0x80)
  }

  function Decode(s: Bytes): (r: Chars)
  {
    if s == [] then []
    else var first := DecodeOne(s); [first.point] + Decode(s[first.length..])
  }

  predicate IsScalar(c: nat) {
    c < 0x110000 && !(0xD800 <= c < 0xE000)
  }

  function EncodeOne(c: nat): (r: Bytes)
    requires IsScalar(c)
  {
    var low, rest := 0x80 + c % 64, c / 64;
    if c < 0x80 then [c]
    else if c < 0x800 then [0xC0 + rest, low]
    else
      var mid, top := 0x80 + rest % 64, rest / 64;
      if c < 0x10000 then [0xE0 + top, mid, low]
      else [0xF0 + top / 64, 0x80 + top % 64, mid, low]
  }

  function Encode(s: Chars): (r: Bytes)
    requires forall i :: 0 <= i < |s| ==> IsScalar(s[i])
  {
    if s == [] then [] else EncodeOne(s[0]) + Encode(s[1..])
  }

  lemma DecodesOne(c: nat, rest: Bytes)
    requires IsScalar(c)
    ensures DecodeOne(EncodeOne(c) + rest) == Decoded(c, |EncodeOne(c)|)
  {
    var e := EncodeOne(c);
    var s := e + rest;
    assert forall i :: 0 <= i < |e| ==> s[i] == e[i];
    if c >= 0x800 {
      assert Join(Join(c / 64 / 64, 0x80 + c / 64 % 64), 0x80 + c % 64) == c;
    }
  }

  // --- what one decoded character means ---

  /** The bytes of one character that need two, three and four of them. */
  lemma Encodes2(a: Byte, b: Byte)
    requires 0xC2 <= a < 0xE0 && Continues(b)
    ensures var c := Join(a as int - 0xC0, b); IsScalar(c) && EncodeOne(c) == [a, b]
  {
  }

  lemma Encodes3(a: Byte, b: Byte, d: Byte)
    requires 0xE0 <= a < 0xF0 && Second(a, b) && Continues(d)
    ensures var c := Join(Join(a as int - 0xE0, b), d); IsScalar(c) && EncodeOne(c) == [a, b, d]
  {
    Joined(a as int - 0xE0, b);
    Joined(Join(a as int - 0xE0, b), d);
  }

  lemma Encodes4(a: Byte, b: Byte, d: Byte, e: Byte)
    requires 0xF0 <= a <= 0xF4 && Second(a, b) && Continues(d) && Continues(e)
    ensures var c := Join(Join(Join(a as int - 0xF0, b), d), e); IsScalar(c) && EncodeOne(c) == [a, b, d, e]
  {
    var p := Join(a as int - 0xF0, b);
    Joined(a as int - 0xF0, b);
    Joined(p, d);
    Joined(Join(p, d), e);
    FourBytes(a, b, d, e, p, Join(p, d), Join(Join(p, d), e));
  }

  lemma Joined(high: nat, b: Byte)
    requires Continues(b)
    ensures Join(high, b) / 64 == high && Join(high, b) % 64 == b as int - 0x80
    ensures 64 * high <= Join(high, b) < 64 * high + 64
  {
  }

  lemma FourBytes(a: Byte, b: Byte, d: Byte, e: Byte, p: nat, q: nat, c: nat)
    requires 0xF0 <= a <= 0xF4 && (a == 0xF0 ==> 16 <= p) && p < 0x110
    requires p / 64 == a as int - 0xF0 && p % 64 == b as int - 0x80
    requires q / 64 == p && q % 64 == d as int - 0x80 && 64 * p <= q < 64 * p + 64
    requires c / 64 == q && c % 64 == e as int - 0x80 && 64 * q <= c < 64 * q + 64
    requires a > 0xF0 ==> 64 <= p
    ensures IsScalar(c) && EncodeOne(c) == [a, b, d, e]
  {
  }

  /** How the bytes of a character look. */
  lemma EncodedBytes(c: nat)
    requires IsScalar(c)
    ensures var e := EncodeOne(c);
      && 1 <= |e| <= 4
      && (|e| >= 2 ==> 0xC2 <= e[0] <= 0xF4 && Second(e[0], e[1]) && forall i :: 1 <= i < |e| ==> Continues(e[i]))
      && (|e| == 2 ==> e[0] < 0xE0) && (|e| == 3 ==> 0xE0 <= e[0] < 0xF0) && (|e| == 4 ==> 0xF0 <= e[0])
  {
  }

  /** The text begins with the bytes of `c`. */
  ghost predicate BeginsWith(s: Bytes, c: nat) {
    IsScalar(c) && EncodeOne(c) <= s
  }

  /** The first `n` bytes begin the bytes of `c`, and do not end them. */
  ghost predicate BreaksOff(s: Bytes, c: nat, n: nat) {
    IsScalar(c) && n <= |s| && n < |EncodeOne(c)| && EncodeOne(c)[..n] == s[..n]
  }

  /**
   * Where the text begins with a character, that is what is decoded.  Everywhere else it is
   * one replacement, for a single byte or for the longest beginning of a character there.
   */
  lemma DecodeOneMeans(s: Bytes)
    requires s != []
    ensures forall c :: BeginsWith(s, c) ==> DecodeOne(s) == Decoded(c, |EncodeOne(c)|)
    ensures Decode(s) == [DecodeOne(s).point] + Decode(s[DecodeOne(s).length..])
    ensures (forall c :: !BeginsWith(s, c)) ==>
      && DecodeOne(s).point == REPLACEMENT
      && (DecodeOne(s).length > 1 ==> exists c :: BreaksOff(s, c, DecodeOne(s).length))
      && (forall c: nat, n: nat :: BreaksOff(s, c, n) ==> n <= DecodeOne(s).length)
  {
    forall c | BeginsWith(s, c) ensures DecodeOne(s) == Decoded(c, |EncodeOne(c)|) {
      assert s == EncodeOne(c) + s[|EncodeOne(c)|..];
      DecodesOne(c, s[|EncodeOne(c)|..]);
    }
    if forall c :: !BeginsWith(s, c) {
      DecodedOrCut(s);
      LongestBeginning(s);
      if DecodeOne(s).length > 1 {
        SomeBeginning(s, DecodeOne(s).length);
      }
    }
  }

  /** The lead byte of a longer sequence and one or two bytes that may follow it. */
  predicate CutOff(s: Bytes, n: nat) {
    && |s| >= n >= 2 && 0xE0 <= s[0] <= 0xF4 && Second(s[0], s[1])
    && (n == 2 || (n == 3 && s[0] >= 0xF0 && Continues(s[2])))
  }

  lemma DecodedOrCut(s: Bytes)
    requires s != []
    ensures var d := DecodeOne(s);
      BeginsWith(s, d.point) || (d.point == REPLACEMENT && (d.length == 1 || CutOff(s, d.length)))
  {
    var d, a := DecodeOne(s), s[0];
    if a < 0x80 {
      assert EncodeOne(a) == [a];
    } else if d.length == 2 && a < 0xE0 {
      Encodes2(a, s[1]);
    } else if d.length == 3 && a < 0xF0 {
      Encodes3(a, s[1], s[2]);
    } else if d.length == 4 {
      Encodes4(a, s[1], s[2], s[3]);
    }
  }

  lemma LongestBeginning(s: Bytes)
    requires s != [] && forall c :: !BeginsWith(s, c)
    ensures forall c: nat, n: nat :: BreaksOff(s, c, n) ==> n <= DecodeOne(s).length
  {
    forall c: nat, n: nat | BreaksOff(s, c, n) ensures n <= DecodeOne(s).length {
      EncodedBytes(c);
      SameBytes(s, EncodeOne(c), n);
    }
  }

  lemma SameBytes(s: Bytes, e: Bytes, n: nat)
    requires n <= |s| && n <= |e| && e[..n] == s[..n]
    ensures forall i :: 0 <= i < n ==> e[i] == s[i]
  {
    assert forall i :: 0 <= i < n ==> e[i] == e[..n][i] == s[..n][i] == s[i];
  }

  lemma SomeBeginning(s: Bytes, n: nat)
    requires CutOff(s, n)
    ensures exists c :: BreaksOff(s, c, n)
  {
    var a := s[0];
    if a < 0xF0 {
      Encodes3(a, s[1], 0x80);
      assert BreaksOff(s, Join(Join(a as int - 0xE0, s[1]), 0x80), n);
    } else {
      var d: Byte := if n == 2 then 0x80 else s[2];
      Encodes4(a, s[1], d, 0x80);
      assert BreaksOff(s, Join(Join(Join(a as int - 0xF0, s[1]), d), 0x80), n);
    }
  }

  /** Well-formed text is read back exactly. */
  lemma {:induction false} DecodeEncode(s: Chars)
    requires forall i :: 0 <= i < |s| ==> IsScalar(s[i])
    ensures Decode(Encode(s)) == s
  {
    if s == [] {
    } else {
      DecodesFirst(s[0], Encode(s[1..]));
      DecodeEncode(s[1..]);
    }
  }

  lemma DecodesFirst(c: nat, rest: Bytes)
    requires IsScalar(c)
    ensures Decode(EncodeOne(c) + rest) == [c] + Decode(rest)
  {
    DecodesOne(c, rest);
    DecodesAs(EncodeOne(c) + rest, c, |EncodeOne(c)|, rest);
  }

  lemma DecodesAs(s: Bytes, c: nat, n: nat, rest: Bytes)
    requires s != [] && DecodeOne(s) == Decoded(c, n) && s[n..] == rest
    ensures Decode(s) == [c] + Decode(rest)
  {
  }

  /** A newline byte is always a newline, and text on either side of it is read on its own. */
  lemma {:induction false} DecodeAtNewline(x: Bytes, y: Bytes)
    ensures Decode(x + [NL] + y) == Decode(x) + [NL] + Decode(y)
    decreases |x|
  {
    if x == [] {
      assert [] + [NL] + y == [NL] + y;
      DecodesAs([NL] + y, NL, 1, y);
    } else {
      var first := DecodeOne(x);
      SameFirst(x, y);
      DecodeAtNewline(x[first.length..], y);
      DecodesAs(x, first.point, first.length, x[first.length..]);
      DecodesAs(x + [NL] + y, first.point, first.length, x[first.length..] + [NL] + y);
    }
  }

  /** A newline cuts a sequence off just as the end of the text does. */
  lemma SameFirst(x: Bytes, y: Bytes)
    requires x != []
    ensures DecodeOne(x + [NL] + y) == DecodeOne(x)
    ensures (x + [NL] + y)[DecodeOne(x).length..] == x[DecodeOne(x).length..] + [NL] + y
  {
    var all := x + [NL] + y;
    assert forall i :: 0 <= i < |x| ==> all[i] == x[i];
    assert all[|x|] == NL;
  }

  // --- lines ---

  predicate Breaks(c: nat) {
    0x0A <= c <= 0x0D || 0x1C <= c <= 0x1E || c == 0x85 || c == 0x2028 || c == 0x2029
  }

  /** Index of the first line boundary, or the length. */
  function FirstBreak(s: Chars): (k: nat)
    ensures k <= |s|
  {
    if s == [] || Breaks(s[0]) then 0 else FirstBreak(s[1..]) + 1
  }

  /** Length of the boundary at `k`: a carriage return and a newline are one. */
  function BreakLength(s: Chars, k: nat): (n: nat)
    ensures k <= |s| ==> k + n <= |s|
    ensures k < |s| ==> n > 0
  {
    if k >= |s| then 0
    else if s[k] == 0x0D && k + 1 < |s| && s[k + 1] == NL then 2
    else 1
  }

  function FirstLine(s: Chars): Chars {
    s[..FirstBreak(s)]
  }

  function AfterLine(s: Chars): (r: Chars)
    ensures s != [] ==> |r| < |s|
  {
    s[FirstBreak(s) + BreakLength(s, FirstBreak(s))..]
  }

  function SplitLines(s: Chars): (r: seq<Chars>)
    decreases |s|
  {
    if s == [] then [] else [FirstLine(s)] + SplitLines(AfterLine(s))
  }

  lemma {:induction false} FirstBreakIs(s: Chars, k: nat)
    requires k <= |s|
    ensures FirstBreak(s) == k <==> (k < |s| ==> Breaks(s[k])) && forall i :: 0 <= i < k ==> !Breaks(s[i])
  {
    if s != [] && !Breaks(s[0]) {
      if k > 0 {
        FirstBreakIs(s[1..], k - 1);
        assert forall i :: 1 <= i < k ==> s[i] == s[1..][i - 1];
      }
    }
  }

  /** Lines before a newline do not depend on what follows it. */
  lemma {:induction false} SplitAtNewline(a: Chars, b: Chars)
    ensures SplitLines(a + [NL] + b) == SplitLines(a + [NL]) + SplitLines(b)
    decreases |a|
  {
    var rest := FirstLines(a, b);
    if rest.Some? {
      SplitAtNewline(rest.value, b);
    }
    SplitTogether(a + [NL], a + [NL] + b, b);
  }

  lemma SplitTogether(s: Chars, all: Chars, b: Chars)
    requires s != [] && all != [] && FirstLine(all) == FirstLine(s)
    requires SplitLines(AfterLine(all)) == SplitLines(AfterLine(s)) + SplitLines(b)
    ensures SplitLines(all) == SplitLines(s) + SplitLines(b)
  {
    ConsConcat(FirstLine(s), SplitLines(AfterLine(s)), SplitLines(b));
  }

  /** The first line is the same with and without `b`; what is left ends in the newline, or was it. */
  lemma FirstLines(a: Chars, b: Chars) returns (rest: Option<Chars>)
    ensures FirstLine(a + [NL] + b) == FirstLine(a + [NL])
    ensures rest.None? ==> AfterLine(a + [NL]) == [] && AfterLine(a + [NL] + b) == b
    ensures rest.Some? ==> |rest.value| < |a|
    ensures rest.Some? ==> AfterLine(a + [NL]) == rest.value + [NL] && AfterLine(a + [NL] + b) == rest.value + [NL] + b
  {
    var k, n := SameBreak(a, b);
    Suffixes(a, b, k, n);
    rest := if k + n <= |a| then Some(a[k + n..]) else None;
  }

  lemma ConsConcat(line: Chars, p: seq<Chars>, q: seq<Chars>)
    ensures [line] + (p + q) == ([line] + p) + q
  {
  }

  lemma Suffixes(a: Chars, b: Chars, k: nat, n: nat)
    requires k <= |a| && k + n <= |a| + 1
    ensures (a + [NL] + b)[..k] == (a + [NL])[..k]
    ensures k + n <= |a| ==> (a + [NL])[k + n..] == a[k + n..] + [NL]
    ensures k + n <= |a| ==> (a + [NL] + b)[k + n..] == a[k + n..] + [NL] + b
    ensures k + n > |a| ==> (a + [NL])[k + n..] == [] && (a + [NL] + b)[k + n..] == b
  {
  }

  lemma SameBreak(a: Chars, b: Chars) returns (k: nat, n: nat)
    ensures k <= |a| && n > 0 && k + n <= |a| + 1
    ensures FirstBreak(a + [NL]) == k == FirstBreak(a + [NL] + b)
    ensures BreakLength(a + [NL], k) == n == BreakLength(a + [NL] + b, k)
  {
    var s, all := a + [NL], a + [NL] + b;
    assert s[|a|] == NL && Breaks(s[|a|]);
    k := FirstBreak(s);
    n := BreakLength(s, k);
    FirstBreakIs(s, k);
    assert forall i :: 0 <= i < |s| ==> all[i] == s[i];
    FirstBreakIs(all, k);
  }

  // --- what the lines of a text are ---

  predicate NoBreak(line: Chars) {
    forall i :: 0 <= i < |line| ==> !Breaks(line[i])
  }

  predicate IsBoundary(end: Chars) {
    end == [0x0D, NL] || (|end| == 1 && Breaks(end[0]))
  }

  /** `end` is a boundary, and not half of one that goes on in `rest`. */
  predicate IsEnd(end: Chars, rest: Chars) {
    IsBoundary(end) && !(end == [0x0D] && rest != [] && rest[0] == NL)
  }

  /**
   * The text is the lines, each followed by its boundary.  No line has a boundary
   * character in it; a carriage return before a newline is no boundary of its own; and
   * only the last line may go without a boundary, if it is not empty.
   */
  ghost predicate IsSplit(s: Chars, lines: seq<Chars>, ends: seq<Chars>)
    decreases |lines|
  {
    && |lines| == |ends|
    && if lines == [] then s == []
       else
         var line, end := lines[0], ends[0];
         && NoBreak(line) && line + end <= s
         && var rest := s[|line| + |end|..];
         && (if end == [] then line != [] && rest == []
             else IsEnd(end, rest))
         && IsSplit(rest, lines[1..], ends[1..])
  }

  /** The lines of a text are such a split of it, and no other list of lines is. */
  lemma {:induction false} LinesAreSplit(s: Chars) returns (ends: seq<Chars>)
    ensures IsSplit(s, SplitLines(s), ends)
    decreases |s|
  {
    if s == [] {
      ends := [];
    } else {
      var k := FirstBreak(s);
      var n := BreakLength(s, k);
      var more := LinesAreSplit(AfterLine(s));
      FirstBreakIs(s, k);
      BoundaryAt(s, k, n);
      ends := [s[k..k + n]] + more;
      SplitFromFirst(s, s[..k], s[k..k + n], SplitLines(AfterLine(s)), more);
    }
  }

  lemma SplitFromFirst(s: Chars, line: Chars, end: Chars, lines: seq<Chars>, ends: seq<Chars>)
    requires NoBreak(line) && line + end <= s
    requires var rest := s[|line| + |end|..];
      && IsSplit(rest, lines, ends)
      && if end == [] then line != [] && rest == []
         else IsEnd(end, rest)
    ensures IsSplit(s, [line] + lines, [end] + ends)
  {
    assert ([line] + lines)[1..] == lines && ([end] + ends)[1..] == ends;
  }

  lemma BoundaryAt(s: Chars, k: nat, n: nat)
    requires s != [] && k <= |s| && NoBreak(s[..k]) && n == BreakLength(s, k) && (k < |s| ==> Breaks(s[k]))
    ensures k + n <= |s| && s[..k] + s[k..k + n] <= s
    ensures if k == |s| then s[..k] != [] && s[k..k + n] == [] && s[k + n..] == []
            else IsEnd(s[k..k + n], s[k + n..])
  {
    assert s[..k] + s[k..k + n] == s[..k + n];
    if k < |s| {
      BoundaryIs(s, k, n);
    }
  }

  lemma BoundaryIs(s: Chars, k: nat, n: nat)
    requires k < |s| && Breaks(s[k]) && n == BreakLength(s, k)
    ensures IsEnd(s[k..k + n], s[k + n..])
  {
    var end := s[k..k + n];
    assert end[0] == s[k];
    if n == 2 {
      assert end == [s[k], s[k + 1]];
    }
  }

  lemma {:induction false} SplitIsUnique(s: Chars, lines: seq<Chars>, ends: seq<Chars>)
    requires IsSplit(s, lines, ends)
    ensures lines == SplitLines(s)
    decreases |lines|
  {
    if lines == [] {
    } else {
      SplitGoesOn(s, lines, ends);
      SplitIsUnique(AfterLine(s), lines[1..], ends[1..]);
      assert lines == [lines[0]] + lines[1..];
    }
  }

  lemma SplitGoesOn(s: Chars, lines: seq<Chars>, ends: seq<Chars>)
    requires lines != [] && IsSplit(s, lines, ends)
    ensures s != [] && lines[0] == FirstLine(s)
    ensures |lines| == |ends| && IsSplit(AfterLine(s), lines[1..], ends[1..])
  {
    FirstOfSplit(s, lines[0], ends[0], s[|lines[0]| + |ends[0]|..]);
  }

  lemma FirstOfSplit(s: Chars, line: Chars, end: Chars, rest: Chars)
    requires NoBreak(line) && line + end <= s && rest == s[|line| + |end|..]
    requires if end == [] then line != [] && rest == []
             else IsEnd(end, rest)
    ensures s != [] && FirstLine(s) == line && AfterLine(s) == rest
  {
    var k := |line|;
    assert s == line + end + rest;
    assert forall i :: 0 <= i < k ==> s[i] == line[i];
    assert forall i :: 0 <= i < |end| ==> s[k + i] == end[i];
    assert rest != [] ==> s[k + |end|] == rest[0];
    FirstBreakIs(s, k);
    assert s[..k] == line;
  }

  function Newlines(s: Bytes): nat {
    if s == [] then 0 else Newlines(s[..|s| - 1]) + if s[|s| - 1] == NL then 1 else 0
  }

  lemma {:induction false} NewlinesConcat(a: Bytes, b: Bytes)
    ensures Newlines(a + b) == Newlines(a) + Newlines(b)
  {
    if b == [] {
      assert a + b == a;
    } else {
      assert (a + b)[..|a + b| - 1] == a + b[..|b| - 1];
      NewlinesConcat(a, b[..|b| - 1]);
    }
  }

  /** Cut a text at its first newline. */
  lemma {:induction false} FirstNewline(s: Bytes) returns (x: Bytes, y: Bytes)
    requires Newlines(s) > 0
    ensures s == x + [NL] + y && Newlines(y) == Newlines(s) - 1
  {
    assert s == [s[0]] + s[1..];
    NewlinesConcat([s[0]], s[1..]);
    assert [s[0]][..0] == [];
    assert Newlines([s[0]]) == if s[0] == NL then 1 else 0;
    if s[0] == NL {
      x, y := [], s[1..];
    } else {
      var x', y' := FirstNewline(s[1..]);
      x, y := [s[0]] + x', y';
      assert s == [s[0]] + (x' + [NL] + y');
    }
  }

  function Lines(s: Bytes): seq<Chars> {
    SplitLines(Decode(s))
  }

  /** Cutting a file at any newline cuts its list of lines. */
  lemma LinesAtNewline(x: Bytes, y: Bytes)
    ensures Lines(x + [NL] + y) == Lines(x + [NL]) + Lines(y)
    ensures Lines(x + [NL]) != []
  {
    DecodeAtNewline(x, y);
    DecodeAtNewline(x, []);
    assert x + [NL] + [] == x + [NL];
    assert Decode(x) + [NL] + Decode([]) == Decode(x) + [NL];
    SplitAtNewline(Decode(x), Decode(y));
  }

  /** All that matters below about a way of listing lines. */
  ghost predicate CutsAtNewlines(lines: Bytes -> seq<Chars>) {
    forall x: Bytes, y: Bytes :: CutsAt(lines, x, y)
  }

  ghost predicate CutsAt(lines: Bytes -> seq<Chars>, x: Bytes, y: Bytes) {
    lines(x + [NL] + y) == lines(x + [NL]) + lines(y) && lines(x + [NL]) != []
  }

  lemma {:induction false} EnoughLines(lines: Bytes -> seq<Chars>, s: Bytes)
    requires CutsAtNewlines(lines)
    ensures |lines(s)| >= Newlines(s)
    decreases |s|
  {
    if Newlines(s) > 0 {
      var x, y := FirstNewline(s);
      EnoughLines(lines, y);
      assert CutsAt(lines, x, y);
    }
  }

  lemma TailDecides(lines: Bytes -> seq<Chars>, head: Bytes, tail: Bytes, n: nat)
    requires CutsAtNewlines(lines) && Newlines(tail) > n
    ensures Newest(lines(head + tail), n) == Newest(lines(tail), n)
  {
    var x, y := FirstNewline(tail);
    assert head + tail == (head + x) + [NL] + y;
    assert CutsAt(lines, head + x, y) && CutsAt(lines, x, y);
    EnoughLines(lines, y);
    NewestOfEnd(lines(head + x + [NL]), lines(y), n);
    NewestOfEnd(lines(x + [NL]), lines(y), n);
  }

  /** The newest `n` lines of a text are those of any end of it with more than `n` newlines. */
  lemma TailDecidesLines(head: Bytes, tail: Bytes, n: nat)
    requires Newlines(tail) > n
    ensures Newest(Lines(head + tail), n) == Newest(Lines(tail), n)
  {
    forall x: Bytes, y: Bytes ensures CutsAt(Lines, x, y) {
      LinesAtNewline(x, y);
    }
    TailDecides(Lines, head, tail, n);
  }

  lemma NewestOfEnd<T>(a: seq<T>, b: seq<T>, n: nat)
    requires |b| >= n
    ensures Newest(a + b, n) == Newest(b, n)
  {
  }

  /** `lines` are the newest `n` lines of the text, or all of them if there are not so many. */
  ghost predicate NewestLines(s: Chars, n: nat, lines: seq<Chars>) {
    exists before: seq<Chars>, ends: seq<Chars> ::
      IsSplit(s, before + lines, ends) && |lines| <= n && (|lines| == n || before == [])
  }

  lemma NewestLinesAre(s: Chars, n: nat)
    ensures NewestLines(s, n, Newest(SplitLines(s), n))
  {
    var ends := LinesAreSplit(s);
    var all := SplitLines(s);
    var k := |all| - |Newest(all, n)|;
    assert all == all[..k] + Newest(all, n);
  }

  /**
   * The last lines of a file, read backwards in chunks: reading stops as soon as
   * more than `n` newlines have been seen, yet the result is that of the whole window.
   */
  method TailLines(file: Bytes, n: int, maxBytes: int, chunkBytes: nat) returns (lines: seq<Chars>)
    requires chunkBytes > 0
    ensures if n <= 0 || maxBytes <= 0 then lines == [] else
      NewestLines(Decode(if maxBytes < |file| then file[|file| - maxBytes..] else file), n, lines)
  {
    if n <= 0 || maxBytes <= 0 {
      return [];
    }
    var start := if |file| - maxBytes > 0 then |file| - maxBytes else 0;
    var pos, data := ReadBack(file, start, n, chunkBytes);
    EndOfWindow(file, start, pos, n);
    lines := Newest(Lines(data), n);
    NewestLinesAre(Decode(file[start..]), n);
    assert start == 0 ==> file[start..] == file;
  }

  /** Read backwards from the end, down to `start` or until more than `n` newlines have been seen. */
  method ReadBack(file: Bytes, start: nat, n: nat, chunkBytes: nat) returns (pos: nat, data: Bytes)
    requires chunkBytes > 0 && start <= |file|
    ensures start <= pos <= |file| && data == file[pos..]
    ensures pos == start || Newlines(data) > n
  {
    pos := |file|;
    var chunks: seq<Bytes> := [];
    var newlines := 0;
    while pos > start && newlines <= n
      invariant start <= pos <= |file|
      invariant JoinReversed(chunks) == file[pos..]
      invariant newlines == Newlines(file[pos..])
    {
      var size := if chunkBytes < pos - start then chunkBytes else pos - start;
      pos := pos - size;
      var chunk := file[pos..pos + size];
      assert file[pos..] == chunk + file[pos + size..];
      NewlinesConcat(chunk, file[pos + size..]);
      ghost var read := chunks;
      chunks := chunks + [chunk];
      assert chunks[..|chunks| - 1] == read;
      newlines := newlines + Newlines(chunk);
    }
    data := JoinReversed(chunks);
  }

  /** Once more than `n` newlines have been read, or everything, the rest of the window does not matter. */
  lemma EndOfWindow(file: Bytes, start: nat, pos: nat, n: nat)
    requires start <= pos <= |file| && (pos == start || Newlines(file[pos..]) > n)
    ensures Newest(Lines(file[pos..]), n) == Newest(Lines(file[start..]), n)
  {
    assert file[start..] == file[start..pos] + file[pos..];
    if pos > start {
      TailDecidesLines(file[start..pos], file[pos..], n);
    }
  }

  /** The chunks joined, last one first. */
  function JoinReversed(chunks: seq<Bytes>): Bytes {
    if chunks == [] then [] else chunks[|chunks| - 1] + JoinReversed(chunks[..|chunks| - 1])
  }
}
