/**
 The byte strings every part of the proxy works on, with the few searches and
 the ASCII case folding the parsers share.
 */
module Bytes {

  type Byte = b: int | 0 <= b < 256

  type Octets = seq<Byte>

  datatype Option<+T> = None | Some(value: T)

  const TAB: Byte := 0x09
  const LF: Byte := 0x0a
  const VT: Byte := 0x0b
  const FF: Byte := 0x0c
  const CR: Byte := 0x0d
  const SP: Byte := 0x20
  const DASH: Byte := 0x2d
  const DOT: Byte := 0x2e
  const COLON: Byte := 0x3a
  const LT: Byte := 0x3c
  const EQUALS: Byte := 0x3d
  const GT: Byte := 0x3e

  const CRLF: Octets := [CR, LF]

  /** The position of the first `b`, or the length of `s` when there is none. */
  function Find(s: Octets, b: Byte): (n: nat)
    ensures n <= |s|
    ensures forall i | 0 <= i < n :: s[i] != b
    ensures n < |s| ==> s[n] == b
  {
    if s == [] || s[0] == b then 0 else 1 + Find(s[1..], b)
  }

  predicate Free(s: Octets, b: Byte) {
    forall i | 0 <= i < |s| :: s[i] != b
  }

  /** `s` is one line: its only LF is its last byte. */
  predicate IsLine(s: Octets) {
    |s| > 0 && s[|s| - 1] == LF && Free(s[..|s| - 1], LF)
  }

  predicate EndsWith(s: Octets, b: Byte) {
    |s| > 0 && s[|s| - 1] == b
  }

  predicate StartsWith(s: Octets, b: Byte) {
    |s| > 0 && s[0] == b
  }

  /** The next byte begins a line: nothing came before it, or an LF did. */
  predicate AtLineStart(s: Octets) {
    s == [] || s[|s| - 1] == LF
  }

  predicate IsBreak(b: Byte) {
    b == CR || b == LF
  }

  /** `line` without the breaks it ends in. */
  function TrimEndBreaks(line: Octets): (t: Octets)
    ensures t <= line && (t != [] ==> !IsBreak(t[|t| - 1]))
    ensures forall i | |t| <= i < |line| :: IsBreak(line[i])
  {
    if line != [] && IsBreak(line[|line| - 1]) then TrimEndBreaks(line[..|line| - 1]) else line
  }

  predicate IsDigit(b: Byte) {
    0x30 <= b <= 0x39
  }

  predicate IsAlpha(b: Byte) {
    0x41 <= b <= 0x5a || 0x61 <= b <= 0x7a
  }

  function Upper(b: Byte): Byte {
    if 0x61 <= b <= 0x7a then b - 0x20 else b
  }

  function UpperAll(s: Octets): (u: Octets)
    ensures |u| == |s|
    ensures forall i | 0 <= i < |s| :: u[i] == Upper(s[i])
  {
    seq(|s|, i requires 0 <= i < |s| => Upper(s[i]))
  }

  /** Equality under ASCII case folding. */
  predicate SameFolded(a: Octets, b: Octets) {
    UpperAll(a) == UpperAll(b)
  }

  /** That is: byte for byte the same, or the two cases of one letter. */
  lemma FoldedMeans(a: Octets, b: Octets)
    ensures SameFolded(a, b) <==>
            |a| == |b| && forall i | 0 <= i < |a| :: a[i] == b[i] || (IsAlpha(a[i]) && IsAlpha(b[i]) && a[i] % 0x20 == b[i] % 0x20)
  {
    if SameFolded(a, b) {
      assert forall i | 0 <= i < |a| :: Upper(a[i]) == UpperAll(a)[i] == UpperAll(b)[i] == Upper(b[i]);
    }
  }

  /** The bytes of an ASCII text. */
  function Ascii(text: string): (s: Octets)
    requires forall i | 0 <= i < |text| :: text[i] < 128 as char
    ensures |s| == |text| && forall i | 0 <= i < |text| :: s[i] == text[i] as int
  {
    seq(|text|, i requires 0 <= i < |text| => text[i] as int)
  }

  lemma Assoc<T>(a: seq<T>, b: seq<T>, c: seq<T>)
    ensures a + (b + c) == a + b + c
  {
  }

  lemma Empty<T>(a: seq<T>)
    ensures [] + a == a
  {
  }

  lemma AssocFour<T>(a: seq<T>, b: seq<T>, c: seq<T>, d: seq<T>)
    ensures a + b + c + d == a + (b + c + d)
  {
  }

  /** Bytes that end in an LF, cut behind their first line. */
  lemma CutFirst(s: Octets) returns (line: Octets, t: Octets)
    requires EndsWith(s, LF)
    ensures IsLine(line) && s == line + t && AtLineStart(t) && |t| < |s| && line[0] == s[0]
  {
    var n := Find(s, LF);
    assert s[|s| - 1] == LF;
    line, t := s[..n + 1], s[n + 1..];
    assert line[..n] == s[..n];
  }

  /** A search that starts with bytes other than `b` goes on behind them. */
  lemma FindSkips(p: Octets, s: Octets, b: Byte)
    requires Free(p, b)
    ensures Find(p + s, b) == |p| + Find(s, b)
  {
    var t, m := p + s, Find(s, b);
    assert forall i | 0 <= i < |p| :: t[i] == p[i];
    assert forall i | 0 <= i < |s| :: s[i] == t[|p| + i];
    assert m < |s| ==> t[|p| + m] == b;
  }

  /** A complete line in front is the first line found. */
  lemma FindInLine(line: Octets, s: Octets)
    requires IsLine(line)
    ensures Find(line + s, LF) == |line| - 1
    ensures (line + s)[..|line|] == line && (line + s)[|line|..] == s
  {
    var p := line[..|line| - 1];
    assert line + s == p + ([LF] + s);
    FindSkips(p, [LF] + s, LF);
  }

  /** The lines of `s`, each with its LF; the last one may lack it. */
  function SplitLines(s: Octets): seq<Octets>
    decreases |s|
  {
    if s == [] then []
    else
      var n := Find(s, LF);
      if n == |s| then [s] else [s[..n + 1]] + SplitLines(s[n + 1..])
  }

  lemma TrimCrlf(line: Octets)
    requires line != [] && !IsBreak(line[|line| - 1])
    ensures TrimEndBreaks(line + CRLF) == line
  {
    var withCr := line + [CR];
    assert (line + CRLF)[..|line| + 1] == withCr && withCr[..|line|] == line;
    assert TrimEndBreaks(withCr) == line;
  }

  lemma SplitFirstLine(line: Octets, s: Octets)
    requires IsLine(line)
    ensures SplitLines(line + s) == [line] + SplitLines(s)
  {
    FindInLine(line, s);
  }
}
