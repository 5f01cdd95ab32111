/**
 Replies in both directions: what the proxy prints for its client and how it reads an
 upstream's. Reply text comes from outside, so it is sanitised before it is framed.
 */
module Replies {
  import opened Bytes
  import opened Utf8

  /** Section 4.5.3.1.5 of RFC 5321: octets in a reply line, code, separator and CRLF included. */
  const MAX_REPLY_LINE: nat := 512
  const MAX_TEXT: nat := MAX_REPLY_LINE - 4 - 2

  const MAX_UPSTREAM_REPLY_LINE: nat := 4096
  const MAX_REPLY_TOTAL: nat := 65536

  // ----- sanitising

  predicate IsPrintable(b: Byte) {
    b == TAB || 0x20 <= b <= 0x7e
  }

  predicate AllPrintable(s: Octets) {
    forall i | 0 <= i < |s| :: IsPrintable(s[i])
  }

  /** Each run of unprintable bytes as one space. */
  function FoldRuns(s: Octets, inRun: bool): (r: Octets)
    ensures AllPrintable(r)
    decreases |s|
  {
    if s == [] then []
    else FoldOne(s[0], inRun) + FoldRuns(s[1..], !IsPrintable(s[0]))
  }

  function FoldOne(b: Byte, inRun: bool): (r: Octets)
    ensures AllPrintable(r)
  {
    if IsPrintable(b) then [b] else if inRun then [] else [SP]
  }

  function TrimBlanks(s: Octets): (t: Octets)
    ensures t <= s && (t != [] ==> t[|t| - 1] != SP && t[|t| - 1] != TAB)
    ensures forall i | |t| <= i < |s| :: s[i] == SP || s[i] == TAB
  {
    if s != [] && (s[|s| - 1] == SP || s[|s| - 1] == TAB) then TrimBlanks(s[..|s| - 1]) else s
  }

  function Truncate(s: Octets): Octets {
    if |s| > MAX_TEXT then s[..MAX_TEXT - 3] + [DOT, DOT, DOT] else s
  }

  function Sanitized(text: Octets): Octets {
    Truncate(TrimBlanks(FoldRuns(text, false)))
  }

  method Sanitize(text: Octets) returns (clean: Octets)
    ensures clean == Sanitized(text)
  {
    var out: Octets := [];
    var inRun := false;
    for i := 0 to |text|
      invariant out + FoldRuns(text[i..], inRun) == FoldRuns(text, false)
    {
      assert text[i..][1..] == text[i + 1..];
      Assoc(out, FoldOne(text[i], inRun), FoldRuns(text[i + 1..], !IsPrintable(text[i])));
      if IsPrintable(text[i]) {
        out := out + [text[i]];
        inRun := false;
      } else if !inRun {
        out := out + [SP];
        inRun := true;
      } else {
        assert out + [] == out;
      }
    }
    assert text[|text|..] == [] && out + [] == out;
    var trimmed := TrimBlanks(out);
    if |trimmed| > MAX_TEXT {
      clean := trimmed[..MAX_TEXT - 3] + [DOT, DOT, DOT];
    } else {
      clean := trimmed;
    }
  }

  /** What sanitising guarantees: printable, short enough, and no blank at the end. */
  predicate IsClean(s: Octets) {
    AllPrintable(s) && |s| <= MAX_TEXT && (s != [] ==> s[|s| - 1] != SP && s[|s| - 1] != TAB)
  }

  lemma SanitizedIsClean(text: Octets)
    ensures IsClean(Sanitized(text))
  {
  }

  lemma {:induction false} FoldRunsFixes(s: Octets, inRun: bool)
    requires AllPrintable(s)
    ensures FoldRuns(s, inRun) == s
    decreases |s|
  {
    if s != [] {
      FoldRunsFixes(s[1..], false);
    }
  }

  lemma CleanIsFixed(s: Octets)
    requires IsClean(s)
    ensures Sanitized(s) == s
  {
    FoldRunsFixes(s, false);
    assert TrimBlanks(s) == s;
  }

  lemma SanitizeIdempotent(text: Octets)
    ensures Sanitized(Sanitized(text)) == Sanitized(text)
  {
    SanitizedIsClean(text);
    CleanIsFixed(Sanitized(text));
  }

  /** Printable text stays, and a run of other bytes, of any length, is one space. */
  lemma {:induction false} FoldedRun(text: Octets, run: Octets, rest: Octets)
    requires AllPrintable(text) && run != [] && forall i | 0 <= i < |run| :: !IsPrintable(run[i])
    requires rest == [] || IsPrintable(rest[0])
    ensures FoldRuns(text + run + rest, false) == text + [SP] + FoldRuns(rest, false)
    decreases |text|
  {
    if text == [] {
      assert text + run + rest == [run[0]] + (run[1..] + rest);
      InsideRun(run[1..], rest);
    } else {
      assert (text + run + rest)[1..] == text[1..] + run + rest;
      FoldedRun(text[1..], run, rest);
    }
  }

  lemma {:induction false} InsideRun(run: Octets, rest: Octets)
    requires (forall i | 0 <= i < |run| :: !IsPrintable(run[i])) && (rest == [] || IsPrintable(rest[0]))
    ensures FoldRuns(run + rest, true) == FoldRuns(rest, false)
    decreases |run|
  {
    if run == [] {
      assert run + rest == rest;
    } else {
      assert (run + rest)[1..] == run[1..] + rest;
      InsideRun(run[1..], rest);
    }
  }

  /** Blanks at the end go, and what is then too long keeps its beginning and ends in three dots. */
  lemma SanitizedMeans(text: Octets, body: Octets, blanks: Octets)
    requires FoldRuns(text, false) == body + blanks && (body != [] ==> body[|body| - 1] !in {SP, TAB})
    requires forall i | 0 <= i < |blanks| :: blanks[i] in {SP, TAB}
    ensures Sanitized(text) == if |body| <= 506 then body else body[..503] + Ascii("...")
  {
    var s, t := body + blanks, TrimBlanks(body + blanks);
    assert forall i | 0 <= i < |blanks| :: s[|body| + i] == blanks[i];
    assert body != [] ==> s[|body| - 1] == body[|body| - 1];
    assert |t| == |body|;
    assert t == body;
  }

  // ----- printing

  predicate Sendable(code: nat) {
    200 <= code <= 599
  }

  function Digits3(code: nat): Octets
    requires code < 1000
  {
    [0x30 + code / 100, 0x30 + code / 10 % 10, 0x30 + code % 10]
  }

  function ReplyLine(code: nat, last: bool, text: Octets): Octets
    requires Sendable(code)
  {
    Digits3(code) + [if last then SP else DASH] + Sanitized(text) + CRLF
  }

  function Wire(code: nat, lines: seq<Octets>): Octets
    requires Sendable(code)
    decreases |lines|
  {
    if lines == [] then [] else ReplyLine(code, |lines| == 1, lines[0]) + Wire(code, lines[1..])
  }

  datatype Formatted = Formatted(wire: Octets) | InvalidCode(code: nat) | NoLines

  method FormatLine(code: nat, last: bool, text: Octets) returns (line: Octets)
    requires Sendable(code)
    ensures line == ReplyLine(code, last, text)
  {
    var clean := Sanitize(text);
    line := Digits3(code) + [if last then SP else DASH] + clean + CRLF;
  }

  method FormatReply(code: nat, lines: seq<Octets>) returns (r: Formatted)
    ensures !Sendable(code) ==> r == InvalidCode(code)
    ensures Sendable(code) && lines == [] ==> r == NoLines
    ensures Sendable(code) && lines != [] ==> r == Formatted(Wire(code, lines))
  {
    if !Sendable(code) {
      return InvalidCode(code);
    }
    if lines == [] {
      return NoLines;
    }
    var out: Octets := [];
    for i := 0 to |lines|
      invariant out + Wire(code, lines[i..]) == Wire(code, lines)
    {
      assert lines[i..][1..] == lines[i + 1..];
      var line := FormatLine(code, i + 1 == |lines|, lines[i]);
      Assoc(out, line, Wire(code, lines[i + 1..]));
      out := out + line;
    }
    assert lines[|lines|..] == [] && out + [] == out;
    return Formatted(out);
  }

  /** Printable bytes and a CRLF make one ASCII line, which trims back to those bytes. */
  lemma PlainLine(text: Octets)
    requires text != [] && AllPrintable(text)
    ensures IsLine(text + CRLF) && IsAscii(text + CRLF) && TrimEndBreaks(text + CRLF) == text
  {
    TrimCrlf(text);
    assert (text + CRLF)[..|text| + 1] == text + [CR];
  }

  function ReplyText(code: nat, last: bool, text: Octets): (t: Octets)
    requires Sendable(code)
    ensures t != [] && |t| == 4 + |Sanitized(text)| && t[4..] == Sanitized(text)
  {
    Digits3(code) + [if last then SP else DASH] + Sanitized(text)
  }

  lemma ReplyTextPlain(code: nat, last: bool, text: Octets)
    requires Sendable(code)
    ensures AllPrintable(ReplyText(code, last, text)) && |Sanitized(text)| <= MAX_TEXT
  {
    SanitizedIsClean(text);
    var digits := Digits3(code) + [if last then SP else DASH];
    assert AllPrintable(digits);
  }

  lemma ReplyLineForm(code: nat, last: bool, text: Octets)
    requires Sendable(code)
    ensures var line := ReplyLine(code, last, text);
            && IsLine(line) && |line| <= MAX_REPLY_LINE && IsAscii(line)
            && TrimEndBreaks(line) == ReplyText(code, last, text)
  {
    ReplyTextPlain(code, last, text);
    PlainLine(ReplyText(code, last, text));
  }

  /** A line within the limit that ends in CRLF and holds no other CR or LF. */
  predicate IsWireLine(l: Octets) {
    2 <= |l| <= MAX_REPLY_LINE && l[|l| - 2..] == CRLF && forall i | 0 <= i < |l| - 2 :: !IsBreak(l[i])
  }

  lemma ReplyLineIsWireLine(code: nat, last: bool, text: Octets)
    requires Sendable(code)
    ensures IsWireLine(ReplyLine(code, last, text))
  {
    ReplyTextPlain(code, last, text);
    var t := ReplyText(code, last, text);
    assert (t + CRLF)[|t|..] == CRLF;
    assert forall i | 0 <= i < |t| :: (t + CRLF)[i] == t[i];
  }

  predicate AllWireLines(lines: seq<Octets>) {
    forall i | 0 <= i < |lines| :: IsWireLine(lines[i])
  }

  /** One CRLF line for each line of the reply, each within the limit. */
  lemma {:induction false} WireShape(code: nat, lines: seq<Octets>)
    requires Sendable(code)
    ensures |SplitLines(Wire(code, lines))| == |lines|
    ensures AllWireLines(SplitLines(Wire(code, lines)))
    decreases |lines|
  {
    if lines != [] {
      var line := WireStep(code, lines);
      WireShape(code, lines[1..]);
      AllWireLinesCons(line, SplitLines(Wire(code, lines[1..])));
    }
  }

  /** The first line of a reply is a wire line, and the rest is the reply of the rest. */
  lemma WireStep(code: nat, lines: seq<Octets>) returns (line: Octets)
    requires Sendable(code) && lines != []
    ensures IsWireLine(line) && SplitLines(Wire(code, lines)) == [line] + SplitLines(Wire(code, lines[1..]))
  {
    line := ReplyLine(code, |lines| == 1, lines[0]);
    ReplyLineForm(code, |lines| == 1, lines[0]);
    ReplyLineIsWireLine(code, |lines| == 1, lines[0]);
    SplitFirstLine(line, Wire(code, lines[1..]));
  }

  lemma AllWireLinesCons(line: Octets, lines: seq<Octets>)
    requires IsWireLine(line) && AllWireLines(lines)
    ensures AllWireLines([line] + lines)
  {
  }

  // ----- reading

  datatype Reading = Failed | Read(code: nat, text: Octets, raw: Octets)

  function Join(texts: seq<Octets>): Octets
    decreases |texts|
  {
    if texts == [] then [] else if |texts| == 1 then texts[0] else texts[0] + [LF] + Join(texts[1..])
  }

  function NextReplyLine(s: Octets): Octets {
    var n := Find(s, LF);
    var end := if n < |s| then n + 1 else n;
    s[..if end <= MAX_UPSTREAM_REPLY_LINE then end else MAX_UPSTREAM_REPLY_LINE]
  }

  predicate StartsWithCode(line: Octets) {
    |line| >= 3 && IsDigit(line[0]) && IsDigit(line[1]) && IsDigit(line[2])
  }

  function DigitValue(b: Byte): (d: nat)
    requires IsDigit(b)
    ensures d < 10
  {
    b - 0x30
  }

  function CodeOf(line: Octets): (code: nat)
    requires StartsWithCode(line)
    ensures code < 1000
  {
    100 * DigitValue(line[0]) + 10 * DigitValue(line[1]) + DigitValue(line[2])
  }

  /** The text behind the code and its separator; none when that cut would split a character. */
  function TextOf(line: Octets): Octets {
    if |line| >= 4 && (|line| == 4 || !IsTail(line[4])) then line[4..] else []
  }

  /** One reply read off `s`, and what is left of `s` behind it. */
  function ReadReply(s: Octets, raw: Octets, texts: seq<Octets>): (Reading, Octets)
    decreases |s|
  {
    var line := NextReplyLine(s);
    var rest := s[|line|..];
    if line == [] || !IsUtf8(line) then (Failed, rest)
    else if !EndsWith(line, LF) && |line| >= MAX_UPSTREAM_REPLY_LINE then (Failed, rest)
    else if |raw| + |line| > MAX_REPLY_TOTAL then (Failed, rest)
    else
      var trimmed := TrimEndBreaks(line);
      if !StartsWithCode(trimmed) then (Failed, rest)
      else if |trimmed| == 3 || trimmed[3] == SP then
        (Read(CodeOf(trimmed), Join(texts + [TextOf(trimmed)]), raw + line), rest)
      else ReadReply(rest, raw + line, texts + [TextOf(trimmed)])
  }

  /** A text and its line ending: an LF, with a CR in front of it or not. */
  predicate IsReplyLine(line: Octets, text: Octets) {
    (line == text + [LF] || line == text + CRLF) && Free(text, LF) && (text != [] ==> text[|text| - 1] != CR)
  }

  lemma ReplyLineTrims(line: Octets, text: Octets)
    requires IsReplyLine(line, text)
    ensures IsLine(line) && TrimEndBreaks(line) == text
  {
    var t := TrimEndBreaks(line);
    assert line[..|text|] == text;
    assert line[..|line| - 1] == text || line[..|line| - 1] == text + [CR];
    if |text| > 0 {
      assert !IsBreak(line[|text| - 1]);
    }
  }

  /** What a whole line within the limits does to the reading: it fails it, ends it or goes on. */
  lemma ReadsLine(line: Octets, text: Octets, tail: Octets, raw: Octets, texts: seq<Octets>)
    requires IsReplyLine(line, text) && |line| <= MAX_UPSTREAM_REPLY_LINE
    ensures ReadReply(line + tail, raw, texts) ==
            if !IsUtf8(line) || |raw + line| > MAX_REPLY_TOTAL || !StartsWithCode(text) then (Failed, tail)
            else if |text| == 3 || text[3] == SP then (Read(CodeOf(text), Join(texts + [TextOf(text)]), raw + line), tail)
            else ReadReply(tail, raw + line, texts + [TextOf(text)])
  {
    ReplyLineTrims(line, text);
    FindInLine(line, tail);
    assert NextReplyLine(line + tail) == line;
  }

  /** A line with no end within its limit, a line cut off by the end of the stream, and no line at all. */
  lemma ReadsNoLine(s: Octets, raw: Octets, texts: seq<Octets>)
    ensures s == [] ==> ReadReply(s, raw, texts).0 == Failed
    ensures Find(s, LF) >= MAX_UPSTREAM_REPLY_LINE && |s| >= MAX_UPSTREAM_REPLY_LINE ==>
              ReadReply(s, raw, texts).0 == Failed
  {
  }

  method ReadUpstreamReply(stream: Octets) returns (r: Reading, rest: Octets)
    ensures (r, rest) == ReadReply(stream, [], [])
  {
    var raw: Octets := [];
    var texts: seq<Octets> := [];
    rest := stream;
    while true
      invariant ReadReply(rest, raw, texts) == ReadReply(stream, [], [])
      decreases |rest|
    {
      var line := NextReplyLine(rest);
      ghost var before := rest;
      rest := rest[|line|..];
      if line == [] || !IsUtf8(line) {
        return Failed, rest;
      }
      if !EndsWith(line, LF) && |line| >= MAX_UPSTREAM_REPLY_LINE {
        return Failed, rest;
      }
      if |raw + line| > MAX_REPLY_TOTAL {
        return Failed, rest;
      }
      raw := raw + line;
      var trimmed := TrimEndBreaks(line);
      if !StartsWithCode(trimmed) {
        return Failed, rest;
      }
      texts := texts + [TextOf(trimmed)];
      if |trimmed| == 3 || trimmed[3] == SP {
        return Read(CodeOf(trimmed), Join(texts), raw), rest;
      }
    }
  }

  function SanitizedAll(lines: seq<Octets>): seq<Octets>
    decreases |lines|
  {
    if lines == [] then [] else [Sanitized(lines[0])] + SanitizedAll(lines[1..])
  }

  lemma ReadPrintedLine(code: nat, last: bool, text: Octets, tail: Octets, raw: Octets, texts: seq<Octets>)
    requires Sendable(code)
    requires |raw| + |ReplyLine(code, last, text)| <= MAX_REPLY_TOTAL
    ensures var line := ReplyLine(code, last, text);
            ReadReply(line + tail, raw, texts) ==
            if last then (Read(code, Join(texts + [Sanitized(text)]), raw + line), tail)
            else ReadReply(tail, raw + line, texts + [Sanitized(text)])
  {
    var line := ReplyLine(code, last, text);
    ReplyLineForm(code, last, text);
    AsciiIsUtf8(line);
    FindInLine(line, tail);
    assert NextReplyLine(line + tail) == line;
    ReplyTextReads(code, last, text);
  }

  lemma ReplyTextReads(code: nat, last: bool, text: Octets)
    requires Sendable(code)
    ensures var t := ReplyText(code, last, text);
            && StartsWithCode(t) && CodeOf(t) == code && TextOf(t) == Sanitized(text)
            && t[3] == if last then SP else DASH
  {
    var t := ReplyText(code, last, text);
    ReplyTextPlain(code, last, text);
    assert |t| > 4 ==> IsPrintable(t[4]);
  }

  lemma {:induction false} ReadPrinted(code: nat, lines: seq<Octets>, tail: Octets, raw: Octets, texts: seq<Octets>)
    requires Sendable(code) && lines != []
    requires |raw| + |Wire(code, lines)| <= MAX_REPLY_TOTAL
    ensures ReadReply(Wire(code, lines) + tail, raw, texts) ==
            (Read(code, Join(texts + SanitizedAll(lines)), raw + Wire(code, lines)), tail)
    decreases |lines|
  {
    var line := ReplyLine(code, |lines| == 1, lines[0]);
    var more := Wire(code, lines[1..]);
    Assoc(line, more, tail);
    Assoc(raw, line, more);
    Assoc(texts, [Sanitized(lines[0])], SanitizedAll(lines[1..]));
    ReadPrintedLine(code, |lines| == 1, lines[0], more + tail, raw, texts);
    if |lines| == 1 {
      assert lines[1..] == [] && more + tail == tail && line + more == line;
      assert [Sanitized(lines[0])] + [] == [Sanitized(lines[0])];
    } else {
      ReadPrinted(code, lines[1..], tail, raw + line, texts + [Sanitized(lines[0])]);
    }
  }

  /** Reading undoes printing, and leaves exactly what came behind the reply. */
  lemma ReadUndoesFormat(code: nat, lines: seq<Octets>, rest: Octets)
    requires Sendable(code) && lines != [] && |Wire(code, lines)| <= MAX_REPLY_TOTAL
    ensures ReadReply(Wire(code, lines) + rest, [], []) ==
            (Read(code, Join(SanitizedAll(lines)), Wire(code, lines)), rest)
  {
    ReadPrinted(code, lines, rest, [], []);
    Empty(Wire(code, lines));
    Empty(SanitizedAll(lines));
  }
}
