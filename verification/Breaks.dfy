/**
 Line breaks and dot transparency: `normalize_breaks` and `dot_stuff` of the
 header writer, and the receiver of section 4.5.2 of RFC 5321 they are written for.
 */
module Breaks {
  import opened Bytes
  import opened Framing

  /** Every `CR? LF` rewritten to CRLF; a CR with no LF behind it is data. */
  function Normalize(s: Octets): Octets
    decreases |s|
  {
    if s == [] then []
    else if s[0] == LF then CRLF + Normalize(s[1..])
    else if s[0] == CR && |s| > 1 && s[1] == LF then CRLF + Normalize(s[2..])
    else [s[0]] + Normalize(s[1..])
  }

  method NormalizeBreaks(block: Octets) returns (out: Octets)
    ensures out == Normalize(block)
  {
    out := [];
    var i := 0;
    while i < |block|
      invariant i <= |block|
      invariant out + Normalize(block[i..]) == Normalize(block)
    {
      ghost var rest := block[i..];
      NormalizeStep(rest);
      if block[i] == LF {
        Assoc(out, CRLF, Normalize(rest[1..]));
        out := out + CRLF;
        i := i + 1;
        assert block[i..] == rest[1..];
      } else if block[i] == CR && i + 1 < |block| && block[i + 1] == LF {
        Assoc(out, CRLF, Normalize(rest[2..]));
        out := out + CRLF;
        i := i + 2;
        assert block[i..] == rest[2..];
      } else {
        Assoc(out, [block[i]], Normalize(rest[1..]));
        out := out + [block[i]];
        i := i + 1;
        assert block[i..] == rest[1..];
      }
    }
    assert block[i..] == [] && out + [] == out;
  }

  /** A dot that begins a line, doubled. */
  function DotStuff(s: Octets, atLineStart: bool): Octets
    decreases |s|
  {
    if s == [] then [] else StuffOne(s[0], atLineStart) + DotStuff(s[1..], s[0] == LF)
  }

  function StuffOne(b: Byte, atLineStart: bool): Octets {
    if atLineStart && b == DOT then [DOT, DOT] else [b]
  }

  method DotStuffBlock(block: Octets) returns (out: Octets)
    ensures out == DotStuff(block, true)
  {
    out := [];
    var atLineStart := true;
    for i := 0 to |block|
      invariant out + DotStuff(block[i..], atLineStart) == DotStuff(block, true)
    {
      var b := block[i];
      ghost var before, was := out, atLineStart;
      assert block[i..][0] == b && block[i..][1..] == block[i + 1..];
      Assoc(out, StuffOne(b, atLineStart), DotStuff(block[i + 1..], b == LF));
      if atLineStart && b == DOT {
        out := out + [DOT];
      }
      out := out + [b];
      atLineStart := b == LF;
      assert out == before + StuffOne(b, was);
    }
    assert block[|block|..] == [] && out + [] == out;
  }

  /** A dot that begins a line, taken off. */
  function Unstuff(s: Octets, atLineStart: bool): Octets
    decreases |s|
  {
    if s == [] then [] else UnstuffOne(s[0], atLineStart) + Unstuff(s[1..], s[0] == LF)
  }

  function UnstuffOne(b: Byte, atLineStart: bool): Octets {
    if atLineStart && b == DOT then [] else [b]
  }

  // ----- algebra of the two passes

  lemma NormalizeStep(s: Octets)
    requires s != []
    ensures Normalize(s) ==
            if s[0] == CR && |s| > 1 && s[1] == LF then CRLF + Normalize(s[2..])
            else if s[0] == LF then CRLF + Normalize(s[1..])
            else [s[0]] + Normalize(s[1..])
  {
    if |s| == 1 {
      assert s == [s[0]] && s[1..] == [];
    }
  }

  /** Only a CR kept apart from its LF stops the pass from working piecewise. */
  lemma {:induction false} NormalizeConcat(a: Octets, b: Octets)
    requires !(EndsWith(a, CR) && StartsWith(b, LF))
    ensures Normalize(a + b) == Normalize(a) + Normalize(b)
    decreases |a|
  {
    var s := a + b;
    if a == [] {
      assert s == b;
    } else {
      var k := if a[0] == CR && |a| > 1 && a[1] == LF then 2 else 1;
      var head := if k == 2 || a[0] == LF then CRLF else [a[0]];
      assert s[k..] == a[k..] + b;
      NormalizeConcat(a[k..], b);
      Assoc(head, Normalize(a[k..]), Normalize(b));
      assert Normalize(a) == head + Normalize(a[k..]);
      assert Normalize(s) == head + Normalize(s[k..]);
    }
  }

  /** The one exception: the CR and its LF are one break. */
  lemma NormalizeSplitBreak(a: Octets, b: Octets)
    ensures Normalize(a + CRLF + b) == Normalize(a) + CRLF + Normalize(b)
  {
    NormalizeConcat(a, CRLF + b);
    NormalizeStep(CRLF + b);
    assert (CRLF + b)[2..] == b;
    Assoc(a, CRLF, b);
    Assoc(Normalize(a), CRLF, Normalize(b));
  }

  lemma {:induction false} NormalizeNoLf(a: Octets)
    requires Free(a, LF)
    ensures Normalize(a) == a
    decreases |a|
  {
    if a != [] {
      NormalizeNoLf(a[1..]);
    }
  }

  /** Each LF has its CR directly in front of it. */
  predicate Paired(s: Octets) {
    forall i | 0 <= i < |s| && s[i] == LF :: i > 0 && s[i - 1] == CR
  }

  lemma PairedConcat(a: Octets, b: Octets)
    requires Paired(a) && Paired(b)
    ensures Paired(a + b)
  {
    var s := a + b;
    forall i | 0 <= i < |s| && s[i] == LF ensures i > 0 && s[i - 1] == CR {
      if i >= |a| {
        assert b[i - |a|] == LF;
      }
    }
  }

  lemma {:induction false} NormalizePairs(s: Octets)
    ensures Paired(Normalize(s))
    decreases |s|
  {
    if s == [] {
    } else if s[0] == LF {
      NormalizePairs(s[1..]);
      PairedConcat(CRLF, Normalize(s[1..]));
    } else if s[0] == CR && |s| > 1 && s[1] == LF {
      NormalizePairs(s[2..]);
      PairedConcat(CRLF, Normalize(s[2..]));
    } else {
      NormalizePairs(s[1..]);
      PairedConcat([s[0]], Normalize(s[1..]));
    }
  }

  lemma {:induction false} NormalizeFixesPaired(s: Octets)
    requires s == [] || s[0] != LF
    requires forall i | 0 < i < |s| && s[i] == LF :: s[i - 1] == CR
    ensures Normalize(s) == s
    decreases |s|
  {
    if s != [] {
      var k := if s[0] == CR && |s| > 1 && s[1] == LF then 2 else 1;
      PairedBehind(s, k);
      NormalizeFixesPaired(s[k..]);
      NormalizeStep(s);
      assert s == s[..k] + s[k..];
    }
  }

  lemma PairedBehind(s: Octets, k: nat)
    requires s != [] && s[0] != LF && k == if s[0] == CR && |s| > 1 && s[1] == LF then 2 else 1
    requires forall i | 0 < i < |s| && s[i] == LF :: s[i - 1] == CR
    ensures var t := s[k..]; (t == [] || t[0] != LF) && forall i | 0 < i < |t| && t[i] == LF :: t[i - 1] == CR
  {
    var t := s[k..];
    assert t != [] ==> t[0] == s[k];
    assert forall i | 0 < i < |t| && t[i] == LF :: s[i + k] == LF && t[i - 1] == s[i + k - 1];
  }

  /** Bytes already in wire form pass unchanged, so a second pass changes nothing. */
  lemma NormalizeIdempotent(s: Octets)
    ensures Normalize(Normalize(s)) == Normalize(s)
  {
    NormalizePairs(s);
    NormalizeFixesPaired(Normalize(s));
  }

  lemma {:induction false} NormalizeEnd(s: Octets)
    ensures Normalize(s) == [] <==> s == []
    ensures EndsWith(Normalize(s), LF) <==> EndsWith(s, LF)
    ensures StartsWith(s, DOT) <==> StartsWith(Normalize(s), DOT)
    decreases |s|
  {
    if s == [] {
    } else if s[0] == CR && |s| > 1 && s[1] == LF {
      NormalizeEnd(s[2..]);
    } else {
      NormalizeEnd(s[1..]);
    }
  }

  lemma {:induction false} StuffConcat(a: Octets, b: Octets, atLineStart: bool)
    ensures DotStuff(a + b, atLineStart) ==
            DotStuff(a, atLineStart) + DotStuff(b, if a == [] then atLineStart else EndsWith(a, LF))
    decreases |a|
  {
    if a == [] {
      assert a + b == b;
    } else {
      assert (a + b)[0] == a[0] && (a + b)[1..] == a[1..] + b;
      StuffConcat(a[1..], b, a[0] == LF);
      Assoc(StuffOne(a[0], atLineStart), DotStuff(a[1..], a[0] == LF), DotStuff(b, EndsWith(a, LF)));
    }
  }

  /** The two passes commute on every byte string. */
  lemma {:induction false} StuffNormalizeCommute(s: Octets, atLineStart: bool)
    ensures Normalize(DotStuff(s, atLineStart)) == DotStuff(Normalize(s), atLineStart)
    decreases |s|
  {
    if s != [] {
      var k := if s[0] == CR && |s| > 1 && s[1] == LF then 2 else 1;
      var head, t := s[..k], s[k..];
      assert s == head + t;
      StuffNormalizeCommute(t, EndsWith(head, LF));
      StuffHead(head, atLineStart);
      NormalizeConcat(head, t);
      StuffConcat(Normalize(head), Normalize(t), atLineStart);
      StuffConcat(head, t, atLineStart);
      StuffKeepsFirst(t, EndsWith(head, LF));
      NormalizeConcat(DotStuff(head, atLineStart), DotStuff(t, EndsWith(head, LF)));
    }
  }

  lemma StuffHead(head: Octets, atLineStart: bool)
    requires |head| == 1 || head == CRLF
    ensures Normalize(DotStuff(head, atLineStart)) == DotStuff(Normalize(head), atLineStart)
    ensures Normalize(head) != [] && (EndsWith(Normalize(head), LF) <==> EndsWith(head, LF))
    ensures EndsWith(DotStuff(head, atLineStart), CR) <==> head == [CR]
  {
    assert CRLF[1..] == [LF] && [LF][1..] == [] && CRLF[2..] == [];
    assert DotStuff([LF], false) == [LF];
    assert DotStuff(CRLF, atLineStart) == CRLF;
    assert |head| == 1 ==> head == [head[0]] && head[1..] == [];
    assert Normalize(head) == if EndsWith(head, LF) then CRLF else head;
    if head == [DOT] {
      NormalizeNoLf([DOT, DOT]);
    }
  }

  /** Stuffing never brings an LF to the front of bytes that do not start with one. */
  lemma StuffKeepsFirst(s: Octets, atLineStart: bool)
    ensures StartsWith(DotStuff(s, atLineStart), LF) <==> StartsWith(s, LF)
  {
  }

  /** A receiver that takes the dots off again reads what was stuffed. */
  lemma {:induction false} UnstuffUndoesStuff(s: Octets, atLineStart: bool)
    ensures Unstuff(DotStuff(s, atLineStart), atLineStart) == s
    decreases |s|
  {
    if s != [] {
      var rest := DotStuff(s[1..], s[0] == LF);
      UnstuffUndoesStuff(s[1..], s[0] == LF);
      if atLineStart && s[0] == DOT {
        assert [DOT, DOT] + rest == [DOT] + ([DOT] + rest);
        assert ([DOT] + ([DOT] + rest))[1..] == [DOT] + rest;
        assert ([DOT] + rest)[1..] == rest;
      } else {
        assert DotStuff(s, atLineStart) == [s[0]] + rest;
        assert ([s[0]] + rest)[1..] == rest;
      }
    }
  }

  lemma {:induction false} UnstuffConcat(a: Octets, b: Octets, atLineStart: bool)
    ensures Unstuff(a + b, atLineStart) ==
            Unstuff(a, atLineStart) + Unstuff(b, if a == [] then atLineStart else EndsWith(a, LF))
    decreases |a|
  {
    if a == [] {
      assert a + b == b;
    } else {
      assert (a + b)[0] == a[0] && (a + b)[1..] == a[1..] + b;
      UnstuffConcat(a[1..], b, a[0] == LF);
      Assoc(UnstuffOne(a[0], atLineStart), Unstuff(a[1..], a[0] == LF), Unstuff(b, EndsWith(a, LF)));
    }
  }

  /** Taking the stuffing off and fixing the breaks commute as well. */
  lemma {:induction false} UnstuffNormalizeCommute(s: Octets, atLineStart: bool)
    ensures Unstuff(Normalize(s), atLineStart) == Normalize(Unstuff(s, atLineStart))
    decreases |s|
  {
    if s != [] {
      var k := if s[0] == CR && |s| > 1 && s[1] == LF then 2 else 1;
      var head, t := s[..k], s[k..];
      assert s == head + t;
      UnstuffNormalizeCommute(t, EndsWith(head, LF));
      UnstuffHead(head, atLineStart);
      NormalizeConcat(head, t);
      UnstuffConcat(Normalize(head), Normalize(t), atLineStart);
      UnstuffConcat(head, t, atLineStart);
      UnstuffKeepsFirst(t);
      NormalizeConcat(Unstuff(head, atLineStart), Unstuff(t, EndsWith(head, LF)));
    }
  }

  lemma UnstuffHead(head: Octets, atLineStart: bool)
    requires |head| == 1 || head == CRLF
    ensures Unstuff(Normalize(head), atLineStart) == Normalize(Unstuff(head, atLineStart))
    ensures Normalize(head) != [] && (EndsWith(Normalize(head), LF) <==> EndsWith(head, LF))
    ensures EndsWith(Unstuff(head, atLineStart), CR) <==> head == [CR]
  {
    UnstuffCrlf(atLineStart);
    assert |head| == 1 ==> head == [head[0]] && head[1..] == [];
    assert CRLF[2..] == [];
    assert Normalize(head) == if EndsWith(head, LF) then CRLF else head;
  }

  lemma UnstuffCrlf(atLineStart: bool)
    ensures Unstuff(CRLF, atLineStart) == CRLF
  {
    assert CRLF[1..] == [LF];
    assert Unstuff([LF], false) == [LF];
  }

  lemma UnstuffKeepsFirst(s: Octets)
    ensures StartsWith(Unstuff(s, false), LF) <==> StartsWith(s, LF)
  {
  }

  // ----- normalising neither makes nor hides a terminator

  lemma {:induction false} ScanNormalized(p: Position, s: Octets)
    requires !(p == DotCr && StartsWith(s, LF))
    ensures Scan(p, Normalize(s)) == Scan(p, s)
    decreases |s|
  {
    if s == [] {
    } else if s[0] == LF {
      ScanNormalized(Step(p, LF), s[1..]);
      ScanBreak(p, Normalize(s[1..]));
    } else if s[0] == CR && |s| > 1 && s[1] == LF {
      ScanNormalized(Step(Step(p, CR), LF), s[2..]);
      ScanBreak(p, Normalize(s[2..]));
      assert s[1..][1..] == s[2..];
    } else {
      ScanNormalized(Step(p, s[0]), s[1..]);
      assert ([s[0]] + Normalize(s[1..]))[1..] == Normalize(s[1..]);
    }
  }

  lemma ScanBreak(p: Position, t: Octets)
    ensures Scan(p, CRLF + t) == Scan(Step(Step(p, CR), LF), t)
    ensures p != DotCr ==> Step(Step(p, CR), LF) == Step(p, LF)
  {
    assert (CRLF + t)[1..] == [LF] + t;
    assert ([LF] + t)[1..] == t;
  }

  /** The bytes hold a lone-dot line after normalising exactly when they held one before. */
  lemma NormalizeKeepsDotLines(s: Octets)
    ensures NoDotLine(Normalize(s)) <==> NoDotLine(s)
  {
    ScanNormalized(LineStart, s);
    ScanMeans(s);
    ScanMeans(Normalize(s));
  }

  /** Stuffed bytes hold no lone-dot line. */
  lemma {:induction false} ScanStuffed(s: Octets, p: Position)
    requires p == LineStart || p == Mid
    ensures Scan(p, DotStuff(s, p == LineStart)) == if s == [] then p else if EndsWith(s, LF) then LineStart else Mid
    decreases |s|
  {
    if s != [] {
      var q := if s[0] == LF then LineStart else Mid;
      var rest := DotStuff(s[1..], s[0] == LF);
      ScanStuffed(s[1..], q);
      ScanConcat(p, StuffOne(s[0], p == LineStart), rest);
      ScanStuffedHead(p, s[0]);
    }
  }

  lemma ScanStuffedHead(p: Position, b: Byte)
    requires p == LineStart || p == Mid
    ensures Scan(p, StuffOne(b, p == LineStart)) == if b == LF then LineStart else Mid
  {
    ScanLast(p, [], b);
    ScanLast(p, [DOT], DOT);
    assert [] + [b] == [b] && [DOT] + [DOT] == [DOT, DOT];
  }

  lemma StuffedHasNoDotLine(s: Octets)
    ensures NoDotLine(DotStuff(s, true))
  {
    ScanStuffed(s, LineStart);
    ScanMeans(DotStuff(s, true));
  }

  // ----- the far end

  datatype Received = Incomplete | Message(text: Octets, rest: Octets)

  /** The position of the first CRLF, or the length when there is none. */
  function FindCrlf(s: Octets): (n: nat)
    ensures n <= |s|
    ensures n < |s| ==> n + 1 < |s| && s[n] == CR && s[n + 1] == LF
    ensures forall i | 0 <= i < n && i + 1 < |s| :: !(s[i] == CR && s[i + 1] == LF)
  {
    if |s| < 2 then |s|
    else if s[0] == CR && s[1] == LF then 0
    else 1 + FindCrlf(s[1..])
  }

  /**
   A receiver of section 4.5.2 of RFC 5321: lines end in CRLF and in nothing else, a
   line that is a single dot ends the mail, and a leading dot is deleted otherwise.
   */
  function Receive(wire: Octets): Received
    decreases |wire|
  {
    var n := FindCrlf(wire);
    if n == |wire| then Incomplete
    else if wire[..n] == [DOT] then Message([], wire[n + 2..])
    else
      var text := if StartsWith(wire[..n], DOT) then wire[1..n] else wire[..n];
      match Receive(wire[n + 2..])
      case Incomplete => Incomplete
      case Message(more, rest) => Message(text + CRLF + more, rest)
  }

  /** The first CRLF lies behind text without an LF. */
  lemma CrlfBehind(text: Octets, t: Octets)
    requires Free(text, LF)
    ensures FindCrlf(text + CRLF + t) == |text|
    ensures (text + CRLF + t)[..|text|] == text && (text + CRLF + t)[|text| + 2..] == t
  {
    var s := text + CRLF + t;
    assert s[|text|] == CR && s[|text| + 1] == LF;
    assert forall i | 0 <= i < |text| :: s[i] == text[i];
  }

  lemma {:induction false} UnstuffRun(s: Octets)
    requires Free(s, LF)
    ensures Unstuff(s, false) == s
    decreases |s|
  {
    if s != [] {
      UnstuffRun(s[1..]);
    }
  }

  lemma UnstuffLine(line: Octets)
    requires IsLine(line)
    ensures Unstuff(line, true) == if StartsWith(line, DOT) then line[1..] else line
  {
    var run := line[..|line| - 1];
    assert line == run + [LF];
    if run != [] {
      UnstuffConcat(run, [LF], true);
      UnstuffRun(run[1..]);
      assert [LF][1..] == [];
      assert Unstuff([LF], false) == [LF];
    }
  }

  /**
   The receiver reads back exactly one message, with nothing left over: the lines
   with their stuffing taken off.
   */
  lemma {:induction false} ReceiveReadsMessage(lines: Octets, rest: Octets)
    requires Paired(lines) && AtLineStart(lines) && NoDotLine(lines)
    ensures Receive(lines + [DOT, CR, LF] + rest) == Message(Unstuff(lines, true), rest)
    decreases |lines|
  {
    var end: Octets := [DOT, CR, LF];
    if lines == [] {
      assert lines + end + rest == [DOT] + CRLF + rest;
      CrlfBehind([DOT], rest);
    } else {
      var text, t := CutCrlf(lines);
      CrlfLine(text);
      LinesOfNoDotLine(text + CRLF, t);
      ReceiveReadsMessage(t, rest);
      AssocFour(text + CRLF, t, end, rest);
      ReceiveLine(text, t + end + rest);
      UnstuffConcat(text + CRLF, t, true);
      Assoc(Unstuff(text + CRLF, true), Unstuff(t, true), []);
    }
  }

  lemma CutCrlf(lines: Octets) returns (text: Octets, t: Octets)
    requires lines != [] && Paired(lines) && AtLineStart(lines)
    ensures Free(text, LF) && lines == text + CRLF + t && Paired(t) && AtLineStart(t)
  {
    var n := Find(lines, LF);
    assert lines[|lines| - 1] == LF;
    text, t := lines[..n - 1], lines[n + 1..];
    assert lines[n - 1] == CR;
    PairedTail(lines, n);
  }

  lemma CrlfLine(text: Octets)
    requires Free(text, LF)
    ensures IsLine(text + CRLF) && (IsTerminator(text + CRLF) <==> text == [DOT])
  {
    var line := text + CRLF;
    assert line[..|line| - 1] == text + [CR];
    if line == [DOT, CR, LF] {
      assert text == line[..|text|];
    }
    if |line| == 2 {
      assert line[0] == CR;
    }
  }

  lemma ReceiveLine(text: Octets, tail: Octets)
    requires Free(text, LF) && text != [DOT] && Receive(tail).Message?
    ensures Receive(text + CRLF + tail) ==
            Message(Unstuff(text + CRLF, true) + Receive(tail).text, Receive(tail).rest)
  {
    var wire := text + CRLF + tail;
    CrlfBehind(text, tail);
    UnstuffText(text);
    if StartsWith(text, DOT) {
      assert wire[1..|text|] == wire[..|text|][1..];
    }
  }

  lemma UnstuffText(text: Octets)
    requires Free(text, LF)
    ensures Unstuff(text + CRLF, true) == (if StartsWith(text, DOT) then text[1..] else text) + CRLF
  {
    UnstuffConcat(text, CRLF, true);
    UnstuffCrlf(true);
    UnstuffCrlf(false);
    if text != [] {
      UnstuffRun(text[1..]);
    }
  }

  lemma PairedTail(s: Octets, n: nat)
    requires Paired(s) && n < |s| && s[n] == LF
    ensures Paired(s[n + 1..])
    ensures AtLineStart(s) ==> AtLineStart(s[n + 1..])
  {
    var t := s[n + 1..];
    forall i | 0 <= i < |t| && t[i] == LF ensures i > 0 && t[i - 1] == CR {
      assert s[n + 1 + i] == LF && s[n + i] == CR;
    }
  }

  lemma LinesOfNoDotLine(line: Octets, t: Octets)
    requires IsLine(line) && NoDotLine(line + t)
    ensures !IsTerminator(line) && NoDotLine(t)
  {
    ScanMeans(line + t);
    ScanConcat(LineStart, line, t);
    ScanLine(LineStart, line);
    EndedIsFinal(t);
    ScanMeans(t);
  }
}
