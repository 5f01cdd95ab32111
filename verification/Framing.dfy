/**
 Where a message ends: at the first LF-framed line that is exactly `.CRLF` or
 `.LF`. The positional definition (`DotLineAt`, `IsMessageEnd`) is the reference;
 `Scan` is the same question asked one byte at a time, and `AfterMessage` the same
 question asked one line at a time, which is how the session asks it.
 */
module Framing {
  import opened Bytes

  /** The lone dot that ends a message. */
  predicate IsTerminator(line: Octets) {
    line == [DOT, CR, LF] || line == [DOT, LF]
  }

  /** The blank line that ends a header block. */
  predicate IsBlank(line: Octets) {
    line == [CR, LF] || line == [LF]
  }

  /** A lone-dot line lies at `s[i..n]`. */
  predicate DotLineAt(s: Octets, i: nat, n: nat) {
    i <= n <= |s| && AtLineStart(s[..i]) && IsTerminator(s[i..n])
  }

  /** A lone-dot line ends at `n`. */
  ghost predicate DotLineEnds(s: Octets, n: nat) {
    exists i: nat :: DotLineAt(s, i, n)
  }

  /** The message ends at `n`: a lone-dot line ends there, and none ends sooner. */
  ghost predicate IsMessageEnd(s: Octets, n: nat) {
    DotLineEnds(s, n) && forall m: nat | m < n :: !DotLineEnds(s, m)
  }

  /** No prefix of `s` ends in a lone-dot line. */
  ghost predicate NoDotLine(s: Octets) {
    forall n: nat :: !DotLineEnds(s, n)
  }

  // ----- one byte at a time

  datatype Position = LineStart | Dot | DotCr | Mid | Ended

  function Step(p: Position, b: Byte): Position {
    match p
    case Ended => Ended
    case LineStart => if b == DOT then Dot else if b == LF then LineStart else Mid
    case Dot => if b == CR then DotCr else if b == LF then Ended else Mid
    case DotCr => if b == LF then Ended else Mid
    case Mid => if b == LF then LineStart else Mid
  }

  function Scan(p: Position, s: Octets): Position
    decreases |s|
  {
    if s == [] then p else Scan(Step(p, s[0]), s[1..])
  }

  lemma {:induction false} ScanConcat(p: Position, a: Octets, b: Octets)
    ensures Scan(p, a + b) == Scan(Scan(p, a), b)
    decreases |a|
  {
    if a == [] {
      assert a + b == b;
    } else {
      assert (a + b)[1..] == a[1..] + b;
      ScanConcat(Step(p, a[0]), a[1..], b);
    }
  }

  lemma ScanLast(p: Position, s: Octets, b: Byte)
    ensures Scan(p, s + [b]) == Step(Scan(p, s), b)
  {
    ScanConcat(p, s, [b]);
    assert Scan(Step(Scan(p, s), b), [b][1..]) == Step(Scan(p, s), b);
  }

  lemma {:induction false} EndedIsFinal(s: Octets)
    ensures Scan(Ended, s) == Ended
    decreases |s|
  {
    if s != [] {
      EndedIsFinal(s[1..]);
    }
  }

  /** `s` ends in a line that is a dot so far, or a dot and a CR. */
  predicate DotHead(s: Octets) {
    EndsWith(s, DOT) && AtLineStart(s[..|s| - 1])
  }

  predicate DotCrHead(s: Octets) {
    EndsWith(s, CR) && DotHead(s[..|s| - 1])
  }

  /** Where a scan of `s` stands, read off the last bytes of `s`. */
  function PositionOf(s: Octets): Position {
    if AtLineStart(s) then LineStart
    else if DotHead(s) then Dot
    else if DotCrHead(s) then DotCr
    else Mid
  }

  lemma DotLineInPrefix(s: Octets, m: nat, n: nat)
    requires n <= m <= |s|
    ensures DotLineEnds(s[..m], n) <==> DotLineEnds(s, n)
  {
    forall i: nat | i <= n ensures DotLineAt(s[..m], i, n) <==> DotLineAt(s, i, n) {
      assert s[..m][..i] == s[..i];
      assert s[..m][i..n] == s[i..n];
    }
    if DotLineEnds(s, n) {
      var i: nat :| DotLineAt(s, i, n);
      assert DotLineAt(s[..m], i, n);
    }
    if DotLineEnds(s[..m], n) {
      var i: nat :| DotLineAt(s[..m], i, n);
      assert DotLineAt(s, i, n);
    }
  }

  lemma HeadMakesDotLine(t: Octets)
    requires DotHead(t) || DotCrHead(t)
    ensures DotLineEnds(t + [LF], |t| + 1)
  {
    var s := t + [LF];
    var i := if DotHead(t) then |t| - 1 else |t| - 2;
    assert s[..i] == t[..i];
    if DotHead(t) {
      assert s[i..] == [DOT, LF];
    } else {
      assert t[..|t| - 1][..i] == t[..i];
      assert s[i..] == [DOT, CR, LF];
    }
    assert DotLineAt(s, i, |t| + 1);
  }

  lemma DotLineHasHead(t: Octets, b: Byte, i: nat)
    requires DotLineAt(t + [b], i, |t| + 1)
    ensures b == LF && (DotHead(t) || DotCrHead(t))
  {
    var s := t + [b];
    var line := s[i..|t| + 1];
    assert line[|line| - 1] == b && line[0] == s[i];
    assert s[..i] == t[..i];
    if |line| == 2 {
      assert t[..|t| - 1] == s[..i];
    } else {
      assert line[1] == s[i + 1] == t[|t| - 1];
      assert t[..|t| - 1][..|t| - 2] == s[..i];
    }
  }

  /** The next byte ends a lone-dot line exactly when the scan says so. */
  lemma PositionStep(t: Octets, b: Byte)
    ensures DotLineEnds(t + [b], |t| + 1) <==> Step(PositionOf(t), b) == Ended
    ensures Step(PositionOf(t), b) != Ended ==> PositionOf(t + [b]) == Step(PositionOf(t), b)
  {
    var s := t + [b];
    assert s[..|t|] == t;
    if b == LF && (DotHead(t) || DotCrHead(t)) {
      HeadMakesDotLine(t);
    }
    if DotLineEnds(s, |s|) {
      var i: nat :| DotLineAt(s, i, |s|);
      DotLineHasHead(t, b, i);
    }
  }

  /**
   The scan has ended exactly when some prefix ends in a lone-dot line; otherwise
   it knows where in the line it stands.
   */
  lemma {:induction false} ScanMeans(s: Octets)
    ensures Scan(LineStart, s) == Ended <==> !NoDotLine(s)
    ensures Scan(LineStart, s) != Ended ==> Scan(LineStart, s) == PositionOf(s)
    decreases |s|
  {
    if s == [] {
      assert forall i: nat, n: nat :: !DotLineAt(s, i, n);
    } else {
      var t, b := s[..|s| - 1], s[|s| - 1];
      assert s == t + [b];
      ScanMeans(t);
      ScanLast(LineStart, t, b);
      PositionStep(t, b);
      NoDotLineStep(s);
    }
  }

  lemma NoDotLineStep(s: Octets)
    requires s != []
    ensures NoDotLine(s) <==> NoDotLine(s[..|s| - 1]) && !DotLineEnds(s, |s|)
  {
    var t := s[..|s| - 1];
    forall n: nat | n <= |t| ensures DotLineEnds(t, n) <==> DotLineEnds(s, n) {
      DotLineInPrefix(s, |t|, n);
    }
    forall n: nat | n > |s| ensures !DotLineEnds(s, n) {
    }
    forall n: nat | n > |t| ensures !DotLineEnds(t, n) {
    }
  }

  // ----- one line at a time

  /** An LF-free run from a line start is mid-line once it is longer than `.CR`. */
  lemma {:induction false} ScanRun(p: Position, run: Octets)
    requires Free(run, LF)
    requires p == LineStart || p == Mid
    ensures p == Mid || |run| > 2 ==> Scan(p, run) == Mid
    ensures run == [] ==> Scan(p, run) == p
    ensures p == LineStart && run == [DOT] ==> Scan(p, run) == Dot
    ensures p == LineStart && run == [DOT, CR] ==> Scan(p, run) == DotCr
    ensures p == LineStart && run != [] && run != [DOT] && run != [DOT, CR] ==> Scan(p, run) == Mid
    decreases |run|
  {
    if run != [] {
      var last := |run| - 1;
      ScanRun(p, run[..last]);
      assert run == run[..last] + [run[last]];
      ScanLast(p, run[..last], run[last]);
    }
  }

  /** A complete line ends the message exactly when it is the lone dot at a line start. */
  lemma ScanLine(p: Position, line: Octets)
    requires IsLine(line)
    requires p == LineStart || p == Mid
    ensures Scan(p, line) == if p == LineStart && IsTerminator(line) then Ended else LineStart
  {
    var run := line[..|line| - 1];
    assert line == run + [LF];
    ScanRun(p, run);
    ScanLast(p, run, LF);
  }

  /** What follows the terminator, when the bytes begin a line (or do not). */
  function AfterMessage(s: Octets, atLineStart: bool): (rest: Option<Octets>)
    ensures rest.Some? ==> |rest.value| < |s|
    decreases |s|
  {
    var n := Find(s, LF);
    if n == |s| then None
    else if atLineStart && IsTerminator(s[..n + 1]) then Some(s[n + 1..])
    else AfterMessage(s[n + 1..], true)
  }

  function PositionAt(atLineStart: bool): Position {
    if atLineStart then LineStart else Mid
  }

  lemma AfterLine(line: Octets, s: Octets, atLineStart: bool)
    requires IsLine(line)
    ensures AfterMessage(line + s, atLineStart) ==
            if atLineStart && IsTerminator(line) then Some(s) else AfterMessage(s, true)
  {
    FindInLine(line, s);
  }

  /**
   The tail of a line whose head was taken away: LF-free and, at a line start,
   longer than two bytes, so that no terminator can hide in it.
   */
  lemma AfterPartial(part: Octets, s: Octets, atLineStart: bool)
    requires Free(part, LF) && |part| > 2
    ensures AfterMessage(part + s, atLineStart) == AfterMessage(s, false)
  {
    var n := Find(s, LF);
    if n == |s| {
      FindSkips(part, s, LF);
    } else {
      var head, rest := s[..n + 1], s[n + 1..];
      assert s == head + rest && head[..n] == s[..n];
      JoinLine(part, head);
      AfterLine(part + head, rest, atLineStart);
      AfterLine(head, rest, false);
      Assoc(part, head, rest);
    }
  }

  lemma JoinLine(part: Octets, line: Octets)
    requires Free(part, LF) && IsLine(line)
    ensures IsLine(part + line)
  {
    assert (part + line)[..|part + line| - 1] == part + line[..|line| - 1];
  }

  /** The scan of `s` from `p` ends exactly where `rest` begins. */
  ghost predicate EndsBefore(p: Position, s: Octets, rest: Octets) {
    && |rest| < |s| && s[|s| - |rest|..] == rest
    && Scan(p, s[..|s| - |rest|]) == Ended
    && Scan(p, s[..|s| - |rest| - 1]) != Ended
  }

  lemma EndsBehindLine(p: Position, line: Octets, t: Octets, rest: Octets)
    requires Scan(p, line) == LineStart && EndsBefore(LineStart, t, rest)
    ensures EndsBefore(p, line + t, rest)
  {
    var s, k := line + t, |t| - |rest|;
    assert s[..|s| - |rest|] == line + t[..k];
    assert s[..|s| - |rest| - 1] == line + t[..k - 1];
    ScanConcat(p, line, t[..k]);
    ScanConcat(p, line, t[..k - 1]);
    assert s[|s| - |rest|..] == t[k..];
  }

  /** The line reader agrees with the byte scan: same end, nothing sooner. */
  lemma {:induction false} AfterMeansScan(s: Octets, atLineStart: bool)
    ensures var r := AfterMessage(s, atLineStart);
            var p := PositionAt(atLineStart);
            if r.None? then Scan(p, s) != Ended else EndsBefore(p, s, r.value)
    decreases |s|
  {
    var n := Find(s, LF);
    var p := PositionAt(atLineStart);
    if n == |s| {
      ScanRun(p, s);
    } else {
      var line, t := s[..n + 1], s[n + 1..];
      assert s == line + t;
      ScanLine(p, line);
      if atLineStart && IsTerminator(line) {
        assert s[..n] == line[..n];
        ScanRun(p, line[..n]);
      } else {
        AfterMeansScan(t, true);
        ScanConcat(p, line, t);
        if AfterMessage(t, true).Some? {
          EndsBehindLine(p, line, t, AfterMessage(t, true).value);
        }
      }
    }
  }

  /** A prefix of bytes whose scan has not ended has not ended either. */
  /** What is in front of the rest is one whole message. */
  lemma {:induction false} AfterCuts(s: Octets, atLineStart: bool)
    requires AfterMessage(s, atLineStart).Some?
    ensures var r := AfterMessage(s, atLineStart).value;
            && |r| < |s| && s == s[..|s| - |r|] + r && AfterMessage(s[..|s| - |r|], atLineStart) == Some([])
    decreases |s|
  {
    var n := Find(s, LF);
    var line, t := s[..n + 1], s[n + 1..];
    assert s == line + t && line[..n] == s[..n];
    AfterLine(line, t, atLineStart);
    if atLineStart && IsTerminator(line) {
      CutBehind(line, [], t, atLineStart);
    } else {
      AfterCuts(t, true);
      var r := AfterMessage(t, true).value;
      CutBehind(line, t[..|t| - |r|], r, atLineStart);
    }
  }

  lemma CutBehind(line: Octets, m: Octets, r: Octets, atLineStart: bool)
    requires IsLine(line)
    requires if atLineStart && IsTerminator(line) then m == [] else AfterMessage(m, true) == Some([])
    ensures var s := line + (m + r);
            s[..|s| - |r|] == line + m && s == (line + m) + r && AfterMessage(line + m, atLineStart) == Some([])
  {
    Assoc(line, m, r);
    AfterLine(line, m, atLineStart);
  }

  lemma ScanPrefix(p: Position, s: Octets, n: nat)
    requires n <= |s| && Scan(p, s) != Ended
    ensures Scan(p, s[..n]) != Ended
  {
    assert s == s[..n] + s[n..];
    ScanConcat(p, s[..n], s[n..]);
    EndedIsFinal(s[n..]);
  }

  lemma NoDotLinePrefix(s: Octets, n: nat)
    requires n <= |s| && NoDotLine(s)
    ensures NoDotLine(s[..n])
  {
    ScanMeans(s);
    ScanPrefix(LineStart, s, n);
    ScanMeans(s[..n]);
  }

  /**
   The line reader finds the message end where the positional definition puts it,
   and finds none exactly when there is none.
   */
  lemma AfterMessageIsExact(s: Octets)
    ensures AfterMessage(s, true).None? <==> NoDotLine(s)
    ensures AfterMessage(s, true).Some? ==>
              var r := AfterMessage(s, true).value;
              s[|s| - |r|..] == r && IsMessageEnd(s, |s| - |r|)
  {
    AfterMeansScan(s, true);
    ScanMeans(s);
    var r := AfterMessage(s, true);
    if r.Some? {
      var n := |s| - |r.value|;
      ScanMeans(s[..n]);
      ScanMeans(s[..n - 1]);
      var m: nat :| DotLineEnds(s[..n], m);
      forall k: nat | k < n ensures !DotLineEnds(s, k) {
        DotLineInPrefix(s, n - 1, k);
      }
      DotLineInPrefix(s, n, m);
      EndedIsFinal(r.value);
      ScanConcat(LineStart, s[..n], r.value);
    }
  }
}
