/**
 The two halves of a DATA payload: `HeaderCollector` holds the header block and
 bounds it, `BodyFramer` stages the body on its way to the upstream.
 */
module Data {
  import opened Bytes
  import opened Framing
  import opened Breaks

  /** The body goes upstream in pieces of at least this size. */
  const WRITE_CHUNK: nat := 65536

  // ----- the header block

  datatype HeaderEvent = Complete(block: Octets) | Terminator | TooLarge

  function UnstuffedLine(line: Octets): Octets {
    if StartsWith(line, DOT) then line[1..] else line
  }

  class HeaderCollector {
    const cap: nat
    var headers: Octets
    var size: nat
    var tooLarge: bool
    var delivered: bool

    ghost predicate Valid()
      reads this
    {
      && (tooLarge || delivered ==> headers == [])
      && (!tooLarge ==> size <= cap)
      && (!tooLarge && !delivered ==> size == |headers|)
    }

    predicate Collecting()
      reads this
    {
      !tooLarge && !delivered
    }

    constructor (maxHeaderSize: nat)
      ensures Valid() && Collecting() && headers == [] && cap == maxHeaderSize
    {
      cap := maxHeaderSize;
      headers, size, tooLarge, delivered := [], 0, false, false;
    }

    method PushLine(line: Octets) returns (event: Option<HeaderEvent>)
      requires Valid()
      modifies this
      ensures Valid()
      ensures old(tooLarge) ==> event == Some(TooLarge) && unchanged(this)
      ensures !old(tooLarge) && IsTerminator(line) ==> event == Some(Terminator) && unchanged(this)
      ensures old(delivered) && !old(tooLarge) && !IsTerminator(line) ==> event == None && unchanged(this)
      ensures old(Collecting()) && IsBlank(line) ==>
                event == Some(Complete(old(headers))) && delivered && !tooLarge
      ensures old(Collecting()) && !IsTerminator(line) && !IsBlank(line) ==>
                if |old(headers)| + |UnstuffedLine(line)| > cap then
                  event == Some(TooLarge) && tooLarge
                else
                  event == None && Collecting() && headers == old(headers) + UnstuffedLine(line)
    {
      if tooLarge {
        return Some(TooLarge);
      }
      if IsTerminator(line) {
        return Some(Terminator);
      }
      if delivered {
        return None;
      }
      if IsBlank(line) {
        delivered := true;
        event := Some(Complete(headers));
        headers := [];
        return;
      }
      var unstuffed := UnstuffedLine(line);
      size := size + |unstuffed|;
      if size > cap {
        MarkTooLarge();
        return Some(TooLarge);
      }
      headers := headers + unstuffed;
      return None;
    }

    /** Bytes still allowed, or nothing once the collector is discarding. */
    function RemainingCapacity(): (left: Option<nat>)
      requires Valid()
      reads this
      ensures left.None? <==> tooLarge
      ensures Collecting() ==> left == Some(cap - |headers|)
    {
      if tooLarge then None else Some(cap - size)
    }

    method MarkTooLarge()
      modifies this
      ensures Valid() && tooLarge && delivered == old(delivered) && size == old(size)
    {
      tooLarge := true;
      headers := [];
    }

    /** The block of a message that ended before any blank line, handed over once. */
    method TakePending() returns (block: Option<Octets>)
      requires Valid()
      modifies this
      ensures Valid() && !Collecting()
      ensures block == if old(Collecting()) then Some(old(headers)) else None
      ensures tooLarge == old(tooLarge)
    {
      if delivered || tooLarge {
        return None;
      }
      delivered := true;
      block := Some(headers);
      headers := [];
    }
  }

  /** What a header block is, read off the whole byte stream and nothing else. */
  datatype HeaderVerdict =
    | Unfinished
    | Block(block: Octets, rest: Octets)
    | HeadersOnly(block: Octets, rest: Octets)
    | OverCap

  function Collect(s: Octets, cap: nat, soFar: Octets): HeaderVerdict
    decreases |s|
  {
    var n := Find(s, LF);
    if n == |s| then Unfinished
    else
      var line, rest := s[..n + 1], s[n + 1..];
      if IsTerminator(line) then HeadersOnly(soFar, rest)
      else if IsBlank(line) then Block(soFar, rest)
      else if |soFar| + |UnstuffedLine(line)| > cap then OverCap
      else Collect(rest, cap, soFar + UnstuffedLine(line))
  }

  lemma CollectLine(line: Octets, s: Octets, cap: nat, soFar: Octets)
    requires IsLine(line)
    ensures Collect(line + s, cap, soFar) ==
            if IsTerminator(line) then HeadersOnly(soFar, s)
            else if IsBlank(line) then Block(soFar, s)
            else if |soFar| + |UnstuffedLine(line)| > cap then OverCap
            else Collect(s, cap, soFar + UnstuffedLine(line))
  {
    FindInLine(line, s);
  }

  /**
   The two bytes of slack: an unfinished line that outgrew what is left of the cap by
   more than two bytes is no half-read terminator and no half-read blank line, and
   however it ends it crosses the cap.
   */
  lemma OverlongIsOverCap(part: Octets, s: Octets, cap: nat, soFar: Octets)
    requires Free(part, LF) && |soFar| <= cap
    requires |part| > cap - |soFar| + 2
    ensures Collect(part + s, cap, soFar) == if Free(s, LF) then Unfinished else OverCap
  {
    FindSkips(part, s, LF);
    if !Free(s, LF) {
      var line := (part + s)[..Find(part + s, LF) + 1];
      assert |line| > 3 && !IsTerminator(line) && !IsBlank(line);
      assert |UnstuffedLine(line)| >= |line| - 1;
    }
  }

  /** Reading headers does not move the end of the message. */
  lemma {:induction false} CollectKeepsEnd(s: Octets, cap: nat, soFar: Octets)
    ensures var v := Collect(s, cap, soFar);
            && (v.Block? ==> AfterMessage(s, true) == AfterMessage(v.rest, true))
            && (v.HeadersOnly? ==> AfterMessage(s, true) == Some(v.rest))
    decreases |s|
  {
    var n := Find(s, LF);
    if n < |s| {
      var line, rest := s[..n + 1], s[n + 1..];
      assert s == line + rest && line[..n] == s[..n];
      CollectLine(line, rest, cap, soFar);
      AfterLine(line, rest, true);
      CollectKeepsEnd(rest, cap, soFar + UnstuffedLine(line));
    }
  }

  /** No line of `s` is blank. */
  predicate NoBlankLine(s: Octets)
    decreases |s|
  {
    var n := Find(s, LF);
    n == |s| || (!IsBlank(s[..n + 1]) && NoBlankLine(s[n + 1..]))
  }

  /** The header lines `lines`, the line `end` behind them and the rest explain verdict `v` on `s`. */
  ghost predicate Explains(s: Octets, cap: nat, soFar: Octets, v: HeaderVerdict, lines: Octets, end: Octets)
    requires v.Block? || v.HeadersOnly?
  {
    && s == lines + end + v.rest
    && (if v.Block? then IsBlank(end) else IsTerminator(end))
    && AtLineStart(lines) && NoDotLine(lines) && NoBlankLine(lines)
    && v.block == soFar + Unstuff(lines, true) && |v.block| <= cap
  }

  /**
   What the verdict means: the stream is the header lines, the line that ends them and
   the rest; the block is the header lines with their stuffing taken off, within the cap.
   */
  lemma {:induction false} CollectMeans(s: Octets, cap: nat, soFar: Octets)
    returns (lines: Octets, end: Octets)
    requires |soFar| <= cap
    ensures var v := Collect(s, cap, soFar);
            v.Block? || v.HeadersOnly? ==> Explains(s, cap, soFar, v, lines, end)
    decreases |s|
  {
    lines, end := [], [];
    var n := Find(s, LF);
    if n < |s| {
      var line, t := s[..n + 1], s[n + 1..];
      assert s == line + t && line[..n] == s[..n];
      CollectLine(line, t, cap, soFar);
      if IsTerminator(line) || IsBlank(line) {
        end := line;
        ScanMeans(lines);
        assert [] + end + t == end + t && soFar + [] == soFar;
      } else if |soFar| + |UnstuffedLine(line)| <= cap {
        var more;
        more, end := CollectMeans(t, cap, soFar + UnstuffedLine(line));
        lines := line + more;
        var v := Collect(t, cap, soFar + UnstuffedLine(line));
        if v.Block? || v.HeadersOnly? {
          ExplainsLine(line, t, cap, soFar, v, more, end);
        }
      }
    }
  }

  lemma ExplainsLine(line: Octets, t: Octets, cap: nat, soFar: Octets, v: HeaderVerdict, lines: Octets, end: Octets)
    requires v.Block? || v.HeadersOnly?
    requires IsLine(line) && !IsTerminator(line) && !IsBlank(line)
    requires Explains(t, cap, soFar + UnstuffedLine(line), v, lines, end)
    ensures Explains(line + t, cap, soFar, v, line + lines, end)
  {
    PrependLine(line, lines);
    Unstuffing(line, lines, soFar);
    Assoc(line, lines, end);
    Assoc(line, lines + end, v.rest);
  }

  lemma PrependLine(line: Octets, lines: Octets)
    requires IsLine(line) && !IsTerminator(line) && !IsBlank(line)
    requires AtLineStart(lines) && NoDotLine(lines) && NoBlankLine(lines)
    ensures AtLineStart(line + lines) && NoDotLine(line + lines) && NoBlankLine(line + lines)
  {
    FindInLine(line, lines);
    ScanMeans(lines);
    ScanLine(LineStart, line);
    ScanConcat(LineStart, line, lines);
    ScanMeans(line + lines);
  }

  lemma Unstuffing(line: Octets, lines: Octets, soFar: Octets)
    requires IsLine(line)
    ensures soFar + Unstuff(line + lines, true) == soFar + UnstuffedLine(line) + Unstuff(lines, true)
  {
    UnstuffLine(line);
    UnstuffConcat(line, lines, true);
  }

  // ----- the body

  datatype BodyPiece = Pending | Chunk(bytes: Octets) | Terminated

  /** What is staged for the upstream, and whether a CR waits for its next byte. */
  datatype Staged = Staged(out: Octets, heldCr: bool) {
    function Held(): Octets {
      if heldCr then [CR] else []
    }

    function Whole(): Octets {
      out + Held()
    }
  }

  /** What appending `bytes` has to stage: the normal form, with a trailing CR held back. */
  function Absorb(st: Staged, bytes: Octets): Staged {
    var whole := st.out + Normalize(st.Held() + bytes);
    if EndsWith(bytes, CR) && |whole| > 0 then Staged(whole[..|whole| - 1], true) else Staged(whole, false)
  }

  lemma NormalizeLastCr(s: Octets)
    ensures Normalize(s + [CR]) == Normalize(s) + [CR]
  {
    NormalizeConcat(s, [CR]);
    assert [CR][1..] == [];
    assert Normalize([CR]) == [CR];
  }

  lemma NormalizeFirstCr(s: Octets)
    ensures Normalize([CR] + s) == if StartsWith(s, LF) then CRLF + Normalize(s[1..]) else [CR] + Normalize(s)
  {
    var t := [CR] + s;
    assert t[1..] == s;
    if StartsWith(s, LF) {
      assert t[2..] == s[1..];
    }
  }

  lemma AbsorbWhole(st: Staged, bytes: Octets)
    ensures Absorb(st, bytes).heldCr <==> EndsWith(bytes, CR)
    ensures Absorb(st, bytes).Whole() == st.out + Normalize(st.Held() + bytes)
  {
    if EndsWith(bytes, CR) {
      var t := st.Held() + bytes;
      assert t == t[..|t| - 1] + [CR];
      NormalizeLastCr(t[..|t| - 1]);
      var whole := st.out + Normalize(t);
      assert whole == whole[..|whole| - 1] + [CR];
    }
  }

  /**
   Cutting the bytes into pieces does not matter, with one exception: an empty piece
   while a CR is held gives the CR away, and an LF behind it then makes a second CR.
   */
  lemma AbsorbInPieces(st: Staged, a: Octets, b: Octets)
    ensures Absorb(Absorb(st, a), b).Whole() == Absorb(st, a + b).Whole() <==>
            !(a == [] && st.heldCr && StartsWith(b, LF))
  {
    AbsorbWhole(st, a);
    AbsorbWhole(Absorb(st, a), b);
    AbsorbWhole(st, a + b);
    Assoc(st.Held(), a, b);
    if a == [] {
      AbsorbNothing(st, b);
      assert a + b == b && st.Held() + a == st.Held();
    } else if EndsWith(a, CR) {
      AbsorbAcrossCr(st, a, b);
    } else {
      assert [] + b == b;
      NormalizeConcat(st.Held() + a, b);
      Assoc(st.out, Normalize(st.Held() + a), Normalize(b));
    }
  }

  lemma AbsorbNothing(st: Staged, b: Octets)
    ensures Absorb(st, []).out == st.Whole() && Absorb(st, []).Held() == []
    ensures st.Whole() + Normalize([] + b) == st.out + Normalize(st.Held() + b) <==>
            !(st.heldCr && StartsWith(b, LF))
  {
    assert st.Held() + [] == st.Held() && [] + b == b;
    NormalizeNoLf(st.Held());
    if st.heldCr {
      GivenAway(st.out, b);
    } else {
      assert st.out + [] == st.out;
    }
  }

  lemma GivenAway(out: Octets, b: Octets)
    ensures out + [CR] + Normalize(b) == out + Normalize([CR] + b) <==> !StartsWith(b, LF)
  {
    NormalizeFirstCr(b);
    if StartsWith(b, LF) {
      NormalizeStep(b);
      assert |out + [CR] + Normalize(b)| > |out + Normalize([CR] + b)|;
    } else {
      Assoc(out, [CR], Normalize(b));
    }
  }

  lemma AbsorbAcrossCr(st: Staged, a: Octets, b: Octets)
    requires EndsWith(a, CR)
    ensures Absorb(st, a).out + Normalize([CR] + b) == st.out + Normalize(st.Held() + a + b)
  {
    var x := st.Held() + a;
    var y := x[..|x| - 1];
    assert x == y + [CR];
    NormalizeLastCr(y);
    DropLast(st.out, Normalize(y));
    Assoc(y, [CR], b);
    NormalizeConcat(y, [CR] + b);
    Assoc(st.out, Normalize(y), Normalize([CR] + b));
  }

  lemma DropLast(a: Octets, b: Octets)
    ensures var s := a + (b + [CR]); s[..|s| - 1] == a + b
  {
  }

  class BodyFramer {
    var out: Octets
    var atLineStart: bool
    var heldCr: bool
    /** Everything appended, and everything handed out, since the framer was made. */
    ghost var fed: Octets
    ghost var emitted: Octets

    ghost function View(): Staged
      reads this
    {
      Staged(out, heldCr)
    }

    ghost predicate Valid()
      reads this
    {
      Paired(out) && |out| < WRITE_CHUNK
    }

    /** The output so far is that of the input so far, and will be. */
    ghost predicate Exact()
      reads this
    {
      Valid() && Accounted(emitted, View(), fed) && (atLineStart ==> AtLineStart(fed))
    }

    constructor ()
      ensures Exact() && atLineStart && fed == [] && emitted == [] && out == []
    {
      out, atLineStart, heldCr := [], true, false;
      fed, emitted := [], [];
    }

    /** A complete line, its terminator included. */
    method Push(line: Octets) returns (piece: BodyPiece)
      requires Valid() && EndsWith(line, LF)
      modifies this
      ensures Valid()
      ensures old(atLineStart) && IsTerminator(line) ==>
                piece == Terminated && unchanged(this) && (Exact() ==> !heldCr && emitted + out == Normalize(fed))
      ensures !(old(atLineStart) && IsTerminator(line)) ==>
                !piece.Terminated? && Took(old(emitted), old(fed), line, piece) && atLineStart
      ensures old(Exact()) ==> Exact()
    {
      if atLineStart && IsTerminator(line) {
        return Terminated;
      }
      if Accounted(emitted, View(), fed) {
        FedLaw(emitted, View(), fed, line);
      }
      AbsorbPaired(View(), line);
      Append(line);
      fed := fed + line;
      atLineStart := true;
      piece := Piece();
    }

    /** Bytes with no line ending in sight. Only none at all, while a CR is held, spoils the account. */
    method PushPartial(bytes: Octets) returns (piece: BodyPiece)
      requires Valid()
      modifies this
      ensures Valid() && !piece.Terminated? && Took(old(emitted), old(fed), bytes, piece) && !atLineStart
      ensures old(Exact()) ==> (Exact() <==> !(bytes == [] && old(heldCr)))
    {
      if Accounted(emitted, View(), fed) && !(bytes == [] && heldCr) {
        FedLaw(emitted, View(), fed, bytes);
      }
      AbsorbPaired(View(), bytes);
      Append(bytes);
      fed := fed + bytes;
      atLineStart := false;
      piece := Piece();
    }

    /** `bytes` were taken; a chunk carries all that was staged, whole breaks only. */
    ghost predicate Took(emitted0: Octets, fed0: Octets, bytes: Octets, piece: BodyPiece)
      reads this
    {
      && fed == fed0 + bytes
      && (piece.Pending? ==> emitted == emitted0)
      && (piece.Chunk? ==>
            emitted == emitted0 + piece.bytes && out == [] &&
            |piece.bytes| >= WRITE_CHUNK && Paired(piece.bytes))
    }

    /** Whatever is staged; the held CR stays. */
    method Flush() returns (bytes: Octets)
      requires Valid()
      modifies this
      ensures Valid() && out == [] && bytes == old(out) && Paired(bytes)
      ensures emitted == old(emitted) + bytes && fed == old(fed)
      ensures heldCr == old(heldCr) && atLineStart == old(atLineStart)
      ensures old(Exact()) ==> Exact()
    {
      bytes := out;
      emitted := emitted + out;
      out := [];
    }

    method Piece() returns (piece: BodyPiece)
      requires Paired(out)
      modifies `out, `emitted
      ensures |out| < WRITE_CHUNK && Paired(out)
      ensures emitted + out == old(emitted + out)
      ensures !piece.Terminated?
      ensures piece.Pending? ==> emitted == old(emitted)
      ensures piece.Chunk? ==>
                emitted == old(emitted) + piece.bytes && out == [] &&
                |piece.bytes| >= WRITE_CHUNK && Paired(piece.bytes)
    {
      if |out| >= WRITE_CHUNK {
        piece := Chunk(out);
        emitted := emitted + out;
        out := [];
      } else {
        piece := Pending;
      }
    }

    /** The held CR meets its next byte: an LF makes it a break, anything else makes it data. */
    method ReleaseHeld(bytes: Octets) returns (i: nat)
      modifies `out, `heldCr
      ensures !heldCr && i <= 1 && (i == 1 ==> StartsWith(bytes, LF))
      ensures out + Normalize(bytes[i..]) == old(out) + Normalize(old(View()).Held() + bytes)
    {
      assert bytes[0..] == bytes && [] + bytes == bytes;
      i := 0;
      if heldCr {
        NormalizeFirstCr(bytes);
        heldCr := false;
        if StartsWith(bytes, LF) {
          Assoc(out, CRLF, Normalize(bytes[1..]));
          out := out + CRLF;
          i := 1;
        } else {
          Assoc(out, [CR], Normalize(bytes));
          out := out + [CR];
        }
      }
    }

    method Append(bytes: Octets)
      modifies `out, `heldCr
      ensures View() == Absorb(old(View()), bytes)
    {
      ghost var st0 := View();
      ghost var target := st0.out + Normalize(st0.Held() + bytes);
      var i := ReleaseHeld(bytes);
      var staged, held := out, false;
      while i < |bytes|
        invariant i <= |bytes|
        invariant if held then i == |bytes| && staged + [CR] == target else staged + Normalize(bytes[i..]) == target
        invariant i == |bytes| ==> (held <==> EndsWith(bytes, CR))
      {
        ghost var rest := bytes[i..];
        NormalizeStep(rest);
        if bytes[i] == CR && i + 1 == |bytes| {
          held := true;
          i := i + 1;
        } else if bytes[i] == CR && bytes[i + 1] == LF {
          Assoc(staged, CRLF, Normalize(rest[2..]));
          staged := staged + CRLF;
          i := i + 2;
          assert bytes[i..] == rest[2..];
        } else if bytes[i] == LF {
          Assoc(staged, CRLF, Normalize(rest[1..]));
          staged := staged + CRLF;
          i := i + 1;
          assert bytes[i..] == rest[1..];
        } else {
          Assoc(staged, [bytes[i]], Normalize(rest[1..]));
          staged := staged + [bytes[i]];
          i := i + 1;
          assert bytes[i..] == rest[1..];
        }
      }
      out, heldCr := staged, held;
      AbsorbWhole(st0, bytes);
      assert bytes[i..] == [];
      SameWhole(View(), Absorb(st0, bytes));
    }
  }

  lemma AbsorbPaired(st: Staged, bytes: Octets)
    requires Paired(st.out)
    ensures Paired(Absorb(st, bytes).out)
  {
    NormalizePairs(st.Held() + bytes);
    PairedConcat(st.out, Normalize(st.Held() + bytes));
  }

  lemma SameWhole(a: Staged, b: Staged)
    requires a.Whole() == b.Whole() && a.heldCr == b.heldCr
    ensures a == b
  {
    assert a.Whole()[..|a.out|] == a.out;
    assert b.Whole()[..|b.out|] == b.out;
  }

  /** What went out, what is staged and the held CR are the normal form of what came in. */
  ghost predicate Accounted(emitted: Octets, st: Staged, fed: Octets) {
    emitted + st.out + st.Held() == Normalize(fed) && (st.heldCr <==> EndsWith(fed, CR))
  }

  /** Absorbing keeps that law. */
  lemma FedLaw(emitted: Octets, st: Staged, fed: Octets, bytes: Octets)
    requires Accounted(emitted, st, fed) && !(bytes == [] && st.heldCr)
    ensures Accounted(emitted, Absorb(st, bytes), fed + bytes)
  {
    AbsorbWhole(st, bytes);
    var f := Unheld(emitted, st, fed);
    var tail := st.Held() + bytes;
    Assoc(f, st.Held(), bytes);
    NormalizeConcat(f, tail);
    Assoc(emitted, st.out, Normalize(tail));
    Assoc(emitted, Absorb(st, bytes).out, Absorb(st, bytes).Held());
    assert EndsWith(fed + bytes, CR) <==> EndsWith(bytes, CR);
  }

  /** What was fed without the CR that is held: its normal form is what has been staged or given out. */
  lemma Unheld(emitted: Octets, st: Staged, fed: Octets) returns (f: Octets)
    requires Accounted(emitted, st, fed)
    ensures fed == f + st.Held() && Normalize(f) == emitted + st.out && (!st.heldCr ==> !EndsWith(f, CR))
  {
    if st.heldCr {
      f := fed[..|fed| - 1];
      assert fed == f + [CR];
      NormalizeLastCr(f);
      SameButCr(emitted + st.out, Normalize(f));
    } else {
      f := fed;
      assert emitted + st.out + [] == emitted + st.out && f + [] == f;
    }
  }

  lemma SameButCr(a: Octets, b: Octets)
    requires a + [CR] == b + [CR]
    ensures a == b
  {
    assert |a| == |b|;
    assert (a + [CR])[..|a|] == a && (b + [CR])[..|b|] == b;
  }

  /** What a fresh framer makes of a partial line and then the line that completes it. */
  function InTwoPieces(part: Octets, line: Octets): Octets {
    Absorb(Absorb(Staged([], false), part), line).Whole()
  }

  /** The framer sees no terminator in a line it is given in two pieces; the upstream sees the whole line. */
  lemma InTwoPiecesEnds(part: Octets, line: Octets)
    requires Free(part, LF) && part != [] && IsLine(line)
    ensures NoDotLine(InTwoPieces(part, line)) <==> !IsTerminator(part + line)
  {
    var whole := part + line;
    AbsorbInPieces(Staged([], false), part, line);
    AbsorbWhole(Staged([], false), whole);
    assert [] + whole == whole && [] + Normalize(whole) == Normalize(whole);
    NormalizeKeepsDotLines(whole);
    JoinLine(part, line);
    ScanLine(LineStart, whole);
    ScanMeans(whole);
  }

  /**
   Why the session passes no short partial line: at the start of a line, a partial may forge a
   terminator exactly when it is a dot, or a dot and a CR.
   */
  lemma PartialForgesExactly(part: Octets)
    requires Free(part, LF) && part != []
    ensures (exists line | IsLine(line) :: !NoDotLine(InTwoPieces(part, line))) <==> part == [DOT] || part == [DOT, CR]
  {
    if part == [DOT] || part == [DOT, CR] {
      assert IsLine([LF]);
      InTwoPiecesEnds(part, [LF]);
    } else {
      forall line | IsLine(line) ensures NoDotLine(InTwoPieces(part, line)) {
        InTwoPiecesEnds(part, line);
        if IsTerminator(part + line) {
          TerminatorCut(part, line);
        }
      }
    }
  }

  lemma TerminatorCut(part: Octets, line: Octets)
    requires part != [] && IsLine(line) && IsTerminator(part + line)
    ensures part == [DOT] || part == [DOT, CR]
  {
    var whole := part + line;
    assert part == whole[..|part|];
  }
}
