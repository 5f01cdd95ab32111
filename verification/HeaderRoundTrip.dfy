/**
 What survives the header pipeline: the printed block is read back by the collector
 and the parser, and by a receiver at the far end of the wire.
 */
module HeaderRoundTrip {
  import opened Bytes
  import opened Framing
  import opened Breaks
  import opened Data
  import opened HeaderFields

  // ----- normalising field by field

  function Normal(h: RawHeader): RawHeader {
    RawHeader(h.name, Normalize(h.value))
  }

  function NormalAll(headers: seq<RawHeader>): seq<RawHeader>
    decreases |headers|
  {
    if headers == [] then [] else [Normal(headers[0])] + NormalAll(headers[1..])
  }

  lemma NormalizeField(h: RawHeader)
    requires NameRelayable(h.name)
    ensures Normalize(Field(h)) == Field(Normal(h))
  {
    var head := h.name + [COLON, SP];
    NormalizeNoLf(head);
    NormalizeConcat(head, h.value);
    NormalizeSplitBreak(head + h.value, []);
    assert head + h.value + CRLF + [] == Field(h);
    assert Normalize(head + h.value) + CRLF + [] == Field(Normal(h));
  }

  lemma {:induction false} NormalizeFields(headers: seq<RawHeader>)
    requires Relayable(headers)
    ensures Normalize(Fields(headers)) == Fields(NormalAll(headers))
    decreases |headers|
  {
    if headers != [] {
      var h, t := headers[0], headers[1..];
      NormalizeField(h);
      NormalizeFields(t);
      assert Field(h)[|Field(h)| - 1] == LF;
      NormalizeConcat(Field(h), Fields(t));
      assert NormalAll(headers)[1..] == NormalAll(t);
    }
  }

  // ----- folds

  /** Each LF is followed by a space or a tab, and the text does not end in a break. */
  predicate Folded(s: Octets) {
    && (forall i | 0 <= i < |s| && s[i] == LF :: i + 1 < |s| && s[i + 1] in {SP, TAB})
    && (s != [] ==> !IsBreak(s[|s| - 1]))
  }

  lemma RelayableIsFolded(v: Octets)
    requires ValueRelayable(v)
    ensures Folded(v)
  {
    assert v != [] ==> !IsBreak(v[|v| - 1]);
    assert forall i | 0 <= i < |v| && v[i] == LF :: FoldsAt(v, i);
  }

  lemma FoldedTail(s: Octets, k: nat)
    requires Folded(s) && k < |s|
    ensures Folded(s[k..])
  {
    var t := s[k..];
    assert forall i | 0 <= i < |t| :: t[i] == s[k + i];
  }

  lemma {:induction false} FoldedNormal(s: Octets)
    requires Folded(s)
    ensures Folded(Normalize(s))
    decreases |s|
  {
    if s != [] {
      NormalizeStep(s);
      var k := if |s| > 1 && s[0] == CR && s[1] == LF then 2 else 1;
      var isBreak := s[k - 1] == LF;
      var head := if isBreak then CRLF else [s[0]];
      if k < |s| {
        FoldedTail(s, k);
        FoldedNormal(s[k..]);
        var t := Normalize(s[k..]);
        NormalizeStep(s[k..]);
        assert isBreak ==> t[0] == s[k] && s[k] in {SP, TAB};
        FoldedCons(head, t);
      } else {
        assert s[k..] == [];
      }
    }
  }

  lemma FoldedCons(head: Octets, t: Octets)
    requires Folded(t) && t != []
    requires (head == CRLF && t[0] in {SP, TAB}) || (|head| == 1 && head[0] != LF)
    ensures Folded(head + t)
  {
    var s := head + t;
    forall i | 0 <= i < |s| && s[i] == LF ensures i + 1 < |s| && s[i + 1] in {SP, TAB} {
      if i >= |head| {
        assert t[i - |head|] == LF;
      }
    }
  }

  /** A header in wire form: a usable name, and breaks that are folds. */
  predicate WellFolded(h: RawHeader) {
    NameRelayable(h.name) && Folded(h.value)
  }

  predicate AllWellFolded(headers: seq<RawHeader>) {
    forall i | 0 <= i < |headers| :: WellFolded(headers[i])
  }

  lemma {:induction false} NormalWellFolded(headers: seq<RawHeader>)
    requires Relayable(headers)
    ensures |NormalAll(headers)| == |headers| && AllWellFolded(NormalAll(headers))
    decreases |headers|
  {
    if headers != [] {
      RelayableIsFolded(headers[0].value);
      FoldedNormal(headers[0].value);
      NormalWellFolded(headers[1..]);
    }
  }

  // ----- the parser joins exactly what the printer folded

  lemma GroupFirst(lines: seq<Octets>, line: Octets, s: Octets)
    requires IsLine(line)
    ensures Group(lines, SplitLines(line + s)) == Group(Attach(lines, line), SplitLines(s))
  {
    SplitFirstLine(line, s);
    assert ([line] + SplitLines(s))[1..] == SplitLines(s);
  }

  /** Every LF but a last one is followed by white space that continues the line. */
  predicate LinesContinue(s: Octets) {
    forall i | 0 <= i < |s| - 1 && s[i] == LF :: s[i + 1] in {SP, TAB, VT, FF}
  }

  /** Lines that all continue: LF-terminated, each starting with such white space. */
  predicate Continues(s: Octets) {
    |s| > 0 && s[0] in {SP, TAB, VT, FF} && s[|s| - 1] == LF && LinesContinue(s)
  }

  lemma CutLine(s: Octets) returns (line: Octets, t: Octets)
    requires |s| > 0 && s[|s| - 1] == LF && LinesContinue(s)
    ensures IsLine(line) && s == line + t && line[0] == s[0]
    ensures t == [] || Continues(t)
  {
    line, t := CutFirst(s);
    assert forall i | 0 <= i < |t| :: t[i] == s[|line| + i];
    assert s[|line| - 1] == LF;
  }

  lemma {:induction false} GroupContinues(lines: seq<Octets>, part: Octets, s: Octets, rest: Octets)
    requires Continues(s)
    ensures Group(lines + [part], SplitLines(s + rest)) == Group(lines + [part + s], SplitLines(rest))
    decreases |s|
  {
    var line, t := CutLine(s);
    assert s + rest == line + (t + rest);
    GroupFirst(lines + [part], line, t + rest);
    assert Attach(lines + [part], line) == lines + [part + line];
    if t == [] {
      assert t + rest == rest && line == s;
    } else {
      GroupContinues(lines, part + line, t, rest);
      Assoc(part, line, t);
    }
  }

  lemma FieldContinues(h: RawHeader)
    requires WellFolded(h)
    ensures var f := Field(h);
            f[|f| - 1] == LF && f[0] == h.name[0] && LinesContinue(f)
  {
    var f, head := Field(h), h.name + [COLON, SP];
    assert forall i | 0 <= i < |head| :: f[i] == head[i] && f[i] != LF;
    assert forall i | 0 <= i < |h.value| :: f[|head| + i] == h.value[i];
    assert f[|f| - 2] == CR;
  }

  lemma GroupField(lines: seq<Octets>, h: RawHeader, rest: Octets)
    requires WellFolded(h)
    ensures Group(lines, SplitLines(Field(h) + rest)) == Group(lines + [Field(h)], SplitLines(rest))
  {
    FieldContinues(h);
    var line, t := CutLine(Field(h));
    assert Field(h) + rest == line + (t + rest);
    GroupFirst(lines, line, t + rest);
    assert Attach(lines, line) == lines + [line];
    if t == [] {
      assert t + rest == rest && line == Field(h);
    } else {
      GroupContinues(lines, line, t, rest);
    }
  }

  function FieldLines(headers: seq<RawHeader>): seq<Octets>
    decreases |headers|
  {
    if headers == [] then [] else [Field(headers[0])] + FieldLines(headers[1..])
  }

  lemma {:induction false} GroupFields(lines: seq<Octets>, headers: seq<RawHeader>)
    requires AllWellFolded(headers)
    ensures Group(lines, SplitLines(Fields(headers))) == lines + FieldLines(headers)
    decreases |headers|
  {
    if headers == [] {
      assert lines + [] == lines;
    } else {
      var h, t := headers[0], headers[1..];
      GroupField(lines, h, Fields(t));
      GroupFields(lines + [Field(h)], t);
      Assoc(lines, [Field(h)], FieldLines(t));
    }
  }

  // ----- one field

  /** What the parser makes of a printed value: the printer's space, then the value. */
  function ReadValue(v: Octets): Octets {
    PerlValue([SP] + v)
  }

  lemma ParseField(h: RawHeader)
    requires WellFolded(h)
    ensures ParseLine(Field(h)) == Some(RawHeader(h.name, ReadValue(h.value)))
  {
    var line := h.name + [COLON, SP] + h.value;
    assert !IsBreak(line[|line| - 1]);
    TrimCrlf(line);
    ColonBehindName(h.name, h.value);
  }

  lemma ColonBehindName(name: Octets, value: Octets)
    requires Free(name, COLON)
    ensures var line := name + [COLON, SP] + value;
            && Find(line, COLON) == |name| && line[..|name|] == name && line[|name| + 1..] == [SP] + value
  {
    var tail := [COLON, SP] + value;
    Assoc(name, [COLON, SP], value);
    FindSkips(name, tail, COLON);
    assert Find(tail, COLON) == 0;
  }

  /** The values a parser can produce: not empty, and no leading whitespace unless that is all. */
  predicate Canonical(v: Octets) {
    v != [] && (!IsPerlSpace(v[0]) || (|v| == 1 && !IsBreak(v[0])))
  }

  /** A value is read back unchanged exactly when it is canonical. */
  lemma ReadBackExact(v: Octets)
    requires Folded(v)
    ensures ReadValue(v) == v <==> Canonical(v)
  {
    var s := [SP] + v;
    var n := LeadingSpaces(s);
    assert s[1..] == v;
    if v != [] && !IsPerlSpace(v[0]) {
      assert s[1] == v[0] && n == 1;
    } else if v != [] {
      assert s[1] == v[0] && n > 1;
      if |v| == 1 {
        assert s[|s| - 1] == v[0] && v == [v[0]];
      }
    }
  }

  lemma CanonicalNormal(v: Octets)
    requires ValueRelayable(v)
    ensures Canonical(Normalize(v)) <==> Canonical(v)
  {
    if v != [] {
      NormalizeStep(v);
      if IsBreak(v[0]) {
        assert FoldsAt(v, 0);
        assert IsPerlSpace(Normalize(v)[0]) && |Normalize(v)| > 1;
      } else {
        NormalizeEnd(v[1..]);
        assert Normalize(v)[0] == v[0];
      }
    }
  }

  // ----- the block

  function ReadBack(headers: seq<RawHeader>): seq<RawHeader>
    decreases |headers|
  {
    if headers == [] then []
    else [RawHeader(headers[0].name, ReadValue(Normalize(headers[0].value)))] + ReadBack(headers[1..])
  }

  lemma {:induction false} ParseFieldLines(headers: seq<RawHeader>)
    requires Relayable(headers)
    ensures ParseLines(FieldLines(NormalAll(headers))) == ReadBack(headers)
    decreases |headers|
  {
    if headers != [] {
      var h, t := headers[0], headers[1..];
      RelayableIsFolded(h.value);
      FoldedNormal(h.value);
      ParseField(Normal(h));
      ParseFieldLines(t);
      var lines := FieldLines(NormalAll(headers));
      assert NormalAll(headers)[1..] == NormalAll(t);
      assert lines == [Field(Normal(h))] + FieldLines(NormalAll(t));
      assert lines[1..] == FieldLines(NormalAll(t));
    }
  }

  /** Parsing what was printed gives the names in order, each with its value as read back. */
  lemma ParsePrinted(headers: seq<RawHeader>)
    requires Relayable(headers)
    ensures ParseHeaders(Normalize(Fields(headers))) == ReadBack(headers)
  {
    NormalizeFields(headers);
    NormalWellFolded(headers);
    GroupFields([], NormalAll(headers));
    assert [] + FieldLines(NormalAll(headers)) == FieldLines(NormalAll(headers));
    ParseFieldLines(headers);
  }

  /** A printed header comes back with its own value, up to its breaks, exactly when that is canonical. */
  lemma HeaderReadBack(h: RawHeader)
    requires HeaderRelayable(h)
    ensures ReadBack([h]) == [Normal(h)] <==> Canonical(h.value)
  {
    RelayableIsFolded(h.value);
    FoldedNormal(h.value);
    ReadBackExact(Normalize(h.value));
    CanonicalNormal(h.value);
    assert [h][1..] == [] && ReadBack([h][1..]) == [];
    assert ReadBack([h]) == [RawHeader(h.name, ReadValue(Normalize(h.value)))];
  }

  // ----- what the parser produces

  lemma PerlValueCanonical(rest: Octets)
    requires rest != [] && !IsBreak(rest[|rest| - 1])
    ensures Canonical(PerlValue(rest))
  {
  }

  lemma ParseLineForm(raw: Octets)
    ensures var h := ParseLine(raw);
            h.Some? ==> h.value.name != [] && Free(h.value.name, COLON) && Canonical(h.value.value)
  {
    var line := TrimEndBreaks(raw);
    var colon := Find(line, COLON);
    if 0 < colon && colon + 1 < |line| {
      var rest := line[colon + 1..];
      assert rest[|rest| - 1] == line[|line| - 1];
      PerlValueCanonical(rest);
    }
  }

  predicate AllCanonical(headers: seq<RawHeader>) {
    forall i | 0 <= i < |headers| ::
      headers[i].name != [] && Free(headers[i].name, COLON) && Canonical(headers[i].value)
  }

  lemma {:induction false} ParseLinesForm(lines: seq<Octets>)
    ensures AllCanonical(ParseLines(lines))
    decreases |lines|
  {
    if lines != [] {
      ParseLineForm(lines[0]);
      ParseLinesForm(lines[1..]);
    }
  }

  /** Everything the parser produces has the form that survives printing. */
  lemma ParsedIsCanonical(block: Octets)
    ensures AllCanonical(ParseHeaders(block))
  {
    ParseLinesForm(Group([], SplitLines(block)));
  }

  lemma {:induction false} CanonicalReadBack(headers: seq<RawHeader>)
    requires Relayable(headers) && AllCanonical(headers)
    ensures ReadBack(headers) == NormalAll(headers)
    decreases |headers|
  {
    if headers != [] {
      HeaderReadBack(headers[0]);
      assert [headers[0]][1..] == [];
      CanonicalReadBack(headers[1..]);
    }
  }

  // ----- the collector reads the printed block

  /** No line begins with a break. */
  predicate SolidLines(s: Octets) {
    forall i | 0 <= i < |s| && AtLineStart(s[..i]) :: !IsBreak(s[i])
  }

  lemma SolidConcat(a: Octets, b: Octets)
    requires SolidLines(a) && SolidLines(b) && EndsWith(a, LF)
    ensures SolidLines(a + b)
  {
    var s := a + b;
    forall i | 0 <= i < |s| && AtLineStart(s[..i]) ensures !IsBreak(s[i]) {
      if i < |a| {
        assert s[..i] == a[..i];
      } else {
        var t := b[..i - |a|];
        assert s[..i] == a + t;
        assert AtLineStart(t);
      }
    }
  }

  lemma SolidField(h: RawHeader)
    requires WellFolded(h)
    ensures SolidLines(Field(h)) && EndsWith(Field(h), LF)
  {
    FieldContinues(h);
    var f := Field(h);
    forall i | 0 <= i < |f| && AtLineStart(f[..i]) ensures !IsBreak(f[i]) {
      if i > 0 {
        assert f[..i][i - 1] == f[i - 1];
      }
    }
  }

  lemma {:induction false} SolidFields(headers: seq<RawHeader>)
    requires AllWellFolded(headers)
    ensures SolidLines(Fields(headers)) && AtLineStart(Fields(headers))
    decreases |headers|
  {
    if headers != [] {
      SolidField(headers[0]);
      SolidFields(headers[1..]);
      SolidConcat(Field(headers[0]), Fields(headers[1..]));
    }
  }

  lemma SolidCut(s: Octets) returns (line: Octets, t: Octets)
    requires s != [] && SolidLines(s) && AtLineStart(s)
    ensures IsLine(line) && s == line + t && !IsBreak(line[0])
    ensures SolidLines(t) && AtLineStart(t)
  {
    line, t := CutFirst(s);
    assert AtLineStart(s[..0]);
    forall i | 0 <= i < |t| && AtLineStart(t[..i]) ensures !IsBreak(t[i]) {
      assert s[..|line| + i] == line + t[..i];
      assert s[|line| + i] == t[i];
    }
  }

  lemma StuffedLine(line: Octets)
    requires IsLine(line) && !IsBreak(line[0])
    ensures var w := DotStuff(line, true);
            IsLine(w) && UnstuffedLine(w) == line && !IsTerminator(w) && !IsBlank(w)
  {
    var w, tail := DotStuff(line, true), line[1..];
    assert |line| > 1 && tail[..|tail| - 1] == line[..|line| - 1][1..];
    StuffRun(tail);
    assert w == StuffOne(line[0], true) + DotStuff(tail, false);
    StuffedForm(line, w);
  }

  lemma StuffedForm(line: Octets, w: Octets)
    requires IsLine(line) && !IsBreak(line[0]) && w == StuffOne(line[0], true) + line[1..]
    ensures IsLine(w) && UnstuffedLine(w) == line && !IsTerminator(w) && !IsBlank(w)
  {
    if line[0] == DOT {
      assert w == [DOT] + line;
      JoinLine([DOT], line);
      assert w[1] == DOT;
    } else {
      assert w == line;
    }
  }

  lemma {:induction false} StuffRun(s: Octets)
    requires s == [] || Free(s[..|s| - 1], LF)
    ensures DotStuff(s, false) == s
    decreases |s|
  {
    if |s| == 1 {
      assert s[1..] == [];
    } else if s != [] {
      assert s[0] == s[..|s| - 1][0];
      assert s[1..][..|s| - 2] == s[..|s| - 1][1..];
      StuffRun(s[1..]);
    }
  }

  lemma {:induction false} CollectStuffed(x: Octets, s: Octets, cap: nat, soFar: Octets)
    requires SolidLines(x) && AtLineStart(x) && |soFar| + |x| <= cap
    ensures Collect(DotStuff(x, true) + CRLF + s, cap, soFar) == Block(soFar + x, s)
    decreases |x|
  {
    if x == [] {
      assert DotStuff(x, true) + CRLF + s == CRLF + s && soFar + x == soFar;
      assert IsLine(CRLF);
      CollectLine(CRLF, s, cap, soFar);
    } else {
      var line, t := SolidCut(x);
      var w, tail := DotStuff(line, true), DotStuff(t, true) + CRLF + s;
      StuffedLine(line);
      StuffConcat(line, t, true);
      CollectStuffed(t, s, cap, soFar + line);
      AssocFour(w, DotStuff(t, true), CRLF, s);
      CollectLine(w, tail, cap, soFar);
      Assoc(soFar, line, t);
    }
  }

  lemma BlockShape(headers: seq<RawHeader>)
    requires Relayable(headers)
    ensures var text := Normalize(Fields(headers));
            && SolidLines(text) && AtLineStart(text) && Paired(text)
            && HeaderBlock(headers) == DotStuff(text, true) + CRLF
  {
    var text := Normalize(Fields(headers));
    NormalizeFields(headers);
    NormalWellFolded(headers);
    SolidFields(NormalAll(headers));
    NormalizePairs(Fields(headers));
    NormalizeSplitBreak(Fields(headers), []);
    assert Fields(headers) + CRLF + [] == Fields(headers) + CRLF;
    assert text + CRLF + [] == text + CRLF;
    StuffConcat(text, CRLF, true);
    StuffCrlf();
  }

  lemma StuffCrlf()
    ensures DotStuff(CRLF, true) == CRLF
  {
    assert CRLF[1..] == [LF] && [LF][1..] == [];
    assert DotStuff([LF], false) == [LF];
  }

  /**
   The collector reads the printed block to its last line and not further, and the
   parser then finds the printed headers.
   */
  lemma PrintedBlockReadBack(headers: seq<RawHeader>, s: Octets, cap: nat)
    requires Relayable(headers) && |Normalize(Fields(headers))| <= cap
    ensures var v := Collect(HeaderBlock(headers) + s, cap, []);
            v.Block? && v.rest == s && ParseHeaders(v.block) == ReadBack(headers)
  {
    BlockShape(headers);
    var text := Normalize(Fields(headers));
    CollectStuffed(text, s, cap, []);
    assert [] + text == text;
    ParsePrinted(headers);
  }
}
