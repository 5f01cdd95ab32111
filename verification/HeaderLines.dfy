/**
 What the header parser makes of any block, said of the bytes: how a field looks, which lines
 are none, and what a merge keeps and adds.
 */
module HeaderLines {
  import opened Bytes
  import opened HeaderFields
  import opened HeaderRoundTrip
  import opened WirePath

  // ----- one line, with its folds, and the rest

  /** The end of a line: an LF, with any number of CRs in front of it. */
  predicate IsEnding(brk: Octets) {
    |brk| > 0 && brk[|brk| - 1] == LF && forall i | 0 <= i < |brk| - 1 :: brk[i] == CR
  }

  /** The text of one line with its folds: every LF in it is followed by white space, and it ends in no break. */
  predicate IsText(t: Octets) {
    && (t != [] ==> !IsBreak(t[|t| - 1]))
    && forall i | 0 <= i < |t| && t[i] == LF :: t[i + 1] in {SP, TAB, VT, FF}
  }

  /** What follows does not continue the line. */
  predicate Apart(rest: Octets) {
    rest == [] || rest[0] !in {SP, TAB, VT, FF}
  }

  lemma {:induction false} GroupApart(a: seq<Octets>, b: seq<Octets>, raws: seq<Octets>)
    requires b != [] || raws == [] || !IsContinuation(raws[0])
    ensures Group(a + b, raws) == a + Group(b, raws)
    decreases |raws|
  {
    if raws != [] {
      assert Attach(a + b, raws[0]) == a + Attach(b, raws[0]);
      GroupApart(a, Attach(b, raws[0]), raws[1..]);
    }
  }

  /** A line with its folds is one line to the parser. */
  lemma GroupLine(u: Octets, rest: Octets)
    requires |u| > 0 && u[|u| - 1] == LF && LinesContinue(u) && Apart(rest)
    ensures Group([], SplitLines(u + rest)) == [u] + Group([], SplitLines(rest))
  {
    var line, t := CutLine(u);
    Assoc(line, t, rest);
    FirstOfGroup(line, t + rest);
    FoldsJoin(line, t, rest);
    LineStandsApart(u, rest);
  }

  lemma FirstOfGroup(line: Octets, s: Octets)
    requires IsLine(line)
    ensures Group([], SplitLines(line + s)) == Group([line], SplitLines(s))
  {
    GroupFirst([], line, s);
    Empty([line]);
  }

  lemma FoldsJoin(line: Octets, t: Octets, rest: Octets)
    requires t == [] || Continues(t)
    ensures Group([line], SplitLines(t + rest)) == Group([line + t], SplitLines(rest))
  {
    if t == [] {
      Empty(rest);
      assert line + t == line;
    } else {
      GroupContinues([], line, t, rest);
      Empty([line]);
      Empty([line + t]);
    }
  }

  lemma LineStandsApart(u: Octets, rest: Octets)
    requires Apart(rest)
    ensures Group([u], SplitLines(rest)) == [u] + Group([], SplitLines(rest))
  {
    FirstIsApart(rest);
    GroupApart([u], [], SplitLines(rest));
    assert [u] + [] == [u];
  }

  lemma FirstIsApart(rest: Octets)
    requires Apart(rest)
    ensures SplitLines(rest) == [] || !IsContinuation(SplitLines(rest)[0])
  {
  }

  lemma TextWithEnding(t: Octets, brk: Octets)
    requires IsText(t) && IsEnding(brk)
    ensures var u := t + brk; |u| > 0 && u[|u| - 1] == LF && LinesContinue(u) && TrimEndBreaks(u) == t
  {
    var u, trimmed := t + brk, TrimEndBreaks(t + brk);
    assert forall i | |t| <= i < |u| :: u[i] == brk[i - |t|] && IsBreak(u[i]);
    assert t != [] ==> u[|t| - 1] == t[|t| - 1];
    assert trimmed != [] ==> trimmed[|trimmed| - 1] == u[|trimmed| - 1];
    assert |trimmed| == |t| && trimmed == u[..|t|];
  }

  /** Parsing goes line by line. */
  lemma LineByLine(t: Octets, brk: Octets, rest: Octets)
    requires IsText(t) && IsEnding(brk) && Apart(rest)
    ensures ParseHeaders(t + brk + rest) == AsSeq(ParseLine(t + brk)) + ParseHeaders(rest)
  {
    TextWithEnding(t, brk);
    GroupLine(t + brk, rest);
    var lines := Group([], SplitLines(rest));
    assert ([t + brk] + lines)[1..] == lines;
  }

  // ----- fields

  predicate AllSpaces(ws: Octets) {
    forall i | 0 <= i < |ws| :: ws[i] in {SP, TAB, LF, CR, VT, FF}
  }

  /**
   A field: a name that is not empty and holds no colon, a colon, any white space, and a value that
   starts with none; folded anywhere, ended by any line ending, and followed by anything that does
   not continue it.
   */
  lemma FieldParses(name: Octets, ws: Octets, value: Octets, brk: Octets, rest: Octets)
    requires name != [] && Free(name, COLON) && AllSpaces(ws)
    requires value != [] && value[0] !in {SP, TAB, LF, CR, VT, FF}
    requires IsText(name + [COLON] + (ws + value)) && IsEnding(brk) && Apart(rest)
    ensures ParseHeaders(name + [COLON] + (ws + value) + brk + rest) == [RawHeader(name, value)] + ParseHeaders(rest)
  {
    var t := name + [COLON] + (ws + value);
    LineByLine(t, brk, rest);
    TextWithEnding(t, brk);
    FieldOf(t + brk, t, name, ws, value);
  }

  lemma FieldOf(u: Octets, t: Octets, name: Octets, ws: Octets, value: Octets)
    requires TrimEndBreaks(u) == t == name + [COLON] + (ws + value)
    requires name != [] && Free(name, COLON) && AllSpaces(ws)
    requires value != [] && value[0] !in {SP, TAB, LF, CR, VT, FF}
    ensures ParseLine(u) == Some(RawHeader(name, value))
  {
    FirstColon(name, ws + value);
    SpacesInFront(ws, value);
  }

  /** Behind white space alone, the value is the last byte of it. */
  lemma BlankFieldParses(name: Octets, ws: Octets, brk: Octets, rest: Octets)
    requires name != [] && Free(name, COLON) && ws != [] && AllSpaces(ws)
    requires IsText(name + [COLON] + ws) && IsEnding(brk) && Apart(rest)
    ensures ParseHeaders(name + [COLON] + ws + brk + rest) == [RawHeader(name, [ws[|ws| - 1]])] + ParseHeaders(rest)
  {
    LineByLine(name + [COLON] + ws, brk, rest);
    TextWithEnding(name + [COLON] + ws, brk);
    FirstColon(name, ws);
    SpacesInFront(ws, []);
    assert ws + [] == ws;
  }

  lemma FirstColon(name: Octets, tail: Octets)
    requires Free(name, COLON)
    ensures var t := name + [COLON] + tail; Find(t, COLON) == |name| && t[..|name|] == name && t[|name| + 1..] == tail
  {
    var t := name + [COLON] + tail;
    assert t == name + ([COLON] + tail);
    FindSkips(name, [COLON] + tail, COLON);
    assert Find([COLON] + tail, COLON) == 0;
  }

  lemma SpacesInFront(ws: Octets, value: Octets)
    requires AllSpaces(ws) && (value != [] ==> value[0] !in {SP, TAB, LF, CR, VT, FF})
    ensures LeadingSpaces(ws + value) == |ws| && (ws + value)[|ws|..] == value
  {
    var s := ws + value;
    assert forall i | 0 <= i < |ws| :: s[i] == ws[i];
    assert value != [] ==> s[|ws|] == value[0];
  }

  /** No colon, nothing in front of the first one, or nothing behind it. */
  predicate IsNoField(t: Octets) {
    Free(t, COLON) || t[0] == COLON || (t[|t| - 1] == COLON && forall i | 0 <= i < |t| - 1 :: t[i] != COLON)
  }

  lemma NoFieldAt(t: Octets)
    ensures var c := Find(t, COLON); IsNoField(t) <==> !(0 < c && c + 1 < |t|)
  {
    var c := Find(t, COLON);
    if c < |t| {
      assert t[c] == COLON;
    }
  }

  lemma NoFieldExactly(u: Octets, t: Octets)
    requires TrimEndBreaks(u) == t
    ensures ParseLine(u).None? <==> IsNoField(t)
  {
    NoFieldAt(t);
  }

  /** A line yields nothing exactly then, and one field otherwise. */
  lemma LineYieldsNothing(t: Octets, brk: Octets, rest: Octets)
    requires IsText(t) && IsEnding(brk) && Apart(rest)
    ensures IsNoField(t) ==> ParseHeaders(t + brk + rest) == ParseHeaders(rest)
    ensures !IsNoField(t) ==> |ParseHeaders(t + brk + rest)| == 1 + |ParseHeaders(rest)|
  {
    LineByLine(t, brk, rest);
    TextWithEnding(t, brk);
    NoFieldExactly(t + brk, t);
  }

  // ----- what the API adds

  lemma {:induction false} GivenConcat(a: seq<ResponseHeader>, b: seq<ResponseHeader>)
    ensures Given(a + b) == Given(a) + Given(b)
    decreases |a|
  {
    if a == [] {
      assert a + b == b;
    } else {
      assert (a + b)[1..] == a[1..] + b;
      GivenConcat(a[1..], b);
      Assoc(Given([a[0]]), Given(a[1..]), Given(b));
      GivenFirst(a);
      GivenFirst(a + b);
    }
  }

  lemma GivenFirst(api: seq<ResponseHeader>)
    requires api != []
    ensures Given(api) == Given([api[0]]) + Given(api[1..])
  {
    assert [api[0]][1..] == [];
  }

  /** One entry adds exactly its field when it has a value, and nothing otherwise. */
  lemma GivenOne(name: Octets, value: Octets)
    ensures Given([ResponseHeader(name, Some(value))]) == [RawHeader(name, value)]
    ensures Given([ResponseHeader(name, None)]) == []
  {
    assert [ResponseHeader(name, Some(value))][1..] == [] && [ResponseHeader(name, None)][1..] == [];
  }

  /** One header is kept exactly when no entry has its name, in whatever case. */
  lemma KeptOne(h: RawHeader, api: seq<ResponseHeader>)
    ensures Kept([h], api) == if exists i | 0 <= i < |api| :: SameFolded(api[i].name, h.name) then [] else [h]
  {
    if exists i | 0 <= i < |api| :: SameFolded(api[i].name, h.name) {
      KeptNone([h], api);
    } else {
      KeptAll([h], api);
    }
  }

  // ----- what may be relayed

  predicate NameClean(name: Octets) {
    name != [] && forall i | 0 <= i < |name| :: !(9 <= name[i] <= 13) && name[i] != 32 && name[i] != 58
  }

  /** Every CR is followed by an LF, and every LF by a space or a tab. */
  predicate BreaksFold(value: Octets) {
    && (forall i | 0 <= i < |value| && value[i] == CR :: i + 1 < |value| && value[i + 1] == LF)
    && (forall i | 0 <= i < |value| && value[i] == LF :: i + 1 < |value| && value[i + 1] in {SP, TAB})
  }

  /** Exactly the names that are not empty and hold neither white space nor a colon, and the values whose every break is a fold. */
  lemma RelayableExactly(h: RawHeader)
    ensures HeaderRelayable(h) <==> NameClean(h.name) && BreaksFold(h.value)
  {
    assert NameRelayable(h.name) <==> NameClean(h.name);
    if ValueRelayable(h.value) {
      RelayableFolds(h.value);
    }
    if BreaksFold(h.value) {
      FoldsRelayable(h.value);
    }
  }

  lemma RelayableFolds(value: Octets)
    requires ValueRelayable(value)
    ensures BreaksFold(value)
  {
    forall i | 0 <= i < |value| && IsBreak(value[i])
      ensures i + 1 < |value| && if value[i] == CR then value[i + 1] == LF else value[i + 1] in {SP, TAB}
    {
      assert FoldsAt(value, i);
    }
  }

  lemma FoldsRelayable(value: Octets)
    requires BreaksFold(value)
    ensures ValueRelayable(value)
  {
    forall i | 0 <= i < |value| && IsBreak(value[i]) ensures FoldsAt(value, i) {
      if value[i] == CR {
        assert value[i + 1] == LF;
      }
    }
  }
}
