/**
 The merge, and the message as the far end of the wire sees it.
 */
module WirePath {
  import opened Bytes
  import opened Framing
  import opened Breaks
  import opened HeaderFields
  import opened HeaderRoundTrip

  // ----- the merge

  lemma {:induction false} KeptConcat(a: seq<RawHeader>, b: seq<RawHeader>, api: seq<ResponseHeader>)
    ensures Kept(a + b, api) == Kept(a, api) + Kept(b, api)
    decreases |a|
  {
    if a == [] {
      assert a + b == b;
    } else {
      assert (a + b)[1..] == a[1..] + b;
      KeptConcat(a[1..], b, api);
    }
  }

  lemma {:induction false} KeptUnnamed(existing: seq<RawHeader>, api: seq<ResponseHeader>)
    ensures forall i | 0 <= i < |Kept(existing, api)| :: !Named(api, Kept(existing, api)[i].name)
    ensures forall i | 0 <= i < |Kept(existing, api)| :: Kept(existing, api)[i] in existing
    decreases |existing|
  {
    if existing != [] {
      KeptUnnamed(existing[1..], api);
    }
  }

  lemma {:induction false} KeptAll(headers: seq<RawHeader>, api: seq<ResponseHeader>)
    requires forall i | 0 <= i < |headers| :: !Named(api, headers[i].name)
    ensures Kept(headers, api) == headers
    decreases |headers|
  {
    if headers != [] {
      KeptAll(headers[1..], api);
    }
  }

  lemma {:induction false} KeptNone(headers: seq<RawHeader>, api: seq<ResponseHeader>)
    requires forall i | 0 <= i < |headers| :: Named(api, headers[i].name)
    ensures Kept(headers, api) == []
    decreases |headers|
  {
    if headers != [] {
      KeptNone(headers[1..], api);
    }
  }

  lemma {:induction false} GivenNamed(api: seq<ResponseHeader>, whole: seq<ResponseHeader>)
    requires forall i | 0 <= i < |api| :: Named(whole, api[i].name)
    ensures forall i | 0 <= i < |Given(api)| :: Named(whole, Given(api)[i].name)
    decreases |api|
  {
    if api != [] {
      GivenNamed(api[1..], whole);
    }
  }

  /** Merging the same answer a second time changes nothing. */
  lemma MergeIdempotent(existing: seq<RawHeader>, api: seq<ResponseHeader>)
    ensures MergeHeaders(MergeHeaders(existing, api), api) == MergeHeaders(existing, api)
  {
    var kept, given := Kept(existing, api), Given(api);
    KeptUnnamed(existing, api);
    KeptAll(kept, api);
    assert forall i | 0 <= i < |api| :: SameFolded(api[i].name, api[i].name);
    GivenNamed(api, api);
    KeptNone(given, api);
    KeptConcat(kept, given, api);
    assert kept + [] == kept;
  }

  lemma {:induction false} ReadBackConcat(a: seq<RawHeader>, b: seq<RawHeader>)
    ensures ReadBack(a + b) == ReadBack(a) + ReadBack(b)
    decreases |a|
  {
    if a == [] {
      assert a + b == b;
    } else {
      assert (a + b)[1..] == a[1..] + b;
      ReadBackConcat(a[1..], b);
    }
  }

  /** What a client header block and an API answer make of the headers the far end parses. */
  lemma MergedReadBack(block: Octets, api: seq<ResponseHeader>)
    requires Relayable(MergeHeaders(ParseHeaders(block), api))
    ensures ReadBack(MergeHeaders(ParseHeaders(block), api)) ==
            NormalAll(Kept(ParseHeaders(block), api)) + ReadBack(Given(api))
  {
    var client := ParseHeaders(block);
    var kept := Kept(client, api);
    var merged := MergeHeaders(client, api);
    KeptUnnamed(client, api);
    ParsedIsCanonical(block);
    assert forall i | 0 <= i < |kept| :: merged[i] == kept[i] && kept[i] in client;
    CanonicalReadBack(kept);
    ReadBackConcat(kept, Given(api));
  }

  // ----- the message at the far end

  /** A message cut at its first blank line. */
  function CutAtBlank(text: Octets): Option<(Octets, Octets)>
    decreases |text|
  {
    var n := Find(text, LF);
    if n == |text| then None
    else if IsBlank(text[..n + 1]) then Some(([], text[n + 1..]))
    else match CutAtBlank(text[n + 1..])
      case None => None
      case Some((headers, body)) => Some((text[..n + 1] + headers, body))
  }

  lemma {:induction false} CutAtBlankFinds(x: Octets, body: Octets)
    requires SolidLines(x) && AtLineStart(x)
    ensures CutAtBlank(x + CRLF + body) == Some((x, body))
    decreases |x|
  {
    if x == [] {
      assert x + CRLF + body == CRLF + body;
      assert IsLine(CRLF);
      FindInLine(CRLF, body);
    } else {
      var line, t := SolidCut(x);
      CutAtBlankFinds(t, body);
      AssocFour(line, t, CRLF, body);
      FindInLine(line, t + CRLF + body);
    }
  }

  /** The bytes of a finished message: the header block, the body in wire form, the terminator. */
  function MessageBytes(headers: seq<RawHeader>, body: Octets): Octets {
    HeaderBlock(headers) + Normalize(body) + [DOT, CR, LF]
  }

  lemma WireLines(headers: seq<RawHeader>, body: Octets)
    requires Relayable(headers) && NoDotLine(body)
    ensures NoDotLine(HeaderBlock(headers) + Normalize(body))
    ensures Paired(HeaderBlock(headers) + Normalize(body))
    ensures EndsWith(HeaderBlock(headers), LF)
    ensures AtLineStart(body) ==> EndsWith(HeaderBlock(headers) + Normalize(body), LF)
  {
    var block, wire := HeaderBlock(headers), HeaderBlock(headers) + Normalize(body);
    BlockEnds(headers);
    ScanStuffed(Normalize(Fields(headers) + CRLF), LineStart);
    NormalizeEnd(Fields(headers) + CRLF);
    ScanMeans(block);
    NormalizeKeepsDotLines(body);
    NormalizeEnd(body);
    ScanMeans(Normalize(body));
    ScanConcat(LineStart, block, Normalize(body));
    ScanMeans(wire);
    NormalizePairs(body);
    BlockPaired(headers);
    PairedConcat(block, Normalize(body));
  }

  lemma BlockEnds(headers: seq<RawHeader>)
    requires Relayable(headers)
    ensures EndsWith(HeaderBlock(headers), LF)
  {
    BlockShape(headers);
    var block := HeaderBlock(headers);
    assert block[|block| - 1] == LF;
  }

  lemma BlockPaired(headers: seq<RawHeader>)
    ensures Paired(HeaderBlock(headers))
  {
    var s := Fields(headers) + CRLF;
    StuffNormalizeCommute(s, true);
    NormalizePairs(DotStuff(s, true));
  }

  /**
   The whole wire path. A receiver that follows section 4.5.2 of RFC 5321 reads exactly one
   message, with nothing left over; behind its header block stands the client's body with
   the stuffing taken off and CRLF line ends; and in its header block it parses the client
   fields the API does not name, in order, and then the fields the API gave a value, in order.
   */
  lemma FarEnd(block: Octets, api: seq<ResponseHeader>, body: Octets, rest: Octets)
    returns (text: Octets, fields: Octets)
    requires Relayable(MergeHeaders(ParseHeaders(block), api))
    requires NoDotLine(body) && AtLineStart(body)
    ensures Receive(MessageBytes(MergeHeaders(ParseHeaders(block), api), body) + rest) == Message(text, rest)
    ensures CutAtBlank(text) == Some((fields, Normalize(Unstuff(body, true))))
    ensures ParseHeaders(fields) == NormalAll(Kept(ParseHeaders(block), api)) + ReadBack(Given(api))
  {
    var merged := MergeHeaders(ParseHeaders(block), api);
    var wire := HeaderBlock(merged) + Normalize(body);
    fields := Normalize(Fields(merged));
    text := Unstuff(wire, true);
    WireLines(merged, body);
    ReceiveReadsMessage(wire, rest);
    FarEndText(merged, body);
    BlockShape(merged);
    CutAtBlankFinds(fields, Normalize(Unstuff(body, true)));
    ParsePrinted(merged);
    MergedReadBack(block, api);
  }

  lemma FarEndText(headers: seq<RawHeader>, body: Octets)
    requires Relayable(headers)
    ensures Unstuff(HeaderBlock(headers) + Normalize(body), true) ==
            Normalize(Fields(headers)) + CRLF + Normalize(Unstuff(body, true))
  {
    var s := Normalize(Fields(headers) + CRLF);
    NormalizeSplitBreak(Fields(headers), []);
    assert Fields(headers) + CRLF + [] == Fields(headers) + CRLF;
    assert s == Normalize(Fields(headers)) + CRLF;
    UnstuffUndoesStuff(s, true);
    BlockShape(headers);
    UnstuffConcat(HeaderBlock(headers), Normalize(body), true);
    UnstuffNormalizeCommute(body, true);
  }
}
