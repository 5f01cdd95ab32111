/**
 The header pipeline of the proxy: the parser, the merge with the API's answer, the
 check that a header survives printing, and the printer with its wire encoding.
 */
module HeaderFields {
  import opened Bytes
  import opened Breaks

  datatype RawHeader = RawHeader(name: Octets, value: Octets)

  /** A header in the API's answer: a name to remove and, perhaps, a value to add. */
  datatype ResponseHeader = ResponseHeader(name: Octets, value: Option<Octets>)

  // ----- the parser

  predicate IsContinuation(raw: Octets) {
    |raw| > 0 && raw[0] in {SP, TAB, VT, FF}
  }

  function Attach(lines: seq<Octets>, raw: Octets): seq<Octets> {
    if lines != [] && IsContinuation(raw) then lines[|lines| - 1 := lines[|lines| - 1] + raw]
    else lines + [raw]
  }

  /** Folded lines joined to the line they continue. */
  function Group(lines: seq<Octets>, raws: seq<Octets>): seq<Octets>
    decreases |raws|
  {
    if raws == [] then lines else Group(Attach(lines, raws[0]), raws[1..])
  }

  predicate IsPerlSpace(b: Byte) {
    b in {SP, TAB, LF, CR, VT, FF}
  }

  function LeadingSpaces(s: Octets): (n: nat)
    ensures n <= |s| && (forall i | 0 <= i < n :: IsPerlSpace(s[i]))
    ensures n < |s| ==> !IsPerlSpace(s[n])
  {
    if s == [] || !IsPerlSpace(s[0]) then 0 else 1 + LeadingSpaces(s[1..])
  }

  /** Leading whitespace stripped, but never the last byte of all. */
  function PerlValue(rest: Octets): Octets {
    var n := LeadingSpaces(rest);
    if n < |rest| then rest[n..] else if rest == [] then [] else [rest[|rest| - 1]]
  }

  function ParseLine(raw: Octets): Option<RawHeader> {
    var line := TrimEndBreaks(raw);
    var colon := Find(line, COLON);
    if 0 < colon && colon + 1 < |line| then Some(RawHeader(line[..colon], PerlValue(line[colon + 1..])))
    else None
  }

  function ParseLines(lines: seq<Octets>): seq<RawHeader>
    decreases |lines|
  {
    if lines == [] then []
    else AsSeq(ParseLine(lines[0])) + ParseLines(lines[1..])
  }

  function AsSeq(header: Option<RawHeader>): seq<RawHeader> {
    match header case Some(h) => [h] case None => []
  }

  function ParseHeaders(block: Octets): seq<RawHeader> {
    ParseLines(Group([], SplitLines(block)))
  }

  method ParseHeaderBlock(block: Octets) returns (out: seq<RawHeader>)
    ensures out == ParseHeaders(block)
  {
    var lines := JoinFolds(SplitLines(block));
    out := [];
    for i := 0 to |lines|
      invariant out + ParseLines(lines[i..]) == ParseLines(lines)
    {
      assert lines[i..][1..] == lines[i + 1..];
      var header := ParseLine(lines[i]);
      Assoc(out, AsSeq(header), ParseLines(lines[i + 1..]));
      if header.Some? {
        out := out + [header.value];
      } else {
        assert out + [] == out;
      }
    }
  }

  method JoinFolds(raws: seq<Octets>) returns (lines: seq<Octets>)
    ensures lines == Group([], raws)
  {
    lines := [];
    for i := 0 to |raws|
      invariant Group(lines, raws[i..]) == Group([], raws)
    {
      assert raws[i..][1..] == raws[i + 1..];
      if lines != [] && IsContinuation(raws[i]) {
        lines := lines[|lines| - 1 := lines[|lines| - 1] + raws[i]];
      } else {
        lines := lines + [raws[i]];
      }
    }
  }

  // ----- the merge

  predicate Named(api: seq<ResponseHeader>, name: Octets) {
    exists i | 0 <= i < |api| :: SameFolded(api[i].name, name)
  }

  /** The client's headers the API does not name, in order. */
  function Kept(existing: seq<RawHeader>, api: seq<ResponseHeader>): seq<RawHeader>
    decreases |existing|
  {
    if existing == [] then []
    else (if Named(api, existing[0].name) then [] else [existing[0]]) + Kept(existing[1..], api)
  }

  /** The headers the API gives a value, in order. */
  function Given(api: seq<ResponseHeader>): seq<RawHeader>
    decreases |api|
  {
    if api == [] then []
    else (if api[0].value.Some? then [RawHeader(api[0].name, api[0].value.value)] else []) + Given(api[1..])
  }

  function MergeHeaders(existing: seq<RawHeader>, api: seq<ResponseHeader>): seq<RawHeader> {
    Kept(existing, api) + Given(api)
  }

  // ----- the check

  /** A line break at `i` is a fold: the break, then a space or a tab. */
  predicate FoldsAt(value: Octets, i: nat)
    requires i < |value|
  {
    if value[i] == CR then
      i + 1 < |value| && value[i + 1] == LF && i + 2 < |value| && value[i + 2] in {SP, TAB}
    else
      i + 1 < |value| && value[i + 1] in {SP, TAB}
  }

  predicate NameRelayable(name: Octets) {
    name != [] && forall i | 0 <= i < |name| :: name[i] != COLON && !IsPerlSpace(name[i])
  }

  predicate ValueRelayable(value: Octets) {
    forall i | 0 <= i < |value| && IsBreak(value[i]) :: FoldsAt(value, i)
  }

  predicate HeaderRelayable(h: RawHeader) {
    NameRelayable(h.name) && ValueRelayable(h.value)
  }

  predicate Relayable(headers: seq<RawHeader>) {
    forall i | 0 <= i < |headers| :: HeaderRelayable(headers[i])
  }

  /** The check itself: the name of the first header it refuses, if any. */
  method AssertHeaderRelayable(headers: seq<RawHeader>) returns (refused: Option<Octets>)
    ensures refused.None? <==> Relayable(headers)
    ensures refused.Some? ==>
              exists k | 0 <= k < |headers| ::
                refused.value == headers[k].name && !HeaderRelayable(headers[k]) && Relayable(headers[..k])
  {
    for k := 0 to |headers|
      invariant Relayable(headers[..k])
    {
      var h := headers[k];
      if !NameRelayable(h.name) {
        assert !HeaderRelayable(headers[k]);
        return Some(h.name);
      }
      var value := h.value;
      for i := 0 to |value|
        invariant forall j | 0 <= j < i && IsBreak(value[j]) :: FoldsAt(value, j)
      {
        if IsBreak(value[i]) && !FoldsAt(value, i) {
          assert !HeaderRelayable(headers[k]);
          return Some(h.name);
        }
      }
    }
    assert headers[..|headers|] == headers;
    return None;
  }

  // ----- the printer

  function Field(h: RawHeader): Octets {
    h.name + [COLON, SP] + h.value + CRLF
  }

  function Fields(headers: seq<RawHeader>): Octets
    decreases |headers|
  {
    if headers == [] then [] else Field(headers[0]) + Fields(headers[1..])
  }

  /** The block on the wire: the fields, the empty line, normalised and stuffed. */
  function HeaderBlock(headers: seq<RawHeader>): Octets {
    DotStuff(Normalize(Fields(headers) + CRLF), true)
  }

  method PrintHeaderBlock(headers: seq<RawHeader>) returns (block: Octets)
    ensures block == HeaderBlock(headers)
  {
    var out: Octets := [];
    for i := 0 to |headers|
      invariant out + Fields(headers[i..]) == Fields(headers)
    {
      assert headers[i..][1..] == headers[i + 1..];
      Assoc(out, Field(headers[i]), Fields(headers[i + 1..]));
      var field := headers[i].name + [COLON, SP] + headers[i].value + CRLF;
      out := out + field;
    }
    assert headers[|headers|..] == [] && out + [] == out;
    var normal := NormalizeBreaks(out + CRLF);
    block := DotStuffBlock(normal);
  }
}
