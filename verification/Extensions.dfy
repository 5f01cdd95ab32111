/**
 The extensions an EHLO reply announces, read from an upstream and offered again to
 the proxy's own clients.
 */
module Extensions {
  import opened Bytes
  import opened Utf8
  import opened Params
  import opened Replies
  import opened Commands

  type Extensions = map<Octets, Octets>

  const DSN: Octets := [0x44, 0x53, 0x4e]
  const SIZE: Octets := [0x53, 0x49, 0x5a, 0x45]
  const MAX_USIZE: nat := 0xffff_ffff_ffff_ffff

  // ----- reading an EHLO reply

  /** `s` cut at every CR and every LF. */
  function Pieces(s: Octets): seq<Octets>
    decreases |s|
  {
    var n := BreakAt(s);
    if n == |s| then [s] else [s[..n]] + Pieces(s[n + 1..])
  }

  function BreakAt(s: Octets): (n: nat)
    ensures n <= |s| && (forall i | 0 <= i < n :: !IsBreak(s[i])) && (n < |s| ==> IsBreak(s[n]))
  {
    if s == [] || IsBreak(s[0]) then 0 else 1 + BreakAt(s[1..])
  }

  /** The keyword and the parameters in the text of a reply line. */
  function AddText(ext: Extensions, text: Octets): Extensions {
    var rest := TrimStart(text);
    var word := rest[..WordLength(rest)];
    if word == [] then ext else ext[UpperAll(word) := TrimStart(rest[|word|..])]
  }

  function Add(ext: Extensions, piece: Octets): Extensions {
    if StartsWithCode(piece) && |piece| >= 4 && piece[3] in {DASH, SP} then AddText(ext, piece[4..]) else ext
  }

  function Announce(ext: Extensions, pieces: seq<Octets>): Extensions
    decreases |pieces|
  {
    if pieces == [] then ext else Announce(Add(ext, pieces[0]), pieces[1..])
  }

  method ParseExtensions(reply: Octets) returns (ext: Extensions)
    ensures ext == Announce(map[], Pieces(reply))
  {
    var pieces := Pieces(reply);
    ext := map[];
    for i := 0 to |pieces|
      invariant Announce(ext, pieces[i..]) == Announce(map[], pieces)
    {
      assert pieces[i..][1..] == pieces[i + 1..];
      ext := Add(ext, pieces[i]);
    }
  }

  // ----- numbers

  function Decimal(n: nat): (s: Octets)
    ensures |s| >= 1 && forall i | 0 <= i < |s| :: IsDigit(s[i])
  {
    if n < 10 then [0x30 + n] else Decimal(n / 10) + [0x30 + n % 10]
  }

  function DecimalValue(s: Octets): nat
    requires forall i | 0 <= i < |s| :: IsDigit(s[i])
  {
    if s == [] then 0 else 10 * DecimalValue(s[..|s| - 1]) + DigitValue(s[|s| - 1])
  }

  function ParseUsize(s: Octets): Option<nat> {
    var d := if StartsWith(s, 0x2b) then s[1..] else s;
    if d == [] || exists i | 0 <= i < |d| :: !IsDigit(d[i]) then None
    else if DecimalValue(d) > MAX_USIZE then None
    else Some(DecimalValue(d))
  }

  lemma {:induction false} DecimalRoundTrip(n: nat)
    ensures DecimalValue(Decimal(n)) == n
    decreases n
  {
    var s := Decimal(n);
    if n < 10 {
      assert s[..|s| - 1] == [];
    } else {
      DecimalRoundTrip(n / 10);
      assert s[..|s| - 1] == Decimal(n / 10);
    }
  }

  function Pow10(k: nat): nat {
    if k == 0 then 1 else 10 * Pow10(k - 1)
  }

  lemma {:induction false} DecimalLength(n: nat, k: nat)
    requires k >= 1 && n < Pow10(k)
    ensures |Decimal(n)| <= k
    decreases k
  {
    if n >= 10 {
      DecimalLength(n / 10, k - 1);
    }
  }

  // ----- capabilities

  datatype UpstreamCaps = UpstreamCaps(dsn: bool, size: Option<nat>, sizeAnnounced: bool)

  /** The stated limit; absent, unparseable and zero are all "none". */
  function SizeOf(ext: Extensions): (size: Option<nat>)
    ensures size.Some? ==> 0 < size.value <= MAX_USIZE
  {
    if SIZE !in ext || Words(ext[SIZE]) == [] then None
    else
      var n := ParseUsize(Words(ext[SIZE])[0]);
      if n.Some? && n.value > 0 then n else None
  }

  function CapsOf(ext: Extensions): UpstreamCaps {
    UpstreamCaps(DSN in ext, SizeOf(ext), SIZE in ext)
  }

  /** What the proxy remembers of its upstream, shared by every session; 0 means no limit stated. */
  class UpstreamRecord {
    var dsn: bool
    var known: bool
    var size: nat

    constructor ()
      ensures !dsn && SizeLimit() == None
    {
      dsn, known, size := false, false, 0;
    }

    method Note(caps: UpstreamCaps)
      requires caps.size.Some? ==> caps.size.value > 0
      modifies this
      ensures known && dsn == caps.dsn && SizeLimit() == caps.size
    {
      dsn := caps.dsn;
      known := true;
      size := if caps.size.Some? then caps.size.value else 0;
    }

    function SizeLimit(): (limit: Option<nat>)
      reads this
      ensures limit.Some? ==> limit.value > 0
    {
      if size == 0 then None else Some(size)
    }
  }

  // ----- announcing to clients

  /** " offers another warm hug of welcome" and " offers a warm hug of welcome". */
  const WELCOME_AGAIN: Octets := [0x20, 0x6f, 0x66, 0x66, 0x65, 0x72, 0x73, 0x20, 0x61, 0x6e, 0x6f, 0x74, 0x68, 0x65, 0x72, 0x20, 0x77, 0x61, 0x72, 0x6d, 0x20, 0x68, 0x75, 0x67, 0x20, 0x6f, 0x66, 0x20, 0x77, 0x65, 0x6c, 0x63, 0x6f, 0x6d, 0x65]
  const WELCOME: Octets := [0x20, 0x6f, 0x66, 0x66, 0x65, 0x72, 0x73, 0x20, 0x61, 0x20, 0x77, 0x61, 0x72, 0x6d, 0x20, 0x68, 0x75, 0x67, 0x20, 0x6f, 0x66, 0x20, 0x77, 0x65, 0x6c, 0x63, 0x6f, 0x6d, 0x65]
  /** "AUTH PLAIN LOGIN" */
  const AUTH_LINE: Octets := [0x41, 0x55, 0x54, 0x48, 0x20, 0x50, 0x4c, 0x41, 0x49, 0x4e, 0x20, 0x4c, 0x4f, 0x47, 0x49, 0x4e]
  /** "smtp-proxy" */
  const SERVICE_NAME: Octets := [0x73, 0x6d, 0x74, 0x70, 0x2d, 0x70, 0x72, 0x6f, 0x78, 0x79]

  function Offer(offered: bool, line: Octets): seq<Octets> {
    if offered then [line] else []
  }

  function SizeLine(n: nat): Octets {
    SIZE + ([SP] + Decimal(n))
  }

  /** The lines of the reply to a greeting. */
  function GreetingLines(service: Octets, ehlo: bool, tlsActive: bool, tlsOffered: bool, requireTls: bool,
                         dsn: bool, size: Option<nat>): (lines: seq<Octets>)
    ensures |lines| >= 1
  {
    [service + if tlsActive then WELCOME_AGAIN else WELCOME] +
    Offer(ehlo && !tlsActive && tlsOffered, STARTTLS) +
    Offer(ehlo && (tlsActive || !requireTls), AUTH_LINE) +
    Offer(ehlo && dsn, DSN) +
    (if ehlo && size.Some? then [SizeLine(size.value)] else [])
  }

  lemma OffersSpelled()
    ensures AUTH_LINE == Ascii("AUTH PLAIN LOGIN") && DSN == Ascii("DSN") && SIZE == Ascii("SIZE")
    ensures STARTTLS == Ascii("STARTTLS") && SERVICE_NAME == Ascii("smtp-proxy")
  {
  }

  /** No two offers are the same line. */
  lemma OffersDiffer(m: nat, n: nat)
    ensures STARTTLS != AUTH_LINE && STARTTLS != DSN && AUTH_LINE != DSN && SizeLine(n) !in {STARTTLS, AUTH_LINE, DSN}
    ensures SizeLine(m) == SizeLine(n) <==> m == n
  {
    assert STARTTLS[1] == 0x54 && AUTH_LINE[1] == 0x55 && DSN[1] == 0x53 && SizeLine(n)[1] == 0x49;
    assert SizeLine(m)[5..] == Decimal(m) && SizeLine(n)[5..] == Decimal(n);
    DecimalRoundTrip(m);
    DecimalRoundTrip(n);
  }

  /**
   Each extension is offered exactly when it is to be had: STARTTLS in the clear when there is a
   certificate, AUTH where it may be used, DSN and SIZE as the upstream has them; HELO is told none.
   */
  lemma GreetingOffers(service: Octets, ehlo: bool, tlsActive: bool, tlsOffered: bool, requireTls: bool,
                       dsn: bool, size: Option<nat>, line: Octets)
    ensures var lines := GreetingLines(service, ehlo, tlsActive, tlsOffered, requireTls, dsn, size);
            && lines[0] == service + (if tlsActive then WELCOME_AGAIN else WELCOME)
            && (line in lines[1..] <==>
                || (ehlo && !tlsActive && tlsOffered && line == STARTTLS)
                || (ehlo && (tlsActive || !requireTls) && line == AUTH_LINE)
                || (ehlo && dsn && line == DSN)
                || (ehlo && size.Some? && line == SizeLine(size.value)))
  {
    var tls, auth := Offer(ehlo && !tlsActive && tlsOffered, STARTTLS), Offer(ehlo && (tlsActive || !requireTls), AUTH_LINE);
    var ofDsn, ofSize := Offer(ehlo && dsn, DSN), if ehlo && size.Some? then [SizeLine(size.value)] else [];
    var lines := GreetingLines(service, ehlo, tlsActive, tlsOffered, requireTls, dsn, size);
    assert lines[1..] == tls + auth + ofDsn + ofSize;
  }

  // ----- a hop

  function AddTexts(ext: Extensions, texts: seq<Octets>): Extensions
    decreases |texts|
  {
    if texts == [] then ext else AddTexts(AddText(ext, texts[0]), texts[1..])
  }

  lemma {:induction false} AddTextsConcat(ext: Extensions, a: seq<Octets>, b: seq<Octets>)
    ensures AddTexts(ext, a + b) == AddTexts(AddTexts(ext, a), b)
    decreases |a|
  {
    if a == [] {
      assert a + b == b;
    } else {
      assert (a + b)[1..] == a[1..] + b;
      AddTextsConcat(AddText(ext, a[0]), a[1..], b);
    }
  }

  lemma AddTextsOne(ext: Extensions, text: Octets)
    ensures AddTexts(ext, [text]) == AddText(ext, text)
  {
    assert [text][1..] == [];
  }

  lemma PiecesCut(line: Octets, b: Byte, tail: Octets)
    requires IsBreak(b) && forall i | 0 <= i < |line| :: !IsBreak(line[i])
    ensures Pieces(line + ([b] + tail)) == [line] + Pieces(tail)
  {
    var s := line + ([b] + tail);
    assert forall i | 0 <= i < |line| :: s[i] == line[i];
    assert s[|line|] == b;
    assert BreakAt(s) == |line|;
    assert s[..|line|] == line && s[|line| + 1..] == tail;
  }

  lemma PiecesOfLine(line: Octets, rest: Octets)
    requires forall i | 0 <= i < |line| :: !IsBreak(line[i])
    ensures Pieces(line + CRLF + rest) == [line] + ([[]] + Pieces(rest))
  {
    PiecesCut(line, CR, [LF] + rest);
    PiecesCutFront(rest);
    CrlfCut(line, rest);
  }

  lemma CrlfCut(line: Octets, rest: Octets)
    ensures line + CRLF + rest == line + ([CR] + ([LF] + rest))
  {
  }

  lemma PiecesCutFront(rest: Octets)
    ensures Pieces([LF] + rest) == [[]] + Pieces(rest)
  {
    PiecesCut([], LF, rest);
    assert [] + ([LF] + rest) == [LF] + rest;
  }

  lemma AddReplyLine(ext: Extensions, code: nat, last: bool, text: Octets)
    requires Sendable(code)
    ensures var line := ReplyText(code, last, text);
            Add(ext, line) == AddText(ext, Sanitized(text)) && forall i | 0 <= i < |line| :: !IsBreak(line[i])
  {
    ReplyTextPlain(code, last, text);
    ReplyTextReads(code, last, text);
  }

  lemma AnnounceLine(ext: Extensions, code: nat, last: bool, text: Octets, rest: Octets)
    requires Sendable(code)
    ensures Announce(ext, Pieces(ReplyLine(code, last, text) + rest)) ==
            Announce(AddText(ext, Sanitized(text)), Pieces(rest))
  {
    var line := ReplyText(code, last, text);
    AddReplyLine(ext, code, last, text);
    PiecesOfLine(line, rest);
    AnnounceTwo(ext, line, Pieces(rest));
  }

  lemma AnnounceTwo(ext: Extensions, line: Octets, pieces: seq<Octets>)
    ensures Announce(ext, [line] + ([[]] + pieces)) == Announce(Add(ext, line), pieces)
  {
    var tail := [[]] + pieces;
    assert ([line] + tail)[1..] == tail && tail[1..] == pieces;
  }

  predicate AllClean(texts: seq<Octets>) {
    forall i | 0 <= i < |texts| :: IsClean(texts[i])
  }

  /** The printed reply announces exactly the texts of its lines. */
  lemma {:induction false} AnnouncePrinted(ext: Extensions, code: nat, texts: seq<Octets>)
    requires Sendable(code) && AllClean(texts)
    ensures Announce(ext, Pieces(Wire(code, texts))) == AddTexts(ext, texts)
    decreases |texts|
  {
    if texts == [] {
      assert Pieces([])[1..] == [];
    } else {
      AnnounceLine(ext, code, |texts| == 1, texts[0], Wire(code, texts[1..]));
      CleanIsFixed(texts[0]);
      AnnouncePrinted(AddText(ext, texts[0]), code, texts[1..]);
    }
  }

  /** A service name a client cannot take for an extension. */
  predicate ServiceNameOk(name: Octets) {
    && 0 < |name| <= 255 && UpperAll(name) !in {DSN, SIZE}
    && forall i | 0 <= i < |name| :: 0x21 <= name[i] <= 0x7e
  }

  lemma OwnNameOk()
    ensures ServiceNameOk(SERVICE_NAME)
  {
    assert UpperAll(SERVICE_NAME)[4] == DASH;
  }

  lemma AddWord(ext: Extensions, word: Octets, tail: Octets)
    requires word != [] && forall i | 0 <= i < |word| :: 0x21 <= word[i] <= 0x7e
    requires tail == [] || tail[0] == SP
    ensures AddText(ext, word + tail) == ext[UpperAll(word) := TrimStart(tail)]
  {
    var s := word + tail;
    WordEnds(word, tail);
    assert TrimStart(s) == s by { assert s[0] == word[0]; }
    assert s[..|word|] == word && s[|word|..] == tail;
  }

  /** Any reply line with a code announces the word it starts with, whatever its case, and what follows. */
  lemma AddReads(ext: Extensions, code: nat, sep: Byte, word: Octets, tail: Octets)
    requires code < 1000 && word != [] && (forall i | 0 <= i < |word| :: 0x21 <= word[i] <= 0x7e)
    requires tail == [] || tail[0] == SP
    ensures Add(ext, Digits3(code) + [sep] + (word + tail)) ==
            if sep in {DASH, SP} then ext[UpperAll(word) := TrimStart(tail)] else ext
  {
    var piece := Digits3(code) + [sep] + (word + tail);
    assert StartsWithCode(piece) && piece[3] == sep && piece[4..] == word + tail;
    AddWord(ext, word, tail);
  }

  /** One more line announces DSN or SIZE exactly when that is its word, with a usable limit or without. */
  lemma CapsRead(ext: Extensions, code: nat, sep: Byte, word: Octets, tail: Octets)
    requires code < 1000 && sep in {DASH, SP} && word != [] && (forall i | 0 <= i < |word| :: 0x21 <= word[i] <= 0x7e)
    requires tail == [] || tail[0] == SP
    ensures var before, after := CapsOf(ext), CapsOf(Add(ext, Digits3(code) + [sep] + (word + tail)));
            && (after.dsn <==> before.dsn || UpperAll(word) == DSN)
            && (after.sizeAnnounced <==> before.sizeAnnounced || UpperAll(word) == SIZE)
            && (UpperAll(word) != SIZE ==> after.size == before.size)
  {
    AddReads(ext, code, sep, word, tail);
  }

  /** A number behind a space is a word by itself, and reads as that number. */
  lemma SizeParses(n: nat)
    requires 0 < n <= MAX_USIZE
    ensures TrimStart([SP] + Decimal(n)) == Decimal(n)
    ensures Words(Decimal(n)) == [Decimal(n)] && ParseUsize(Decimal(n)) == Some(n)
  {
    var d := Decimal(n);
    assert ([SP] + d)[1..] == d;
    assert TrimStart(d) == d;
    assert d + [] == d;
    WordEnds(d, []);
    assert d[..|d|] == d && d[|d|..] == [];
    DecimalRoundTrip(n);
  }

  lemma AddSize(ext: Extensions, n: nat)
    requires 0 < n <= MAX_USIZE
    ensures var r := AddText(ext, SizeLine(n)); SizeOf(r) == Some(n) && (DSN in r <==> DSN in ext)
  {
    var d := Decimal(n);
    AddWord(ext, SIZE, [SP] + d);
    SizeParses(n);
    SizeAdded(ext, d, n);
  }

  lemma SizeAdded(ext: Extensions, d: Octets, n: nat)
    requires n > 0 && Words(d) == [d] && ParseUsize(d) == Some(n)
    ensures UpperAll(SIZE) == SIZE
    ensures SizeOf(ext[SIZE := d]) == Some(n) && (DSN in ext[SIZE := d] <==> DSN in ext)
  {
    assert SIZE[0] != DSN[0];
  }

  /** Adds the keyword of a line that is offered, and nothing otherwise. */
  lemma AddOffered(ext: Extensions, offered: bool, line: Octets, word: Octets, tail: Octets)
    requires line == word + tail
    requires word != [] && UpperAll(word) == word && forall i | 0 <= i < |word| :: 0x21 <= word[i] <= 0x7e
    requires tail == [] || tail[0] == SP
    ensures AddTexts(ext, Offer(offered, line)) == if offered then ext[word := TrimStart(tail)] else ext
  {
    AddTextsOne(ext, line);
    AddWord(ext, word, tail);
  }

  lemma AddTextsFour(ext: Extensions, a: seq<Octets>, b: seq<Octets>, c: seq<Octets>, d: seq<Octets>)
    ensures AddTexts(ext, a + b + c + d) == AddTexts(AddTexts(AddTexts(AddTexts(ext, a), b), c), d)
  {
    AddTextsConcat(ext, a + b + c, d);
    AddTextsConcat(ext, a + b, c);
    AddTextsConcat(ext, a, b);
  }

  lemma AddOffers(ext: Extensions, tls: bool, auth: bool, dsn: bool)
    ensures var r := AddTexts(AddTexts(AddTexts(ext, Offer(tls, STARTTLS)), Offer(auth, AUTH_LINE)), Offer(dsn, DSN));
            (DSN in r <==> DSN in ext || dsn) && (SIZE in r <==> SIZE in ext)
  {
    OfferWords();
    AddOffered(ext, tls, STARTTLS, STARTTLS, []);
    var e1 := AddTexts(ext, Offer(tls, STARTTLS));
    AddOffered(e1, auth, AUTH_LINE, AUTH, AUTH_LINE[4..]);
    AddOffered(AddTexts(e1, Offer(auth, AUTH_LINE)), dsn, DSN, DSN, []);
  }

  lemma AddService(service: Octets, welcome: Octets)
    requires ServiceNameOk(service) && StartsWith(welcome, SP)
    ensures var ext := AddTexts(map[], [service + welcome]); DSN !in ext && SIZE !in ext
  {
    AddTextsOne(map[], service + welcome);
    AddWord(map[], service, welcome);
  }

  lemma OfferWords()
    ensures UpperAll(STARTTLS) == STARTTLS == STARTTLS + []
    ensures UpperAll(AUTH) == AUTH && AUTH_LINE == AUTH + AUTH_LINE[4..] && AUTH_LINE[4..][0] == SP
    ensures UpperAll(DSN) == DSN == DSN + []
    ensures WELCOME[0] == SP && WELCOME_AGAIN[0] == SP
  {
  }

  lemma GreetingClean(service: Octets, tlsActive: bool, tlsOffered: bool, requireTls: bool, dsn: bool, size: Option<nat>)
    requires ServiceNameOk(service) && (size.Some? ==> size.value <= MAX_USIZE)
    ensures AllClean(GreetingLines(service, true, tlsActive, tlsOffered, requireTls, dsn, size))
  {
    WelcomeClean(service);
    assert IsClean(STARTTLS) && IsClean(AUTH_LINE) && IsClean(DSN);
    if size.Some? {
      SizeLineClean(size.value);
    }
  }

  lemma WelcomeClean(service: Octets)
    requires ServiceNameOk(service)
    ensures IsClean(service + WELCOME) && IsClean(service + WELCOME_AGAIN)
  {
    assert IsClean(WELCOME) && IsClean(WELCOME_AGAIN);
    assert |WELCOME| == 29 && |WELCOME_AGAIN| == 35;
  }

  lemma SizeLineClean(n: nat)
    requires n <= MAX_USIZE
    ensures IsClean(SizeLine(n))
  {
    Usize20();
    DecimalLength(n, 20);
    var d := Decimal(n);
    assert forall i | 0 <= i < |d| :: IsDigit(d[i]);
  }

  lemma Usize20()
    ensures MAX_USIZE < Pow10(20)
  {
    assert Pow10(5) == 100000;
    assert Pow10(10) == 100000 * Pow10(5);
    assert Pow10(15) == 100000 * Pow10(10);
    assert Pow10(20) == 100000 * Pow10(15);
  }

  /**
   Capabilities survive a hop: what an upstream's EHLO reply announced is what the proxy's own
   EHLO reply announces, through the record kept in between, decimal printing and sanitising.
   */
  lemma CapsSurviveHop(reply: Octets, service: Octets, tlsActive: bool, tlsOffered: bool, requireTls: bool)
    requires ServiceNameOk(service)
    ensures var caps := CapsOf(Announce(map[], Pieces(reply)));
            var offered := Wire(250, GreetingLines(service, true, tlsActive, tlsOffered, requireTls, caps.dsn, caps.size));
            var seen := CapsOf(Announce(map[], Pieces(offered)));
            seen.dsn == caps.dsn && seen.size == caps.size
  {
    var caps := CapsOf(Announce(map[], Pieces(reply)));
    var welcome := if tlsActive then WELCOME_AGAIN else WELCOME;
    var tls, auth := !tlsActive && tlsOffered, tlsActive || !requireTls;
    var base := [service + welcome] + Offer(tls, STARTTLS) + Offer(auth, AUTH_LINE) + Offer(caps.dsn, DSN);
    var lines := GreetingLines(service, true, tlsActive, tlsOffered, requireTls, caps.dsn, caps.size);
    GreetingClean(service, tlsActive, tlsOffered, requireTls, caps.dsn, caps.size);
    AnnouncePrinted(map[], 250, lines);
    OfferWords();
    AddService(service, welcome);
    AddTextsFour(map[], [service + welcome], Offer(tls, STARTTLS), Offer(auth, AUTH_LINE), Offer(caps.dsn, DSN));
    AddOffers(AddTexts(map[], [service + welcome]), tls, auth, caps.dsn);
    OfferSize(base, caps.size);
  }

  lemma OfferSize(base: seq<Octets>, size: Option<nat>)
    requires size.Some? ==> 0 < size.value <= MAX_USIZE
    requires SIZE !in AddTexts(map[], base)
    ensures var ext := AddTexts(map[], base + if size.Some? then [SizeLine(size.value)] else []);
            SizeOf(ext) == size && (DSN in ext <==> DSN in AddTexts(map[], base))
  {
    if size.Some? {
      AddTextsConcat(map[], base, [SizeLine(size.value)]);
      AddTextsOne(AddTexts(map[], base), SizeLine(size.value));
      AddSize(AddTexts(map[], base), size.value);
    } else {
      assert base + [] == base;
    }
  }
}
