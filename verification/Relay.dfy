/**
 The upstream side: the envelope lines it is sent, the body it is written, and what its
 answers are turned into for the client.
 */
module Relay {
  import opened Bytes
  import opened Params
  import opened Commands
  import opened Dsn
  import opened Extensions
  import opened Replies
  import opened Data

  // ----- codes

  /** A reply code that says no. */
  predicate IsRefusal(code: nat) {
    400 <= code <= 599
  }

  /** Why a message could not be handed to the upstream before its body began. */
  datatype RelayError = Rejected(code: nat) | Address | Unreachable

  /** The code the client is given; an upstream's own code only when that is a refusal. */
  function ClientCode(e: RelayError): (code: nat)
    ensures IsRefusal(code)
    ensures e.Rejected? && IsRefusal(e.code) ==> code == e.code
    ensures e.Address? ==> code == 550
    ensures e.Unreachable? || (e.Rejected? && !IsRefusal(e.code)) ==> code == 451
  {
    match e
    case Rejected(c) => if 400 <= c < 600 then c else 451
    case Address => 550
    case Unreachable => 451
  }

  /** What the upstream did during DATA, when it did something other than accept. */
  datatype UpstreamVerdict = Dropped | Replied(code: nat)

  function RepliedWith(code: nat): (v: UpstreamVerdict)
    ensures v.Replied? && IsRefusal(v.code)
    ensures v.code == if IsRefusal(code) then code else 451
  {
    Replied(if 400 <= code < 600 then code else 451)
  }

  predicate VerdictSendable(v: UpstreamVerdict) {
    v.Replied? ==> IsRefusal(v.code)
  }

  function IntoRelayError(v: UpstreamVerdict): RelayError {
    match v case Dropped => Unreachable case Replied(code) => Rejected(code)
  }

  // ----- the envelope

  datatype Recipient = Recipient(address: Octets, params: seq<Param>)

  /** The delivery-status parameters of a command, in order. */
  function Wanted(params: seq<Param>, which: DsnCommand): seq<Param>
    decreases |params|
  {
    if params == [] then []
    else (if KeywordOf(params[0].keyword, which).Some? then [params[0]] else []) + Wanted(params[1..], which)
  }

  function DsnSuffix(params: seq<Param>, which: DsnCommand, upstreamDsn: bool): Octets {
    if upstreamDsn then Suffix(Wanted(params, which)) else []
  }

  /** The value of the first SIZE parameter. */
  function FirstSize(params: seq<Param>): (v: Option<Octets>)
    ensures AllOk(params) && v.Some? ==> ValueOk(v.value)
    decreases |params|
  {
    if params == [] then None
    else if SameFolded(params[0].keyword, SIZE) then params[0].value
    else FirstSize(params[1..])
  }

  function SizeSuffix(params: seq<Param>, announced: bool): Octets {
    match FirstSize(params)
    case Some(v) => if announced then [SP] + SIZE + [EQUALS] + v else []
    case None => []
  }

  function MailLine(from: Octets, params: seq<Param>, caps: UpstreamCaps): Octets {
    MAIL + [SP] + (FROM + ([LT] + from + [GT] +
    (DsnSuffix(params, MailParams, caps.dsn) + SizeSuffix(params, caps.sizeAnnounced)))) + CRLF
  }

  function RcptLine(r: Recipient, caps: UpstreamCaps): Octets {
    RCPT + [SP] + (TO + ([LT] + r.address + [GT] + DsnSuffix(r.params, RcptParams, caps.dsn))) + CRLF
  }

  function RcptLines(recipients: seq<Recipient>, caps: UpstreamCaps): seq<Octets>
    decreases |recipients|
  {
    if recipients == [] then [] else [RcptLine(recipients[0], caps)] + RcptLines(recipients[1..], caps)
  }

  /** The lines that open a transaction. */
  function EnvelopeLines(from: Octets, params: seq<Param>, recipients: seq<Recipient>, caps: UpstreamCaps): seq<Octets> {
    [MailLine(from, params, caps)] + RcptLines(recipients, caps) + [DATA + CRLF]
  }

  /** What the upstream may be told about a sender: DSN if it knows DSN, then SIZE if it knows SIZE. */
  function PermittedMail(params: seq<Param>, caps: UpstreamCaps): seq<Param> {
    (if caps.dsn then Wanted(params, MailParams) else []) +
    (if caps.sizeAnnounced && FirstSize(params).Some? then [Param(SIZE, FirstSize(params))] else [])
  }

  function PermittedRcpt(params: seq<Param>, caps: UpstreamCaps): seq<Param> {
    if caps.dsn then Wanted(params, RcptParams) else []
  }

  lemma {:induction false} WantedOk(params: seq<Param>, which: DsnCommand)
    requires AllOk(params)
    ensures AllOk(Wanted(params, which))
    decreases |params|
  {
    if params != [] {
      WantedOk(params[1..], which);
    }
  }

  /** A delivery-status parameter of the command, whatever its case. */
  predicate IsOwn(p: Param, which: DsnCommand) {
    match which
    case MailParams => UpperAll(p.keyword) == Ret.Name() || UpperAll(p.keyword) == Envid.Name()
    case RcptParams => UpperAll(p.keyword) == Notify.Name() || UpperAll(p.keyword) == Orcpt.Name()
  }

  /** Parameter by parameter, in order, the command's own delivery-status parameters and no other. */
  lemma {:induction false} WantedMeans(a: seq<Param>, p: Param, which: DsnCommand)
    ensures Wanted(a + [p], which) == Wanted(a, which) + if IsOwn(p, which) then [p] else []
    ensures Wanted([], which) == []
    decreases |a|
  {
    if a == [] {
      assert [p][1..] == [] && a + [p] == [p];
      assert Ret.On(which) || Notify.On(which);
      assert Envid.On(which) || Orcpt.On(which);
    } else {
      assert (a + [p])[1..] == a[1..] + [p];
      WantedMeans(a[1..], p, which);
      var first := if KeywordOf(a[0].keyword, which).Some? then [a[0]] else [];
      Assoc(first, Wanted(a[1..], which), if IsOwn(p, which) then [p] else []);
    }
  }

  /** The first SIZE counts, in any case; there is none exactly when no parameter is a SIZE. */
  lemma {:induction false} FirstSizeMeans(a: seq<Param>, p: Param, b: seq<Param>)
    requires forall i | 0 <= i < |a| :: !SameFolded(a[i].keyword, SIZE)
    ensures FirstSize(a) == None
    ensures SameFolded(p.keyword, SIZE) ==> FirstSize(a + [p] + b) == p.value
    decreases |a|
  {
    if a == [] {
      assert a + [p] + b == [p] + b;
    } else {
      assert (a + [p] + b)[1..] == a[1..] + [p] + b;
      FirstSizeMeans(a[1..], p, b);
    }
  }

  lemma PermittedMailPrints(params: seq<Param>, caps: UpstreamCaps)
    requires AllOk(params)
    ensures AllOk(PermittedMail(params, caps))
    ensures Suffix(PermittedMail(params, caps)) ==
            DsnSuffix(params, MailParams, caps.dsn) + SizeSuffix(params, caps.sizeAnnounced)
  {
    WantedOk(params, MailParams);
    var dsn := if caps.dsn then Wanted(params, MailParams) else [];
    var size := if caps.sizeAnnounced && FirstSize(params).Some? then [Param(SIZE, FirstSize(params))] else [];
    SuffixConcat(dsn, size);
    if size != [] {
      SizeParam(FirstSize(params).value);
    }
  }

  lemma SizeParam(v: Octets)
    requires ValueOk(v)
    ensures ParamOk(Param(SIZE, Some(v)))
    ensures Suffix([Param(SIZE, Some(v))]) == [SP] + SIZE + [EQUALS] + v
  {
    var p := Param(SIZE, Some(v));
    assert [p][1..] == [];
    assert Suffix([p]) == [SP] + ParamWord(p) + [];
    AssocFour([SP], SIZE, [EQUALS], v);
  }

  /**
   The MAIL line is one CRLF line that a server reads back as exactly the address and
   exactly the permitted parameters.
   */
  lemma MailLineReadBack(from: Octets, params: seq<Param>, caps: UpstreamCaps)
    requires AddressRelayable(from) && AllOk(params)
    ensures IsLine(MailLine(from, params, caps))
    ensures ParseCommand(MailLine(from, params, caps)) == Ok(Mail(from, PermittedMail(params, caps)))
  {
    PermittedMailPrints(params, caps);
    assert MailLine(from, params, caps) == PathLine(MAIL, FROM, from, PermittedMail(params, caps));
    ParsePrintedMail(from, PermittedMail(params, caps));
  }

  lemma RcptLineReadBack(r: Recipient, caps: UpstreamCaps)
    requires AddressRelayable(r.address) && r.address != [] && AllOk(r.params)
    ensures IsLine(RcptLine(r, caps))
    ensures ParseCommand(RcptLine(r, caps)) == Ok(Rcpt(r.address, PermittedRcpt(r.params, caps)))
  {
    WantedOk(r.params, RcptParams);
    assert RcptLine(r, caps) == PathLine(RCPT, TO, r.address, PermittedRcpt(r.params, caps));
    ParsePrintedRcpt(r.address, PermittedRcpt(r.params, caps));
  }

  // ----- what the upstream makes of a transaction's lines

  function ParseAll(lines: seq<Octets>): seq<Parsed>
    decreases |lines|
  {
    if lines == [] then [] else [ParseCommand(lines[0])] + ParseAll(lines[1..])
  }

  lemma {:induction false} ParseAllConcat(a: seq<Octets>, b: seq<Octets>)
    ensures ParseAll(a + b) == ParseAll(a) + ParseAll(b)
    decreases |a|
  {
    if a == [] {
      assert a + b == b;
    } else {
      assert (a + b)[1..] == a[1..] + b;
      ParseAllConcat(a[1..], b);
      Assoc([ParseCommand(a[0])], ParseAll(a[1..]), ParseAll(b));
    }
  }

  lemma ParseAllOne(line: Octets)
    ensures ParseAll([line]) == [ParseCommand(line)]
  {
    assert [line][1..] == [];
  }

  function RcptCommands(recipients: seq<Recipient>, caps: UpstreamCaps): seq<Parsed>
    decreases |recipients|
  {
    if recipients == [] then []
    else
      [Ok(Rcpt(recipients[0].address, PermittedRcpt(recipients[0].params, caps)))] + RcptCommands(recipients[1..], caps)
  }

  /** MAIL for the sender, RCPT for each recipient in order, each with what the upstream may be told, then DATA. */
  function EnvelopeCommands(from: Octets, params: seq<Param>, recipients: seq<Recipient>, caps: UpstreamCaps): seq<Parsed> {
    [Ok(Mail(from, PermittedMail(params, caps)))] + RcptCommands(recipients, caps) + [Ok(Command.Data)]
  }

  /** What the parser guarantees of a recipient, and what the proxy checks before it relays. */
  predicate Deliverable(r: Recipient) {
    AllOk(r.params) && r.address != [] && AddressRelayable(r.address)
  }

  lemma {:induction false} RcptLinesReadBack(recipients: seq<Recipient>, caps: UpstreamCaps)
    requires forall i | 0 <= i < |recipients| :: Deliverable(recipients[i])
    ensures ParseAll(RcptLines(recipients, caps)) == RcptCommands(recipients, caps)
    decreases |recipients|
  {
    if recipients != [] {
      var first, rest := RcptLine(recipients[0], caps), RcptLines(recipients[1..], caps);
      RcptLineReadBack(recipients[0], caps);
      RcptLinesReadBack(recipients[1..], caps);
      assert ([first] + rest)[1..] == rest;
    }
  }

  /** A bare verb is read as the command it names. */
  lemma BareLineReadBack(verb: Octets)
    requires IsVerb(verb)
    ensures ParseCommand(verb + CRLF) == ParseVerb(verb, None)
  {
    var line := verb + CRLF;
    assert line[..|verb|] == verb && line[|verb|..] == CRLF;
    assert VerbLength(verb) == |verb|;
    assert verb[|verb|..] == [] && verb[..|verb|] == verb;
  }

  lemma DataLineReadBack()
    ensures ParseCommand(DATA + CRLF) == Ok(Command.Data) && ParseCommand(QUIT + CRLF) == Ok(Quit)
  {
    BareVerbs();
    BareLineReadBack(DATA);
    BareLineReadBack(QUIT);
  }

  lemma BareVerbs()
    ensures IsVerb(DATA) && ParseVerb(DATA, None) == Ok(Command.Data)
    ensures IsVerb(QUIT) && ParseVerb(QUIT, None) == Ok(Quit)
  {
  }

  lemma QuitReadBack(lines: seq<Octets>)
    ensures ParseAll(lines + [QUIT + CRLF]) == ParseAll(lines) + [Ok(Quit)]
  {
    ParseAllConcat(lines, [QUIT + CRLF]);
    ParseAllOne(QUIT + CRLF);
    DataLineReadBack();
  }

  /** The whole envelope, read by the server it is sent to. */
  lemma EnvelopeReadBack(from: Octets, params: seq<Param>, recipients: seq<Recipient>, caps: UpstreamCaps)
    requires AddressRelayable(from) && AllOk(params)
    requires forall i | 0 <= i < |recipients| :: Deliverable(recipients[i])
    ensures ParseAll(EnvelopeLines(from, params, recipients, caps)) == EnvelopeCommands(from, params, recipients, caps)
  {
    var mail, rcpts := [MailLine(from, params, caps)], RcptLines(recipients, caps);
    ParseAllConcat(mail + rcpts, [DATA + CRLF]);
    ParseAllConcat(mail, rcpts);
    ParseAllOne(MailLine(from, params, caps));
    ParseAllOne(DATA + CRLF);
    MailLineReadBack(from, params, caps);
    RcptLinesReadBack(recipients, caps);
    DataLineReadBack();
  }

  lemma {:induction false} RcptLinesCount(recipients: seq<Recipient>, caps: UpstreamCaps)
    ensures |RcptLines(recipients, caps)| == |recipients|
    decreases |recipients|
  {
    if recipients != [] {
      RcptLinesCount(recipients[1..], caps);
    }
  }

  lemma {:induction false} WantedWith(params: seq<Param>, which: DsnCommand, k: DsnKeyword)
    requires k.On(which)
    ensures With(Wanted(params, which), k) == With(params, k)
    decreases |params|
  {
    if params != [] {
      WantedWith(params[1..], which, k);
      var rest := Wanted(params[1..], which);
      if KeywordOf(params[0].keyword, which).Some? {
        assert ([params[0]] + rest)[1..] == rest;
      } else {
        assert [] + rest == rest;
      }
    }
  }

  /** Parameters the client was allowed are parameters the next server allows. */
  lemma DsnSurvivesHop(params: seq<Param>, caps: UpstreamCaps)
    ensures DsnValid(params, MailParams) ==> DsnValid(PermittedMail(params, caps), MailParams)
    ensures DsnValid(params, RcptParams) ==> DsnValid(PermittedRcpt(params, caps), RcptParams)
  {
    var size := if caps.sizeAnnounced && FirstSize(params).Some? then [Param(SIZE, FirstSize(params))] else [];
    forall k: DsnKeyword
      ensures With(size, k) == []
      ensures k.On(MailParams) ==> With(PermittedMail(params, caps), k) == if caps.dsn then With(params, k) else []
      ensures k.On(RcptParams) ==> With(PermittedRcpt(params, caps), k) == if caps.dsn then With(params, k) else []
    {
      assert size != [] ==> size[1..] == [] && UpperAll(SIZE)[0] == 0x53;
      WithConcat(if caps.dsn then Wanted(params, MailParams) else [], size, k);
      if k.On(MailParams) {
        WantedWith(params, MailParams, k);
      } else {
        WantedWith(params, RcptParams, k);
      }
    }
  }

  // ----- the connection

  /** How the upstream answered the end of the message. */
  datatype Outcome = Accepted(code: nat) | Refused(verdict: UpstreamVerdict)

  function FinishTail(lastWritten: Option<Byte>): Octets {
    if lastWritten == Some(LF) then [DOT, CR, LF] else [CR, LF, DOT, CR, LF]
  }

  /** What a reply that is no yes is to the client during DATA; none at all is a lost connection. */
  function VerdictOf(reading: Reading): (v: UpstreamVerdict)
    ensures VerdictSendable(v) && (v.Replied? <==> reading.Read?)
    ensures reading.Read? && IsRefusal(reading.code) ==> v == Replied(reading.code)
  {
    match reading case Failed => Dropped case Read(code, _, _) => RepliedWith(code)
  }

  /** The class a command of a transaction expects: 3 for DATA, the last of `n`, and 2 for the others. */
  function ClassAt(k: nat, n: nat): nat {
    if k + 1 == n then 3 else 2
  }

  predicate Taken(reply: Reading, expectClass: nat) {
    reply.Read? && reply.code / 100 == expectClass
  }

  /** Every command sent so far, of the `n` of a transaction, was taken. */
  predicate AllTaken(replies: seq<Reading>, n: nat) {
    |replies| <= n && forall k | 0 <= k < |replies| :: Taken(replies[k], ClassAt(k, n))
  }

  /** What a reply outside the class is to the client. */
  function ErrorOf(reply: Reading): RelayError {
    match reply case Failed => Unreachable case Read(code, _, _) => Rejected(code)
  }

  /** A refusal reaches the client with the upstream's own code, whenever it comes; all else that is no yes is 451. */
  lemma CodesTold(reply: Reading)
    ensures var code := if reply.Read? && 400 <= reply.code <= 599 then reply.code else 451;
            && ClientCode(ErrorOf(reply)) == code && ClientCode(IntoRelayError(VerdictOf(reply))) == code
            && (reply.Read? ==> VerdictOf(reply) == Replied(code))
  {
  }

  /** The last of these replies, and no other, was outside its class. */
  predicate StoppedAt(replies: seq<Reading>, n: nat) {
    && 0 < |replies| <= n && AllTaken(replies[..|replies| - 1], n)
    && !Taken(replies[|replies| - 1], ClassAt(|replies| - 1, n))
  }

  lemma OneMore(replies: seq<Reading>, reply: Reading, n: nat)
    requires AllTaken(replies, n) && |replies| < n
    ensures var more := replies + [reply];
            if Taken(reply, ClassAt(|replies|, n)) then AllTaken(more, n) else StoppedAt(more, n)
  {
    var more := replies + [reply];
    assert more[..|more| - 1] == replies;
  }

  /** The upstream has taken the message. */
  predicate SaidYes(verdict: Option<Reading>) {
    verdict.Some? && verdict.value.Read? && verdict.value.code / 100 == 2
  }

  // ----- the connection

  /**
   What the far side will do, fixed in advance: its reply to each command; whether the piece written
   at an offset gets out, and if not, how much of it does and what is read then; how much of the
   terminator gets out, and what is read behind it.
   */
  datatype FarSide = FarSide(
    replies: nat -> Reading,
    pushes: nat -> bool, cuts: nat -> nat, words: nat -> Reading,
    tail: nat, last: Reading)

  /** How far into `n` bytes written at offset `from` the first piece starts that does not get out. */
  function Halt(far: FarSide, from: nat, n: nat): (at: Option<nat>)
    ensures at.Some? ==> at.value < n && !far.pushes(from + at.value)
    decreases n
  {
    if n == 0 then None
    else if !far.pushes(from) then Some(0)
    else
      var k := if n < WRITE_CHUNK then n else WRITE_CHUNK;
      match Halt(far, from + k, n - k) case Some(at) => Some(k + at) case None => None
  }

  function Shifted(i: nat, at: Option<nat>): Option<nat> {
    match at case Some(n) => Some(i + n) case None => None
  }

  /** Behind `i` of the bytes, with nothing stopped so far. */
  predicate HaltsFrom(far: FarSide, from: nat, n: nat, i: nat)
    requires i <= n
  {
    Halt(far, from, n) == Shifted(i, Halt(far, from + i, n - i))
  }

  /** Writing `n` bytes at `from` stops exactly when a piece does not get out, with what is read there. */
  predicate Fits(far: FarSide, from: nat, n: nat, stopped: bool, early: Option<Reading>) {
    match Halt(far, from, n) case Some(at) => stopped && early == Some(far.words(from + at)) case None => !stopped
  }

  lemma HaltsOn(far: FarSide, from: nat, n: nat, i: nat, end: nat, early: Option<Reading>)
    requires i < n && end == (if i + WRITE_CHUNK < n then i + WRITE_CHUNK else n) && HaltsFrom(far, from, n, i)
    ensures far.pushes(from + i) ==> HaltsFrom(far, from, n, end) && (end == n ==> Fits(far, from, n, false, early))
    ensures !far.pushes(from + i) && early == Some(far.words(from + i)) ==> Fits(far, from, n, true, early)
  {
  }

  /** These are the first replies of the far side. */
  predicate Answers(far: FarSide, replies: seq<Reading>) {
    forall k | 0 <= k < |replies| :: replies[k] == far.replies(k)
  }

  lemma AnswersMore(far: FarSide, replies: seq<Reading>, reply: Reading)
    requires Answers(far, replies) && reply == far.replies(|replies|)
    ensures Answers(far, replies + [reply])
  {
  }

  /** What is read behind the terminator: nothing unless all of it got out. */
  function LastWord(far: FarSide, tail: Octets): Reading {
    if far.tail < |tail| then Failed else far.last
  }

  /** Some piece will not get out. */
  ghost predicate Stalls(far: FarSide) {
    exists at: nat :: !far.pushes(at)
  }

  /** Some piece will not, or the terminator, or the message is not taken. */
  ghost predicate Hindered(far: FarSide) {
    Stalls(far) || far.tail < 5 || !SaidYes(Some(far.last))
  }

  /** Each of `n` commands will be taken, and then the message. */
  ghost predicate Willing(far: FarSide, n: nat) {
    !Hindered(far) && forall k | 0 <= k < n :: Taken(far.replies(k), ClassAt(k, n))
  }

  /**
   An upstream connection past its handshake. `commands` and `sent` are what was put on the
   wire before and after the upstream's 354.
   */
  class UpstreamSession {
    const caps: UpstreamCaps
    const far: FarSide
    var commands: seq<Octets>
    var sent: Octets
    var lastWritten: Option<Byte>
    /** The reply to each command. */
    ghost var replies: seq<Reading>
    /** What was read from it before the terminator, once it would not take what it was written. */
    ghost var early: Option<Reading>
    /** What was read behind the terminator; nothing before a terminator was attempted. */
    ghost var verdict: Option<Reading>

    constructor (announced: UpstreamCaps, side: FarSide)
      ensures caps == announced && far == side && commands == [] && sent == [] && lastWritten == None
      ensures replies == [] && early == None && verdict == None
    {
      caps, far := announced, side;
      commands, sent, lastWritten := [], [], None;
      replies, early, verdict := [], None, None;
    }

    /** One command and a reply in the class it expects. */
    method Command(line: Octets, expectClass: nat) returns (e: Option<RelayError>, ghost reply: Reading)
      modifies `commands, `replies
      ensures commands == old(commands) + [line] && replies == old(replies) + [reply]
      ensures reply == far.replies(|old(commands)|)
      ensures e.None? <==> Taken(reply, expectClass)
      ensures e.Some? ==> e.value == ErrorOf(reply)
    {
      var reading := far.replies(|commands|);
      commands := commands + [line];
      reply := reading;
      replies := replies + [reply];
      match reading {
        case Failed => e := Some(Unreachable);
        case Read(code, _, _) => e := if code / 100 != expectClass then Some(Rejected(code)) else None;
      }
    }

    /**
     MAIL, every RCPT, then DATA. It succeeds exactly when every one of them was taken, and stops
     at the first that was not, with that reply's error.
     */
    method OpenTransaction(from: Octets, params: seq<Param>, recipients: seq<Recipient>) returns (e: Option<RelayError>)
      requires commands == [] && replies == []
      modifies `commands, `replies
      ensures |commands| == |replies| && commands <= EnvelopeLines(from, params, recipients, caps)
      ensures Answers(far, replies)
      ensures e.None? ==> commands == EnvelopeLines(from, params, recipients, caps) && AllTaken(replies, |recipients| + 2)
      ensures e.Some? ==> StoppedAt(replies, |recipients| + 2) && e.value == ErrorOf(replies[|replies| - 1])
    {
      ghost var n, reply := |recipients| + 2, Failed;
      ghost var mail := [MailLine(from, params, caps)];
      e, reply := Command(MailLine(from, params, caps), 2);
      assert commands == mail;
      if e.Some? {
        return;
      }
      for i := 0 to |recipients|
        invariant commands + RcptLines(recipients[i..], caps) == mail + RcptLines(recipients, caps)
        invariant |commands| == |replies| == i + 1 && AllTaken(replies, n)
        invariant Answers(far, replies)
      {
        ghost var before := replies;
        assert recipients[i..][1..] == recipients[i + 1..];
        Assoc(commands, [RcptLine(recipients[i], caps)], RcptLines(recipients[i + 1..], caps));
        e, reply := Command(RcptLine(recipients[i], caps), 2);
        OneMore(before, reply, n);
        AnswersMore(far, before, reply);
        if e.Some? {
          return;
        }
      }
      ghost var before := replies;
      e, reply := Command(DATA + CRLF, 3);
      OneMore(before, reply, n);
      AnswersMore(far, before, reply);
    }

    /**
     One piece of the body. On success all of it has gone out; otherwise some prefix has, and
     the verdict is one the client can be told.
     */
    method Write(chunk: Octets) returns (v: Option<UpstreamVerdict>)
      modifies `sent, `lastWritten, `early
      ensures old(sent) <= sent <= old(sent) + chunk
      ensures v.None? ==> sent == old(sent) + chunk
      ensures v.None? ==> lastWritten == if chunk == [] then old(lastWritten) else Some(chunk[|chunk| - 1])
      ensures v.None? ==> early == old(early)
      ensures v.Some? ==> early.Some? && v.value == VerdictOf(early.value) && Stalls(far)
      ensures Fits(far, |old(sent)|, |chunk|, v.Some?, early)
    {
      v := None;
      if chunk == [] {
        return;
      }
      lastWritten := Some(chunk[|chunk| - 1]);
      ghost var before := sent;
      var i := 0;
      while i < |chunk|
        invariant i <= |chunk| && sent == before + chunk[..i] && v.None?
        invariant lastWritten == Some(chunk[|chunk| - 1]) && early == old(early)
        invariant HaltsFrom(far, |before|, |chunk|, i) && (i == |chunk| ==> Fits(far, |before|, |chunk|, false, early))
      {
        v, i := WriteFrom(chunk, i, before);
        if v.Some? {
          return;
        }
      }
    }

    method WriteFrom(chunk: Octets, i: nat, ghost before: Octets) returns (v: Option<UpstreamVerdict>, end: nat)
      requires i < |chunk| && sent == before + chunk[..i] && HaltsFrom(far, |before|, |chunk|, i)
      modifies `sent, `early
      ensures i < end <= |chunk| && before <= sent <= before + chunk
      ensures v.None? ==>
                && sent == before + chunk[..end] && early == old(early) && HaltsFrom(far, |before|, |chunk|, end)
                && (end == |chunk| ==> Fits(far, |before|, |chunk|, false, early))
      ensures v.Some? ==>
                && early.Some? && v.value == VerdictOf(early.value) && Stalls(far)
                && Fits(far, |before|, |chunk|, true, early)
    {
      end := if i + WRITE_CHUNK < |chunk| then i + WRITE_CHUNK else |chunk|;
      PieceOf(before, chunk, i, end);
      v := Push(chunk[i..end]);
      HaltsOn(far, |before|, |chunk|, i, end, early);
    }

    static lemma PieceOf(before: Octets, chunk: Octets, i: nat, end: nat)
      requires i <= end <= |chunk|
      ensures before + chunk[..i] + chunk[i..end] == before + chunk[..end]
      ensures before + chunk[..end] <= before + chunk
    {
      assert chunk[..i] + chunk[i..end] == chunk[..end];
    }

    method Push(piece: Octets) returns (v: Option<UpstreamVerdict>)
      modifies `sent, `early
      ensures old(sent) <= sent <= old(sent) + piece
      ensures v.None? <==> far.pushes(|old(sent)|)
      ensures v.None? ==> sent == old(sent) + piece && early == old(early)
      ensures v.Some? ==> early == Some(far.words(|old(sent)|)) && v.value == VerdictOf(early.value) && Stalls(far)
    {
      if far.pushes(|sent|) {
        sent := sent + piece;
        v := None;
      } else {
        v := Interrupted(piece);
      }
    }

    /** The piece did not get out: part of it may have, and the upstream spoke or was lost. */
    method Interrupted(piece: Octets) returns (v: Option<UpstreamVerdict>)
      modifies `sent, `early
      ensures old(sent) <= sent <= old(sent) + piece
      ensures early == Some(far.words(|old(sent)|)) && v == Some(VerdictOf(early.value))
      ensures |sent| == |old(sent)| + if far.cuts(|old(sent)|) < |piece| then far.cuts(|old(sent)|) else |piece|
    {
      var taken, reading := far.cuts(|sent|), far.words(|sent|);
      sent := sent + piece[..if taken < |piece| then taken else |piece|];
      early := Some(reading);
      v := Some(match reading case Read(code, _, _) => RepliedWith(code) case Failed => Dropped);
    }

    /** The terminator, a line of its own, and the verdict on the message. */
    method Finish() returns (o: Outcome)
      modifies `sent, `commands, `verdict
      ensures old(sent) <= sent <= old(sent) + FinishTail(lastWritten)
      ensures SaidYes(verdict) || Hindered(far)
      ensures verdict == Some(LastWord(far, FinishTail(lastWritten)))
      ensures verdict.value.Read? ==> sent == old(sent) + FinishTail(lastWritten)
      ensures o.Accepted? <==> SaidYes(verdict)
      ensures o.Accepted? ==> o.code == verdict.value.code && commands == old(commands) + [QUIT + CRLF]
      ensures o.Refused? ==> commands == old(commands)
      ensures o.Refused? ==> o.verdict == VerdictOf(verdict.value)
    {
      verdict := Some(Failed);
      var tail := FinishTail(lastWritten);
      if far.tail < |tail| {
        sent := sent + tail[..far.tail];
        return Refused(Dropped);
      }
      sent := sent + tail;
      var reading := far.last;
      verdict := Some(reading);
      if reading.Failed? {
        return Refused(Dropped);
      }
      if reading.code / 100 != 2 {
        return Refused(RepliedWith(reading.code));
      }
      commands := commands + [QUIT + CRLF];
      return Accepted(reading.code);
    }
  }
}
