/**
 The application behind the SMTP server: collect the envelope, ask the API, relay.
 */
module Proxy {
  import opened Bytes
  import opened Framing
  import opened Params
  import opened Commands
  import opened Breaks
  import opened HeaderFields
  import opened WirePath
  import opened Extensions
  import opened Replies
  import opened Relay

  /** Everything a reset clears; the credentials are not part of it. */
  datatype Transaction = Transaction(
    from: Octets, params: seq<Param>, recipients: seq<Recipient>, headers: seq<RawHeader>)

  const NO_TRANSACTION := Transaction([], [], [], [])

  datatype Credentials = Credentials(username: Octets, password: Octets)

  datatype Envelope = Envelope(from: Octets, params: seq<Param>, recipients: seq<Recipient>)

  function EnvelopeIn(t: Transaction): Envelope {
    Envelope(t.from, t.params, t.recipients)
  }

  /** What the parser guarantees of an envelope: addresses to send to, and well-formed parameters. */
  predicate ParserMade(e: Envelope) {
    AllOk(e.params) && forall i | 0 <= i < |e.recipients| :: AllOk(e.recipients[i].params) && e.recipients[i].address != []
  }

  /** A call of the handler: what it was told, for a body also what it knew, and the code it declined with, if it did. */
  datatype Call =
    | AuthCall(creds: Credentials)
    | MailCall(from: Octets, params: seq<Param>, declined: Option<nat>)
    | RcptCall(to: Octets, params: seq<Param>)
    | BodyCall(envelope: Envelope, known: Option<Credentials>, declined: Option<nat>)

  /**
   The commands an upstream was sent and its replies, what it was written behind its 354, what it
   said before the terminator, and what it said to that, if one was tried.
   */
  datatype Transcript = Transcript(
    commands: seq<Octets>, replies: seq<Reading>, wire: Octets, early: Option<Reading>, verdict: Option<Reading>)

  const NO_TRANSCRIPT := Transcript([], [], [], None, None)

  /** What the handler has been through: every call, and what every body it was asked to open left upstream. */
  datatype Trail = Trail(calls: seq<Call>, transcripts: seq<Transcript>)

  /** The API's verdict on a message: an oracle value. */
  datatype ApiAnswer = ApiAnswer(allow: bool, headers: seq<ResponseHeader>, from: Option<Octets>)

  /** The code of a message the proxy itself refuses for good, and of one it may take later. */
  const PERMANENT: nat := 550
  const TRANSIENT: nat := 451
  const RATE_LIMITED: nat := 450

  datatype Opened = Sink(upstream: UpstreamSession, answer: ApiAnswer) | Rejection(code: nat)

  datatype UpstreamOpened = Holding(upstream: UpstreamSession) | Unopened(error: RelayError)

  /** The envelope sender: the API's, when it gives one that is not empty. */
  function Sender(e: Envelope, answer: ApiAnswer): (from: Octets)
    ensures answer.from.None? || answer.from.value == [] ==> from == e.from
    ensures answer.from.Some? && answer.from.value != [] ==> from == answer.from.value
  {
    if answer.from.Some? && answer.from.value != [] then answer.from.value else e.from
  }

  predicate RecipientsRelayable(recipients: seq<Recipient>) {
    forall i | 0 <= i < |recipients| :: AddressRelayable(recipients[i].address)
  }

  /** Every address of the transaction of `e` may be relayed. */
  predicate Addressed(e: Envelope, answer: ApiAnswer) {
    AddressRelayable(Sender(e, answer)) && RecipientsRelayable(e.recipients)
  }

  /** The lines that open it. */
  function LinesFor(e: Envelope, answer: ApiAnswer, caps: UpstreamCaps): seq<Octets> {
    EnvelopeLines(Sender(e, answer), e.params, e.recipients, caps)
  }

  /** What the upstream reads from them. */
  lemma AddressedReadBack(e: Envelope, answer: ApiAnswer, caps: UpstreamCaps)
    requires ParserMade(e) && Addressed(e, answer)
    ensures ParseAll(LinesFor(e, answer, caps)) == EnvelopeCommands(Sender(e, answer), e.params, e.recipients, caps)
  {
    EnvelopeReadBack(Sender(e, answer), e.params, e.recipients, caps);
  }

  /** An upstream holding exactly the envelope `e` and the header block of `block` merged with the answer. */
  ghost predicate OpenedFor(up: UpstreamSession, e: Envelope, block: Octets, answer: ApiAnswer)
    reads up
  {
    var merged := MergeHeaders(ParseHeaders(block), answer.headers);
    && answer.allow && Relayable(merged) && Addressed(e, answer) && up.commands == LinesFor(e, answer, up.caps)
    && ParseAll(up.commands) == EnvelopeCommands(Sender(e, answer), e.params, e.recipients, up.caps)
    && AllTaken(up.replies, |e.recipients| + 2) && |up.replies| == |up.commands|
    && up.sent == HeaderBlock(merged) && up.lastWritten == Some(LF) && up.early == None && up.verdict == None
  }

  /** What the proxy refuses on its own account: no verdict, a no, a header, an address. */
  ghost function OwnRefusal(client: seq<RawHeader>, e: Envelope, answer: Option<ApiAnswer>): Option<nat> {
    match answer
    case None => Some(TRANSIENT)
    case Some(a) =>
      if !a.allow || !Relayable(MergeHeaders(client, a.headers)) then Some(PERMANENT)
      else if !Addressed(e, a) then Some(PERMANENT)
      else None
  }

  predicate InPath(address: Octets) {
    forall b | b in address :: 0x21 <= b <= 0x7e && b !in {LT, GT}
  }

  /** A message the API allows is refused exactly for a header or an address that cannot be relayed. */
  lemma RefusedExactly(client: seq<RawHeader>, e: Envelope, a: ApiAnswer)
    ensures OwnRefusal(client, e, Some(a)).None? <==>
            && a.allow && Relayable(MergeHeaders(client, a.headers))
            && InPath(if a.from.None? || a.from.value == [] then e.from else a.from.value)
            && forall i | 0 <= i < |e.recipients| :: InPath(e.recipients[i].address)
  {
    PathBytes(Sender(e, a));
    AllPathBytes(e.recipients);
  }

  lemma AllPathBytes(recipients: seq<Recipient>)
    ensures RecipientsRelayable(recipients) <==> forall i | 0 <= i < |recipients| :: InPath(recipients[i].address)
  {
    forall i | 0 <= i < |recipients| ensures InPath(recipients[i].address) <==> AddressRelayable(recipients[i].address) {
      PathBytes(recipients[i].address);
    }
  }

  lemma PathBytes(address: Octets)
    ensures InPath(address) <==> AddressRelayable(address)
  {
    if InPath(address) {
      assert forall i | 0 <= i < |address| :: address[i] in address;
    }
  }

  /** The API's verdict and the merged message, looked at in the source's order. */
  method Judge(client: seq<RawHeader>, e: Envelope, verdict: Option<ApiAnswer>) returns (own: Option<nat>)
    ensures own == OwnRefusal(client, e, verdict)
  {
    if verdict.None? {
      return Some(TRANSIENT);
    }
    if !verdict.value.allow {
      return Some(PERMANENT);
    }
    var unusable := AssertHeaderRelayable(MergeHeaders(client, verdict.value.headers));
    if unusable.Some? {
      return Some(PERMANENT);
    }
    if !Addressed(e, verdict.value) {
      return Some(ClientCode(Address));
    }
    return None;
  }

  /** However much of a header block went out, no message ends in it. */
  lemma HeaderPrefixEndsNothing(headers: seq<RawHeader>, wire: Octets)
    requires Relayable(headers) && wire <= HeaderBlock(headers)
    ensures NoDotLine(wire)
  {
    var whole := HeaderBlock(headers) + Normalize([]);
    ScanMeans([]);
    WireLines(headers, []);
    NoDotLinePrefix(whole, |wire|);
    assert whole[..|wire|] == wire;
  }

  lemma NotStopped(replies: seq<Reading>, n: nat)
    requires AllTaken(replies, n)
    ensures !StoppedAt(replies, n)
  {
  }

  lemma WillingTakesAll(far: FarSide, replies: seq<Reading>, n: nat)
    requires Answers(far, replies) && StoppedAt(replies, n)
    ensures !Willing(far, n)
  {
  }

  ghost function TranscriptOf(up: UpstreamSession): Transcript
    reads up
  {
    Transcript(up.commands, up.replies, up.sent, up.early, up.verdict)
  }

  /** What went wrong with an upstream up to the headers: a command not taken, or an early word. */
  ghost function TroubleIn(left: Transcript, n: nat): Option<RelayError> {
    if StoppedAt(left.replies, n) then Some(ErrorOf(left.replies[|left.replies| - 1]))
    else if left.early.Some? then Some(IntoRelayError(VerdictOf(left.early.value)))
    else None
  }

  /** What comes of connecting to the upstream: a failure, or what it announces and what it will do. */
  datatype Reach = NoWay(error: RelayError) | Way(announced: Extensions, far: FarSide)

  /** What the world will say to the handler, fixed in advance, by the number of times it was asked before. */
  datatype World = World(overRate: nat -> bool, api: nat -> Option<ApiAnswer>, reach: nat -> Reach)

  /** A message will be taken on: the proxy has nothing against it, and the upstream is there and willing. */
  ghost predicate Favours(world: World, n: nat, block: Octets, e: Envelope) {
    && OwnRefusal(ParseHeaders(block), e, world.api(n)).None?
    && match world.reach(n) case NoWay(_) => false case Way(_, far) => Willing(far, |e.recipients| + 2)
  }

  class ProxyHandler {
    const record: UpstreamRecord
    const world: World
    /** How often the world was asked. */
    var asked: nat
    var username: Option<Octets>
    var password: Option<Octets>
    var transaction: Transaction
    ghost var trail: Trail
    /** The upstream the latest body was opened on, if it came to that, and why not otherwise. */
    ghost var upstream: Option<UpstreamSession>
    ghost var unreached: Option<RelayError>

    constructor (shared: UpstreamRecord, outside: World)
      ensures record == shared && world == outside && asked == 0 && username == None && password == None && transaction == NO_TRANSACTION
      ensures trail == Trail([], [])
    {
      record, world, asked := shared, outside, 0;
      username, password, transaction := None, None, NO_TRANSACTION;
      trail, upstream, unreached := Trail([], []), None, None;
    }

    ghost function Creds(): Option<Credentials>
      reads `username, `password
    {
      if username.Some? && password.Some? then Some(Credentials(username.value, password.value)) else None
    }

    /** What the latest body has left upstream so far: nothing when no upstream was reached. */
    ghost function Latest(): Transcript
      reads `upstream, if upstream.Some? then {upstream.value} else {}
    {
      if upstream.Some? then TranscriptOf(upstream.value) else NO_TRANSCRIPT
    }

    /** What went wrong with the latest body, the headers included: no upstream, a command not taken, or an early word. */
    ghost function Trouble(): Option<RelayError>
      reads `upstream, `unreached, `transaction, if upstream.Some? then {upstream.value} else {}
    {
      if upstream.None? then unreached else TroubleIn(TranscriptOf(upstream.value), |transaction.recipients| + 2)
    }

    /** The sink is gone: what its upstream has been left with is final. */
    ghost method Seal()
      modifies `trail
      ensures trail == old(trail).(transcripts := old(trail).transcripts + [Latest()])
    {
      trail := trail.(transcripts := trail.transcripts + [Latest()]);
    }

    ghost function WithCall(call: Call): Trail
      reads `trail
    {
      trail.(calls := trail.calls + [call])
    }

    /** The credentials are taken as they are; the API judges them with the message. */
    method Auth(user: Octets, secret: Octets)
      modifies `username, `password, `trail
      ensures username == Some(user) && password == Some(secret)
      ensures trail == old(WithCall(AuthCall(Credentials(user, secret))))
    {
      username, password := Some(user), Some(secret);
      trail := WithCall(AuthCall(Credentials(user, secret)));
    }

    /** The limiter's answer is the world's here; module RateLimit is about that. */
    method Mail(from: Octets, params: seq<Param>) returns (refused: Option<nat>)
      modifies `transaction, `trail, `asked
      ensures refused.Some? <==> world.overRate(old(asked))
      ensures refused.Some? ==> refused == Some(RATE_LIMITED) && transaction == old(transaction)
      ensures refused.None? ==> transaction == Transaction(from, params, [], [])
      ensures trail == old(trail).(calls := old(trail).calls + [MailCall(from, params, refused)])
    {
      asked := asked + 1;
      if world.overRate(asked - 1) {
        trail := WithCall(MailCall(from, params, Some(RATE_LIMITED)));
        return Some(RATE_LIMITED);
      }
      trail := WithCall(MailCall(from, params, None));
      Reset();
      transaction := transaction.(from := from, params := params);
      return None;
    }

    method Rcpt(to: Octets, params: seq<Param>)
      modifies `transaction, `trail
      ensures transaction == old(transaction).(recipients := old(transaction).recipients + [Recipient(to, params)])
      ensures trail == old(WithCall(RcptCall(to, params)))
    {
      trail := WithCall(RcptCall(to, params));
      transaction := transaction.(recipients := transaction.recipients + [Recipient(to, params)]);
    }

    method Reset()
      modifies `transaction
      ensures transaction == NO_TRANSACTION
    {
      transaction := NO_TRANSACTION;
    }

    /**
     Every decision the proxy makes on its own, before the upstream hears of the message; then the
     envelope and the headers go out. What is declined is declined with the code of what was wrong,
     and leaves nothing upstream that ends a message.
     */
    method OpenBody(block: Octets) returns (r: Opened)
      requires ParserMade(EnvelopeIn(transaction))
      modifies `transaction, `trail, `upstream, `unreached, `asked, record
      ensures transaction == old(transaction).(headers := ParseHeaders(block))
      ensures trail == old(trail).(calls := old(trail).calls + [BodyCall(EnvelopeIn(old(transaction)), old(Creds()), DeclinedWith(r))])
      ensures upstream.Some? ==> fresh(upstream.value) && Noted()
      ensures OpenedAs(r, block, old(asked))
      ensures Favours(world, old(asked), block, EnvelopeIn(old(transaction))) ==> r.Sink? && !Hindered(r.upstream.far)
    {
      TakeHeaders(block);
      r := AskApi(block);
      trail := WithCall(BodyCall(EnvelopeIn(transaction), Creds(), DeclinedWith(r)));
      asked := asked + 1;
    }

    /** A message is declined for a reason of the proxy's own, before anything goes out, or for trouble with the upstream the world had. */
    ghost predicate OpenedAs(r: Opened, block: Octets, n: nat)
      reads `transaction, `upstream, `unreached, if upstream.Some? then {upstream.value} else {}
    {
      var own := OwnRefusal(ParseHeaders(block), EnvelopeIn(transaction), world.api(n));
      && (if own.Some? then r == Rejection(own.value) && upstream == None else AsTroubled(r) && ReachedAs(world.reach(n)))
      && match r
         case Rejection(code) => IsRefusal(code) && NoDotLine(Latest().wire) && Latest().verdict == None
         case Sink(up, answer) =>
           upstream == Some(up) && world.api(n) == Some(answer) && OpenedFor(up, EnvelopeIn(transaction), block, answer)
    }

    /** The latest body had the upstream the world had for it, or none for the reason the world had. */
    ghost predicate ReachedAs(reach: Reach)
      reads `upstream, `unreached
    {
      match reach
      case NoWay(e) => upstream.None? && unreached == Some(e)
      case Way(announced, far) => upstream.Some? && upstream.value.caps == CapsOf(announced) && upstream.value.far == far
    }

    method AskApi(ghost block: Octets) returns (r: Opened)
      requires upstream == None && transaction.headers == ParseHeaders(block) && ParserMade(EnvelopeIn(transaction))
      requires NoDotLine(Latest().wire) && Latest().verdict == None
      modifies `upstream, `unreached, record
      ensures upstream.Some? ==> fresh(upstream.value) && Noted()
      ensures OpenedAs(r, block, asked)
      ensures Favours(world, asked, block, EnvelopeIn(transaction)) ==> r.Sink? && !Hindered(r.upstream.far)
    {
      var answer := world.api(asked);
      var own := Judge(transaction.headers, EnvelopeIn(transaction), answer);
      if own.Some? {
        r := Rejection(own.value);
      } else {
        r := HandOver(block, answer.value);
      }
    }

    method TakeHeaders(block: Octets)
      modifies `transaction, `upstream, `unreached
      ensures transaction == old(transaction).(headers := ParseHeaders(block)) && upstream == None
      ensures NoDotLine(Latest().wire) && Latest().verdict == None
    {
      upstream, unreached := None, None;
      var headers := ParseHeaderBlock(block);
      transaction := transaction.(headers := headers);
      ScanMeans([]);
    }

    /** Declined exactly when there was trouble, and with its code. */
    ghost predicate AsTroubled(r: Opened)
      reads `upstream, `unreached, `transaction, if upstream.Some? then {upstream.value} else {}
    {
      && (r.Rejection? <==> Trouble().Some?)
      && (r.Rejection? ==> r.code == ClientCode(Trouble().value))
    }

    /** The message goes on to the upstream: the envelope, then the headers. */
    method HandOver(ghost block: Octets, answer: ApiAnswer) returns (r: Opened)
      requires upstream == None && transaction.headers == ParseHeaders(block) && ParserMade(EnvelopeIn(transaction))
      requires OwnRefusal(transaction.headers, EnvelopeIn(transaction), Some(answer)).None?
      modifies `upstream, `unreached, record
      ensures upstream.Some? ==> fresh(upstream.value) && Noted()
      ensures AsTroubled(r) && ReachedAs(world.reach(asked))
      ensures Favours(world, asked, block, EnvelopeIn(transaction)) ==> r.Sink? && !Hindered(r.upstream.far)
      ensures r.Rejection? ==> NoDotLine(Latest().wire) && Latest().verdict == None
      ensures r.Sink? ==>
                && upstream == Some(r.upstream) && r.answer == answer
                && OpenedFor(r.upstream, EnvelopeIn(transaction), block, answer)
    {
      var merged := MergeHeaders(transaction.headers, answer.headers);
      var attempt := OpenUpstream(Sender(EnvelopeIn(transaction), answer), merged);
      match attempt {
        case Unopened(e) => r := Rejection(ClientCode(e));
        case Holding(up) =>
          AddressedReadBack(EnvelopeIn(transaction), answer, up.caps);
          r := Sink(up, answer);
      }
    }

    /** The shared record says what the upstream announced. */
    ghost predicate Noted()
      reads `upstream, record
      requires upstream.Some?
    {
      record.dsn == upstream.value.caps.dsn && record.SizeLimit() == upstream.value.caps.size
    }

    /** Connect, note what the upstream offers, send the envelope and then the headers. */
    method OpenUpstream(from: Octets, merged: seq<RawHeader>) returns (r: UpstreamOpened)
      requires Relayable(merged)
      requires upstream == None
      modifies `upstream, `unreached, record
      ensures upstream.Some? ==> fresh(upstream.value) && Noted()
      ensures NoDotLine(Latest().wire) && Latest().verdict == None
      ensures ReachedAs(world.reach(asked))
      ensures match world.reach(asked)
              case NoWay(_) => true
              case Way(_, far) => Willing(far, |transaction.recipients| + 2) ==> r.Holding? && r.upstream.far == far
      ensures Trouble() == match r case Unopened(e) => Some(e) case Holding(_) => None
      ensures r.Holding? ==>
                && upstream == Some(r.upstream) && r.upstream.sent == HeaderBlock(merged) && r.upstream.lastWritten == Some(LF)
                && r.upstream.early.None? && AllTaken(r.upstream.replies, |transaction.recipients| + 2)
                && |r.upstream.replies| == |r.upstream.commands|
                && r.upstream.commands == EnvelopeLines(from, transaction.params, transaction.recipients, r.upstream.caps)
    {
      ScanMeans([]);
      match world.reach(asked) {
        case NoWay(e) =>
          unreached := Some(e);
          r := Unopened(e);
        case Way(announced, far) =>
          var up := new UpstreamSession(CapsOf(announced), far);
          upstream := Some(up);
          record.Note(up.caps);
          r := SendMessage(up, from, transaction.params, transaction.recipients, merged);
      }
    }

    static method SendMessage(up: UpstreamSession, from: Octets, params: seq<Param>, recipients: seq<Recipient>, merged: seq<RawHeader>)
      returns (r: UpstreamOpened)
      requires Relayable(merged) && up.commands == [] && up.replies == [] && up.sent == [] && up.early.None?
      modifies up`commands, up`replies, up`sent, up`lastWritten, up`early
      ensures NoDotLine(up.sent) && (Willing(up.far, |recipients| + 2) ==> r.Holding?)
      ensures TroubleIn(TranscriptOf(up), |recipients| + 2) == match r case Unopened(e) => Some(e) case Holding(_) => None
      ensures r.Holding? ==>
                && r.upstream == up && up.sent == HeaderBlock(merged) && up.lastWritten == Some(LF)
                && up.early.None? && AllTaken(up.replies, |recipients| + 2) && |up.replies| == |up.commands|
                && up.commands == EnvelopeLines(from, params, recipients, up.caps)
    {
      ScanMeans([]);
      var refused := up.OpenTransaction(from, params, recipients);
      if refused.Some? {
        WillingTakesAll(up.far, up.replies, |recipients| + 2);
        return Unopened(refused.value);
      }
      NotStopped(up.replies, |recipients| + 2);
      r := SendHeaders(up, merged);
    }

    static method SendHeaders(up: UpstreamSession, merged: seq<RawHeader>) returns (r: UpstreamOpened)
      requires Relayable(merged) && up.sent == [] && up.early.None?
      modifies up`sent, up`lastWritten, up`early
      ensures NoDotLine(up.sent) && (r.Unopened? ==> Stalls(up.far))
      ensures match r
              case Unopened(e) => up.early.Some? && e == IntoRelayError(VerdictOf(up.early.value))
              case Holding(u) => u == up && up.early.None? && up.sent == HeaderBlock(merged) && up.lastWritten == Some(LF)
    {
      var header := PrintHeaderBlock(merged);
      BlockEnds(merged);
      assert [] + header == header;
      var verdict := up.Write(header);
      HeaderPrefixEndsNothing(merged, up.sent);
      r := if verdict.Some? then Unopened(IntoRelayError(verdict.value)) else Holding(up);
    }
  }

  function DeclinedWith(r: Opened): Option<nat> {
    match r case Rejection(code) => Some(code) case Sink(_, _) => None
  }
}
