/**
 The session as a machine over what can be observed of it: the lines it takes, the replies it
 tries, the calls of the handler and what comes of them. The machine says of every event whether
 it may happen next and what it changes; whose turn it is leaves no more than one reply to give.
 */
module Protocol {
  import opened Bytes
  import opened Framing
  import opened Breaks
  import opened Data
  import opened HeaderFields
  import opened Commands
  import opened Dsn
  import opened Replies
  import opened Relay
  import opened Extensions
  import opened Proxy
  import opened Auth

  datatype Config = Config(
    requireStartTls: bool, requireAuth: bool, tlsOffered: bool, maxHeaderSize: nat, maxRecipients: nat, decode: Decoder)

  datatype State = WantGreeting | WantStartTls | WantAuth | WantMail | WantRcpt | WantData {
    function Rank(): nat {
      match this
      case WantGreeting => 0
      case WantStartTls => 1
      case WantAuth => 2
      case WantMail => 3
      case WantRcpt => 4
      case WantData => 5
    }

    /** How far the session has come; a transaction does not count. */
    function Phase(): nat {
      if Rank() < 3 then Rank() else 3
    }
  }

  // ----- what can be observed

  /**
   A body the handler has opened: the client's header block, the API's answer, what the upstream
   announced, the lines it was sent and its replies, and the header block it was written.
   */
  datatype Start = Start(
    block: Octets, answer: ApiAnswer, caps: UpstreamCaps, lines: seq<Octets>, replies: seq<Reading>, head: Octets)

  /**
   A message the upstream accepted: the client's bytes before and after it, the body in them, and
   what the upstream was sent, was written and replied.
   */
  datatype Delivery = Delivery(before: Octets, after: Octets, body: Octets, transcript: Transcript)

  /**
   A command line was taken, a line answered a challenge, a message was behind the session; the TLS
   handshake was made or not; the handler was called; a body began, and was delivered, never
   finished, or finished and not accepted; a reply got out, to a command or to none in particular,
   or did not.
   */
  datatype Event =
    | Took(line: Octets)
    | Heard(line: Octets)
    | Passed(bytes: Octets)
    | TlsUp
    | TlsLost
    | Called(call: Call)
    | Began(start: Start)
    | Delivered(delivery: Delivery)
    | Abandoned(left: Transcript)
    | Unaccepted(left: Transcript)
    | Answered(command: Command, code: nat)
    | Told(code: nat)
    | Unheard(to: Option<Command>, code: nat, hungUp: bool)

  predicate IsClosing(e: Event) {
    e.Delivered? || e.Abandoned? || e.Unaccepted?
  }

  /** What a body left with its upstream. */
  function Left(e: Event): Transcript
    requires IsClosing(e)
  {
    if e.Delivered? then e.delivery.transcript else e.left
  }

  predicate IsBody(e: Event) {
    e.Called? && e.call.BodyCall?
  }

  // ----- whose turn it is

  /** What is to be said of a body that is closed: a code; nothing, the upstream being lost; or nothing, the client being gone. */
  datatype Word = Say(code: nat) | Lost | Unneeded

  datatype Why = HasQuit | Drained | Endless | Mute(hungUp: bool) | NoTls

  /**
   The greeting is due; a command is awaited; a malformed line is to be told so; a reply is due; the handler is to be called; a challenge is due, or its answer, with the
   tokens so far; credentials are to be handed over; the handshake is awaited; a header block is;
   the handler was asked for a body, and may have declined; the body is open; it is closed; the last
   word was said and the message is behind the session; the session is over.
   */
  datatype Turn =
    | Opening
    | Idle
    | Malformed(code: nat)
    | Due(command: Command, code: nat)
    | Calling(command: Command)
    | Challenging(command: Command, tokens: seq<Octets>)
    | Hearing(command: Command, tokens: seq<Octets>)
    | Trusting(command: Command, creds: Credentials)
    | Upgrading
    | Receiving
    | Asked(envelope: Envelope, declined: Option<nat>)
    | Open(start: Start)
    | Closed(word: Word)
    | Leaving
    | Over(why: Why)

  /** All that counts of the past. `taken` are the bytes read so far of the stream the session is on. */
  datatype Summary = Summary(
    state: State, tls: bool, creds: Option<Credentials>, envelope: Option<Envelope>, taken: Octets, turn: Turn, trail: Trail)

  const NOTHING_YET := Summary(WantGreeting, false, None, None, [], Opening, Trail([], []))

  // ----- what a command is answered

  predicate AtAnyTime(command: Command) {
    command.Quit? || command.Noop? || command.Vrfy? || command.Ehlo? || command.Helo? || command.Rset?
  }

  function AnyTimeCode(command: Command): nat {
    if command.Quit? then 221 else if command.Vrfy? then 553 else 250
  }

  /** The state a command is judged in: a gate that need not be passed, and that it does not ask to pass, is waived. */
  function Effective(config: Config, state: State, command: Command): State {
    if AtAnyTime(command) then state
    else
      match state
      case WantStartTls =>
        if (command.StartTls? && config.tlsOffered) || config.requireStartTls then WantStartTls
        else if command.Auth? || config.requireAuth then WantAuth
        else WantMail
      case WantAuth => if command.Auth? || config.requireAuth then WantAuth else WantMail
      case _ => state
  }

  ghost function MailRefusal(command: Command): Option<nat> {
    if !command.Mail? then Some(503) else if !DsnValid(command.params, MailParams) then Some(501) else None
  }

  ghost function RcptRefusal(config: Config, recipients: nat, command: Command): Option<nat> {
    if !command.Rcpt? then Some(503)
    else if !DsnValid(command.params, RcptParams) then Some(501)
    else if config.maxRecipients > 0 && recipients >= config.maxRecipients then Some(452)
    else None
  }

  function Count(s: Summary): nat {
    if s.envelope.Some? then |s.envelope.value.recipients| else 0
  }

  function CallOr(command: Command, refusal: Option<nat>): (turn: Turn)
    ensures Serving(turn, command)
  {
    match refusal case Some(code) => Due(command, code) case None => Calling(command)
  }

  /** A challenge while tokens are missing; then the credentials in them, or a refusal. */
  function AfterTokens(config: Config, command: Command, tokens: seq<Octets>): (turn: Turn)
    requires command.Auth? && |tokens| <= TokensOf(command)
    ensures Serving(turn, command)
  {
    if |tokens| < TokensOf(command) then Challenging(command, tokens)
    else
      match CredentialsIn(config.decode, command, tokens)
      case Some(creds) => Trusting(command, creds)
      case None => Due(command, 535)
  }

  /** It is this command's turn. */
  predicate Serving(turn: Turn, command: Command) {
    match turn
    case Due(c, _) => c == command
    case Calling(c) => c == command
    case Challenging(c, _) => c == command
    case Trusting(c, _) => c == command
    case _ => false
  }

  /** What a command is owed, by the state it finds. */
  ghost function TurnFor(config: Config, s: Summary, command: Command): (turn: Turn)
    ensures Serving(turn, command)
  {
    if AtAnyTime(command) then Due(command, AnyTimeCode(command))
    else
      match s.state
      case WantGreeting => Due(command, 503)
      case WantStartTls => Due(command, if command.StartTls? && config.tlsOffered then 220 else 530)
      case WantAuth =>
        if !command.Auth? then Due(command, 530)
        else if !Supported(command) then Due(command, 504)
        else AfterTokens(config, command, InitialTokens(command))
      case WantMail => CallOr(command, MailRefusal(command))
      case WantRcpt => CallOr(command, RcptRefusal(config, Count(s), command))
      case WantData => if command.Data? then Due(command, 354) else CallOr(command, RcptRefusal(config, Count(s), command))
  }

  ghost function Turned(config: Config, s: Summary, command: Command): Summary {
    var t := s.(state := Effective(config, s.state, command));
    t.(turn := TurnFor(config, t, command))
  }

  // ----- what replies, calls and the rest change

  function Greeted(s: Summary): State {
    if s.state.Rank() >= 3 then WantMail else if s.state.Rank() >= 2 || s.tls then WantAuth else WantStartTls
  }

  function WithRecipient(e: Option<Envelope>, r: Recipient): Option<Envelope> {
    match e
    case Some(Envelope(from, params, recipients)) => Some(Envelope(from, params, recipients + [r]))
    case None => None
  }

  /** Behind the reply that was due. */
  function Served(s: Summary, command: Command, code: nat): Summary {
    var t := s.(turn := Idle);
    match command
    case Quit => s.(turn := Over(HasQuit))
    case Ehlo(_) => t.(state := Greeted(s), envelope := None)
    case Helo(_) => t.(state := Greeted(s), envelope := None)
    case Rset => t.(state := if s.state.Rank() > 3 then WantMail else s.state, envelope := None)
    case StartTls => if code == 220 then s.(turn := Upgrading) else t
    case Auth(_, _) => if code == 235 then t.(state := WantMail) else t
    case Mail(from, params) => if code == 250 then t.(state := WantRcpt, envelope := Some(Envelope(from, params, []))) else t
    case Rcpt(to, params) =>
      if code == 250 then t.(state := WantData, envelope := WithRecipient(s.envelope, Recipient(to, params))) else t
    case Data => if code == 354 then s.(turn := Receiving) else t
    case _ => t
  }

  /** Behind the last word on a message. */
  function Concluded(s: Summary): Summary {
    s.(turn := Leaving, state := WantMail, envelope := None)
  }

  function AfterAnswer(s: Summary, command: Command, code: nat): Option<Summary> {
    match s.turn
    case Due(c, due) => if c == command && due == code then Some(Served(s, command, code)) else None
    case Challenging(c, tokens) => if c == command && code == 334 then Some(s.(turn := Hearing(c, tokens))) else None
    case Receiving => if command.Data? && code == 552 then Some(Concluded(s)) else None
    case Closed(Say(due)) => if command.Data? && code == due then Some(Concluded(s)) else None
    case _ => None
  }

  function AfterTold(s: Summary, code: nat): Option<Summary> {
    match s.turn
    case Opening => if code == 220 then Some(s.(turn := Idle)) else None
    case Malformed(due) => if code == due then Some(s.(turn := Idle)) else None
    case Idle =>
      if code == 421 then Some(s.(turn := Over(Drained)))
      else if code == 500 then Some(s.(turn := Over(Endless))) else None
    case Hearing(_, _) => if code == 500 then Some(s.(turn := Over(Endless))) else None
    case _ => None
  }

  function AfterCall(s: Summary, call: Call): Option<Summary> {
    var t := s.(trail := s.trail.(calls := s.trail.calls + [call]));
    match call
    case AuthCall(creds) =>
      if s.turn.Trusting? && s.turn.creds == creds
      then Some(t.(creds := Some(creds), turn := Due(s.turn.command, 235))) else None
    case MailCall(from, params, declined) =>
      if s.turn == Calling(Mail(from, params)) && declined in {None, Some(RATE_LIMITED)}
      then Some(t.(turn := Due(Mail(from, params), if declined.Some? then declined.value else 250))) else None
    case RcptCall(to, params) =>
      if s.turn == Calling(Rcpt(to, params)) then Some(t.(turn := Due(Rcpt(to, params), 250))) else None
    case BodyCall(envelope, known, declined) =>
      if s.turn.Receiving? && s.envelope == Some(envelope) && known == s.creds && (declined.Some? ==> IsRefusal(declined.value))
      then Some(t.(envelope := None, turn := Asked(envelope, declined))) else None
  }

  // ----- bodies

  function Merged(start: Start): seq<RawHeader> {
    MergeHeaders(ParseHeaders(start.block), start.answer.headers)
  }

  /** The upstream was sent this envelope, took every line of it, and was written the merged headers. */
  predicate StartOk(e: Envelope, start: Start) {
    && start.answer.allow && Addressed(e, start.answer) && start.lines == LinesFor(e, start.answer, start.caps)
    && |start.replies| == |start.lines| && AllTaken(start.replies, |e.recipients| + 2)
    && Relayable(Merged(start)) && start.head == HeaderBlock(Merged(start))
  }

  /** The client's bytes `before` are a message with this header block and body, followed by `after`. */
  predicate IsMessage(before: Octets, after: Octets, cap: nat, block: Octets, body: Octets) {
    match Collect(before, cap, [])
    case Block(b, rest) => b == block && (rest == body + [DOT, CR, LF] + after || rest == body + [DOT, LF] + after)
    case HeadersOnly(b, rest) => b == block && body == [] && rest == after
    case _ => false
  }

  /** Behind that it was written exactly the body of this message and the terminator, and said yes. */
  ghost predicate DeliveryOk(cap: nat, start: Start, d: Delivery) {
    && SaidYes(d.transcript.verdict) && d.transcript.early.None?
    && d.transcript.commands == start.lines + [QUIT + CRLF] && d.transcript.replies == start.replies
    && d.transcript.wire == start.head + Normalize(d.body) + [DOT, CR, LF]
    && IsMessage(d.before, d.after, cap, start.block, d.body) && NoDotLine(d.body) && AtLineStart(d.body)
  }

  /** What the client is to be told of a reply that is no yes; nothing was read when the client ended it. */
  function WordOf(reading: Option<Reading>): Word {
    match reading
    case None => Unneeded
    case Some(r) => match VerdictOf(r) case Dropped => Lost case Replied(code) => Say(code)
  }

  function Shut(s: Summary, word: Word, left: Transcript): Summary {
    s.(turn := Closed(word), trail := s.trail.(transcripts := s.trail.transcripts + [left]))
  }

  function AfterBegin(s: Summary, start: Start): Option<Summary> {
    if s.turn.Asked? && s.turn.declined.None? && StartOk(s.turn.envelope, start) then Some(s.(turn := Open(start))) else None
  }

  ghost function AfterDelivery(config: Config, s: Summary, d: Delivery): Option<Summary> {
    if s.turn.Open? && DeliveryOk(config.maxHeaderSize, s.turn.start, d) then Some(Shut(s, Say(250), d.transcript)) else None
  }

  ghost function AfterAbandon(s: Summary, left: Transcript): Option<Summary> {
    if !NoDotLine(left.wire) || left.verdict.Some? then None
    else if s.turn.Asked? && s.turn.declined.Some? && IsRefusal(s.turn.declined.value) then Some(Shut(s, Say(s.turn.declined.value), left))
    else if s.turn.Open? then Some(Shut(s, WordOf(left.early), left))
    else None
  }

  function AfterNo(s: Summary, left: Transcript): Option<Summary> {
    if s.turn.Open? && left.verdict.Some? && !SaidYes(left.verdict) then Some(Shut(s, WordOf(left.verdict), left)) else None
  }

  // ----- lines

  ghost function AfterTaking(config: Config, s: Summary, line: Octets): Option<Summary> {
    if !s.turn.Idle? || !IsLine(line) then None
    else
      var t := s.(taken := s.taken + line);
      match ParseCommand(line)
      case Err(code) => Some(t.(turn := Malformed(code)))
      case Ok(command) => Some(Turned(config, t, command))
  }

  function AfterHearing(config: Config, s: Summary, line: Octets): Option<Summary> {
    match s.turn
    case Hearing(command, tokens) =>
      if !IsLine(line) || !command.Auth? || |tokens| >= TokensOf(command) then None
      else
        var t := s.(taken := s.taken + line);
        var token := TokenOf(line);
        Some(t.(turn := if token.None? then Due(command, 500) else AfterTokens(config, command, tokens + [token.value])))
    case _ => None
  }

  // ----- the machine

  /** What comes of an event, when it may happen at all. */
  ghost function Next(config: Config, s: Summary, e: Event): Option<Summary> {
    match e
    case Took(line) => AfterTaking(config, s, line)
    case Heard(line) => AfterHearing(config, s, line)
    case Passed(bytes) =>
      if s.turn.Leaving? && AfterMessage(bytes, true) == Some([]) then Some(s.(taken := s.taken + bytes, turn := Idle)) else None
    case TlsUp => if s.turn.Upgrading? then Some(s.(state := WantAuth, tls := true, taken := [], turn := Idle)) else None
    case TlsLost => if s.turn.Upgrading? then Some(s.(turn := Over(NoTls))) else None
    case Called(call) => AfterCall(s, call)
    case Began(start) => AfterBegin(s, start)
    case Delivered(d) => AfterDelivery(config, s, d)
    case Abandoned(left) => AfterAbandon(s, left)
    case Unaccepted(left) => AfterNo(s, left)
    case Answered(command, code) => AfterAnswer(s, command, code)
    case Told(code) => AfterTold(s, code)
    case Unheard(to, code, hungUp) =>
      if (if to.Some? then AfterAnswer(s, to.value, code) else AfterTold(s, code)).Some?
      then Some(s.(turn := Over(Mute(hungUp)))) else None
  }

  ghost predicate StepAt(config: Config, events: seq<Event>, past: seq<Summary>, i: nat)
    requires i < |events| && |past| == |events| + 1
  {
    Next(config, past[i], events[i]) == Some(past[i + 1])
  }

  /** A run of the machine over the events: every one was possible when it happened. */
  ghost predicate IsRun(config: Config, events: seq<Event>, past: seq<Summary>) {
    && |past| == |events| + 1 && past[0] == NOTHING_YET
    && forall i | 0 <= i < |events| :: StepAt(config, events, past, i)
  }

  lemma ExtendRun(config: Config, events: seq<Event>, past: seq<Summary>, e: Event, next: Summary)
    requires IsRun(config, events, past) && Next(config, past[|events|], e) == Some(next)
    ensures IsRun(config, events + [e], past + [next])
  {
    var events', past' := events + [e], past + [next];
    forall i | 0 <= i < |events'| ensures StepAt(config, events', past', i) {
      assert i < |events| ==> StepAt(config, events, past, i);
    }
  }
}
