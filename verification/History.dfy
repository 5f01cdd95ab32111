/**
 What holds of every run of the machine, and so of every session: gates, envelopes, what a 250 to
 DATA means, and that nothing taken is left unanswered.
 */
module History {
  import opened Bytes
  import opened Framing
  import opened Breaks
  import opened HeaderFields
  import opened HeaderRoundTrip
  import opened WirePath
  import opened Params
  import opened Commands
  import opened Replies
  import opened Relay
  import opened Proxy
  import opened Protocol

  // ----- what every summary of a run keeps

  predicate TlsGate(config: Config, s: Summary) {
    config.requireStartTls ==> s.tls
  }

  predicate AuthGate(config: Config, s: Summary) {
    TlsGate(config, s) && (config.requireAuth ==> s.creds.Some?)
  }

  predicate RecipientsCounted(config: Config, n: nat) {
    config.maxRecipients > 0 ==> n <= config.maxRecipients
  }

  /** What the parser guarantees of a command. */
  predicate CommandOk(command: Command) {
    && (command.Mail? ==> AllOk(command.params))
    && (command.Rcpt? ==> AllOk(command.params) && command.to != [])
  }

  predicate EnvelopeOk(config: Config, e: Envelope) {
    ParserMade(e) && RecipientsCounted(config, |e.recipients|)
  }

  /** No gate is passed early, credentials mean that the session is past AUTH or about to be, and only once. */
  predicate Gated(config: Config, s: Summary) {
    && (s.state.Rank() >= 2 ==> TlsGate(config, s)) && (s.state.Rank() >= 3 ==> AuthGate(config, s))
    && (s.creds.Some? ==> s.state.Rank() >= 3 || s.turn.Over? || (s.turn.Due? && s.turn.command.Auth? && s.turn.code == 235))
  }

  /** There is an envelope from the accepted MAIL on, until the body is asked for. */
  predicate Enveloped(config: Config, s: Summary) {
    && (s.envelope.Some? ==> s.state.Rank() >= 4 && EnvelopeOk(config, s.envelope.value))
    && (s.state.WantData? && s.envelope.Some? ==> s.envelope.value.recipients != [])
    && (s.state.Rank() >= 4 ==> s.envelope.Some? || s.turn.Asked? || s.turn.Open? || s.turn.Closed? || s.turn.Over?)
  }

  /** One more recipient is within the limit. */
  predicate RoomFor(config: Config, s: Summary) {
    s.envelope.Some? && RecipientsCounted(config, |s.envelope.value.recipients| + 1)
  }

  /** Whose turn it is fits the state. */
  predicate InTurn(config: Config, s: Summary) {
    match s.turn
    case Malformed(code) => Sendable(code)
    case Due(c, code) =>
      && CommandOk(c) && Sendable(code) && (c.Data? ==> code == 354 || IsRefusal(code))
      && (c.Auth? && code == 235 ==> s.state.WantAuth? && s.creds.Some?)
      && (c.Mail? && code == 250 ==> s.state.WantMail?)
      && (c.Rcpt? && code == 250 ==> s.state.Rank() >= 4 && RoomFor(config, s))
      && (c.Data? && code == 354 ==> s.state.WantData? && s.envelope.Some?)
      && (c.StartTls? && code == 220 ==> s.state.WantStartTls?)
    case Calling(c) =>
      CommandOk(c) && ((c.Mail? && s.state.WantMail?) || (c.Rcpt? && s.state.Rank() >= 4 && RoomFor(config, s)))
    case Challenging(c, _) => c.Auth? && s.state.WantAuth? && s.creds.None?
    case Hearing(c, _) => c.Auth? && s.state.WantAuth? && s.creds.None?
    case Trusting(c, _) => c.Auth? && s.state.WantAuth? && s.creds.None?
    case Upgrading => s.state.WantStartTls? && !s.tls
    case Receiving => s.state.WantData? && s.envelope.Some?
    case Asked(e, declined) =>
      s.state.WantData? && EnvelopeOk(config, e) && e.recipients != [] && (declined.Some? ==> IsRefusal(declined.value))
    case Open(_) => s.state.WantData?
    case Closed(word) => s.state.WantData? && (word.Say? ==> word.code == 250 || IsRefusal(word.code))
    case Leaving => s.state.WantMail?
    case _ => true
  }

  predicate Sound(config: Config, s: Summary) {
    && (s.tls ==> s.state.Rank() >= 2) && (s.state.WantGreeting? ==> !s.tls)
    && Gated(config, s) && Enveloped(config, s) && InTurn(config, s)
  }

  /** A command finds its turn in a sound state of rest. */
  lemma TurnedIsSound(config: Config, s: Summary, command: Command)
    requires Sound(config, s.(turn := Idle)) && CommandOk(command)
    ensures Sound(config, Turned(config, s, command))
  {
    var t := s.(state := Effective(config, s.state, command), turn := Idle);
    assert Sound(config, t);
  }

  lemma ServedIsSound(config: Config, s: Summary, command: Command, code: nat)
    requires Sound(config, s) && s.turn == Due(command, code)
    ensures Sound(config, Served(s, command, code))
  {
    if command.Rcpt? && code == 250 {
      assert EnvelopeOk(config, WithRecipient(s.envelope, Recipient(command.to, command.params)).value);
    }
  }

  lemma CallIsSound(config: Config, s: Summary, call: Call)
    requires Sound(config, s) && AfterCall(s, call).Some?
    ensures Sound(config, AfterCall(s, call).value)
  {
  }

  lemma AnswerIsSound(config: Config, s: Summary, command: Command, code: nat)
    requires Sound(config, s) && AfterAnswer(s, command, code).Some?
    ensures Sound(config, AfterAnswer(s, command, code).value)
  {
    if s.turn.Due? {
      ServedIsSound(config, s, command, code);
    }
  }

  lemma TakingIsSound(config: Config, s: Summary, line: Octets)
    requires Sound(config, s) && AfterTaking(config, s, line).Some?
    ensures Sound(config, AfterTaking(config, s, line).value)
  {
    var t := s.(taken := s.taken + line);
    assert Sound(config, t.(turn := Idle));
    if ParseCommand(line).Ok? {
      TurnedIsSound(config, t, ParseCommand(line).command);
    }
  }

  lemma ShutIsSound(config: Config, s: Summary, word: Word, left: Transcript)
    requires Sound(config, s) && s.state.WantData? && (word.Say? ==> word.code == 250 || IsRefusal(word.code))
    requires s.creds.Some? || !config.requireAuth
    ensures Sound(config, Shut(s, word, left))
  {
  }

  lemma BodyIsSound(config: Config, s: Summary, e: Event)
    requires Sound(config, s) && IsClosing(e) && Next(config, s, e).Some?
    ensures Sound(config, Next(config, s, e).value)
  {
    match e
    case Delivered(d) => ShutIsSound(config, s, Say(250), d.transcript);
    case Abandoned(left) =>
      ShutIsSound(config, s, if s.turn.Asked? then Say(s.turn.declined.value) else WordOf(left.early), left);
    case Unaccepted(left) => ShutIsSound(config, s, WordOf(left.verdict), left);
  }

  lemma BeginIsSound(config: Config, s: Summary, start: Start)
    requires Sound(config, s) && AfterBegin(s, start).Some?
    ensures Sound(config, AfterBegin(s, start).value)
  {
    OpenIsSound(config, s, start);
    BeginOpens(s, start);
  }

  lemma BeginOpens(s: Summary, start: Start)
    requires AfterBegin(s, start).Some?
    ensures s.turn.Asked? && AfterBegin(s, start) == Some(s.(turn := Open(start)))
  {
  }

  lemma OpenIsSound(config: Config, s: Summary, start: Start)
    requires Sound(config, s)
    ensures s.turn.Asked? ==> Sound(config, s.(turn := Open(start)))
  {
  }

  lemma HearingIsSound(config: Config, s: Summary, line: Octets)
    requires Sound(config, s) && AfterHearing(config, s, line).Some?
    ensures Sound(config, AfterHearing(config, s, line).value)
  {
  }

  lemma ToldIsSound(config: Config, s: Summary, code: nat)
    requires Sound(config, s) && AfterTold(s, code).Some?
    ensures Sound(config, AfterTold(s, code).value)
  {
  }

  /** A session that is over stays as it is; one that enters TLS or leaves a message is at rest. */
  lemma RestIsSound(config: Config, s: Summary, taken: Octets, why: Why)
    requires Sound(config, s)
    ensures Sound(config, s.(turn := Over(why)))
    ensures s.turn.Leaving? ==> Sound(config, s.(taken := taken, turn := Idle))
    ensures s.turn.Upgrading? ==> Sound(config, s.(state := WantAuth, tls := true, taken := [], turn := Idle))
  {
  }

  /** Whatever happens next keeps all of it. */
  lemma NextIsSound(config: Config, s: Summary, e: Event)
    requires Sound(config, s) && Next(config, s, e).Some?
    ensures Sound(config, Next(config, s, e).value)
  {
    match e
    case Took(line) => TakingIsSound(config, s, line);
    case Heard(line) => HearingIsSound(config, s, line);
    case Passed(bytes) => RestIsSound(config, s, s.taken + bytes, NoTls);
    case TlsUp => RestIsSound(config, s, [], NoTls);
    case TlsLost => RestIsSound(config, s, [], NoTls);
    case Called(call) => CallIsSound(config, s, call);
    case Began(start) => BeginIsSound(config, s, start);
    case Answered(command, code) => AnswerIsSound(config, s, command, code);
    case Told(code) => ToldIsSound(config, s, code);
    case Unheard(_, _, hungUp) => RestIsSound(config, s, [], Mute(hungUp));
    case _ => BodyIsSound(config, s, e);
  }

  lemma {:induction false} RunIsSound(config: Config, events: seq<Event>, past: seq<Summary>, i: nat)
    requires IsRun(config, events, past) && i <= |events|
    ensures Sound(config, past[i])
    decreases i
  {
    if i > 0 {
      RunIsSound(config, events, past, i - 1);
      assert StepAt(config, events, past, i - 1);
      NextIsSound(config, past[i - 1], events[i - 1]);
    }
  }

  // ----- nothing is left out

  /** The calls among these events. */
  function CallsIn(events: seq<Event>): seq<Call>
    decreases |events|
  {
    if events == [] then []
    else
      var last := events[|events| - 1];
      CallsIn(events[..|events| - 1]) + if last.Called? then [last.call] else []
  }

  /** What the bodies closed among these events left upstream. */
  function TranscriptsIn(events: seq<Event>): seq<Transcript>
    decreases |events|
  {
    if events == [] then []
    else
      var last := events[|events| - 1];
      TranscriptsIn(events[..|events| - 1]) + if IsClosing(last) then [Left(last)] else []
  }

  /** The bytes read by these events: command lines, answers to challenges and messages, since the stream last changed. */
  function BytesIn(events: seq<Event>): Octets
    decreases |events|
  {
    if events == [] then []
    else if events[|events| - 1].TlsUp? then []
    else BytesIn(events[..|events| - 1]) + BytesOf(events[|events| - 1])
  }

  function BytesOf(e: Event): Octets {
    match e case Took(line) => line case Heard(line) => line case Passed(bytes) => bytes case _ => []
  }

  /** One event adds its call, its transcript and its bytes, and nothing else does. */
  lemma NextCounts(config: Config, s: Summary, e: Event)
    requires Next(config, s, e).Some?
    ensures var t := Next(config, s, e).value;
            && t.trail.calls == s.trail.calls + (if e.Called? then [e.call] else [])
            && t.trail.transcripts == s.trail.transcripts + (if IsClosing(e) then [Left(e)] else [])
            && t.taken == if e.TlsUp? then [] else s.taken + BytesOf(e)
  {
    assert s.trail.calls + [] == s.trail.calls && s.trail.transcripts + [] == s.trail.transcripts && s.taken + [] == s.taken;
  }

  /** The calls, the transcripts and the bytes counted are those among the events: none is missing, none is made up. */
  lemma {:induction false} AllCounted(config: Config, events: seq<Event>, past: seq<Summary>, i: nat)
    requires IsRun(config, events, past) && i <= |events|
    ensures past[i].trail == Trail(CallsIn(events[..i]), TranscriptsIn(events[..i])) && past[i].taken == BytesIn(events[..i])
    decreases i
  {
    if i > 0 {
      AllCounted(config, events, past, i - 1);
      assert StepAt(config, events, past, i - 1);
      NextCounts(config, past[i - 1], events[i - 1]);
      assert events[..i][..i - 1] == events[..i - 1];
    }
  }

  // ----- gates

  predicate IsAuth(e: Event) {
    e.Called? && e.call.AuthCall?
  }

  /** An event keeps credentials and TLS, and sets them only as its own business. */
  lemma NextKeeps(config: Config, s: Summary, e: Event)
    requires Next(config, s, e).Some?
    ensures var t := Next(config, s, e).value;
            t.creds == (if IsAuth(e) then Some(e.call.creds) else s.creds) && t.tls == (s.tls || e.TlsUp?)
  {
  }

  lemma NextRises(config: Config, s: Summary, e: Event)
    requires Sound(config, s) && Next(config, s, e).Some?
    ensures s.state.Phase() <= Next(config, s, e).value.state.Phase()
  {
    match e
    case Took(line) => TakingRises(config, s, line);
    case Answered(command, code) => AnswerRises(config, s, command, code);
    case _ =>
  }

  lemma TakingRises(config: Config, s: Summary, line: Octets)
    requires AfterTaking(config, s, line).Some?
    ensures s.state.Phase() <= AfterTaking(config, s, line).value.state.Phase()
  {
  }

  lemma AnswerRises(config: Config, s: Summary, command: Command, code: nat)
    requires Sound(config, s) && AfterAnswer(s, command, code).Some?
    ensures s.state.Phase() <= AfterAnswer(s, command, code).value.state.Phase()
  {
  }

  lemma CallsWait(config: Config, s: Summary, call: Call)
    requires Sound(config, s) && AfterCall(s, call).Some?
    ensures call.AuthCall? ==> s.creds.None? && s.state.WantAuth?
    ensures !call.AuthCall? ==> s.state.Rank() >= 3
  {
  }

  /** Credentials, once taken, stay the same to the end. */
  lemma {:induction false} CredsKept(config: Config, events: seq<Event>, past: seq<Summary>, i: nat, j: nat)
    requires IsRun(config, events, past) && i <= j <= |events| && past[i].creds.Some?
    ensures past[j].creds == past[i].creds
    decreases j
  {
    if i < j {
      CredsKept(config, events, past, i, j - 1);
      RunKeeps(config, events, past, j - 1);
    }
  }

  lemma RunKeeps(config: Config, events: seq<Event>, past: seq<Summary>, i: nat)
    requires IsRun(config, events, past) && i < |events|
    ensures past[i + 1].creds == (if IsAuth(events[i]) then Some(events[i].call.creds) else past[i].creds)
    ensures past[i + 1].tls == (past[i].tls || events[i].TlsUp?) && past[i].state.Phase() <= past[i + 1].state.Phase()
    ensures IsAuth(events[i]) ==> past[i].creds.None? && past[i].state.WantAuth?
    ensures events[i].Called? && !IsAuth(events[i]) ==> past[i].state.Rank() >= 3
    ensures Sound(config, past[i])
  {
    RunIsSound(config, events, past, i);
    assert StepAt(config, events, past, i);
    NextKeeps(config, past[i], events[i]);
    NextRises(config, past[i], events[i]);
    if events[i].Called? {
      CallsWait(config, past[i], events[i].call);
    }
  }

  /** At most one AUTH succeeds in a session. */
  lemma OneAuth(config: Config, events: seq<Event>, past: seq<Summary>, i: nat, j: nat)
    requires IsRun(config, events, past) && i < |events| && j < |events|
    requires IsAuth(events[i]) && IsAuth(events[j])
    ensures i == j
  {
    RunKeeps(config, events, past, i);
    RunKeeps(config, events, past, j);
    if i < j {
      CredsKept(config, events, past, i + 1, j);
    } else if j < i {
      CredsKept(config, events, past, j + 1, i);
    }
  }

  lemma {:induction false} TlsWasUp(config: Config, events: seq<Event>, past: seq<Summary>, i: nat)
    requires IsRun(config, events, past) && i <= |events| && past[i].tls
    ensures TlsUp in events[..i]
    decreases i
  {
    assert i > 0;
    RunKeeps(config, events, past, i - 1);
    assert events[..i][i - 1] == events[i - 1];
    if events[i - 1] != TlsUp {
      TlsWasUp(config, events, past, i - 1);
      assert forall e | e in events[..i - 1] :: e in events[..i];
    }
  }

  lemma {:induction false} AuthWasCalled(config: Config, events: seq<Event>, past: seq<Summary>, i: nat)
    requires IsRun(config, events, past) && i <= |events| && past[i].creds.Some?
    ensures Called(AuthCall(past[i].creds.value)) in events[..i]
    decreases i
  {
    assert i > 0;
    RunKeeps(config, events, past, i - 1);
    assert events[..i][i - 1] == events[i - 1];
    if !IsAuth(events[i - 1]) {
      AuthWasCalled(config, events, past, i - 1);
      assert forall e | e in events[..i - 1] :: e in events[..i];
    }
  }

  /** The handler hears nothing outside TLS, and of no mail before AUTH, when those are required. */
  lemma GatesHold(config: Config, events: seq<Event>, past: seq<Summary>, i: nat)
    requires IsRun(config, events, past) && i < |events| && events[i].Called?
    ensures config.requireStartTls ==> TlsUp in events[..i]
    ensures config.requireAuth && !IsAuth(events[i]) ==> exists creds :: Called(AuthCall(creds)) in events[..i]
  {
    RunKeeps(config, events, past, i);
    if config.requireStartTls {
      TlsWasUp(config, events, past, i);
    }
    if config.requireAuth && !IsAuth(events[i]) {
      AuthWasCalled(config, events, past, i);
    }
  }

  /** How far the session has come never goes back. */
  lemma {:induction false} PhasesRise(config: Config, events: seq<Event>, past: seq<Summary>, i: nat, j: nat)
    requires IsRun(config, events, past) && i <= j <= |events|
    ensures past[i].state.Phase() <= past[j].state.Phase()
    decreases j
  {
    if i < j {
      PhasesRise(config, events, past, i, j - 1);
      RunKeeps(config, events, past, j - 1);
    }
  }

  // ----- envelopes

  /** The recipients answered 250 among these events, in order and with repeats. */
  function AcceptedRcpts(events: seq<Event>): seq<Recipient>
    decreases |events|
  {
    if events == [] then [] else AcceptedRcpts(events[..|events| - 1]) + AcceptedRcpt(events[|events| - 1])
  }

  function AcceptedRcpt(e: Event): seq<Recipient> {
    match e
    case Answered(Rcpt(to, params), 250) => [Recipient(to, params)]
    case _ => []
  }

  predicate MailAccepted(e: Event) {
    e.Answered? && e.command.Mail? && e.code == 250
  }

  /** The commands that clear a transaction. */
  predicate Restarts(command: Command) {
    command.Rset? || command.Ehlo? || command.Helo?
  }

  /** An event that ends the envelope: a reset, a greeting, a body, or the last word on a message. */
  predicate EndsEnvelope(s: Summary, e: Event) {
    || IsBody(e)
    || (e.Answered? && Restarts(e.command))
    || (e.Answered? && (s.turn.Receiving? || s.turn.Closed?))
  }

  /** From the MAIL at `m` to point `i`: no other MAIL was accepted, and nothing ended the envelope. */
  ghost predicate Lasts(events: seq<Event>, past: seq<Summary>, m: nat, i: nat)
    requires m < i <= |events| && |past| == |events| + 1
  {
    MailAccepted(events[m]) && forall k | m < k < i :: !MailAccepted(events[k]) && !EndsEnvelope(past[k], events[k])
  }

  lemma MailBegins(config: Config, s: Summary, e: Event)
    requires Next(config, s, e).Some? && MailAccepted(e) && s.turn.Due?
    ensures Next(config, s, e).value.envelope == Some(Envelope(e.command.from, e.command.params, []))
  {
  }

  lemma EnvelopeGrows(config: Config, s: Summary, e: Event)
    requires Next(config, s, e).Some? && s.envelope.Some? && !MailAccepted(e) && !EndsEnvelope(s, e)
    ensures Next(config, s, e).value.envelope ==
            Some(s.envelope.value.(recipients := s.envelope.value.recipients + AcceptedRcpt(e)))
  {
    assert s.envelope.value.recipients + [] == s.envelope.value.recipients;
    if e.Answered? {
      AnswerGrows(s, e);
    }
  }

  lemma AnswerGrows(s: Summary, e: Event)
    requires e.Answered? && AfterAnswer(s, e.command, e.code).Some? && s.envelope.Some? && !MailAccepted(e) && !EndsEnvelope(s, e)
    ensures AfterAnswer(s, e.command, e.code).value.envelope ==
            Some(s.envelope.value.(recipients := s.envelope.value.recipients + AcceptedRcpt(e)))
  {
    assert s.envelope.value.recipients + [] == s.envelope.value.recipients;
  }

  lemma EnvelopeComes(config: Config, s: Summary, e: Event)
    requires Sound(config, s) && Next(config, s, e).Some? && Next(config, s, e).value.envelope.Some?
    ensures MailAccepted(e) || (s.envelope.Some? && !EndsEnvelope(s, e))
  {
  }

  /** While it lasts, the envelope is the sender of that MAIL and the recipients answered 250 since. */
  lemma {:induction false} EnvelopeIsLatest(config: Config, events: seq<Event>, past: seq<Summary>, m: nat, i: nat)
    requires IsRun(config, events, past) && m < i <= |events| && Lasts(events, past, m, i)
    ensures past[i].envelope ==
            Some(Envelope(events[m].command.from, events[m].command.params, AcceptedRcpts(events[m + 1..i])))
    decreases i
  {
    StepIs(config, events, past, i - 1);
    if i == m + 1 {
      assert events[m + 1..i] == [];
      MailBegins(config, past[m], events[m]);
    } else {
      EnvelopeIsLatest(config, events, past, m, i - 1);
      EnvelopeGrows(config, past[i - 1], events[i - 1]);
      AcceptedBy(events, m + 1, i);
    }
  }

  lemma StepIs(config: Config, events: seq<Event>, past: seq<Summary>, i: nat)
    requires IsRun(config, events, past) && i < |events|
    ensures Next(config, past[i], events[i]) == Some(past[i + 1])
  {
    assert StepAt(config, events, past, i);
  }

  lemma AcceptedBy(events: seq<Event>, m: nat, i: nat)
    requires m < i <= |events|
    ensures AcceptedRcpts(events[m..i]) == AcceptedRcpts(events[m..i - 1]) + AcceptedRcpt(events[i - 1])
  {
    var part := events[m..i];
    assert part[..|part| - 1] == events[m..i - 1] && part[|part| - 1] == events[i - 1];
  }

  /** There is an envelope only behind an accepted MAIL, with nothing in between that would have ended it. */
  lemma {:induction false} MailWasAccepted(config: Config, events: seq<Event>, past: seq<Summary>, i: nat)
    returns (m: nat)
    requires IsRun(config, events, past) && i <= |events| && past[i].envelope.Some?
    ensures m < i && Lasts(events, past, m, i)
    decreases i
  {
    assert i > 0;
    assert StepAt(config, events, past, i - 1);
    RunIsSound(config, events, past, i - 1);
    EnvelopeComes(config, past[i - 1], events[i - 1]);
    if MailAccepted(events[i - 1]) {
      m := i - 1;
    } else {
      m := MailWasAccepted(config, events, past, i - 1);
    }
  }

  /**
   The handler opens a body with exactly the sender of one accepted MAIL and the recipients
   accepted since, at least one, none left over from before a reset, a greeting or another
   message; and with the credentials of the session's AUTH.
   */
  lemma BodyUsesEnvelope(config: Config, events: seq<Event>, past: seq<Summary>, i: nat) returns (m: nat)
    requires IsRun(config, events, past) && i < |events| && IsBody(events[i])
    ensures m < i && Lasts(events, past, m, i)
    ensures events[i].call.envelope ==
            Envelope(events[m].command.from, events[m].command.params, AcceptedRcpts(events[m + 1..i]))
    ensures events[i].call.envelope.recipients != [] && EnvelopeOk(config, events[i].call.envelope)
    ensures events[i].call.known.Some? ==> Called(AuthCall(events[i].call.known.value)) in events[..i]
  {
    BodyStands(config, events, past, i);
    m := MailWasAccepted(config, events, past, i);
    EnvelopeIsLatest(config, events, past, m, i);
    if events[i].call.known.Some? {
      AuthWasCalled(config, events, past, i);
    }
  }

  lemma BodyStands(config: Config, events: seq<Event>, past: seq<Summary>, i: nat)
    requires IsRun(config, events, past) && i < |events| && IsBody(events[i])
    ensures past[i].envelope == Some(events[i].call.envelope) && events[i].call.known == past[i].creds
    ensures events[i].call.envelope.recipients != [] && EnvelopeOk(config, events[i].call.envelope)
  {
    RunIsSound(config, events, past, i);
    assert StepAt(config, events, past, i);
  }

  /** No two bodies share an envelope: the MAIL of the later one was accepted behind the earlier one. */
  lemma EnvelopeUsedOnce(config: Config, events: seq<Event>, past: seq<Summary>, i: nat, j: nat) returns (m: nat)
    requires IsRun(config, events, past) && i < j < |events| && IsBody(events[i]) && IsBody(events[j])
    ensures i < m < j && Lasts(events, past, m, j)
    ensures events[j].call.envelope ==
            Envelope(events[m].command.from, events[m].command.params, AcceptedRcpts(events[m + 1..j]))
  {
    m := BodyUsesEnvelope(config, events, past, j);
    assert m < i ==> EndsEnvelope(past[i], events[i]);
  }

  // ----- messages

  lemma NextAsks(config: Config, s: Summary, e: Event)
    requires Next(config, s, e).Some?
    ensures var t := Next(config, s, e).value;
            && (IsBody(e) <==> t.turn.Asked?)
            && (IsBody(e) ==> t.turn == Asked(e.call.envelope, e.call.declined))
            && (t.turn.Open? ==> e == Began(t.turn.start) && s.turn.Asked?)
            && (t.turn.Closed? ==> IsClosing(e))
  {
    match e
    case Took(line) =>
      if ParseCommand(line).Ok? {
        assert Serving(Next(config, s, e).value.turn, ParseCommand(line).command);
      }
    case Heard(_) =>
      assert Serving(Next(config, s, e).value.turn, s.turn.command);
    case _ =>
  }

  lemma AskedNext(config: Config, s: Summary, e: Event)
    requires Next(config, s, e).Some?
    ensures s.turn.Asked? ==> (e.Began? && Next(config, s, e).value.turn.Open?) || IsClosing(e)
    ensures s.turn.Open? ==> IsClosing(e)
  {
  }

  /** A call leaves a body awaited, what is awaited begins or is closed, and what has begun is closed. */
  lemma BodyStep(config: Config, events: seq<Event>, past: seq<Summary>, i: nat)
    requires IsRun(config, events, past) && i < |events|
    ensures IsBody(events[i]) <==> past[i + 1].turn.Asked?
    ensures IsBody(events[i]) ==> past[i + 1].turn == Asked(events[i].call.envelope, events[i].call.declined)
    ensures past[i].turn.Asked? ==> (events[i].Began? && past[i + 1].turn.Open?) || IsClosing(events[i])
    ensures past[i + 1].turn.Open? ==> events[i] == Began(past[i + 1].turn.start) && past[i].turn.Asked?
    ensures past[i].turn.Open? ==> IsClosing(events[i])
    ensures past[i + 1].turn.Closed? ==> IsClosing(events[i])
  {
    assert StepAt(config, events, past, i);
    NextAsks(config, past[i], events[i]);
    AskedNext(config, past[i], events[i]);
  }

  /** Behind the call for a body at `i`, the event that closes it. */
  predicate ClosedBehind(events: seq<Event>, i: nat) {
    || (i + 1 < |events| && IsClosing(events[i + 1]))
    || (i + 2 < |events| && events[i + 1].Began? && IsClosing(events[i + 2]))
  }

  /** Every body the handler was asked to open is closed, by the next event or the one behind that. */
  lemma BodiesAreClosed(config: Config, events: seq<Event>, past: seq<Summary>, i: nat)
    requires IsRun(config, events, past) && i < |events| && IsBody(events[i])
    requires !past[|events|].turn.Asked? && !past[|events|].turn.Open?
    ensures ClosedBehind(events, i)
  {
    BodyStep(config, events, past, i);
    BodyStep(config, events, past, i + 1);
    if events[i + 1].Began? {
      BodyStep(config, events, past, i + 2);
    }
  }

  /**
   What a 250 to DATA means, over every run: the handler was asked to open a body with the
   envelope of the client's MAIL and RCPTs; the upstream reads from the lines it was sent that
   envelope and nothing else, and took every one of them; it was written one whole message, in
   which a receiver finds the client's body with the stuffing taken off and the merged header
   fields, with nothing left over; and it said yes to that.
   */
  lemma AcceptedMeansDelivered(config: Config, events: seq<Event>, past: seq<Summary>, i: nat)
    returns (m: nat, e: Envelope, start: Start, d: Delivery, text: Octets, fields: Octets)
    requires IsRun(config, events, past) && i < |events| && events[i] == Answered(Command.Data, 250)
    ensures i >= 3 && events[i - 1] == Delivered(d) && events[i - 2] == Began(start)
    ensures IsBody(events[i - 3]) && events[i - 3].call.envelope == e
    ensures m < i - 3 && Lasts(events, past, m, i - 3)
    ensures e == Envelope(events[m].command.from, events[m].command.params, AcceptedRcpts(events[m + 1..i - 3]))
    ensures IsMessage(d.before, d.after, config.maxHeaderSize, start.block, d.body)
    ensures SaidYes(d.transcript.verdict) && |d.transcript.replies| == |e.recipients| + 2
    ensures AllTaken(d.transcript.replies, |e.recipients| + 2)
    ensures ParseAll(d.transcript.commands) ==
            EnvelopeCommands(Sender(e, start.answer), e.params, e.recipients, start.caps) + [Ok(Quit)]
    ensures Receive(d.transcript.wire) == Message(text, [])
    ensures CutAtBlank(text) == Some((fields, Normalize(Unstuff(d.body, true))))
    ensures ParseHeaders(fields) ==
            NormalAll(Kept(ParseHeaders(start.block), start.answer.headers)) + ReadBack(Given(start.answer.headers))
  {
    DeliveryChain(config, events, past, i);
    e, start, d := events[i - 3].call.envelope, events[i - 2].start, events[i - 1].delivery;
    m := BodyUsesEnvelope(config, events, past, i - 3);
    text, fields := DeliveredText(config, events, past, i);
  }

  /** The events behind a 250: the call for the body, its beginning, its delivery. */
  lemma DeliveryChain(config: Config, events: seq<Event>, past: seq<Summary>, i: nat)
    requires IsRun(config, events, past) && i < |events| && events[i] == Answered(Command.Data, 250)
    ensures i >= 3 && events[i - 1].Delivered? && events[i - 2].Began? && IsBody(events[i - 3])
    ensures past[i - 1].turn == Open(events[i - 2].start) && past[i - 2].turn.Asked?
    ensures past[i - 2].turn.envelope == events[i - 3].call.envelope && ParserMade(events[i - 3].call.envelope)
  {
    DeliveredBefore(config, events, past, i);
    assert past[i - 1] != NOTHING_YET;
    BodyStep(config, events, past, i - 2);
    assert past[i - 2] != NOTHING_YET;
    BodyStep(config, events, past, i - 3);
    BodyStands(config, events, past, i - 3);
  }

  lemma DeliveredBefore(config: Config, events: seq<Event>, past: seq<Summary>, i: nat)
    requires IsRun(config, events, past) && i < |events| && events[i] == Answered(Command.Data, 250)
    ensures i > 0 && events[i - 1].Delivered? && past[i - 1].turn.Open?
  {
    assert StepAt(config, events, past, i);
    RunIsSound(config, events, past, i);
    assert past[i].turn == Closed(Say(250)) && i > 0;
    ClosedBy(config, events, past, i);
  }

  /** A body to be answered 250 was just delivered. */
  lemma ClosedBy(config: Config, events: seq<Event>, past: seq<Summary>, i: nat)
    requires IsRun(config, events, past) && 0 < i <= |events| && past[i].turn.Closed?
    ensures IsClosing(events[i - 1])
    ensures past[i].turn.word == Say(250) <==> events[i - 1].Delivered?
    ensures events[i - 1].Delivered? ==> past[i - 1].turn.Open?
  {
    BodyStep(config, events, past, i - 1);
    assert StepAt(config, events, past, i - 1);
    NextCloses(config, past[i - 1], events[i - 1]);
  }

  lemma NextCloses(config: Config, s: Summary, e: Event)
    requires IsClosing(e) && Next(config, s, e).Some?
    ensures var t := Next(config, s, e).value;
            t.turn.Closed? && (t.turn.word == Say(250) <==> e.Delivered?) && (e.Delivered? ==> s.turn.Open?)
  {
  }

  lemma DeliveredText(config: Config, events: seq<Event>, past: seq<Summary>, i: nat) returns (text: Octets, fields: Octets)
    requires IsRun(config, events, past) && 3 <= i < |events| && events[i - 1].Delivered? && events[i - 2].Began? && IsBody(events[i - 3])
    requires past[i - 1].turn == Open(events[i - 2].start) && past[i - 2].turn.Asked?
    requires past[i - 2].turn.envelope == events[i - 3].call.envelope && ParserMade(events[i - 3].call.envelope)
    ensures var e, start, d := events[i - 3].call.envelope, events[i - 2].start, events[i - 1].delivery;
            && SaidYes(d.transcript.verdict) && IsMessage(d.before, d.after, config.maxHeaderSize, start.block, d.body)
            && |d.transcript.replies| == |e.recipients| + 2 && AllTaken(d.transcript.replies, |e.recipients| + 2)
            && ParseAll(d.transcript.commands) ==
               EnvelopeCommands(Sender(e, start.answer), e.params, e.recipients, start.caps) + [Ok(Quit)]
            && Receive(d.transcript.wire) == Message(text, [])
            && CutAtBlank(text) == Some((fields, Normalize(Unstuff(d.body, true))))
            && ParseHeaders(fields) ==
               NormalAll(Kept(ParseHeaders(start.block), start.answer.headers)) + ReadBack(Given(start.answer.headers))
  {
    var e, start, d := events[i - 3].call.envelope, events[i - 2].start, events[i - 1].delivery;
    StartStands(config, events, past, i - 2);
    DeliveryStands(config, events, past, i - 1);
    EnvelopeDelivered(e, start, d.transcript.commands);
    text, fields := MessageDelivered(config.maxHeaderSize, e, start, d);
  }

  lemma StartStands(config: Config, events: seq<Event>, past: seq<Summary>, i: nat)
    requires IsRun(config, events, past) && i < |events| && events[i].Began? && past[i].turn.Asked?
    ensures StartOk(past[i].turn.envelope, events[i].start)
  {
    assert StepAt(config, events, past, i);
  }

  lemma DeliveryStands(config: Config, events: seq<Event>, past: seq<Summary>, i: nat)
    requires IsRun(config, events, past) && i < |events| && events[i].Delivered? && past[i].turn.Open?
    ensures DeliveryOk(config.maxHeaderSize, past[i].turn.start, events[i].delivery)
  {
    assert StepAt(config, events, past, i);
  }

  lemma EnvelopeDelivered(e: Envelope, start: Start, commands: seq<Octets>)
    requires ParserMade(e) && StartOk(e, start) && commands == start.lines + [QUIT + CRLF]
    ensures |start.lines| == |e.recipients| + 2
    ensures ParseAll(commands) == EnvelopeCommands(Sender(e, start.answer), e.params, e.recipients, start.caps) + [Ok(Quit)]
  {
    AddressedReadBack(e, start.answer, start.caps);
    QuitReadBack(start.lines);
    RcptLinesCount(e.recipients, start.caps);
  }

  lemma MessageDelivered(cap: nat, e: Envelope, start: Start, d: Delivery) returns (text: Octets, fields: Octets)
    requires StartOk(e, start) && DeliveryOk(cap, start, d)
    ensures Receive(d.transcript.wire) == Message(text, [])
    ensures CutAtBlank(text) == Some((fields, Normalize(Unstuff(d.body, true))))
    ensures ParseHeaders(fields) ==
            NormalAll(Kept(ParseHeaders(start.block), start.answer.headers)) + ReadBack(Given(start.answer.headers))
  {
    text, fields := FarEnd(start.block, start.answer.headers, d.body, []);
    assert d.transcript.wire + [] == d.transcript.wire;
  }

  /** A message that was never finished left no terminator upstream, in no prefix of what was written. */
  lemma AbandonedHoldsNoTerminator(config: Config, events: seq<Event>, past: seq<Summary>, i: nat, n: nat)
    requires IsRun(config, events, past) && i < |events| && events[i].Abandoned? && n <= |events[i].left.wire|
    ensures NoDotLine(events[i].left.wire[..n])
  {
    assert StepAt(config, events, past, i);
    NoDotLinePrefix(events[i].left.wire, n);
  }

  // ----- replies

  /** A reply that was tried: to which command, with which code. */
  predicate Tries(e: Event, to: Option<Command>, code: nat) {
    || (e.Answered? && to == Some(e.command) && e.code == code)
    || (e.Told? && to == None && e.code == code)
    || (e.Unheard? && to == e.to && e.code == code)
  }

  /** Whatever reply is tried, it is the one that is due, and can be sent; DATA is answered 250 only behind a delivery. */
  lemma RepliesAreDue(config: Config, events: seq<Event>, past: seq<Summary>, i: nat, to: Option<Command>, code: nat)
    requires IsRun(config, events, past) && i < |events| && Tries(events[i], to, code)
    ensures Sendable(code)
    ensures past[i].turn.Due? ==> to == Some(past[i].turn.command) && code == past[i].turn.code
    ensures past[i].turn.Malformed? ==> to == None && code == past[i].turn.code
    ensures past[i].turn.Closed? ==> to == Some(Command.Data) && past[i].turn.word == Say(code)
    ensures to == Some(Command.Data) && code != 354 ==>
              if i > 0 && events[i - 1].Delivered? then code == 250 else IsRefusal(code)
  {
    RunIsSound(config, events, past, i);
    assert StepAt(config, events, past, i);
    if past[i].turn.Closed? {
      assert i > 0;
      ClosedBy(config, events, past, i);
    } else if i > 0 {
      assert StepAt(config, events, past, i - 1);
    }
  }

  /** The reply that serves a line: to its command, or to nothing when it is malformed. */
  predicate Serves(line: Octets, e: Event) {
    match ParseCommand(line)
    case Err(code) => e == Told(code)
    case Ok(command) => e.Answered? && e.command == command
  }

  /** The command of this line is still owed a reply, unless the session is over. */
  predicate Owing(s: Summary, line: Octets) {
    || s.turn.Over?
    || match ParseCommand(line)
       case Err(code) => s.turn == Malformed(code)
       case Ok(command) => Serving(s.turn, command)
  }

  lemma OwingStep(config: Config, s: Summary, line: Octets, e: Event)
    requires Owing(s, line) && Next(config, s, e).Some?
    ensures Serves(line, e) || Owing(Next(config, s, e).value, line)
  {
  }

  lemma TakingOwes(config: Config, s: Summary, line: Octets)
    requires Next(config, s, Took(line)).Some?
    ensures Owing(Next(config, s, Took(line)).value, line)
  {
  }

  /** Between a line taken and the next moment of rest, a reply to it has got out. */
  lemma {:induction false} LinesAreServed(config: Config, events: seq<Event>, past: seq<Summary>, i: nat, j: nat) returns (k: nat)
    requires IsRun(config, events, past) && i < j <= |events| && events[i].Took?
    ensures (i < k < j && Serves(events[i].line, events[k])) || (Owing(past[j], events[i].line) && !past[j].turn.Idle?)
    decreases j
  {
    k := 0;
    var line := events[i].line;
    assert StepAt(config, events, past, j - 1);
    if j == i + 1 {
      TakingOwes(config, past[i], line);
    } else {
      k := LinesAreServed(config, events, past, i, j - 1);
      if !(i < k < j - 1 && Serves(line, events[k])) {
        OwingStep(config, past[j - 1], line, events[j - 1]);
        k := j - 1;
      }
    }
  }
}
