/**
 One client connection: the line reader over a socket whose read boundaries nobody
 controls, the command states, and DATA from the 354 to the reply that ends it.
 */
module Sessions {
  import opened Bytes
  import opened Framing
  import opened Breaks
  import opened Data
  import opened HeaderFields
  import opened WirePath
  import opened Commands
  import opened Dsn
  import opened Extensions
  import opened Replies
  import opened Relay
  import opened Proxy
  import opened Auth
  import opened Protocol
  import opened History

  const MAX_COMMAND_BUFFER: nat := 65536
  const TERMINATOR_SLACK: nat := 2
  const MAX_READ: nat := 8192

  /** What one attempt to read a line produced. */
  datatype Line = Got(bytes: Octets) | Eof | TooLong | ReadFailed

  /** How a step ended. `Broken` is an I/O error or a timeout. */
  datatype Flow = Continue | QuitFlow | TlsFailed | Close | Broken

  /** Why the session ended. */
  datatype End = AtQuit | AtEof | AtError | AtTlsFailure | AtClose | AtDrain

  /** What the wait for a command ended in. */
  datatype CommandLine = Taken(bytes: Octets) | Draining | Overlong | NoCommand(end: End)

  datatype SendResult = Sent | HungUp | SendFailed

  function Flatten(chunks: seq<Octets>): Octets
    decreases |chunks|
  {
    if chunks == [] then [] else chunks[0] + Flatten(chunks[1..])
  }

  /** Reads return at least one byte and at most a buffer's worth. */
  predicate ValidChunks(chunks: seq<Octets>) {
    forall i | 0 <= i < |chunks| :: 0 < |chunks[i]| <= MAX_READ
  }

  /** Where the header phase left off. */
  datatype HeaderPhase =
    | Headers(block: Octets, bodyFollows: bool)
    | Oversized(atLineStart: bool)
    | HeadersGone
    | HeadersBroken

  /** What one read of the body produced. */
  datatype PieceRead = Piece(piece: BodyPiece) | PieceGone | PieceBroken

  /** How the body phase ended: whole, refused before or behind its terminator, or cut off. */
  datatype BodyEnd =
    | BodyWhole
    | MidBody(verdict: UpstreamVerdict, atLineStart: bool)
    | AtTheEnd(verdict: UpstreamVerdict)
    | BodyGone
    | BodyBroken

  /**
   What the client's side of the connection will do, fixed in advance: what becomes of each reply,
   whether the session is told to drain behind so many of them, whether a handshake succeeds, and
   whether a read fails, inside TLS or not, with so many chunks still to come.
   */
  datatype ClientSide = ClientSide(
    sends: nat -> SendResult, drains: nat -> bool, handshake: bool, failsAt: (bool, nat) -> bool)

  class Session {
    const config: Config
    const handler: ProxyHandler
    const client: ClientSide
    /** The bytes of the plain connection and those inside TLS, as the socket will hand them out. */
    const outsideTls: seq<Octets>
    const insideTls: seq<Octets>

    var buf: Octets
    var chunks: seq<Octets>
    var state: State
    var tlsActive: bool
    var recipients: nat
    /** How many replies have been tried. */
    var tried: nat
    /** What has happened, what the machine made of it step by step, and where it stands. */
    ghost var log: seq<Event>
    ghost var past: seq<Summary>
    ghost var now: Summary

    constructor (c: Config, h: ProxyHandler, side: ClientSide, outside: seq<Octets>, inside: seq<Octets>)
      requires h.username.None? && h.password.None? && h.transaction == NO_TRANSACTION && h.trail == Trail([], [])
      requires ValidChunks(outside) && ValidChunks(inside)
      ensures config == c && handler == h && client == side && outsideTls == outside && insideTls == inside
      ensures buf == [] && chunks == outside && log == [] && now == NOTHING_YET && Ready()
    {
      config, handler, client, outsideTls, insideTls := c, h, side, outside, inside;
      buf, chunks, state, tlsActive, recipients, tried := [], outside, WantGreeting, false, 0, 0;
      log, past, now := [], [NOTHING_YET], NOTHING_YET;
    }

    /** The client's bytes nobody has looked at yet. */
    ghost function Unread(): Octets
      reads `buf, `chunks
    {
      buf + Flatten(chunks)
    }

    /** The client has closed its side, and no line is left of what it sent. */
    ghost predicate Gone()
      reads `buf, `chunks
    {
      chunks == [] && Free(buf, LF)
    }

    /** A read fails here. */
    ghost predicate Failing()
      reads `chunks, `tlsActive
    {
      client.failsAt(tlsActive, |chunks|)
    }

    // ----- lines

    /**
     One line, whatever the read boundaries: a line is exactly the next line of the stream; too
     long is a full buffer without an LF; end of file leaves no line behind.
     */
    method NextLine(maxIncomplete: nat) returns (line: Line)
      requires ValidChunks(chunks)
      modifies `buf, `chunks
      ensures ValidChunks(chunks)
      ensures line.Got? ==> IsLine(line.bytes) && old(Unread()) == line.bytes + Unread()
      ensures !line.Got? ==> Unread() == old(Unread())
      ensures line.TooLong? ==> Free(buf, LF) && |buf| > maxIncomplete
      ensures line.Eof? ==> Gone() && Free(Unread(), LF) && |buf| <= maxIncomplete && !Failing()
      ensures |chunks| <= |old(chunks)| && forall k | |chunks| < k <= |old(chunks)| :: !client.failsAt(tlsActive, k)
      ensures (line.ReadFailed? ==> Failing())
      ensures |buf| <= |old(buf)| || |buf| <= maxIncomplete + MAX_READ
    {
      ghost var all := Unread();
      var b, cs := buf, chunks;
      line := ReadFailed;
      while true
        invariant ValidChunks(cs) && b + Flatten(cs) == all
        invariant |cs| <= |old(chunks)| && forall k | |cs| < k <= |old(chunks)| :: !client.failsAt(tlsActive, k)
        invariant |b| <= |old(buf)| || |b| <= maxIncomplete + MAX_READ
        decreases |cs|
      {
        var taken := TakeLine(b);
        if taken.Some? {
          line := Got(taken.value.0);
          Assoc(taken.value.0, taken.value.1, Flatten(cs));
          b := taken.value.1;
          break;
        }
        if |b| > maxIncomplete {
          line := TooLong;
          break;
        }
        if client.failsAt(tlsActive, |cs|) {
          line := ReadFailed;
          break;
        }
        if cs == [] {
          line := Eof;
          break;
        }
        Assoc(b, cs[0], Flatten(cs[1..]));
        b, cs := b + cs[0], cs[1..];
      }
      buf, chunks := b, cs;
      if line.Eof? {
        assert Unread() == buf;
      }
    }

    /** Throws the buffer away. */
    method DropBuffer()
      modifies `buf
      ensures buf == [] && old(Unread()) == old(buf) + Unread()
    {
      buf := [];
      assert [] + Flatten(chunks) == Flatten(chunks);
    }

    /**
     Reads the rest of the message away: it stops exactly behind the terminator, and reports a
     client that left only when there was no terminator to reach.
     */
    method DiscardToTerminator(startsLine: bool) returns (flow: Flow)
      requires ValidChunks(chunks)
      modifies `buf, `chunks
      ensures ValidChunks(chunks)
      ensures flow in {Continue, Close, Broken}
      ensures flow.Continue? ==> AfterMessage(old(Unread()), startsLine) == Some(Unread())
      ensures flow.Close? ==> Gone() && AfterMessage(old(Unread()), startsLine).None?
      ensures (flow.Broken? ==> Failing())
    {
      ghost var all := Unread();
      var atLineStart := startsLine;
      while true
        invariant ValidChunks(chunks)
        invariant AfterMessage(Unread(), atLineStart) == AfterMessage(all, startsLine)
        decreases |Unread()|
      {
        ghost var before := Unread();
        var line := NextLine(MAX_COMMAND_BUFFER);
        match line {
          case Got(bytes) =>
            AfterLine(bytes, Unread(), atLineStart);
            if atLineStart && IsTerminator(bytes) {
              return Continue;
            }
            atLineStart := true;
          case TooLong =>
            ghost var part := buf;
            DropBuffer();
            AfterPartial(part, Unread(), atLineStart);
            atLineStart := false;
          case Eof =>
            return Close;
          case ReadFailed =>
            return Broken;
        }
      }
    }

    // ----- the header block

    /**
     The header phase: its verdict and its block are those of the bytes alone, whatever the read
     boundaries. Oversized leaves the rest of the message, in or at the start of a line.
     */
    method ReadHeaders() returns (h: HeaderPhase)
      requires ValidChunks(chunks)
      modifies `buf, `chunks
      ensures ValidChunks(chunks)
      ensures HeadersMean(h, Collect(old(Unread()), config.maxHeaderSize, []), AfterMessage(old(Unread()), true), Unread())
      ensures (h.HeadersBroken? ==> Failing()) && (h.HeadersGone? ==> Gone())
    {
      ghost var all, cap := Unread(), config.maxHeaderSize;
      var collector := new HeaderCollector(config.maxHeaderSize);
      var done := None;
      while done.None?
        invariant ValidChunks(chunks)
        invariant collector.Valid() && collector.cap == cap && fresh(collector)
        invariant done.None? ==>
            && collector.Collecting() && AfterMessage(Unread(), true) == AfterMessage(all, true)
            && Collect(Unread(), cap, collector.headers) == Collect(all, cap, [])
        invariant (done == Some(HeadersBroken) ==> Failing()) && (done == Some(HeadersGone) ==> Gone())
        invariant done.Some? ==> HeadersMean(done.value, Collect(all, cap, []), AfterMessage(all, true), Unread())
        decreases done.None?, |Unread()|
      {
        ghost var before := Unread();
        done := ReadHeaderLine(collector);
      }
      h := done.value;
    }

    method ReadHeaderLine(collector: HeaderCollector) returns (done: Option<HeaderPhase>)
      requires ValidChunks(chunks)
      requires collector.Valid() && collector.Collecting() && collector.cap == config.maxHeaderSize
      modifies `buf, `chunks, collector
      ensures ValidChunks(chunks) && collector.Valid()
      ensures done.None? ==>
                && collector.Collecting() && |Unread()| < |old(Unread())|
                && AfterMessage(Unread(), true) == AfterMessage(old(Unread()), true)
                && Collect(Unread(), collector.cap, collector.headers) == Collect(old(Unread()), collector.cap, old(collector.headers))
      ensures done.Some? ==>
                HeadersMean(done.value, Collect(old(Unread()), collector.cap, old(collector.headers)),
                            AfterMessage(old(Unread()), true), Unread())
      ensures (done == Some(HeadersBroken) ==> Failing()) && (done == Some(HeadersGone) ==> Gone())
    {
      var left := collector.RemainingCapacity();
      var budget := if left.Some? then left.value + TERMINATOR_SLACK else MAX_COMMAND_BUFFER;
      var line := NextLine(budget);
      match line {
        case Got(bytes) =>
          CollectLine(bytes, Unread(), collector.cap, collector.headers);
          AfterLine(bytes, Unread(), true);
          var event := collector.PushLine(bytes);
          if event.None? {
            return None;
          }
          match event.value {
            case Complete(block) =>
              return Some(Headers(block, true));
            case Terminator =>
              var pending := collector.TakePending();
              return Some(Headers(if pending.Some? then pending.value else [], false));
            case TooLarge =>
              return Some(Oversized(true));
          }
        case TooLong =>
          ghost var part := buf;
          DropBuffer();
          OverlongIsOverCap(part, Unread(), collector.cap, collector.headers);
          AfterPartial(part, Unread(), true);
          collector.MarkTooLarge();
          return Some(Oversized(false));
        case Eof =>
          return Some(HeadersGone);
        case ReadFailed =>
          return Some(HeadersBroken);
      }
    }

    // ----- the body

    /**
     The next line of the body, or a buffer's worth of a longer one. A partial line is longer than
     the buffer bound, so no terminator is ever cut in two; the framer's line position is the
     position in the client's own bytes.
     */
    method ReadPiece(framer: BodyFramer) returns (r: PieceRead)
      requires ValidChunks(chunks) && framer.Exact()
      requires Scan(LineStart, framer.fed) == PositionAt(framer.atLineStart)
      modifies `buf, `chunks, framer
      ensures ValidChunks(chunks) && framer.Exact()
      ensures r.Piece? ==>
                PieceMeans(r.piece, framer, old(framer.fed), old(framer.emitted), old(framer.atLineStart), old(Unread()), Unread())
      ensures !r.Piece? ==> framer.fed == old(framer.fed) && framer.emitted == old(framer.emitted)
      ensures r.PieceGone? ==> Gone() && AfterMessage(old(Unread()), old(framer.atLineStart)).None?
      ensures (r.PieceBroken? ==> Failing())
    {
      var line := NextLine(WRITE_CHUNK);
      match line {
        case Got(bytes) =>
          var piece := FeedLine(framer, bytes, Unread());
          r := Piece(piece);
        case TooLong =>
          var piece := FeedBuffer(framer);
          r := Piece(piece);
        case Eof =>
          r := PieceGone;
        case ReadFailed =>
          r := PieceBroken;
      }
    }

    method FeedBuffer(framer: BodyFramer) returns (piece: BodyPiece)
      requires ValidChunks(chunks) && framer.Exact() && Free(buf, LF) && |buf| > 2
      requires Scan(LineStart, framer.fed) == PositionAt(framer.atLineStart)
      modifies `buf, framer
      ensures framer.Exact()
      ensures PieceMeans(piece, framer, old(framer.fed), old(framer.emitted), old(framer.atLineStart), old(Unread()), Unread())
    {
      var part := buf;
      DropBuffer();
      piece := FeedPartial(framer, part, Unread());
    }

    static method FeedLine(framer: BodyFramer, line: Octets, ghost rest: Octets) returns (piece: BodyPiece)
      requires framer.Exact() && IsLine(line)
      requires Scan(LineStart, framer.fed) == PositionAt(framer.atLineStart)
      modifies framer
      ensures framer.Exact()
      ensures PieceMeans(piece, framer, old(framer.fed), old(framer.emitted), old(framer.atLineStart), line + rest, rest)
    {
      if framer.atLineStart && IsTerminator(line) {
        AfterLine(line, rest, true);
      } else {
        AdvanceLine(framer.fed, framer.atLineStart, line, rest);
      }
      piece := framer.Push(line);
    }

    /** A partial line outgrew the buffer bound, so no terminator is cut in two. */
    static method FeedPartial(framer: BodyFramer, part: Octets, ghost rest: Octets) returns (piece: BodyPiece)
      requires framer.Exact() && Free(part, LF) && |part| > 2
      requires Scan(LineStart, framer.fed) == PositionAt(framer.atLineStart)
      modifies framer
      ensures framer.Exact()
      ensures PieceMeans(piece, framer, old(framer.fed), old(framer.emitted), old(framer.atLineStart), part + rest, rest)
    {
      AdvancePartial(framer.fed, framer.atLineStart, part, rest);
      piece := framer.PushPartial(part);
    }

    /** The framer has taken everything read of `all`, and knows where in a line it stands. */
    ghost predicate Afloat(framer: BodyFramer, all: Octets)
      reads `buf, `chunks, framer
    {
      && ValidChunks(chunks) && framer.Exact()
      && framer.fed + Unread() == all
      && Scan(LineStart, framer.fed) == PositionAt(framer.atLineStart)
      && AfterMessage(Unread(), framer.atLineStart) == AfterMessage(all, true)
    }

    /** And the upstream has been written all the framer gave out behind `head`. */
    ghost predicate Pumping(framer: BodyFramer, up: UpstreamSession, head: Octets, all: Octets)
      reads `buf, `chunks, framer, up
    {
      && Afloat(framer, all)
      && up.sent == head + framer.emitted && EndsWith(up.sent, LF) == (up.lastWritten == Some(LF)) && up.early.None?
    }

    /** The terminator has been read; what is staged is all that is still to go out. */
    ghost predicate WholeRead(framer: BodyFramer, up: UpstreamSession, head: Octets, all: Octets)
      reads `buf, `chunks, framer, up
    {
      && Scan(LineStart, framer.fed) != Ended && AtLineStart(framer.fed) && EndsMessage(all, framer.fed, Unread())
      && up.sent + framer.out == head + Normalize(framer.fed)
      && EndsWith(up.sent, LF) == (up.lastWritten == Some(LF)) && up.early.None?
    }

    ghost predicate Pumped(done: Option<BodyEnd>, framer: BodyFramer, up: UpstreamSession, head: Octets, all: Octets)
      reads `buf, `chunks, framer, up
    {
      && ValidChunks(chunks) && framer.Exact()
      && match done
         case None => Pumping(framer, up, head, all)
         case Some(BodyWhole) => WholeRead(framer, up, head, all)
         case Some(AtTheEnd(_)) => false
         case Some(r) => BodyMeans(r, framer.fed, head, up.sent, up.early, all, Unread())
    }

    method PumpPiece(framer: BodyFramer, up: UpstreamSession, ghost head: Octets, ghost all: Octets) returns (done: Option<BodyEnd>)
      requires Pumping(framer, up, head, all)
      modifies `buf, `chunks, framer, up`sent, up`lastWritten, up`early
      ensures Pumped(done, framer, up, head, all) && (up.early.Some? ==> Stalls(up.far))
      ensures done.None? ==> |Unread()| < |old(Unread())|
      ensures (done == Some(BodyBroken) ==> Failing()) && (done == Some(BodyGone) ==> Gone())
    {
      ghost var before, fed0, emitted0 := Unread(), framer.fed, framer.emitted;
      var read := ReadPiece(framer);
      match read {
        case Piece(Pending) =>
          done := None;
        case Piece(Chunk(bytes)) =>
          Assoc(head, emitted0, bytes);
          done := WriteChunk(framer, up, bytes, head, all);
        case Piece(Terminated) =>
          EndReached(all, fed0, before, Unread());
          Assoc(head, framer.emitted, framer.out);
          done := Some(BodyWhole);
        case PieceGone =>
          EmittedIsPrefix(head, framer, up.sent);
          done := Some(BodyGone);
        case PieceBroken =>
          EmittedIsPrefix(head, framer, up.sent);
          done := Some(BodyBroken);
      }
    }

    method WriteChunk(framer: BodyFramer, up: UpstreamSession, bytes: Octets, ghost head: Octets, ghost all: Octets)
      returns (done: Option<BodyEnd>)
      requires Afloat(framer, all) && up.sent + bytes == head + framer.emitted
      requires EndsWith(up.sent, LF) == (up.lastWritten == Some(LF)) && up.early.None?
      modifies up`sent, up`lastWritten, up`early
      ensures Pumped(done, framer, up, head, all) && (done.Some? ==> done.value.MidBody?) && (up.early.Some? ==> Stalls(up.far))
    {
      var verdict := up.Write(bytes);
      EmittedIsPrefix(head, framer, up.sent);
      done := if verdict.Some? then Some(MidBody(verdict.value, framer.atLineStart)) else None;
    }

    /**
     Pumps the body upstream. What has gone out is always a prefix of the header block and the
     normal form of what was read, and all of it once the terminator is in.
     */
    method PumpBody(up: UpstreamSession) returns (r: BodyEnd, ghost body: Octets)
      requires ValidChunks(chunks) && EndsWith(up.sent, LF) && up.lastWritten == Some(LF) && up.early.None?
      modifies `buf, `chunks, up`sent, up`lastWritten, up`early
      ensures ValidChunks(chunks)
      ensures BodyMeans(r, body, old(up.sent), up.sent, up.early, old(Unread()), Unread()) && (up.early.Some? ==> Stalls(up.far))
      ensures r.BodyWhole? ==> up.lastWritten == Some(LF)
      ensures (r.BodyBroken? ==> Failing()) && (r.BodyGone? ==> Gone())
    {
      ghost var all, head := Unread(), up.sent;
      var framer := new BodyFramer();
      assert head + [] == head && [] + all == all;
      r := PumpPieces(framer, up, head, all);
      body := framer.fed;
      if r.BodyWhole? {
        r := FlushBody(framer, up, head, all);
      }
    }

    method PumpPieces(framer: BodyFramer, up: UpstreamSession, ghost head: Octets, ghost all: Octets) returns (r: BodyEnd)
      requires Pumping(framer, up, head, all)
      modifies `buf, `chunks, framer, up`sent, up`lastWritten, up`early
      ensures Pumped(Some(r), framer, up, head, all) && (up.early.Some? ==> Stalls(up.far))
      ensures (r.BodyBroken? ==> Failing()) && (r.BodyGone? ==> Gone())
    {
      var done := None;
      while done.None?
        invariant Pumped(done, framer, up, head, all) && (up.early.Some? ==> Stalls(up.far))
        invariant (done == Some(BodyBroken) ==> Failing()) && (done == Some(BodyGone) ==> Gone())
        decreases done.None?, |Unread()|
      {
        done := PumpPiece(framer, up, head, all);
      }
      r := done.value;
    }

    /** What is staged below a chunk is still body. */
    method FlushBody(framer: BodyFramer, up: UpstreamSession, ghost head: Octets, ghost all: Octets) returns (r: BodyEnd)
      requires framer.Exact() && WholeRead(framer, up, head, all) && EndsWith(head, LF)
      modifies framer, up`sent, up`lastWritten, up`early
      ensures framer.fed == old(framer.fed)
      ensures BodyMeans(r, framer.fed, head, up.sent, up.early, all, Unread()) && (up.early.Some? ==> Stalls(up.far))
      ensures r.BodyWhole? ==> up.lastWritten == Some(LF)
      ensures r.BodyWhole? || r.AtTheEnd?
    {
      var rest := framer.Flush();
      WireEnds(head, framer.fed);
      if rest == [] {
        return BodyWhole;
      }
      var verdict := up.Write(rest);
      r := if verdict.Some? then AtTheEnd(verdict.value) else BodyWhole;
    }

    static lemma WireEnds(head: Octets, body: Octets)
      requires EndsWith(head, LF) && AtLineStart(body)
      ensures EndsWith(head + Normalize(body), LF)
    {
      NormalizeEnd(body);
    }

    // ----- the log

    /**
     The log is a run of the machine, which now stands at `now`; and it leaves nothing out: the
     calls of the handler and what its upstreams were left with are on record.
     */
    ghost predicate Tied()
      reads `log, `past, `now, handler`trail
    {
      IsRun(config, log, past) && now == past[|log|] && now.trail == handler.trail
    }

    /** The same, with no body awaited or open. */
    ghost predicate Recorded()
      reads `log, `past, `now, handler`trail
    {
      Tied() && !now.turn.Asked? && !now.turn.Open?
    }

    /** The body of `start` is open. */
    ghost predicate Midway(start: Start)
      reads `log, `past, `now, handler`trail
    {
      Tied() && now.turn == Open(start) && now.envelope.None?
    }

    /** What has been read of the stream the session is on, and what has not. */
    ghost function Stream(): Octets
      reads `buf, `chunks, `now
    {
      now.taken + Unread()
    }

    /** The session is still on the stream `before`, and no less of it has been read. */
    ghost predicate Onward(before: Octets, unread: Octets)
      reads `buf, `chunks, `now
    {
      Stream() == before && |Unread()| <= |unread|
    }

    /** The session's count and the handler's list agree; the parameters are parser-made. */
    ghost predicate Counted()
      reads `recipients, handler`transaction
    {
      recipients == |handler.transaction.recipients| && ParserMade(EnvelopeIn(handler.transaction))
    }

    /** TLS, credentials and envelope are those the machine has. */
    ghost predicate Attuned()
      reads `state, `tlsActive, `recipients, `now, handler`transaction, handler`username, handler`password
    {
      && tlsActive == now.tls && (tlsActive ==> state.Rank() >= 2) && handler.Creds() == now.creds && Counted()
      && now.envelope == if state.Rank() >= 4 then Some(EnvelopeIn(handler.transaction)) else None
    }

    /** The session is where the machine is. */
    ghost predicate Ready()
      reads this, handler`trail, handler`transaction, handler`username, handler`password
    {
      Recorded() && Attuned() && state == now.state
    }

    /** It is this command's turn; a gate may still have to be waived for it. */
    ghost predicate ReadyFor(command: Command)
      reads this, handler`trail, handler`transaction, handler`username, handler`password
    {
      && Recorded() && Attuned() && now.state == Effective(config, state, command)
      && CommandOk(command) && now.turn == TurnFor(config, now, command)
    }

    /** A session that stops has a reason to. */
    ghost predicate Excused(flow: Flow)
      reads `buf, `chunks, `tlsActive, `tried, `now
    {
      match flow
      case Continue => true
      case QuitFlow => now.turn == Over(HasQuit)
      case TlsFailed => now.turn == Over(NoTls) && !client.handshake
      case Broken => Failing() || Muted()
      case Close => Gone() || Muted() || now.turn == Closed(Lost) || now.turn == Over(Endless)
    }

    /** The latest reply did not get out. */
    ghost predicate Muted()
      reads `now, `tried
    {
      now.turn.Over? && now.turn.why.Mute? && tried > 0 && !client.sends(tried - 1).Sent?
    }

    /** A command has been served, or the session stops and has a reason to. */
    ghost predicate Done(flow: Flow)
      reads this, handler`trail, handler`transaction, handler`username, handler`password
    {
      Recorded() && Excused(flow) && (flow.Continue? ==> Ready() && now.turn.Idle?)
    }

    ghost method Record(e: Event)
      requires IsRun(config, log, past) && now == past[|log|] && Next(config, now, e).Some?
      modifies `log, `past, `now
      ensures IsRun(config, log, past) && now == past[|log|]
      ensures now == Next(config, old(now), e).value && log == old(log) + [e]
    {
      var next := Next(config, now, e).value;
      ExtendRun(config, log, past, e, next);
      log, past, now := log + [e], past + [next], next;
    }

    /** A call the handler has just had. */
    ghost method RecordCall(call: Call)
      requires IsRun(config, log, past) && now == past[|log|] && AfterCall(now, call).Some?
      requires handler.trail == now.trail.(calls := now.trail.calls + [call])
      modifies `log, `past, `now
      ensures Tied() && now == AfterCall(old(now), call).value && log == old(log) + [Called(call)]
    {
      Record(Called(call));
    }

    /** The end of a body: what is recorded is what its upstream has. */
    ghost method CloseBody(closing: Event)
      requires Tied() && IsClosing(closing) && Next(config, now, closing).Some? && Left(closing) == handler.Latest()
      modifies `log, `past, `now, handler`trail
      ensures Recorded() && log == old(log) + [closing] && now == Next(config, old(now), closing).value
      ensures now.turn.Closed? && SameStanding(old(now), now) && now.envelope == old(now).envelope
    {
      handler.Seal();
      Record(closing);
    }

    // ----- replies and the transaction

    /** A reply that is due is tried, and that goes on record, whether it got out or not. */
    method Send(command: Command, code: nat) returns (r: SendResult)
      requires Recorded() && AfterAnswer(now, command, code).Some?
      modifies `log, `past, `now, `tried
      ensures Recorded() && log == old(log) + [AttemptOf(command, code, r)]
      ensures now == if r.Sent? then AfterAnswer(old(now), command, code).value else Hushed(old(now), r.HungUp?)
      ensures r == client.sends(old(tried)) && tried == old(tried) + 1
    {
      r, tried := client.sends(tried), tried + 1;
      AttemptIsNext(config, now, command, code, r);
      AnswerSettles(now, command, code);
      Record(AttemptOf(command, code, r));
    }

    static lemma AttemptIsNext(config: Config, s: Summary, command: Command, code: nat, r: SendResult)
      requires AfterAnswer(s, command, code).Some?
      ensures Next(config, s, AttemptOf(command, code, r)) ==
              if r.Sent? then AfterAnswer(s, command, code) else Some(Hushed(s, r.HungUp?))
    {
    }

    /** A reply opens no body and calls nobody. */
    static lemma AnswerSettles(s: Summary, command: Command, code: nat)
      requires AfterAnswer(s, command, code).Some?
      ensures var t := AfterAnswer(s, command, code).value; !t.turn.Asked? && !t.turn.Open? && t.trail == s.trail
    {
    }

    /** A reply to no command in particular. */
    method Tell(code: nat) returns (sent: bool)
      requires Recorded() && AfterTold(now, code).Some?
      modifies `log, `past, `now, `tried
      ensures Recorded() && log == old(log) + [if sent then Told(code) else Unheard(None, code, false)]
      ensures now == if sent then AfterTold(old(now), code).value else Hushed(old(now), false)
      ensures sent == client.sends(old(tried)).Sent? && tried == old(tried) + 1
    {
      sent, tried := client.sends(tried).Sent?, tried + 1;
      Record(if sent then Told(code) else Unheard(None, code, false));
    }

    method StartTransaction()
      modifies `recipients, handler`transaction
      ensures Counted() && recipients == 0 && handler.transaction == NO_TRANSACTION
    {
      recipients := 0;
      handler.Reset();
    }

    /** The reply that refuses a message; a client that has left is no error. */
    method RefuseData(code: nat) returns (flow: Flow, ghost said: seq<Event>)
      requires Recorded() && ((now.turn.Receiving? && code == 552) || now.turn == Closed(Say(code)))
      modifies `log, `past, `now, `tried
      ensures Recorded() && log == old(log) + said && now == Settled(old(now), said)
      ensures Attempted(said, code) && flow == FlowAfter(said) && (flow.Continue? || Muted())
      ensures Excused(flow) && SameStanding(old(now), now)
      ensures flow.Continue? ==> now.turn.Leaving? && now.envelope.None? && now.state.WantMail?
    {
      var r := Send(Command.Data, code);
      flow, said := FlowOf(r), [AttemptOf(Command.Data, code, r)];
    }

    /** The upstream's last word on a message whose terminator is already read. */
    method Conclude(outcome: Outcome) returns (flow: Flow, ghost said: seq<Event>)
      requires Recorded() && now.turn == Closed(WordFor(outcome)) && now.envelope.None?
      modifies `state, `log, `past, `now, `tried
      ensures Recorded() && log == old(log) + said && now == Settled(old(now), said) && state == WantMail
      ensures Spoken(said, WordFor(outcome)) && flow == FlowAfter(said)
      ensures WordFor(outcome).Say? ==> flow.Continue? || Muted()
      ensures EndedWell(flow, old(now), now, state) && Excused(flow)
    {
      state := WantMail;
      match outcome {
        case Accepted(_) =>
          var r := Send(Command.Data, 250);
          flow, said := FlowOf(r), [AttemptOf(Command.Data, 250, r)];
        case Refused(Replied(code)) =>
          flow, said := RefuseData(code);
        case Refused(Dropped) =>
          flow, said := Close, [];
      }
    }

    /** A verdict that came while the client was still writing: said now, then the message is drained. */
    method Mirror(verdict: UpstreamVerdict, atLineStart: bool) returns (flow: Flow, ghost said: seq<Event>)
      requires Recorded() && now.turn == Closed(WordFor(Refused(verdict))) && now.envelope.None? && ValidChunks(chunks) && Counted()
      modifies `buf, `chunks, `state, `recipients, `log, `past, `now, `tried, handler`transaction
      ensures Recorded() && log == old(log) + said && now == Settled(old(now), said) && Counted()
      ensures Spoken(said, WordFor(Refused(verdict))) && ValidChunks(chunks)
      ensures flow in {Continue, Close, Broken} && Excused(flow)
      ensures flow.Continue? ==>
                && Audible(said) && now.turn.Leaving? && state == WantMail && handler.transaction == NO_TRANSACTION
                && AfterMessage(old(Unread()), atLineStart) == Some(Unread())
    {
      match verdict {
        case Dropped =>
          flow, said := Conclude(Refused(Dropped));
        case Replied(code) =>
          flow, said := MirrorRefusal(code, atLineStart);
      }
    }

    method MirrorRefusal(code: nat, atLineStart: bool) returns (flow: Flow, ghost said: seq<Event>)
      requires Recorded() && now.turn == Closed(Say(code)) && now.envelope.None? && ValidChunks(chunks) && Counted()
      modifies `buf, `chunks, `state, `recipients, `log, `past, `now, `tried, handler`transaction
      ensures Recorded() && log == old(log) + said && now == Settled(old(now), said) && Counted()
      ensures Attempted(said, code) && ValidChunks(chunks)
      ensures flow in {Continue, Close, Broken} && Excused(flow)
      ensures flow.Continue? ==>
                && Audible(said) && now.turn.Leaving? && state == WantMail && handler.transaction == NO_TRANSACTION
                && AfterMessage(old(Unread()), atLineStart) == Some(Unread())
    {
      state := WantMail;
      flow, said := RefuseData(code);
      if flow.Continue? {
        flow := DiscardToTerminator(atLineStart);
        if !flow.Broken? {
          StartTransaction();
        }
      }
    }

    /** The 552 for a header block over the cap, spoken at the terminator. */
    method RefuseLargeHeaders(atLineStart: bool) returns (flow: Flow, ghost said: seq<Event>)
      requires Recorded() && now.turn.Receiving? && ValidChunks(chunks) && Counted()
      modifies `buf, `chunks, `state, `recipients, `log, `past, `now, `tried, handler`transaction
      ensures Recorded() && log == old(log) + said && now == Settled(old(now), said) && Counted() && ValidChunks(chunks)
      ensures said == [] || Attempted(said, 552)
      ensures flow in {Continue, Close, Broken} && Excused(flow)
      ensures flow.Continue? ==>
                && Audible(said) && now.turn.Leaving? && state == WantMail && handler.transaction == NO_TRANSACTION
                && AfterMessage(old(Unread()), atLineStart) == Some(Unread())
    {
      said := [];
      flow := DiscardToTerminator(atLineStart);
      if !flow.Continue? {
        return;
      }
      state := WantMail;
      StartTransaction();
      flow, said := RefuseData(552);
    }

    // ----- the body and its end

    /** A message that is not delivered has something in its way; one that is, is answered. */
    ghost predicate Accounted(flow: Flow, closing: Event, far: FarSide, unread: Octets)
      reads `chunks, `tlsActive, `tried, `now
    {
      && (closing.Delivered? || Hindered(far) || Failing() || AfterMessage(unread, true).None?)
      && (closing.Delivered? ==> flow.Continue? || Muted())
    }

    /**
     A body with an upstream open for it. Delivered or abandoned, what the upstream was sent, was
     written and replied is on record, and the word on it is tried; a session that goes on goes on
     behind the message.
     */
    method RelayBody(up: UpstreamSession, ghost start: Start, ghost all: Octets)
      returns (flow: Flow, ghost closing: Event, ghost said: seq<Event>)
      requires Midway(start) && handler.upstream == Some(up) && ValidChunks(chunks) && Counted() && Holds(up, start)
      requires Collect(all, config.maxHeaderSize, []) == Block(start.block, Unread())
      modifies `buf, `chunks, `state, `recipients, `log, `past, `now, `tried, handler`transaction, handler`trail, up
      ensures Recorded() && log == old(log) + [closing] + said && Counted() && ValidChunks(chunks)
      ensures EndedWell(flow, old(now), now, state) && Excused(flow)
      ensures Closes(closing, said, all, Unread()) && Left(closing) == TranscriptOf(up)
      ensures Accounted(flow, closing, up.far, old(Unread()))
      ensures flow.Continue? ==> Audible(said) && AfterMessage(old(Unread()), true) == Some(Unread())
    {
      ghost var unread := Unread();
      var end;
      ghost var body;
      end, body := PumpBody(up);
      flow, closing, said := EndBody(up, end, start, body, unread, all);
    }

    /** The body phase is over: the message is finished, or abandoned. */
    method EndBody(up: UpstreamSession, end: BodyEnd, ghost start: Start, ghost body: Octets, ghost unread: Octets, ghost all: Octets)
      returns (flow: Flow, ghost closing: Event, ghost said: seq<Event>)
      requires Midway(start) && handler.upstream == Some(up) && ValidChunks(chunks) && Counted()
      requires Primed(up, start) && (end.BodyBroken? ==> Failing()) && (end.BodyGone? ==> Gone()) && (up.early.Some? ==> Stalls(up.far))
      requires BodyMeans(end, body, start.head, up.sent, up.early, unread, Unread()) && (end.BodyWhole? ==> up.lastWritten == Some(LF))
      requires Collect(all, config.maxHeaderSize, []) == Block(start.block, unread)
      modifies `buf, `chunks, `state, `recipients, `log, `past, `now, `tried, handler`transaction, handler`trail, up
      ensures Recorded() && log == old(log) + [closing] + said && Counted() && ValidChunks(chunks)
      ensures EndedWell(flow, old(now), now, state) && Excused(flow)
      ensures Closes(closing, said, all, Unread()) && Left(closing) == TranscriptOf(up)
      ensures Accounted(flow, closing, up.far, unread)
      ensures flow.Continue? ==> Audible(said) && AfterMessage(unread, true) == Some(Unread())
    {
      if end.BodyWhole? {
        BodyRead(all, config.maxHeaderSize, start.block, unread, body, Unread());
        flow, closing, said := FinishMessage(up, start, body, all);
      } else {
        flow, closing, said := AbandonBody(up, end, start, body, unread);
      }
    }

    static lemma BodyRead(all: Octets, cap: nat, block: Octets, unread: Octets, body: Octets, rest: Octets)
      requires Collect(all, cap, []) == Block(block, unread) && EndsMessage(unread, body, rest)
      ensures IsMessage(all, rest, cap, block, body)
    {
    }

    /** The message will not be finished: what it left upstream is on record, then the client hears of it. */
    method AbandonBody(up: UpstreamSession, end: BodyEnd, ghost start: Start, ghost body: Octets, ghost unread: Octets)
      returns (flow: Flow, ghost closing: Event, ghost said: seq<Event>)
      requires Midway(start) && handler.upstream == Some(up) && ValidChunks(chunks) && Counted()
      requires !end.BodyWhole? && Primed(up, start) && (end.BodyBroken? ==> Failing()) && (end.BodyGone? ==> Gone()) && (up.early.Some? ==> Stalls(up.far))
      requires BodyMeans(end, body, start.head, up.sent, up.early, unread, Unread())
      modifies `buf, `chunks, `state, `recipients, `log, `past, `now, `tried, handler`transaction, handler`trail
      ensures Recorded() && log == old(log) + [closing] + said && Counted() && ValidChunks(chunks)
      ensures EndedWell(flow, old(now), now, state) && Excused(flow)
      ensures closing == Abandoned(TranscriptOf(up)) && Spoken(said, WordOf(up.early))
      ensures Hindered(up.far) || Failing() || AfterMessage(unread, true).None?
      ensures flow.Continue? ==> Audible(said) && AfterMessage(unread, true) == Some(Unread())
    {
      closing := Abandoned(TranscriptOf(up));
      UnfinishedEndsNothing(start.head, body, up.sent);
      CloseBody(closing);
      flow, said := BodyRefused(end, unread, body, start.head, up.sent, up.early);
    }

    /** What went out of a message that was never finished holds no terminator. */
    static lemma UnfinishedEndsNothing(head: Octets, body: Octets, wire: Octets)
      requires Scan(LineStart, head) == LineStart && Scan(LineStart, body) != Ended && wire <= head + Normalize(body)
      ensures NoDotLine(wire)
    {
      var whole := head + Normalize(body);
      ScanNormalized(LineStart, body);
      ScanConcat(LineStart, head, Normalize(body));
      ScanMeans(whole);
      NoDotLinePrefix(whole, |wire|);
      assert whole[..|wire|] == wire;
    }

    /** The body was not relayed to its end: the upstream's verdict is mirrored, or the session is over. */
    method BodyRefused(end: BodyEnd, ghost all: Octets, ghost body: Octets, ghost head: Octets, ghost sent: Octets,
                       ghost early: Option<Reading>)
      returns (flow: Flow, ghost said: seq<Event>)
      requires Recorded() && now.turn == Closed(WordOf(early)) && now.envelope.None? && ValidChunks(chunks) && Counted()
      requires !end.BodyWhole? && (end.BodyBroken? ==> Failing()) && (end.BodyGone? ==> Gone())
      requires BodyMeans(end, body, head, sent, early, all, Unread())
      modifies `buf, `chunks, `state, `recipients, `log, `past, `now, `tried, handler`transaction
      ensures Recorded() && log == old(log) + said && now == Settled(old(now), said) && Counted() && ValidChunks(chunks)
      ensures Spoken(said, WordOf(early)) && flow in {Continue, Close, Broken} && Excused(flow)
      ensures end.BodyBroken? ==> Failing()
      ensures flow.Continue? ==>
                Audible(said) && now.turn.Leaving? && state == WantMail && AfterMessage(all, true) == Some(Unread())
    {
      said := [];
      match end {
        case AtTheEnd(verdict) =>
          flow, said := Conclude(Refused(verdict));
        case MidBody(verdict, atLineStart) =>
          flow, said := Mirror(verdict, atLineStart);
        case BodyGone =>
          flow := Close;
        case BodyBroken =>
          flow := Broken;
      }
    }

    /**
     The end of a message whose terminator has been read: delivered exactly when the upstream was
     written the terminator and said yes behind it, and answered accordingly.
     */
    method FinishMessage(up: UpstreamSession, ghost start: Start, ghost body: Octets, ghost all: Octets)
      returns (flow: Flow, ghost closing: Event, ghost said: seq<Event>)
      requires Midway(start) && handler.upstream == Some(up) && up.early.None? && Primed(up, start)
      requires up.sent == start.head + Normalize(body) && up.lastWritten == Some(LF)
      requires Scan(LineStart, body) != Ended && AtLineStart(body)
      requires IsMessage(all, Unread(), config.maxHeaderSize, start.block, body)
      modifies `state, `log, `past, `now, `tried, handler`trail, up`sent, up`commands, up`verdict
      ensures Recorded() && log == old(log) + [closing] + said
      ensures EndedWell(flow, old(now), now, state) && Excused(flow)
      ensures Closes(closing, said, all, Unread()) && Left(closing) == TranscriptOf(up)
      ensures (closing.Delivered? || Hindered(up.far)) && (closing.Delivered? ==> flow.Continue? || Muted())
      ensures flow == FlowAfter(said)
      ensures closing.Delivered? == SaidYes(up.verdict) && !closing.Abandoned?
      ensures closing.Delivered? ==> closing.delivery.body == body && up.sent == start.head + Normalize(body) + [DOT, CR, LF]
    {
      var outcome;
      outcome, closing := FinishUpstream(up, start, body, all);
      flow, said := Conclude(outcome);
    }

    method FinishUpstream(up: UpstreamSession, ghost start: Start, ghost body: Octets, ghost all: Octets)
      returns (outcome: Outcome, ghost closing: Event)
      requires Midway(start) && handler.upstream == Some(up) && up.early.None? && Primed(up, start)
      requires up.sent == start.head + Normalize(body) && up.lastWritten == Some(LF)
      requires Scan(LineStart, body) != Ended && AtLineStart(body)
      requires IsMessage(all, Unread(), config.maxHeaderSize, start.block, body)
      modifies `log, `past, `now, handler`trail, up`sent, up`commands, up`verdict
      ensures Recorded() && log == old(log) + [closing] && now.turn == Closed(WordFor(outcome))
      ensures SameStanding(old(now), now) && now.envelope.None?
      ensures IsClosing(closing) && Left(closing) == TranscriptOf(up) && closing.Delivered? == SaidYes(up.verdict)
      ensures closing.Delivered? || Hindered(up.far)
      ensures match closing
              case Delivered(d) =>
                && d.before == all && d.after == Unread() && d.body == body && WordFor(outcome) == Say(250)
                && up.sent == start.head + Normalize(body) + [DOT, CR, LF]
              case Unaccepted(left) => left.verdict.Some? && WordFor(outcome) == WordOf(left.verdict)
              case _ => false
    {
      outcome := up.Finish();
      closing := CloseFinished(up, start, body, all, Unread());
      SameWord(outcome, up.verdict);
    }

    static lemma SameWord(outcome: Outcome, verdict: Option<Reading>)
      requires verdict.Some? && (outcome.Accepted? <==> SaidYes(verdict))
      requires outcome.Refused? ==> outcome.verdict == VerdictOf(verdict.value)
      ensures WordFor(outcome) == if SaidYes(verdict) then Say(250) else WordOf(verdict)
    {
    }

    /** A terminator was tried: the message was delivered if the upstream said yes, and not accepted otherwise. */
    ghost method CloseFinished(up: UpstreamSession, start: Start, body: Octets, all: Octets, rest: Octets) returns (closing: Event)
      requires Midway(start) && handler.upstream == Some(up) && up.verdict.Some? && up.early.None? && up.replies == start.replies
      requires SaidYes(up.verdict) ==>
                 up.commands == start.lines + [QUIT + CRLF] && up.sent == start.head + Normalize(body) + [DOT, CR, LF]
      requires Scan(LineStart, body) != Ended && AtLineStart(body)
      requires IsMessage(all, rest, config.maxHeaderSize, start.block, body)
      modifies `log, `past, `now, handler`trail
      ensures Recorded() && log == old(log) + [closing]
      ensures now.turn == Closed(if SaidYes(up.verdict) then Say(250) else WordOf(up.verdict))
      ensures SameStanding(old(now), now) && now.envelope.None?
      ensures closing == if SaidYes(up.verdict) then Delivered(Delivery(all, rest, body, TranscriptOf(up)))
                         else Unaccepted(TranscriptOf(up))
    {
      ScanMeans(body);
      closing := if SaidYes(up.verdict) then Delivered(Delivery(all, rest, body, TranscriptOf(up)))
                 else Unaccepted(TranscriptOf(up));
      CloseBody(closing);
    }

    // ----- DATA

    /**
     DATA, from the 354 to the reply that ends it. A session that goes on has read exactly the
     message, terminator included, is back at WantMail, and has said one last word, however the
     message ended; what happened in between is `trace`. One that stops has a reason to.
     */
    method ReadMessage() returns (flow: Flow, ghost trace: Trace)
      requires Ready() && ValidChunks(chunks) && state == WantData && now.turn == Due(Command.Data, 354)
      modifies `buf, `chunks, `state, `recipients, `log, `past, `now, `tried
      modifies handler`transaction, handler`trail, handler`asked, handler`upstream, handler`unreached, handler.record
      ensures Done(flow) && flow in {Continue, Close, Broken} && ValidChunks(chunks)
      ensures TraceOk(trace, EnvelopeIn(old(handler.transaction)), old(handler.Creds()), old(Unread()), Unread())
      ensures !flow.Continue? ==>
                log == old(log) + [Answered(Command.Data, 354)] + trace.Events() || (Muted() && trace == Unasked([]))
      ensures old(Deliverable()) && Undisturbed() ==>
                flow.Continue? && trace.Handled? && trace.closing.Delivered? && trace.said == [Answered(Command.Data, 250)]
      ensures flow.Continue? ==>
                && state == WantMail && AfterMessage(old(Unread()), true) == Some(Unread()) && Onward(old(Stream()), old(Unread()))
                && log == old(log) + MessageCourse(trace, old(Unread()), Unread()) && Audible(trace.said)
                && (trace.Unasked? <==> Collect(old(Unread()), config.maxHeaderSize, []).OverCap?)
    {
      trace := Unasked([]);
      var sent := Send(Command.Data, 354);
      if !sent.Sent? {
        return Broken, trace;
      }
      flow, trace := ReadToEnd(old(log));
    }

    /** The 354 is out: the message is read, and its bytes go on record. */
    method ReadToEnd(ghost before: seq<Event>) returns (flow: Flow, ghost trace: Trace)
      requires ReadyForBody() && ValidChunks(chunks) && tlsActive == now.tls && log == before + [Answered(Command.Data, 354)]
      modifies `buf, `chunks, `state, `recipients, `log, `past, `now, `tried
      modifies handler`transaction, handler`trail, handler`asked, handler`upstream, handler`unreached, handler.record
      ensures Done(flow) && flow in {Continue, Close, Broken} && ValidChunks(chunks)
      ensures TraceOk(trace, EnvelopeIn(old(handler.transaction)), old(handler.Creds()), old(Unread()), Unread())
      ensures !flow.Continue? ==> log == before + [Answered(Command.Data, 354)] + trace.Events()
      ensures old(Deliverable()) && Undisturbed() ==>
                flow.Continue? && trace.Handled? && trace.closing.Delivered? && trace.said == [Answered(Command.Data, 250)]
      ensures flow.Continue? ==>
                && state == WantMail && AfterMessage(old(Unread()), true) == Some(Unread()) && Onward(old(Stream()), old(Unread()))
                && log == before + MessageCourse(trace, old(Unread()), Unread()) && Audible(trace.said)
                && (trace.Unasked? <==> Collect(old(Unread()), config.maxHeaderSize, []).OverCap?)
    {
      flow, trace := ReceiveMessage();
      if flow.Continue? {
        LeaveMessage(old(Unread()), trace, before, old(now).taken);
        Shorter(old(Unread()), Unread());
      }
    }

    static lemma Shorter(all: Octets, rest: Octets)
      requires AfterMessage(all, true) == Some(rest)
      ensures |rest| <= |all|
    {
    }

    /** The message is behind the session: its bytes go on record as read. */
    ghost method LeaveMessage(all: Octets, trace: Trace, before: seq<Event>, taken: Octets)
      requires Recorded() && now.turn.Leaving? && now.envelope.None? && now.taken == taken
      requires state == now.state == WantMail && tlsActive == now.tls && handler.Creds() == now.creds && Counted()
      requires AfterMessage(all, true) == Some(Unread())
      requires log == before + [Answered(Command.Data, 354)] + trace.Events()
      modifies `log, `past, `now
      ensures Ready() && now.turn.Idle? && Stream() == taken + all
      ensures log == before + MessageCourse(trace, all, Unread())
    {
      var bytes := MessageCut(all, Unread());
      Pass(bytes);
      Assoc(taken, bytes, Unread());
      CourseEnds(before, trace, all, Unread());
    }

    ghost method Pass(bytes: Octets)
      requires Recorded() && now.turn.Leaving? && AfterMessage(bytes, true) == Some([])
      modifies `log, `past, `now
      ensures Recorded() && log == old(log) + [Passed(bytes)]
      ensures now == old(now).(taken := old(now).taken + bytes, turn := Idle)
    {
      Record(Passed(bytes));
    }

    /** Every reply will get out, and no read fails. */
    ghost predicate Undisturbed()
      reads `tlsActive
    {
      (forall k: nat :: client.sends(k).Sent?) && (forall n: nat :: !client.failsAt(tlsActive, n))
    }

    /** What is to come is a whole message with a header block within the cap, which will be taken on. */
    ghost predicate Deliverable()
      reads `buf, `chunks, handler`transaction, handler`asked
    {
      && AfterMessage(Unread(), true).Some?
      && match Collect(Unread(), config.maxHeaderSize, [])
         case Block(block, _) => Favours(handler.world, handler.asked, block, EnvelopeIn(handler.transaction))
         case HeadersOnly(block, _) => Favours(handler.world, handler.asked, block, EnvelopeIn(handler.transaction))
         case _ => false
    }

    /** The 354 is out and the envelope is complete. */
    ghost predicate ReadyForBody()
      reads this, handler`trail, handler`transaction, handler`username, handler`password
    {
      && Recorded() && now.turn.Receiving? && Counted()
      && now.envelope == Some(EnvelopeIn(handler.transaction)) && handler.Creds() == now.creds
    }

    method ReceiveMessage() returns (flow: Flow, ghost trace: Trace)
      requires ReadyForBody() && ValidChunks(chunks)
      modifies `buf, `chunks, `state, `recipients, `log, `past, `now, `tried
      modifies handler`transaction, handler`trail, handler`asked, handler`upstream, handler`unreached, handler.record
      ensures Recorded() && log == old(log) + trace.Events() && Counted() && ValidChunks(chunks)
      ensures EndedWell(flow, old(now), now, state) && Excused(flow)
      ensures TraceOk(trace, EnvelopeIn(old(handler.transaction)), old(handler.Creds()), old(Unread()), Unread())
      ensures old(Deliverable()) ==> (trace.Handled? && trace.closing.Delivered?) || Failing()
      ensures trace.Handled? && trace.closing.Delivered? ==> flow.Continue? || Muted()
      ensures flow.Continue? ==>
                && Audible(trace.said) && AfterMessage(old(Unread()), true) == Some(Unread())
                && (trace.Unasked? <==> Collect(old(Unread()), config.maxHeaderSize, []).OverCap?)
    {
      ghost var all := Unread();
      var h := ReadHeaders();
      trace := Unasked([]);
      match h {
        case HeadersBroken => flow := Broken;
        case HeadersGone => flow := Close;
        case Oversized(atLineStart) =>
          ghost var said;
          flow, said := RefuseLargeHeaders(atLineStart);
          trace := Unasked(said);
        case Headers(block, bodyFollows) =>
          flow, trace := RelayMessage(block, bodyFollows, all);
      }
    }

    /** The headers are in: the handler is asked, and its sink takes the rest. */
    method RelayMessage(block: Octets, bodyFollows: bool, ghost all: Octets) returns (flow: Flow, ghost trace: Trace)
      requires ReadyForBody() && ValidChunks(chunks)
      requires Collect(all, config.maxHeaderSize, []) == HeadersAre(block, bodyFollows, Unread())
      modifies `buf, `chunks, `state, `recipients, `log, `past, `now, `tried
      modifies handler`transaction, handler`trail, handler`asked, handler`upstream, handler`unreached, handler.record
      ensures Recorded() && log == old(log) + trace.Events() && Counted() && ValidChunks(chunks)
      ensures EndedWell(flow, old(now), now, state) && Excused(flow)
      ensures trace.Handled? && TraceOk(trace, EnvelopeIn(old(handler.transaction)), old(handler.Creds()), all, Unread())
      ensures Favours(handler.world, old(handler.asked), block, EnvelopeIn(old(handler.transaction))) ==>
                trace.closing.Delivered? || Failing() || AfterMessage(all, true).None?
      ensures trace.closing.Delivered? ==> flow.Continue? || Muted()
      ensures flow.Continue? ==> Audible(trace.said) && AfterMessage(all, true) == Some(Unread())
    {
      ghost var envelope, known, begun, closing, said := EnvelopeIn(handler.transaction), handler.Creds(), None, Told(0), [];
      var sink;
      sink, begun := AskHandler(block);
      flow, closing, said := UseAnswer(sink, block, bodyFollows, begun, all);
      ghost var call := BodyCall(envelope, known, DeclinedWith(sink));
      trace := Handled(call, begun, closing, said);
      AssocEvents(old(log), call, begun, closing, said);
    }

    /** The handler has answered: its refusal is spoken, or its sink takes the rest. */
    method UseAnswer(sink: Opened, ghost block: Octets, bodyFollows: bool, ghost begun: Option<Start>, ghost all: Octets)
      returns (flow: Flow, ghost closing: Event, ghost said: seq<Event>)
      requires Tied() && Counted() && now.envelope.None? && ValidChunks(chunks) && AnswerStands(sink, block, begun)
      requires Collect(all, config.maxHeaderSize, []) == HeadersAre(block, bodyFollows, Unread())
      modifies `buf, `chunks, `state, `recipients, `log, `past, `now, `tried, handler`transaction, handler`trail
      modifies if sink.Sink? then {sink.upstream} else {}
      ensures Recorded() && log == old(log) + [closing] + said && Counted() && ValidChunks(chunks)
      ensures EndedWell(flow, old(now), now, state) && Excused(flow)
      ensures if sink.Rejection? then closing.Abandoned? && (said == [] || Attempted(said, sink.code)) else Closes(closing, said, all, Unread())
      ensures sink.Sink? ==> Accounted(flow, closing, sink.upstream.far, all)
      ensures flow.Continue? ==> Audible(said) && AfterMessage(all, true) == Some(Unread())
    {
      match sink {
        case Rejection(code) =>
          flow, closing, said := RejectMessage(code, bodyFollows, all, block);
        case Sink(upstream, _) =>
          flow, closing, said := FillSink(upstream, bodyFollows, begun.value, all);
      }
    }

    /** What the handler's answer leaves behind: a refusal to speak, with nothing upstream that ends a message, or a body begun. */
    ghost predicate AnswerStands(sink: Opened, block: Octets, begun: Option<Start>)
      reads `log, `past, `now, handler, if handler.upstream.Some? then {handler.upstream.value} else {}
    {
      match sink
      case Rejection(code) =>
        && begun.None? && IsRefusal(code) && now.turn.Asked? && now.turn.declined == Some(code)
        && NoDotLine(handler.Latest().wire) && handler.Latest().verdict.None?
      case Sink(up, _) =>
        && begun.Some? && begun.value.block == block && Midway(begun.value)
        && handler.upstream == Some(up) && Holds(up, begun.value)
    }

    /** The handler is asked to open the body, and that goes on record with what it was told and knew, and what it began. */
    method AskHandler(block: Octets) returns (sink: Opened, ghost begun: Option<Start>)
      requires ReadyForBody()
      modifies `log, `past, `now, handler`transaction, handler`trail, handler`asked, handler`upstream, handler`unreached, handler.record
      ensures Tied() && Counted() && SameStanding(old(now), now) && now.envelope.None?
      ensures var call := BodyCall(EnvelopeIn(old(handler.transaction)), old(handler.Creds()), DeclinedWith(sink));
              log == old(log) + [Called(call)] + BeginEvents(begun)
      ensures handler.upstream.Some? ==> fresh(handler.upstream.value)
      ensures Favours(handler.world, old(handler.asked), block, EnvelopeIn(old(handler.transaction))) ==>
                sink.Sink? && !Hindered(sink.upstream.far)
      ensures AnswerStands(sink, block, begun)
    {
      ghost var envelope, known := EnvelopeIn(handler.transaction), handler.Creds();
      sink := handler.OpenBody(block);
      begun := NoteAnswer(sink, block, envelope, known);
    }

    /** The call and what it began go on record. */
    ghost method NoteAnswer(sink: Opened, block: Octets, envelope: Envelope, known: Option<Credentials>) returns (begun: Option<Start>)
      requires IsRun(config, log, past) && now == past[|log|]
      requires now.turn.Receiving? && now.envelope == Some(envelope) && now.creds == known
      requires handler.trail == now.trail.(calls := now.trail.calls + [BodyCall(envelope, known, DeclinedWith(sink))])
      requires sink.Rejection? ==> IsRefusal(sink.code) && NoDotLine(handler.Latest().wire) && handler.Latest().verdict.None?
      requires sink.Sink? ==> handler.upstream == Some(sink.upstream) && OpenedFor(sink.upstream, envelope, block, sink.answer)
      modifies `log, `past, `now
      ensures Tied() && SameStanding(old(now), now) && now.envelope.None?
      ensures log == old(log) + [Called(BodyCall(envelope, known, DeclinedWith(sink)))] + BeginEvents(begun)
      ensures AnswerStands(sink, block, begun)
    {
      RecordAsk(envelope, known, DeclinedWith(sink));
      begun := None;
      if sink.Sink? {
        var start := NoteStart(sink.upstream, block, sink.answer, envelope);
        begun := Some(start);
      }
    }

    ghost method RecordAsk(envelope: Envelope, known: Option<Credentials>, declined: Option<nat>)
      requires IsRun(config, log, past) && now == past[|log|]
      requires now.turn.Receiving? && now.envelope == Some(envelope) && now.creds == known
      requires handler.trail == now.trail.(calls := now.trail.calls + [BodyCall(envelope, known, declined)])
      requires declined.Some? ==> IsRefusal(declined.value)
      modifies `log, `past, `now
      ensures Tied() && SameStanding(old(now), now) && now.envelope.None? && now.turn == Turn.Asked(envelope, declined)
      ensures log == old(log) + [Called(BodyCall(envelope, known, declined))]
    {
      BodyAsked(now, envelope, known, declined);
      RecordCall(BodyCall(envelope, known, declined));
    }

    static lemma BodyAsked(s: Summary, envelope: Envelope, known: Option<Credentials>, declined: Option<nat>)
      requires s.turn.Receiving? && s.envelope == Some(envelope) && s.creds == known
      requires declined.Some? ==> IsRefusal(declined.value)
      ensures var call := BodyCall(envelope, known, declined);
              AfterCall(s, call) ==
              Some(s.(trail := s.trail.(calls := s.trail.calls + [call]), envelope := None, turn := Turn.Asked(envelope, declined)))
    {
    }

    ghost method NoteStart(up: UpstreamSession, block: Octets, answer: ApiAnswer, envelope: Envelope) returns (start: Start)
      requires Tied() && now.turn == Turn.Asked(envelope, None) && OpenedFor(up, envelope, block, answer)
      modifies `log, `past, `now
      ensures Tied() && log == old(log) + [Began(start)] && now == old(now).(turn := Open(start))
      ensures start.block == block && Holds(up, start)
    {
      start := Start(block, answer, up.caps, up.commands, up.replies, up.sent);
      OpenedStands(up, envelope, start);
      RecordBegin(start);
    }

    ghost method RecordBegin(start: Start)
      requires Tied() && now.turn.Asked? && now.turn.declined.None? && StartOk(now.turn.envelope, start)
      modifies `log, `past, `now
      ensures Tied() && log == old(log) + [Began(start)] && now == old(now).(turn := Open(start))
    {
      BeginsWith(config, now, start);
      Record(Began(start));
    }

    static lemma BeginsWith(config: Config, s: Summary, start: Start)
      requires s.turn.Asked? && s.turn.declined.None? && StartOk(s.turn.envelope, start)
      ensures Next(config, s, Began(start)) == Some(s.(turn := Open(start)))
    {
    }

    static lemma OpenedStands(up: UpstreamSession, e: Envelope, start: Start)
      requires OpenedFor(up, e, start.block, start.answer)
      requires start == Start(start.block, start.answer, up.caps, up.commands, up.replies, up.sent)
      ensures StartOk(e, start) && Holds(up, start)
    {
      BlockStands(Merged(start));
    }

    /** A printed header block leaves the upstream at the start of a line. */
    static lemma BlockStands(headers: seq<RawHeader>)
      requires Relayable(headers)
      ensures Scan(LineStart, HeaderBlock(headers)) == LineStart && EndsWith(HeaderBlock(headers), LF)
    {
      BlockEnds(headers);
      HeaderPrefixEndsNothing(headers, HeaderBlock(headers));
      ScanMeans(HeaderBlock(headers));
    }

    /** The sink takes the body, if one follows, and is finished. */
    method FillSink(up: UpstreamSession, bodyFollows: bool, ghost start: Start, ghost all: Octets)
      returns (flow: Flow, ghost closing: Event, ghost said: seq<Event>)
      requires Midway(start) && handler.upstream == Some(up) && ValidChunks(chunks) && Counted() && Holds(up, start)
      requires Collect(all, config.maxHeaderSize, []) == HeadersAre(start.block, bodyFollows, Unread())
      modifies `buf, `chunks, `state, `recipients, `log, `past, `now, `tried, handler`transaction, handler`trail, up
      ensures Recorded() && log == old(log) + [closing] + said && Counted() && ValidChunks(chunks)
      ensures EndedWell(flow, old(now), now, state) && Excused(flow)
      ensures Closes(closing, said, all, Unread()) && Left(closing) == TranscriptOf(up)
      ensures Accounted(flow, closing, up.far, all)
      ensures flow.Continue? ==> Audible(said) && AfterMessage(all, true) == Some(Unread())
    {
      CollectKeepsEnd(all, config.maxHeaderSize, []);
      if bodyFollows {
        flow, closing, said := RelayBody(up, start, all);
      } else {
        flow, closing, said := FinishHeadersOnly(up, start, all);
      }
    }

    /** The handler has refused: the rest of the message is read away, then the refusal is spoken. */
    method RejectMessage(code: nat, bodyFollows: bool, ghost all: Octets, ghost block: Octets)
      returns (flow: Flow, ghost closing: Event, ghost said: seq<Event>)
      requires Tied() && now.turn.Asked? && now.turn.declined == Some(code) && IsRefusal(code)
      requires now.envelope.None? && ValidChunks(chunks)
      requires NoDotLine(handler.Latest().wire) && handler.Latest().verdict.None?
      requires Collect(all, config.maxHeaderSize, []) == HeadersAre(block, bodyFollows, Unread())
      modifies `buf, `chunks, `state, `log, `past, `now, `tried, handler`trail
      ensures Recorded() && log == old(log) + [closing] + said && ValidChunks(chunks)
      ensures EndedWell(flow, old(now), now, state) && Excused(flow)
      ensures closing == Abandoned(handler.Latest()) && (said == [] || Attempted(said, code))
      ensures flow.Continue? ==> Audible(said) && AfterMessage(all, true) == Some(Unread())
    {
      said := [];
      closing := CloseDeclined(code);
      flow := ReadAway(bodyFollows, all, block);
      if !flow.Continue? {
        return;
      }
      state := WantMail;
      flow, said := RefuseData(code);
    }

    ghost method CloseDeclined(code: nat) returns (closing: Event)
      requires Tied() && now.turn.Asked? && now.turn.declined == Some(code) && IsRefusal(code)
      requires NoDotLine(handler.Latest().wire) && handler.Latest().verdict.None?
      modifies `log, `past, `now, handler`trail
      ensures Recorded() && closing == Abandoned(handler.Latest()) && log == old(log) + [closing]
      ensures now.turn == Closed(Say(code)) && SameStanding(old(now), now) && now.envelope == old(now).envelope
    {
      closing := Abandoned(handler.Latest());
      CloseBody(closing);
    }

    /** Whatever of the message is still to come behind its headers is read and thrown away. */
    method ReadAway(bodyFollows: bool, ghost all: Octets, ghost block: Octets) returns (flow: Flow)
      requires ValidChunks(chunks)
      requires Collect(all, config.maxHeaderSize, []) == HeadersAre(block, bodyFollows, Unread())
      modifies `buf, `chunks
      ensures ValidChunks(chunks) && flow in {Continue, Close, Broken}
      ensures (flow.Broken? ==> Failing()) && (flow.Close? ==> Gone())
      ensures flow.Continue? ==> AfterMessage(all, true) == Some(Unread())
    {
      CollectKeepsEnd(all, config.maxHeaderSize, []);
      flow := Continue;
      if bodyFollows {
        flow := DiscardToTerminator(true);
      }
    }

    /** A message without a blank line has an empty body. */
    method FinishHeadersOnly(up: UpstreamSession, ghost start: Start, ghost all: Octets)
      returns (flow: Flow, ghost closing: Event, ghost said: seq<Event>)
      requires Midway(start) && handler.upstream == Some(up) && Holds(up, start)
      requires Collect(all, config.maxHeaderSize, []) == HeadersOnly(start.block, Unread())
      modifies `state, `log, `past, `now, `tried, handler`trail, up`sent, up`commands, up`verdict
      ensures Recorded() && log == old(log) + [closing] + said
      ensures EndedWell(flow, old(now), now, state) && Excused(flow)
      ensures Closes(closing, said, all, Unread()) && Left(closing) == TranscriptOf(up)
      ensures (closing.Delivered? || Hindered(up.far)) && (closing.Delivered? ==> flow.Continue? || Muted())
      ensures flow == FlowAfter(said)
      ensures closing.Delivered? ==> closing.delivery.body == []
    {
      assert up.sent + Normalize([]) == up.sent;
      flow, closing, said := FinishMessage(up, start, [], all);
    }

    // ----- commands

    /** A reply whose failure ends the session. */
    method Speak(command: Command, code: nat) returns (flow: Flow)
      requires Recorded() && AfterAnswer(now, command, code).Some?
      modifies `log, `past, `now, `tried
      ensures Recorded() && flow in {Continue, Broken} && Excused(flow) && now.taken == old(now.taken)
      ensures flow.Continue? ==>
                now == AfterAnswer(old(now), command, code).value && log == old(log) + [Answered(command, code)]
    {
      var r := Send(command, code);
      flow := if r.Sent? then Continue else Broken;
    }

    /**
     EHLO or HELO at any point resets the transaction, never the session. The lines are what the
     client is offered.
     */
    method Greeting(command: Command) returns (flow: Flow, lines: seq<Octets>)
      requires ReadyFor(command) && (command.Ehlo? || command.Helo?)
      modifies `state, `recipients, `log, `past, `now, `tried, handler`transaction
      ensures Done(flow) && flow in {Continue, Broken} && now.taken == old(now.taken)
      ensures flow.Continue? ==>
                && log == old(log) + [Answered(command, 250)]
                && Restarted(old(now), old(handler.transaction), state, handler.transaction)
      ensures lines == GreetingLines(SERVICE_NAME, command.Ehlo?, tlsActive, config.tlsOffered, config.requireStartTls,
                                     handler.record.dsn, handler.record.SizeLimit())
    {
      lines := GreetingLines(SERVICE_NAME, command.Ehlo?, tlsActive, config.tlsOffered, config.requireStartTls,
                             handler.record.dsn, handler.record.SizeLimit());
      flow := Restart(command);
    }

    method Restart(command: Command) returns (flow: Flow)
      requires ReadyFor(command) && (command.Ehlo? || command.Helo?)
      modifies `state, `recipients, `log, `past, `now, `tried, handler`transaction
      ensures Done(flow) && flow in {Continue, Broken} && now.taken == old(now.taken)
      ensures flow.Continue? ==>
                && log == old(log) + [Answered(command, 250)]
                && Restarted(old(now), old(handler.transaction), state, handler.transaction)
    {
      if state.Rank() >= 3 {
        StartTransaction();
      }
      state :=
        if state.Rank() >= 3 then WantMail
        else if state.Rank() >= 2 || tlsActive then WantAuth
        else WantStartTls;
      flow := Speak(command, 250);
    }

    method Reset() returns (flow: Flow)
      requires ReadyFor(Rset)
      modifies `state, `recipients, `log, `past, `now, `tried, handler`transaction
      ensures Done(flow) && flow in {Continue, Broken} && now.taken == old(now.taken)
      ensures flow.Continue? ==>
                && log == old(log) + [Answered(Rset, 250)] && handler.transaction == NO_TRANSACTION
                && state == if old(state).Rank() > 3 then WantMail else old(state)
    {
      StartTransaction();
      if state.Rank() > 3 {
        state := WantMail;
      }
      flow := Speak(Rset, 250);
    }

    /** A refusal: nothing changes but what was said. */
    method Refuse(command: Command, code: nat) returns (flow: Flow)
      requires Ready() && now.turn == Due(command, code) && code in {500, 501, 503, 504, 530, 535, 452, 450}
      requires !AtAnyTime(command)
      modifies `log, `past, `now, `tried
      ensures Done(flow) && flow in {Continue, Broken} && now.taken == old(now.taken)
      ensures flow.Continue? ==> log == old(log) + [Answered(command, code)] && now.state == old(now).state
    {
      flow := Speak(command, code);
    }

    method BadSequence(command: Command) returns (flow: Flow)
      requires Ready() && now.turn == Due(command, 503) && !AtAnyTime(command)
      modifies `log, `past, `now, `tried
      ensures Done(flow) && flow in {Continue, Broken} && now.taken == old(now.taken)
      ensures flow.Continue? ==> log == old(log) + [Answered(command, 503)]
    {
      flow := Refuse(command, 503);
    }

    /** A sender, once its parameters are well formed and the limiter agrees. */
    method MailState(command: Command) returns (flow: Flow, ghost course: seq<Event>)
      requires ReadyFor(command) && state.WantMail? && !AtAnyTime(command)
      modifies `state, `recipients, `log, `past, `now, `tried, handler`transaction, handler`trail, handler`asked
      ensures Done(flow) && flow in {Continue, Broken} && now.taken == old(now.taken)
      ensures flow.Continue? ==> log == old(log) + course
      ensures flow.Continue? ==>
                CourseOk(config, old(now), old(handler.transaction), command, course, state, handler.transaction)
    {
      course := [];
      if !command.Mail? {
        flow := BadSequence(command);
        course := [Answered(command, 503)];
        return;
      }
      var wellFormed := ValidateDsn(command.params, MailParams);
      if !wellFormed {
        flow := Refuse(command, 501);
        course := [Answered(command, 501)];
        return;
      }
      flow := NewSender(command);
      course := MailCourse(command, state);
    }

    method NewSender(command: Command) returns (flow: Flow)
      requires Ready() && state.WantMail? && command.Mail? && CommandOk(command) && now.turn == Calling(command)
      modifies `state, `recipients, `log, `past, `now, `tried, handler`transaction, handler`trail, handler`asked
      ensures Done(flow) && flow in {Continue, Broken} && now.taken == old(now.taken)
      ensures flow.Continue? ==>
                && (state.WantMail? || state.WantRcpt?) && log == old(log) + MailCourse(command, state)
                && handler.transaction == if state.WantRcpt? then Transaction(command.from, command.params, [], []) else NO_TRANSACTION
    {
      StartTransaction();
      var refused := AskSender(command);
      ghost var asked := log;
      if refused.Some? {
        flow := Refuse(command, RATE_LIMITED);
      } else {
        flow := AcceptSender(command);
      }
      Assoc(old(log), [Called(MailCall(command.from, command.params, refused))],
            [Answered(command, if refused.Some? then RATE_LIMITED else 250)]);
    }

    method AcceptSender(command: Command) returns (flow: Flow)
      requires Ready() && state.WantMail? && command.Mail? && now.turn == Due(command, 250)
      requires handler.transaction == Transaction(command.from, command.params, [], [])
      modifies `state, `log, `past, `now, `tried
      ensures Done(flow) && flow in {Continue, Broken} && now.taken == old(now.taken)
      ensures flow.Continue? ==> state.WantRcpt? && log == old(log) + [Answered(command, 250)]
      ensures !flow.Continue? ==> state.WantMail?
    {
      flow := Speak(command, 250);
      if flow.Continue? {
        state := WantRcpt;
      }
    }

    method AskSender(command: Command) returns (refused: Option<nat>)
      requires Ready() && state.WantMail? && command.Mail? && CommandOk(command) && recipients == 0 && now.turn == Calling(command)
      modifies `log, `past, `now, handler`transaction, handler`trail, handler`asked
      ensures Ready() && now.turn == Due(command, if refused.Some? then RATE_LIMITED else 250) && now.taken == old(now.taken)
      ensures log == old(log) + [Called(MailCall(command.from, command.params, refused))]
      ensures refused.Some? ==> refused == Some(RATE_LIMITED) && handler.transaction == old(handler.transaction)
      ensures refused.None? ==> handler.transaction == Transaction(command.from, command.params, [], [])
    {
      refused := handler.Mail(command.from, command.params);
      RecordCall(MailCall(command.from, command.params, refused));
    }

    /** A recipient, up to the limit; the one above it is refused and the others stay. */
    method RcptState(command: Command) returns (flow: Flow, ghost course: seq<Event>)
      requires ReadyFor(command) && state.Rank() >= 4 && !AtAnyTime(command) && !(state.WantData? && command.Data?)
      modifies `state, `recipients, `log, `past, `now, `tried, handler`transaction, handler`trail
      ensures Done(flow) && flow in {Continue, Broken} && now.taken == old(now.taken)
      ensures flow.Continue? ==> log == old(log) + course
      ensures flow.Continue? ==>
                CourseOk(config, old(now), old(handler.transaction), command, course, state, handler.transaction)
    {
      course := [];
      if !command.Rcpt? {
        flow := BadSequence(command);
        course := [Answered(command, 503)];
        return;
      }
      var wellFormed := ValidateDsn(command.params, RcptParams);
      if !wellFormed {
        flow := Refuse(command, 501);
        course := [Answered(command, 501)];
        return;
      }
      if config.maxRecipients > 0 && recipients >= config.maxRecipients {
        flow := Refuse(command, 452);
        course := [Answered(command, 452)];
        return;
      }
      flow := AddRecipient(command);
      course := [Called(RcptCall(command.to, command.params))] + [Answered(command, 250)];
    }

    method AddRecipient(command: Command) returns (flow: Flow)
      requires Ready() && state.Rank() >= 4 && command.Rcpt? && CommandOk(command) && now.turn == Calling(command)
      modifies `state, `recipients, `log, `past, `now, `tried, handler`transaction, handler`trail
      ensures Done(flow) && flow in {Continue, Broken} && now.taken == old(now.taken)
      ensures flow.Continue? ==>
                && state.WantData? && handler.transaction == WithRecipientOf(old(handler.transaction), command)
                && log == old(log) + ([Called(RcptCall(command.to, command.params))] + [Answered(command, 250)])
    {
      CountRecipient(command);
      flow := AcceptRecipient(command);
      Assoc(old(log), [Called(RcptCall(command.to, command.params))], [Answered(command, 250)]);
    }

    method AcceptRecipient(command: Command) returns (flow: Flow)
      requires Recorded() && state == now.state && state.Rank() >= 4 && command.Rcpt? && now.turn == Due(command, 250)
      requires tlsActive == now.tls && handler.Creds() == now.creds && Counted()
      requires WithRecipient(now.envelope, Recipient(command.to, command.params)) == Some(EnvelopeIn(handler.transaction))
      modifies `state, `log, `past, `now, `tried
      ensures Done(flow) && flow in {Continue, Broken} && now.taken == old(now.taken)
      ensures flow.Continue? ==> state.WantData? && log == old(log) + [Answered(command, 250)]
    {
      flow := Speak(command, 250);
      if flow.Continue? {
        state := WantData;
      }
    }

    method CountRecipient(command: Command)
      requires Ready() && state.Rank() >= 4 && command.Rcpt? && CommandOk(command) && now.turn == Calling(command)
      modifies `recipients, `log, `past, `now, handler`transaction, handler`trail
      ensures Counted() && recipients == old(recipients) + 1
      ensures Recorded() && now == old(now).(trail := handler.trail, turn := Due(command, 250))
      ensures log == old(log) + [Called(RcptCall(command.to, command.params))]
      ensures handler.transaction == WithRecipientOf(old(handler.transaction), command)
    {
      handler.Rcpt(command.to, command.params);
      recipients := recipients + 1;
      RecordCall(RcptCall(command.to, command.params));
    }

    method DataState(command: Command) returns (flow: Flow, ghost course: seq<Event>)
      requires ReadyFor(command) && ValidChunks(chunks) && state.WantData? && !AtAnyTime(command)
      modifies `buf, `chunks, `state, `recipients, `log, `past, `now, `tried
      modifies handler`transaction, handler`trail, handler`asked, handler`upstream, handler`unreached, handler.record
      ensures Done(flow) && flow in {Continue, Close, Broken} && ValidChunks(chunks)
      ensures flow.Continue? ==> log == old(log) + course && Onward(old(Stream()), old(Unread()))
      ensures flow.Continue? ==>
                CourseOk(config, old(now), old(handler.transaction), command, course, state, handler.transaction)
      ensures flow.Continue? && command.Data? ==>
                && AfterMessage(old(Unread()), true) == Some(Unread())
                && IsMessageCourse(course, EnvelopeIn(old(handler.transaction)), old(handler.Creds()), old(Unread()), Unread())
      ensures command.Data? && old(Deliverable()) && Undisturbed() ==> flow.Continue? && Accepts(course)
    {
      if command.Data? {
        flow, course := ReadData();
      } else {
        flow, course := AnotherRecipient(command);
      }
    }

    method AnotherRecipient(command: Command) returns (flow: Flow, ghost course: seq<Event>)
      requires ReadyFor(command) && state.WantData? && !AtAnyTime(command) && !command.Data?
      modifies `state, `recipients, `log, `past, `now, `tried, handler`transaction, handler`trail
      ensures Done(flow) && flow in {Continue, Broken} && now.taken == old(now.taken)
      ensures flow.Continue? ==> log == old(log) + course
      ensures flow.Continue? ==>
                CourseOk(config, old(now), old(handler.transaction), command, course, state, handler.transaction)
    {
      if command.Rcpt? {
        flow, course := RcptState(command);
      } else {
        flow := BadSequence(command);
        course := [Answered(command, 503)];
      }
    }

    method ReadData() returns (flow: Flow, ghost course: seq<Event>)
      requires ReadyFor(Command.Data) && ValidChunks(chunks) && state.WantData?
      modifies `buf, `chunks, `state, `recipients, `log, `past, `now, `tried
      modifies handler`transaction, handler`trail, handler`asked, handler`upstream, handler`unreached, handler.record
      ensures Done(flow) && flow in {Continue, Close, Broken} && ValidChunks(chunks)
      ensures flow.Continue? ==> log == old(log) + course && Onward(old(Stream()), old(Unread()))
      ensures flow.Continue? ==>
                && IsMessageCourse(course, EnvelopeIn(old(handler.transaction)), old(handler.Creds()), old(Unread()), Unread())
                && state.WantMail? && AfterMessage(old(Unread()), true) == Some(Unread())
      ensures old(Deliverable()) && Undisturbed() ==> flow.Continue? && Accepts(course)
    {
      ghost var trace;
      flow, trace := ReadMessage();
      course := if flow.Continue? then MessageCourse(trace, old(Unread()), Unread()) else [];
      AcceptedCourse(trace, old(Unread()), Unread());
    }

    // ----- authentication

    /** A challenge, and the line that answers it; no line at all ends the session. */
    method AuthContinuation(command: Command, ghost tokens: seq<Octets>) returns (flow: Flow, token: Option<Octets>, ghost answer: Line)
      requires Ready() && ValidChunks(chunks) && command.Auth? && |tokens| < TokensOf(command)
      requires now.turn == Challenging(command, tokens)
      modifies `buf, `chunks, `log, `past, `now, `tried
      ensures Recorded() && Excused(flow) && flow in {Continue, Close, Broken} && ValidChunks(chunks)
      ensures !answer.Got? ==> !flow.Continue?
      ensures flow.Continue? ==>
                && Ready() && Onward(old(Stream()), old(Unread()))
                && old(Unread()) == answer.bytes + Unread() && token == TokenOf(answer.bytes)
                && now.turn == (if token.None? then Idle else AfterTokens(config, command, tokens + [token.value]))
                && log == old(log) + [Answered(command, 334)] + [Heard(answer.bytes)]
                          + if token.None? then [Answered(command, 500)] else []
    {
      token, answer := None, ReadFailed;
      flow := Speak(command, 334);
      if !flow.Continue? {
        return;
      }
      var line := NextLine(MAX_COMMAND_BUFFER);
      answer := line;
      if line.Got? {
        Assoc(now.taken, line.bytes, Unread());
        flow, token := AuthToken(command, tokens, line.bytes);
      } else {
        flow := NoAnswer(line);
      }
    }

    method NoAnswer(line: Line) returns (flow: Flow)
      requires Recorded() && now.turn.Hearing? && !line.Got?
      requires (line.ReadFailed? ==> Failing()) && (line.Eof? ==> Gone())
      modifies `log, `past, `now, `tried
      ensures Recorded() && Excused(flow) && flow == if line.ReadFailed? then Broken else Close
      ensures line.TooLong? ==> now.turn == Over(Endless) || Muted()
    {
      if line.TooLong? {
        var told := Tell(500);
      }
      flow := if line.ReadFailed? then Broken else Close;
    }

    /** A line break inside the answer, or nothing at all, is no token. */
    method AuthToken(command: Command, ghost tokens: seq<Octets>, line: Octets) returns (flow: Flow, token: Option<Octets>)
      requires Ready() && command.Auth? && |tokens| < TokensOf(command) && IsLine(line) && now.turn == Hearing(command, tokens)
      modifies `log, `past, `now, `tried
      ensures Recorded() && Excused(flow) && flow in {Continue, Broken} && token == TokenOf(line)
      ensures flow.Continue? ==>
                && Ready() && now.taken == old(now.taken) + line
                && now.turn == (if token.None? then Idle else AfterTokens(config, command, tokens + [token.value]))
                && log == old(log) + [Heard(line)] + if token.None? then [Answered(command, 500)] else []
    {
      Record(Heard(line));
      var text := StripBreak(line);
      if text == [] || !Free(text, CR) || !Free(text, LF) {
        token := None;
        flow := Refuse(command, 500);
      } else {
        flow, token := Continue, Some(text);
      }
    }

    /** The handler takes the credentials in the tokens, when there are any. */
    method FinishAuth(command: Command, tokens: seq<Octets>) returns (flow: Flow)
      requires Ready() && command.Auth? && state.WantAuth? && |tokens| == TokensOf(command)
      requires now.turn == AfterTokens(config, command, tokens)
      modifies `state, `log, `past, `now, `tried, handler`username, handler`password, handler`trail
      ensures Done(flow) && flow in {Continue, Broken} && now.taken == old(now.taken)
      ensures flow.Continue? ==> log == old(log) + AfterAuth(config, command, tokens)
      ensures flow.Continue? ==>
                match CredentialsIn(config.decode, command, tokens)
                case None => state.WantAuth?
                case Some(creds) => state.WantMail? && handler.Creds() == Some(creds)
    {
      var creds := CredentialsIn(config.decode, command, tokens);
      if creds.None? {
        flow := Refuse(command, 535);
        return;
      }
      TakeCredentials(command, creds.value);
      flow := Welcome(command);
      Assoc(old(log), [Called(AuthCall(creds.value))], [Answered(command, 235)]);
    }

    method Welcome(command: Command) returns (flow: Flow)
      requires Ready() && command.Auth? && state.WantAuth? && now.turn == Due(command, 235)
      modifies `state, `log, `past, `now, `tried
      ensures Done(flow) && flow in {Continue, Broken} && now.taken == old(now.taken)
      ensures flow.Continue? ==> state.WantMail? && log == old(log) + [Answered(command, 235)]
    {
      flow := Speak(command, 235);
      if flow.Continue? {
        state := WantMail;
      }
    }

    method TakeCredentials(command: Command, creds: Credentials)
      requires Ready() && state.WantAuth? && command.Auth? && now.turn == Trusting(command, creds)
      modifies `log, `past, `now, handler`username, handler`password, handler`trail
      ensures Ready() && handler.Creds() == Some(creds) && now.turn == Due(command, 235) && now.taken == old(now.taken)
      ensures log == old(log) + [Called(AuthCall(creds))]
    {
      handler.Auth(creds.username, creds.password);
      RecordCall(AuthCall(creds));
    }

    /** The challenges of a mechanism, each answered by a line, until one is no token. */
    method ReadTokens(command: Command) returns (flow: Flow, tokens: seq<Octets>, confused: bool, ghost heard: seq<Octets>)
      requires Ready() && ValidChunks(chunks) && command.Auth? && now.turn == AfterTokens(config, command, InitialTokens(command))
      modifies `buf, `chunks, `log, `past, `now, `tried
      ensures Recorded() && Excused(flow) && flow in {Continue, Close, Broken} && ValidChunks(chunks)
      ensures flow.Continue? ==>
                && Ready() && Onward(old(Stream()), old(Unread()))
                && log == old(log) + if confused then Dialogue(command, heard) + [Answered(command, 500)] else Dialogue(command, heard)
      ensures flow.Continue? && confused ==> now.turn.Idle? && heard != [] && TokenOf(heard[|heard| - 1]).None?
      ensures flow.Continue? && !confused ==>
                && tokens == InitialTokens(command) + TokensIn(heard) && |tokens| == TokensOf(command)
                && now.turn == AfterTokens(config, command, tokens) && (heard != [] ==> TokenOf(heard[|heard| - 1]).Some?)
    {
      tokens, confused, heard, flow := InitialTokens(command), false, [], Continue;
      assert log + [] == log && tokens + [] == tokens;
      while |tokens| < TokensOf(command)
        invariant Ready() && ValidChunks(chunks) && flow.Continue? && !confused && Onward(old(Stream()), old(Unread()))
        invariant heard != [] ==> TokenOf(heard[|heard| - 1]).Some?
        invariant |tokens| <= TokensOf(command) && tokens == InitialTokens(command) + TokensIn(heard)
        invariant now.turn == AfterTokens(config, command, tokens) && log == old(log) + Dialogue(command, heard)
        decreases TokensOf(command) - |tokens|
      {
        var token;
        ghost var answer;
        flow, token, answer := AuthContinuation(command, tokens);
        if !flow.Continue? {
          return;
        }
        DialogueGrows(old(log), command, heard, answer.bytes);
        Assoc(old(log), Dialogue(command, heard + [answer.bytes]), [Answered(command, 500)]);
        Assoc(InitialTokens(command), TokensIn(heard), TokensIn([answer.bytes]));
        heard := heard + [answer.bytes];
        if token.None? {
          confused := true;
          return;
        }
        tokens := tokens + [token.value];
      }
    }

    method AuthCommand(command: Command) returns (flow: Flow, ghost course: seq<Event>, ghost heard: seq<Octets>)
      requires ReadyFor(command) && ValidChunks(chunks) && command.Auth? && state.WantAuth?
      modifies `buf, `chunks, `state, `log, `past, `now, `tried, handler`username, handler`password, handler`trail
      ensures Done(flow) && flow in {Continue, Close, Broken} && ValidChunks(chunks)
      ensures flow.Continue? ==> log == old(log) + course && Onward(old(Stream()), old(Unread()))
      ensures flow.Continue? ==> AuthCourse(config, command, heard, course, state)
    {
      course, heard := [], [];
      if command.mechanism != PLAIN && command.mechanism != LOGIN {
        flow := Refuse(command, 504);
        course := [Answered(command, 504)];
        return;
      }
      var tokens, confused;
      flow, tokens, confused, heard := ReadTokens(command);
      if !flow.Continue? {
        return;
      }
      if confused {
        course := Dialogue(command, heard) + [Answered(command, 500)];
        return;
      }
      ghost var spoken := log;
      flow := FinishAuth(command, tokens);
      course := Dialogue(command, heard) + AfterAuth(config, command, tokens);
      assert spoken == old(log) + Dialogue(command, heard);
      Assoc(old(log), Dialogue(command, heard), AfterAuth(config, command, tokens));
    }

    method AuthState(command: Command) returns (flow: Flow, ghost course: seq<Event>)
      requires ReadyFor(command) && ValidChunks(chunks) && state.WantAuth? && !AtAnyTime(command)
      modifies `buf, `chunks, `state, `recipients, `log, `past, `now, `tried
      modifies handler`transaction, handler`username, handler`password, handler`trail, handler`asked
      ensures Done(flow) && flow in {Continue, Close, Broken} && ValidChunks(chunks)
      ensures flow.Continue? ==> log == old(log) + course && Onward(old(Stream()), old(Unread()))
      ensures flow.Continue? ==>
                CourseOk(config, old(now), old(handler.transaction), command, course, state, handler.transaction)
    {
      if command.Auth? {
        ghost var heard;
        flow, course, heard := AuthCommand(command);
      } else if config.requireAuth {
        flow := Refuse(command, 530);
        course := [Answered(command, 530)];
      } else {
        flow, course := WithoutAuth(command);
      }
    }

    /** Nobody has to log in: the command is taken as if it had been done. */
    method WithoutAuth(command: Command) returns (flow: Flow, ghost course: seq<Event>)
      requires ReadyFor(command) && state.WantAuth? && !config.requireAuth && !command.Auth? && !AtAnyTime(command)
      modifies `state, `recipients, `log, `past, `now, `tried, handler`transaction, handler`trail, handler`asked
      ensures Done(flow) && flow in {Continue, Broken} && now.taken == old(now.taken)
      ensures flow.Continue? ==> log == old(log) + course
      ensures flow.Continue? ==>
                CourseOk(config, old(now), old(handler.transaction), command, course, state, handler.transaction)
    {
      state := WantMail;
      flow, course := MailState(command);
    }

    // ----- TLS

    /** STARTTLS drops whatever arrived in the clear and goes on with the bytes inside TLS. */
    method StartTlsState(command: Command) returns (flow: Flow, ghost course: seq<Event>)
      requires ReadyFor(command) && ValidChunks(chunks) && ValidChunks(insideTls) && state.WantStartTls? && !AtAnyTime(command)
      modifies `buf, `chunks, `tlsActive, `state, `recipients, `log, `past, `now, `tried
      modifies handler`transaction, handler`username, handler`password, handler`trail, handler`asked
      ensures Done(flow) && flow in {Continue, Close, Broken, TlsFailed} && ValidChunks(chunks)
      ensures flow.Continue? ==> log == old(log) + course && OnItsWay(old(tlsActive), old(Stream()), old(Unread()))
      ensures flow.Continue? ==>
                CourseOk(config, old(now), old(handler.transaction), command, course, state, handler.transaction)
    {
      if command.StartTls? && config.tlsOffered {
        flow, course := StartTls(command);
      } else {
        flow, course := StayInTheClear(command);
      }
    }

    /** The stream has moved on, or is now the one inside TLS, with nothing of it read. */
    ghost predicate OnItsWay(tlsBefore: bool, before: Octets, unread: Octets)
      reads `buf, `chunks, `now, `tlsActive
    {
      if tlsActive == tlsBefore then Onward(before, unread) else tlsActive && Stream() == Flatten(insideTls)
    }

    method StartTls(command: Command) returns (flow: Flow, ghost course: seq<Event>)
      requires ReadyFor(command) && ValidChunks(chunks) && ValidChunks(insideTls) && state.WantStartTls?
      requires command.StartTls? && config.tlsOffered
      modifies `buf, `chunks, `tlsActive, `state, `log, `past, `now, `tried
      ensures Done(flow) && flow in {Continue, Broken, TlsFailed} && ValidChunks(chunks)
      ensures flow.Continue? ==>
                && tlsActive && Stream() == Flatten(insideTls) && state.WantAuth?
                && course == [Answered(command, 220)] + [TlsUp] && log == old(log) + course
    {
      course := [];
      flow := Speak(command, 220);
      if flow.Continue? {
        flow := UpgradeToTls();
        course := [Answered(command, 220)] + [TlsUp];
      }
    }

    /** No upgrade: refused when there has to be one, else taken as if it had been done. */
    method StayInTheClear(command: Command) returns (flow: Flow, ghost course: seq<Event>)
      requires ReadyFor(command) && ValidChunks(chunks) && state.WantStartTls? && !AtAnyTime(command)
      requires !(command.StartTls? && config.tlsOffered)
      modifies `buf, `chunks, `state, `recipients, `log, `past, `now, `tried
      modifies handler`transaction, handler`username, handler`password, handler`trail, handler`asked
      ensures Done(flow) && flow in {Continue, Close, Broken} && ValidChunks(chunks)
      ensures flow.Continue? ==> log == old(log) + course && Onward(old(Stream()), old(Unread()))
      ensures flow.Continue? ==>
                CourseOk(config, old(now), old(handler.transaction), command, course, state, handler.transaction)
    {
      if config.requireStartTls {
        flow := Refuse(command, 530);
        course := [Answered(command, 530)];
      } else {
        state := WantAuth;
        flow, course := AuthState(command);
      }
    }

    method UpgradeToTls() returns (flow: Flow)
      requires Ready() && state.WantStartTls? && ValidChunks(chunks) && ValidChunks(insideTls) && now.turn.Upgrading?
      modifies `buf, `chunks, `tlsActive, `state, `log, `past, `now
      ensures Done(flow) && flow == (if client.handshake then Continue else TlsFailed) && ValidChunks(chunks)
      ensures flow.Continue? ==>
                && tlsActive && Unread() == Stream() == Flatten(insideTls) && state.WantAuth?
                && log == old(log) + [TlsUp] && handler.transaction == old(handler.transaction)
    {
      buf := [];
      if !client.handshake {
        chunks := [];
        Record(TlsLost);
        return TlsFailed;
      }
      chunks := insideTls;
      EnterTls();
      assert [] + Flatten(insideTls) == Flatten(insideTls) && [] + Unread() == Unread();
      return Continue;
    }

    method EnterTls()
      requires Ready() && state.WantStartTls? && now.turn.Upgrading?
      modifies `tlsActive, `state, `log, `past, `now
      ensures Ready() && now.turn.Idle? && state.WantAuth? && tlsActive && log == old(log) + [TlsUp] && now.taken == []
    {
      tlsActive, state := true, WantAuth;
      Record(TlsUp);
    }

    // ----- the loop

    /**
     A command whose turn it is gets what it is owed: the reply of the table, or the call of the
     handler and the reply to that, the course of AUTH, the upgrade, or the course of a message. And
     when nothing is in its way, a whole message is delivered and answered 250.
     */
    method Dispatch(command: Command) returns (flow: Flow, ghost course: seq<Event>)
      requires ReadyFor(command) && ValidChunks(chunks) && ValidChunks(insideTls)
      modifies `buf, `chunks, `tlsActive, `state, `recipients, `log, `past, `now, `tried
      modifies handler`transaction, handler`username, handler`password, handler`trail, handler`asked, handler`upstream, handler`unreached, handler.record
      ensures Done(flow) && ValidChunks(chunks) && (flow.QuitFlow? ==> command.Quit?)
      ensures flow.Continue? || flow.QuitFlow? ==> log == old(log) + course
      ensures flow.Continue? || flow.QuitFlow? ==>
                CourseOk(config, old(now), old(handler.transaction), command, course, state, handler.transaction)
      ensures flow.Continue? || flow.QuitFlow? ==> OnItsWay(old(tlsActive), old(Stream()), old(Unread()))
      ensures flow.Continue? && old(state).WantData? && command.Data? ==>
                && AfterMessage(old(Unread()), true) == Some(Unread())
                && IsMessageCourse(course, EnvelopeIn(old(handler.transaction)), old(handler.Creds()), old(Unread()), Unread())
      ensures old(state).WantData? && command.Data? && old(Deliverable()) && Undisturbed() ==> flow.Continue? && Accepts(course)
    {
      if AtAnyTime(command) {
        flow, course := DispatchAnyTime(command);
      } else {
        flow, course := DispatchByState(command);
      }
    }

    /** The commands that are taken in every state. */
    method DispatchAnyTime(command: Command) returns (flow: Flow, ghost course: seq<Event>)
      requires ReadyFor(command) && AtAnyTime(command)
      modifies `state, `recipients, `log, `past, `now, `tried, handler`transaction
      ensures Done(flow) && (flow.QuitFlow? ==> command.Quit?) && now.taken == old(now.taken)
      ensures flow.Continue? || flow.QuitFlow? ==> log == old(log) + course
      ensures flow.Continue? || flow.QuitFlow? ==>
                CourseOk(config, old(now), old(handler.transaction), command, course, state, handler.transaction)
    {
      course := [Answered(command, AnyTimeCode(command))];
      if command.Quit? || command.Noop? || command.Vrfy? {
        flow := AnswerStateless(command);
      } else if command.Ehlo? || command.Helo? {
        var lines;
        flow, lines := Greeting(command);
      } else {
        flow := Reset();
      }
    }

    method AnswerStateless(command: Command) returns (flow: Flow)
      requires ReadyFor(command) && (command.Quit? || command.Noop? || command.Vrfy?)
      modifies `log, `past, `now, `tried
      ensures Done(flow) && flow in {Continue, QuitFlow, Broken} && (flow.QuitFlow? ==> command.Quit?)
      ensures now.taken == old(now.taken)
      ensures !flow.Broken? ==> log == old(log) + [Answered(command, AnyTimeCode(command))] && flow.QuitFlow? == command.Quit?
    {
      flow := Speak(command, if command.Quit? then 221 else if command.Noop? then 250 else 553);
      if flow.Continue? && command.Quit? {
        flow := QuitFlow;
      }
    }

    method DispatchByState(command: Command) returns (flow: Flow, ghost course: seq<Event>)
      requires ReadyFor(command) && ValidChunks(chunks) && ValidChunks(insideTls) && !AtAnyTime(command)
      modifies `buf, `chunks, `tlsActive, `state, `recipients, `log, `past, `now, `tried
      modifies handler`transaction, handler`username, handler`password, handler`trail, handler`asked, handler`upstream, handler`unreached, handler.record
      ensures Done(flow) && ValidChunks(chunks) && !flow.QuitFlow?
      ensures flow.Continue? ==> log == old(log) + course && OnItsWay(old(tlsActive), old(Stream()), old(Unread()))
      ensures flow.Continue? ==>
                CourseOk(config, old(now), old(handler.transaction), command, course, state, handler.transaction)
      ensures flow.Continue? && old(state).WantData? && command.Data? ==>
                && AfterMessage(old(Unread()), true) == Some(Unread())
                && IsMessageCourse(course, EnvelopeIn(old(handler.transaction)), old(handler.Creds()), old(Unread()), Unread())
      ensures old(state).WantData? && command.Data? && old(Deliverable()) && Undisturbed() ==> flow.Continue? && Accepts(course)
    {
      if state.WantGreeting? {
        flow := BadSequence(command);
        course := [Answered(command, 503)];
      } else if state.Rank() >= 3 {
        flow, course := TransactionState(command);
      } else {
        flow, course := GateState(command);
      }
    }

    /** In front of a gate: TLS, then authentication. */
    method GateState(command: Command) returns (flow: Flow, ghost course: seq<Event>)
      requires ReadyFor(command) && ValidChunks(chunks) && ValidChunks(insideTls) && !AtAnyTime(command)
      requires state.WantStartTls? || state.WantAuth?
      modifies `buf, `chunks, `tlsActive, `state, `recipients, `log, `past, `now, `tried
      modifies handler`transaction, handler`username, handler`password, handler`trail, handler`asked
      ensures Done(flow) && flow in {Continue, Close, Broken, TlsFailed} && ValidChunks(chunks)
      ensures flow.Continue? ==> log == old(log) + course && OnItsWay(old(tlsActive), old(Stream()), old(Unread()))
      ensures flow.Continue? ==>
                CourseOk(config, old(now), old(handler.transaction), command, course, state, handler.transaction)
    {
      if state.WantStartTls? {
        flow, course := StartTlsState(command);
      } else {
        flow, course := AuthState(command);
      }
    }

    /** Past authentication: a sender, its recipients, the message. */
    method TransactionState(command: Command) returns (flow: Flow, ghost course: seq<Event>)
      requires ReadyFor(command) && ValidChunks(chunks) && state.Rank() >= 3 && !AtAnyTime(command)
      modifies `buf, `chunks, `state, `recipients, `log, `past, `now, `tried
      modifies handler`transaction, handler`trail, handler`asked, handler`upstream, handler`unreached, handler.record
      ensures Done(flow) && flow in {Continue, Close, Broken} && ValidChunks(chunks)
      ensures flow.Continue? ==> log == old(log) + course && Onward(old(Stream()), old(Unread()))
      ensures flow.Continue? ==>
                CourseOk(config, old(now), old(handler.transaction), command, course, state, handler.transaction)
      ensures flow.Continue? && old(state).WantData? && command.Data? ==>
                && AfterMessage(old(Unread()), true) == Some(Unread())
                && IsMessageCourse(course, EnvelopeIn(old(handler.transaction)), old(handler.Creds()), old(Unread()), Unread())
      ensures old(state).WantData? && command.Data? && old(Deliverable()) && Undisturbed() ==> flow.Continue? && Accepts(course)
    {
      match state {
        case WantMail => flow, course := MailState(command);
        case WantRcpt => flow, course := RcptState(command);
        case WantData => flow, course := DataState(command);
      }
    }

    /** The stream the session is on. */
    ghost function Channel(): Octets
      reads `tlsActive
    {
      Flatten(if tlsActive then insideTls else outsideTls)
    }

    /**
     A whole session: whatever the client sends, however it is cut into reads, and whatever the
     API and the upstream do, the log is a run of the machine; the calls in it are all the calls
     the handler had, and the transcripts in it are what each body left upstream; the bytes in it
     are those read of the stream, in order; and the session ends only for a reason.
     */
    method Serve() returns (end: End)
      requires Ready() && log == [] && buf == [] && chunks == outsideTls && !tlsActive && now == NOTHING_YET
      requires ValidChunks(outsideTls) && ValidChunks(insideTls)
      modifies this, handler, handler.record
      ensures IsRun(config, log, past) && now == past[|log|] && EndsFor(end)
      ensures CallsIn(log) == handler.trail.calls && TranscriptsIn(log) == handler.trail.transcripts
      ensures end in {AtQuit, AtEof, AtDrain} ==> BytesIn(log) + Unread() == Channel()
    {
      var greeted := Tell(220);
      assert [] + Flatten(chunks) == Flatten(chunks) && [] + Unread() == Unread();
      var flow := if greeted then Continue else Broken;
      end := AtError;
      while flow.Continue?
        invariant Recorded() && ValidChunks(chunks)
        invariant flow.Continue? ==> Ready() && now.turn.Idle? && Stream() == Channel()
        invariant !flow.Continue? ==> EndsFor(end) && (end in {AtQuit, AtEof, AtDrain} ==> Stream() == Channel())
        decreases flow.Continue?, !tlsActive, |Unread()|
      {
        flow, end := ServeLine();
      }
      NothingLeftOut();
    }

    /** Why the session is over. */
    ghost predicate EndsFor(end: End)
      reads `buf, `chunks, `tlsActive, `tried, `now
    {
      match end
      case AtQuit => now.turn == Over(HasQuit)
      case AtEof => Gone()
      case AtError => Failing() || Muted()
      case AtTlsFailure => now.turn == Over(NoTls) && !client.handshake
      case AtDrain => (now.turn == Over(Drained) || Muted()) && tried > 0 && client.drains(tried - 1)
      case AtClose => Excused(Close)
    }

    lemma EndsAsItShould(flow: Flow)
      requires Excused(flow)
      ensures !flow.Continue? ==> EndsFor(EndOf(flow))
    {
    }

    lemma NothingLeftOut()
      requires Recorded()
      ensures CallsIn(log) == handler.trail.calls && TranscriptsIn(log) == handler.trail.transcripts && BytesIn(log) == now.taken
    {
      AllCounted(config, log, past, |log|);
      assert log[..|log|] == log;
    }

    method ServeLine() returns (flow: Flow, end: End)
      requires Ready() && now.turn.Idle? && ValidChunks(chunks) && ValidChunks(insideTls) && Stream() == Channel()
      modifies `buf, `chunks, `tlsActive, `state, `recipients, `log, `past, `now, `tried
      modifies handler`transaction, handler`username, handler`password, handler`trail, handler`asked, handler`upstream, handler`unreached, handler.record
      ensures Recorded() && ValidChunks(chunks)
      ensures flow.Continue? ==>
                && Ready() && now.turn.Idle? && Stream() == Channel() && (old(tlsActive) ==> tlsActive)
                && (tlsActive == old(tlsActive) ==> |Unread()| < |old(Unread())|)
      ensures !flow.Continue? ==> EndsFor(end) && (end in {AtQuit, AtEof, AtDrain} ==> Stream() == Channel())
    {
      var line := NextCommandLine();
      match line {
        case Taken(bytes) =>
          flow := ServeCommand(bytes);
          end := EndOf(flow);
          EndsAsItShould(flow);
        case Draining => flow, end := Close, AtDrain;
        case Overlong => flow, end := Close, AtClose;
        case NoCommand(e) => flow, end := Close, e;
      }
    }

    /** The next command, unless a drain, an endless line, the client's end or an error comes first. */
    method NextCommandLine() returns (line: CommandLine)
      requires Ready() && now.turn.Idle? && ValidChunks(chunks)
      modifies `buf, `chunks, `log, `past, `now, `tried
      ensures Recorded() && ValidChunks(chunks) && Stream() == old(Stream())
      ensures line.Taken? ==>
                && JudgedFor(line.bytes) && IsLine(line.bytes) && old(Unread()) == line.bytes + Unread()
                && log == old(log) + [Took(line.bytes)]
      ensures line.Draining? <==> client.drains(old(tried))
      ensures line.Draining? ==> EndsFor(AtDrain)
      ensures line.Overlong? ==> Free(buf, LF) && |buf| > MAX_COMMAND_BUFFER && (now.turn == Over(Endless) || Muted())
      ensures line.NoCommand? ==> log == old(log) && EndsFor(line.end) && line.end in {AtEof, AtError} && now == old(now)
    {
      if client.drains(tried) {
        var told := Tell(421);
        return Draining;
      }
      line := ReadCommand();
    }

    method ReadCommand() returns (line: CommandLine)
      requires Ready() && now.turn.Idle? && ValidChunks(chunks)
      modifies `buf, `chunks, `log, `past, `now, `tried
      ensures Recorded() && ValidChunks(chunks) && Stream() == old(Stream()) && !line.Draining?
      ensures line.Taken? ==>
                && JudgedFor(line.bytes) && IsLine(line.bytes) && old(Unread()) == line.bytes + Unread()
                && log == old(log) + [Took(line.bytes)]
      ensures line.Overlong? ==> Free(buf, LF) && |buf| > MAX_COMMAND_BUFFER && (now.turn == Over(Endless) || Muted())
      ensures line.NoCommand? ==> log == old(log) && EndsFor(line.end) && line.end in {AtEof, AtError} && now == old(now)
    {
      var next := NextLine(MAX_COMMAND_BUFFER);
      match next {
        case Got(bytes) =>
          Assoc(now.taken, bytes, Unread());
          RecordTook(bytes);
          line := Taken(bytes);
        case TooLong =>
          var told := Tell(500);
          line := Overlong;
        case Eof => line := NoCommand(AtEof);
        case ReadFailed => line := NoCommand(AtError);
      }
    }

    /** A command line was taken: whose turn it is now is judged by what is in it. */
    ghost method RecordTook(bytes: Octets)
      requires Ready() && now.turn.Idle? && IsLine(bytes)
      modifies `log, `past, `now
      ensures JudgedFor(bytes) && now.taken == old(now.taken) + bytes && log == old(log) + [Took(bytes)]
    {
      Record(Took(bytes));
    }

    /** The line just taken is malformed, or it is the turn of the command in it. */
    ghost predicate JudgedFor(bytes: Octets)
      reads this, handler`trail, handler`transaction, handler`username, handler`password
    {
      match ParseCommand(bytes)
      case Err(code) => Ready() && now.turn == Malformed(code)
      case Ok(command) => ReadyFor(command)
    }

    method ServeCommand(bytes: Octets) returns (flow: Flow)
      requires JudgedFor(bytes) && ValidChunks(chunks) && ValidChunks(insideTls)
      modifies `buf, `chunks, `tlsActive, `state, `recipients, `log, `past, `now, `tried
      modifies handler`transaction, handler`username, handler`password, handler`trail, handler`asked, handler`upstream, handler`unreached, handler.record
      ensures Done(flow) && ValidChunks(chunks) && (flow.QuitFlow? ==> ParseCommand(bytes) == Ok(Quit))
      ensures flow.Continue? || flow.QuitFlow? ==> OnItsWay(old(tlsActive), old(Stream()), old(Unread()))
    {
      var parsed := ParseCommand(bytes);
      match parsed {
        case Err(code) =>
          var sent := Tell(code);
          flow := if sent then Continue else Broken;
        case Ok(command) =>
          ghost var course;
          flow, course := Dispatch(command);
      }
    }
  }

  // ----- replies

  function FlowOf(r: SendResult): Flow {
    match r case Sent => Continue case HungUp => Close case SendFailed => Broken
  }

  function AttemptOf(command: Command, code: nat, r: SendResult): Event {
    if r.Sent? then Answered(command, code) else Unheard(Some(command), code, r.HungUp?)
  }

  function Hushed(s: Summary, hungUp: bool): Summary {
    s.(turn := Over(Mute(hungUp)))
  }

  /** One attempt to answer DATA with this code, and no other. */
  predicate Attempted(said: seq<Event>, code: nat) {
    && |said| == 1
    && (said[0] == Answered(Command.Data, code) || (said[0].Unheard? && said[0].to == Some(Command.Data) && said[0].code == code))
  }

  /** What was said has been heard. */
  predicate Audible(said: seq<Event>) {
    said != [] && said[0].Answered?
  }

  /** The word on a body was tried, when there was one. */
  predicate Spoken(said: seq<Event>, word: Word) {
    match word case Say(code) => Attempted(said, code) case _ => said == []
  }

  function WordFor(outcome: Outcome): Word {
    match outcome
    case Accepted(_) => Say(250)
    case Refused(Replied(code)) => Say(code)
    case Refused(Dropped) => Lost
  }

  /** Go on when the client heard it; close without a word when there was none or it hung up; else an error. */
  function FlowAfter(said: seq<Event>): Flow {
    if said == [] then Close
    else
      match said[0]
      case Answered(_, _) => Continue
      case Unheard(_, _, hungUp) => if hungUp then Close else Broken
      case _ => Broken
  }

  function Settled(s: Summary, said: seq<Event>): Summary {
    if said == [] then s
    else if said[0].Unheard? then Hushed(s, said[0].hungUp)
    else Concluded(s)
  }

  // ----- the course of a command

  function MailCourse(command: Command, state: State): seq<Event>
    requires command.Mail?
  {
    var declined := if state.WantRcpt? then None else Some(RATE_LIMITED);
    [Called(MailCall(command.from, command.params, declined))] + [Answered(command, if state.WantRcpt? then 250 else RATE_LIMITED)]
  }

  function WithRecipientOf(t: Transaction, command: Command): Transaction
    requires command.Rcpt?
  {
    t.(recipients := t.recipients + [Recipient(command.to, command.params)])
  }

  /** Each challenge and the line that answered it. */
  function Dialogue(command: Command, heard: seq<Octets>): seq<Event>
    decreases |heard|
  {
    if heard == [] then []
    else Dialogue(command, heard[..|heard| - 1]) + ([Answered(command, 334)] + [Heard(heard[|heard| - 1])])
  }

  function TokensIn(heard: seq<Octets>): seq<Octets>
    decreases |heard|
  {
    if heard == [] then []
    else
      var token := TokenOf(heard[|heard| - 1]);
      TokensIn(heard[..|heard| - 1]) + if token.Some? then [token.value] else []
  }

  lemma DialogueGrows(log: seq<Event>, command: Command, heard: seq<Octets>, line: Octets)
    ensures log + Dialogue(command, heard) + [Answered(command, 334)] + [Heard(line)] == log + Dialogue(command, heard + [line])
    ensures TokensIn(heard + [line]) == TokensIn(heard) + TokensIn([line])
    ensures TokensIn([line]) == if TokenOf(line).Some? then [TokenOf(line).value] else []
  {
    var more := heard + [line];
    assert more[..|more| - 1] == heard && more[|more| - 1] == line;
    Assoc(log, Dialogue(command, heard), [Answered(command, 334)] + [Heard(line)]);
    Assoc(log + Dialogue(command, heard), [Answered(command, 334)], [Heard(line)]);
    assert [line][..0] == [] && TokensIn([]) == [];
  }

  function AfterAuth(config: Config, command: Command, tokens: seq<Octets>): seq<Event>
    requires command.Auth? && |tokens| == TokensOf(command)
  {
    match CredentialsIn(config.decode, command, tokens)
    case None => [Answered(command, 535)]
    case Some(creds) => [Called(AuthCall(creds))] + [Answered(command, 235)]
  }

  /** AUTH: refused for its mechanism, confused by a line that is no token, or decided by the credentials in the tokens. */
  predicate AuthCourse(config: Config, command: Command, heard: seq<Octets>, course: seq<Event>, state: State)
    requires command.Auth?
  {
    if !Supported(command) then course == [Answered(command, 504)] && state.WantAuth?
    else if heard != [] && TokenOf(heard[|heard| - 1]).None? then
      course == Dialogue(command, heard) + [Answered(command, 500)] && state.WantAuth?
    else
      var tokens := InitialTokens(command) + TokensIn(heard);
      && |tokens| == TokensOf(command) && course == Dialogue(command, heard) + AfterAuth(config, command, tokens)
      && state == if CredentialsIn(config.decode, command, tokens).Some? then WantMail else WantAuth
  }

  /** EHLO and HELO: back to WantMail with nothing begun, or on to the gate in front. */
  predicate Restarted(s: Summary, t: Transaction, state: State, after: Transaction) {
    && state == Greeted(s) && after == if s.state.Rank() >= 3 then NO_TRANSACTION else t
  }

  /**
   What serving a command comes to: the events recorded, the state it leaves and the transaction,
   by whose turn it was and the state and transaction it found.
   */
  ghost predicate CourseOk(config: Config, s: Summary, t: Transaction, command: Command, course: seq<Event>, state: State, after: Transaction) {
    match command
    case Mail(from, params) =>
      if s.turn.Calling? then
        && course == MailCourse(command, state) && (state.WantMail? || state.WantRcpt?)
        && after == if state.WantRcpt? then Transaction(from, params, [], []) else NO_TRANSACTION
      else Only(s, t, command, course, state, after)
    case Rcpt(to, params) =>
      if s.turn.Calling? then
        && course == [Called(RcptCall(to, params))] + [Answered(command, 250)] && state.WantData?
        && after == WithRecipientOf(t, command)
      else Only(s, t, command, course, state, after)
    case Data =>
      if s.turn == Due(command, 354) then state.WantMail? else Only(s, t, command, course, state, after)
    case StartTls =>
      if s.turn == Due(command, 220) then
        course == [Answered(command, 220)] + [TlsUp] && state.WantAuth? && after == t
      else Only(s, t, command, course, state, after)
    case Auth(_, _) =>
      if s.state.WantAuth? then after == t && exists heard :: AuthCourse(config, command, heard, course, state)
      else Only(s, t, command, course, state, after)
    case Rset =>
      && course == [Answered(command, 250)] && after == NO_TRANSACTION
      && state == if s.state.Rank() > 3 then WantMail else s.state
    case Ehlo(_) => course == [Answered(command, 250)] && Restarted(s, t, state, after)
    case Helo(_) => course == [Answered(command, 250)] && Restarted(s, t, state, after)
    case _ => Only(s, t, command, course, state, after)
  }

  /** The reply that was due, and nothing else. */
  predicate Only(s: Summary, t: Transaction, command: Command, course: seq<Event>, state: State, after: Transaction) {
    s.turn.Due? && course == [Answered(command, s.turn.code)] && state == s.state && after == t
  }

  function EndOf(flow: Flow): End {
    match flow
    case QuitFlow => AtQuit
    case TlsFailed => AtTlsFailure
    case Close => AtClose
    case _ => AtError
  }

  // ----- the record of a message

  /**
   What happens between the 354 and the end of a message: a refusal without asking the handler, or
   a call of the handler, a body it began or not, how that ended, and what the client was told.
   */
  datatype Trace =
    | Unasked(said: seq<Event>)
    | Handled(call: Call, begun: Option<Start>, closing: Event, said: seq<Event>)
  {
    function Events(): seq<Event> {
      match this
      case Unasked(said) => said
      case Handled(call, begun, closing, said) => [Called(call)] + BeginEvents(begun) + [closing] + said
    }
  }

  function BeginEvents(begun: Option<Start>): seq<Event> {
    match begun case Some(start) => [Began(start)] case None => []
  }

  lemma AssocEvents(log: seq<Event>, call: Call, begun: Option<Start>, closing: Event, said: seq<Event>)
    ensures log + [Called(call)] + BeginEvents(begun) + [closing] + said == log + Handled(call, begun, closing, said).Events()
  {
    AssocFour(log, [Called(call)], BeginEvents(begun), [closing]);
    Assoc(log, [Called(call)] + BeginEvents(begun) + [closing], said);
  }

  /** The bytes of the message in front of `rest`. */
  function MessageIn(all: Octets, rest: Octets): Octets {
    if |rest| <= |all| then all[..|all| - |rest|] else []
  }

  /** The events of a message from the 354 to where it is behind the session. */
  function MessageCourse(trace: Trace, all: Octets, rest: Octets): seq<Event> {
    [Answered(Command.Data, 354)] + trace.Events() + [Passed(MessageIn(all, rest))]
  }

  lemma CourseEnds(before: seq<Event>, trace: Trace, all: Octets, rest: Octets)
    ensures before + [Answered(Command.Data, 354)] + trace.Events() + [Passed(MessageIn(all, rest))] ==
            before + MessageCourse(trace, all, rest)
  {
    AssocFour(before, [Answered(Command.Data, 354)], trace.Events(), [Passed(MessageIn(all, rest))]);
  }

  /** The last word of this course is a yes to DATA. */
  predicate Accepts(course: seq<Event>) {
    |course| >= 2 && course[|course| - 2] == Answered(Command.Data, 250)
  }

  lemma AcceptedCourse(trace: Trace, all: Octets, rest: Octets)
    ensures trace.Handled? && trace.said == [Answered(Command.Data, 250)] ==> Accepts(MessageCourse(trace, all, rest))
  {
  }

  ghost predicate IsMessageCourse(course: seq<Event>, envelope: Envelope, known: Option<Credentials>, all: Octets, rest: Octets) {
    exists trace :: TraceOk(trace, envelope, known, all, rest) && course == MessageCourse(trace, all, rest)
  }

  lemma MessageCut(all: Octets, rest: Octets) returns (bytes: Octets)
    requires AfterMessage(all, true) == Some(rest)
    ensures bytes == MessageIn(all, rest) && all == bytes + rest && AfterMessage(bytes, true) == Some([])
  {
    bytes := MessageIn(all, rest);
    AfterCuts(all, true);
  }

  predicate SameStanding(s: Summary, t: Summary) {
    t.tls == s.tls && t.creds == s.creds && t.taken == s.taken
  }

  /** Behind a message: nothing changed but what the message itself accounts for. */
  predicate EndedWell(flow: Flow, s: Summary, t: Summary, state: State) {
    && flow in {Continue, Close, Broken} && SameStanding(s, t)
    && (flow.Continue? ==> t.turn.Leaving? && t.envelope.None? && state == t.state == WantMail)
  }

  /**
   How a body that began has ended and what the client was told: a delivery has exactly these bytes
   around it; and the word on it was tried, 250 for a delivery, the upstream's own otherwise.
   */
  ghost predicate Closes(closing: Event, said: seq<Event>, all: Octets, rest: Octets) {
    match closing
    case Delivered(d) => d.before == all && d.after == rest && Attempted(said, 250)
    case Unaccepted(left) => left.verdict.Some? && Spoken(said, WordOf(left.verdict))
    case Abandoned(left) => Spoken(said, WordOf(left.early))
    case _ => false
  }

  ghost predicate TraceOk(trace: Trace, envelope: Envelope, known: Option<Credentials>, all: Octets, rest: Octets) {
    match trace
    case Unasked(said) => said == [] || Attempted(said, 552)
    case Handled(call, begun, closing, said) =>
      && call.BodyCall? && call.envelope == envelope && call.known == known && (begun.None? <==> call.declined.Some?)
      && if begun.None? then closing.Abandoned? && (said == [] || Attempted(said, call.declined.value))
         else Closes(closing, said, all, rest)
  }

  /** What the whole stream says when the headers end here. */
  function HeadersAre(block: Octets, bodyFollows: bool, rest: Octets): HeaderVerdict {
    if bodyFollows then Block(block, rest) else HeadersOnly(block, rest)
  }

  /** The upstream has been sent the lines, has taken them, and has been written nothing that it has answered. */
  ghost predicate Primed(up: UpstreamSession, start: Start)
    reads up
  {
    && up.commands == start.lines && up.replies == start.replies && up.verdict.None?
    && Scan(LineStart, start.head) == LineStart
  }

  /** And it has been written the header block, and nothing else. */
  ghost predicate Holds(up: UpstreamSession, start: Start)
    reads up
  {
    && Primed(up, start) && up.early.None? && up.sent == start.head
    && EndsWith(up.sent, LF) && up.lastWritten == Some(LF)
  }

  /** What a piece of body says: the message is over, or these bytes moved from the stream to the framer. */
  ghost predicate PieceMeans(piece: BodyPiece, framer: BodyFramer, fed0: Octets, emitted0: Octets, at0: bool,
                             unread0: Octets, unread: Octets)
    reads framer
  {
    match piece
    case Terminated =>
      && framer.fed == fed0 && framer.emitted == emitted0 && at0 && AtLineStart(fed0)
      && framer.emitted + framer.out == Normalize(framer.fed)
      && AfterMessage(unread0, true) == Some(unread)
      && (unread0 == [DOT, CR, LF] + unread || unread0 == [DOT, LF] + unread)
    case Pending =>
      Advanced(fed0, at0, unread0, framer.fed, framer.atLineStart, unread) && framer.emitted == emitted0
    case Chunk(bytes) =>
      Advanced(fed0, at0, unread0, framer.fed, framer.atLineStart, unread) && framer.emitted == emitted0 + bytes
  }

  /** From `fed0` and `unread0` to `fed` and `unread`: bytes moved, and the message ends where it did. */
  ghost predicate Advanced(fed0: Octets, at0: bool, unread0: Octets, fed: Octets, at: bool, unread: Octets) {
    && Scan(LineStart, fed) == PositionAt(at)
    && fed0 + unread0 == fed + unread && |unread| < |unread0|
    && AfterMessage(unread, at) == AfterMessage(unread0, at0)
  }

  lemma AdvanceLine(fed: Octets, at: bool, line: Octets, rest: Octets)
    requires Scan(LineStart, fed) == PositionAt(at)
    requires IsLine(line) && !(at && IsTerminator(line))
    ensures Advanced(fed, at, line + rest, fed + line, true, rest)
  {
    AfterLine(line, rest, at);
    ScanLine(PositionAt(at), line);
    ScanConcat(LineStart, fed, line);
    Assoc(fed, line, rest);
  }

  /** The cross-class step: only a partial longer than two bytes keeps framer and stream together. */
  lemma AdvancePartial(fed: Octets, at: bool, part: Octets, rest: Octets)
    requires Scan(LineStart, fed) == PositionAt(at)
    requires Free(part, LF) && |part| > 2
    ensures Advanced(fed, at, part + rest, fed + part, false, rest)
  {
    AfterPartial(part, rest, at);
    ScanRun(PositionAt(at), part);
    ScanConcat(LineStart, fed, part);
    Assoc(fed, part, rest);
  }

  lemma EmittedIsPrefix(head: Octets, framer: BodyFramer, sent: Octets)
    requires framer.Exact() && sent <= head + framer.emitted
    ensures sent <= head + Normalize(framer.fed)
  {
    var st := framer.View();
    Assoc(framer.emitted, framer.out, st.Held());
    Assoc(head, framer.emitted, framer.out + st.Held());
  }

  lemma EndReached(all: Octets, body: Octets, tail: Octets, rest: Octets)
    requires body + tail == all && AfterMessage(tail, true) == AfterMessage(all, true) == Some(rest)
    requires tail == [DOT, CR, LF] + rest || tail == [DOT, LF] + rest
    ensures EndsMessage(all, body, rest)
  {
    Assoc(body, [DOT, CR, LF], rest);
    Assoc(body, [DOT, LF], rest);
  }

  /**
   What the end of the body phase says: `body` was read behind `head` and holds no terminator;
   what went out is a prefix of its normal form; and where the message ends is still known.
   */
  ghost predicate BodyMeans(r: BodyEnd, body: Octets, head: Octets, sent: Octets, early: Option<Reading>, all: Octets, unread: Octets) {
    && Scan(LineStart, body) != Ended && sent <= head + Normalize(body)
    && match r
       case BodyWhole => early.None? && AtLineStart(body) && EndsMessage(all, body, unread) && sent == head + Normalize(body)
       case AtTheEnd(verdict) => EndsMessage(all, body, unread) && early.Some? && verdict == VerdictOf(early.value)
       case MidBody(verdict, at) =>
         AfterMessage(all, true) == AfterMessage(unread, at) && early.Some? && verdict == VerdictOf(early.value)
       case BodyGone => early.None? && AfterMessage(all, true).None?
       case BodyBroken => early.None?
  }

  predicate EndsMessage(all: Octets, body: Octets, rest: Octets) {
    && (all == body + [DOT, CR, LF] + rest || all == body + [DOT, LF] + rest)
    && AfterMessage(all, true) == Some(rest)
  }

  /**
   What the end of the header phase says about the bytes it began with: `v` is what the whole
   stream says, `end` what lies behind the message, `unread` what is left.
   */
  ghost predicate HeadersMean(h: HeaderPhase, v: HeaderVerdict, end: Option<Octets>, unread: Octets) {
    match h
    case Headers(block, true) => v == Block(block, unread)
    case Headers(block, false) => v == HeadersOnly(block, unread)
    case Oversized(at) =>
      end == AfterMessage(unread, at) && v == if at || !Free(unread, LF) then OverCap else Unfinished
    case HeadersGone => v == Unfinished
    case HeadersBroken => true
  }
}
