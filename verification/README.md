# Verified model of the SMTP submission proxy

The proxy stands between mail clients and an upstream SMTP server. A client logs in, hands over
an envelope and a message; the proxy asks an HTTP API about it, merges the API's headers into the
client's, and streams the message on while it is still arriving. It re-frames bytes on both
sides, over socket reads whose boundaries nobody controls. This project models that logic in
Dafny and proves what it promises, over every input, every cut of the input into reads, and every
answer of the API and the upstream.

## How it is organised

- `Bytes`, `Utf8`: byte strings, lines, searching, UTF-8 validity and white space.
- `Framing`: where a message ends. The reference is positional (`DotLineAt`, `NoDotLine`,
  `IsMessageEnd`); a byte automaton (`Scan`) and the line reader's view (`AfterMessage`) are proved
  equal to it.
- `Breaks`: line-break normalisation, dot-stuffing, and `Receive`, a receiver as section 4.5.2 of
  RFC 5321 describes it.
- `Data`: `HeaderCollector` and `BodyFramer`, with `Collect`, which reads the header verdict off the
  whole byte stream.
- `HeaderFields`, `HeaderRoundTrip`, `WirePath`, `HeaderLines`: header parser, merge, relayability,
  printer, what the far end reads, and what the parser makes of any block.
- `Params`, `Dsn`, `Commands`, `CommandLines`, `Replies`, `Extensions`: the SMTP grammar in both directions.
- `Auth`: tokens and the credentials in them.
- `Relay`, `Proxy`: the upstream conversation and the application behind the server.
- `Protocol`: the machine. Its events are what can be observed of a session: lines taken, replies tried,
  calls of the handler, bodies and how they ended. `Next` says which may come next, whose turn it is then,
  and which reply is due.
- `History`: the theorems about every run of that machine.
- `Session`: the session itself, whose every method keeps the log a run of the machine.
- `RateLimit`, `Listener`: the token-bucket limiter and the connection permits.

## How the main results fit together

1. `Sessions.Session.ReadMessage` says that a DATA command after which the session goes on has
   consumed exactly the bytes `AfterMessage` takes off the stream, whichever of its ways out it took.
   `Framing.AfterMessageIsExact` says that those bytes end at the first lone-dot line and only there.
   Both speak of the client's bytes as one string, so they hold for every cut into reads.
2. `Sessions.Session.Dispatch` says what every command in every state is owed and gets. A reply goes on
   record when it is tried, with whether it got out, so a body that says nothing has no run to be in; and a
   session that stops must name its reason.
3. `Sessions.Session.Serve` says that the log of a whole session is a run of the machine and leaves nothing
   out: its calls are the calls the handler had, its transcripts what every upstream was sent, replied and
   was written, its bytes the stream. The lemmas of `History` then hold of every session: every line is
   served before the next is taken, gates, one successful AUTH, the envelope of a message and that no two
   share one, what a 250 to DATA means, and that an abandoned message holds no terminator.
4. `Sessions.Session.ReadMessage` ties a message in the log to the client's bytes, and
   `History.AcceptedMeansDelivered` joins the two ends: behind every 250 there is a message in those bytes;
   the upstream was sent its envelope and took every part of it, was written the whole message, and said
   yes; and a standard receiver of what was written gets exactly one message, whose body is the client's
   unstuffed body with CRLF breaks and whose fields are the client's kept fields followed by the API's.
   What those fields are for any block of bytes is said by `HeaderLines`.
5. `Sessions.Session.ReadMessage` and `Sessions.Session.Dispatch` also say what must happen: a whole message
   that nothing stands in the way of is delivered and answered 250.
6. `RateLimit` bounds the grants of every bucket from both sides, over every run of calls.

Some statements one would expect are not true of the code as they stand. The framer's output depends on
how its input is cut in exactly one case, an empty piece while a CR is held (`Data.AbsorbInPieces`); it may
forge a terminator exactly when a partial line at a line start is `.` or `.` CR
(`Data.PartialForgesExactly`), which is why the session passes on only partials longer than its buffer
bound; a printed header value reads back exactly when it is canonical (`HeaderRoundTrip.HeaderReadBack`).

The environment is fixed in advance and otherwise arbitrary: `ClientSide` says which replies get out, where a
read fails, when a drain begins and whether a TLS handshake succeeds; `World` what the limiter and the API
answer and whether the upstream is reached; `FarSide` the upstream's reply to each command, which pieces get
out and what is read when one does not; the bytes of the client are given as the chunks the socket hands out.
The contracts hold for all of them, and say how each answer is used, so no failure can be made up. Base64
decoding is a parameter.

## Model

| member | source | states |
|---|---|---|
| `Sessions.Session.ReadMessage` | src/server/session.rs:693-872 | If the session goes on after DATA, it has consumed exactly the bytes up to and including the first lone-dot line, is back at WantMail, and has recorded exactly the 354, the course of the message, one last word that got out, and those bytes. The handler was not asked exactly when the header block is over the cap, and then the word tried is 552; otherwise it was asked with the session's own envelope and credentials. On every way out, behind a delivery exactly one reply was tried, 250; behind a reply that was no yes, exactly that refusal; behind a lost upstream none. If the session stops, a reply failed, the upstream was lost, a read failed or the client left. And when the bytes to come hold a whole message with a header block within the cap, the API allows it, headers and addresses can be relayed, the upstream is reached and takes every command, every piece and the message, no read fails and every reply gets out, the message is delivered and answered 250 |
| `Sessions.Session.ReadToEnd` | src/server/session.rs:696-872 | The same from the 354 on, and the bytes of the message on record as read |
| `Sessions.Session.ReceiveMessage` | src/server/session.rs:696-872 | The same for everything behind the 354, on every way out, a lost client included; nothing else the machine remembers changes; such a message is delivered unless a read fails |
| `Sessions.Session.NextLine` | src/server/session.rs:305-337 | Whatever the read boundaries, a line is exactly the next line of the stream and nothing else is consumed; too long means a buffer over the bound without an LF; end of file means no LF is left; the buffer never outgrows the bound by more than one read; a failed read is reported exactly where a read fails |
| `Sessions.Session.DiscardToTerminator` | src/server/session.rs:920-944 | Goes on exactly behind the terminator, from inside or at the start of a line, and reports a client that left only when there was no terminator to reach |
| `Sessions.Session.ReadHeaders` | src/server/session.rs:701-768 | Verdict and block of the header phase are those `Collect` reads off the bytes, for every cut into reads; an oversized block leaves the session knowing whether it stands in a line |
| `Sessions.Session.ReadHeaderLine` | src/server/session.rs:717-767 | One line of that, with the cap plus the slack as the line bound: the stream's verdict and the end of the message stay what they were |
| `Sessions.Session.ReadPiece` | src/server/session.rs:812-840 | One read of the body moves bytes from the stream to the framer, keeps the end of the message, and keeps the framer's line position equal to the position in the client's bytes |
| `Sessions.Session.FeedPartial` | src/server/session.rs:819-832 | A partial line free of LF and longer than two bytes keeps framer, stream and message end together |
| `Sessions.Session.FeedLine` | src/server/session.rs:813-818 | A complete line ends the message exactly when it is a terminator at a line start |
| `Sessions.AdvancePartial` | src/server/session.rs:819-832 | A partial line longer than two bytes and free of LF keeps framer and stream in the same place; the cross-class condition the body loop rests on |
| `Sessions.AdvanceLine` | src/server/session.rs:813-818 | A line that is no terminator does so too |
| `Sessions.Session.PumpPiece` | src/server/session.rs:804-856 | After each piece the upstream holds the header block and all the framer gave out, or the phase has ended in one of its ways |
| `Sessions.Session.WriteChunk` | src/server/session.rs:849-853 | A chunk is written whole, or the verdict is mirrored from the framer's line position and what went out is a prefix |
| `Sessions.Session.PumpPieces` | src/server/session.rs:804-856 | The body loop runs to one of its ends with that account intact |
| `Sessions.Session.PumpBody` | src/server/session.rs:790-869 | What has gone out is always a prefix of the header block and the normal form of the body read; all of it once the terminator is in, ending in LF |
| `Sessions.Session.FlushBody` | src/server/session.rs:857-869 | What is staged below a chunk goes out too, so the whole normal form has; a refusal there is one behind the terminator |
| `Sessions.Session.RelayBody` | src/server/session.rs:790-872 | However the body ends, exactly one closing event is recorded, it holds what the upstream was sent, was written and replied, and it goes with the right last word; the session that goes on goes on behind the message; not delivered only if the upstream stalls or refuses, a read fails, or the client's bytes hold no terminator |
| `Sessions.Session.EndBody` | src/server/session.rs:833-872 | The end of the body phase: finished when the terminator was read, abandoned otherwise, with the same account |
| `Sessions.Session.AbandonBody` | src/server/session.rs:833-869 | What is recorded of a message that will not be finished is exactly what its upstream has, and that holds no lone-dot line |
| `Sessions.Session.UnfinishedEndsNothing` | src/server/session.rs:833-853 | Whatever prefix went out of a header block and a body without a terminator holds no lone-dot line |
| `Sessions.Session.CloseBody` | src/proxy.rs:586-600 | A closing event can be recorded only with exactly what the upstream of the latest body was left with |
| `Sessions.Session.BodyRefused` | src/server/session.rs:833-869 | A body that was not relayed to its end: mirrored and drained, concluded at once, or the session is over for a reason; the only thing tried is the refusal the upstream gave |
| `Sessions.Session.FinishMessage` | src/server/session.rs:870-872 | `finish` is called only for bytes that are the header block and the normal form of the body of a message whose terminator was consumed. The message is delivered exactly when the terminator went out and a 2xx was read behind it; the delivery has exactly these bytes of the client and of the upstream; the reply tried is 250, the upstream's own refusal, or none when it was lost; not delivered only if the upstream does not take it |
| `Sessions.Session.CloseFinished` | src/server/session.rs:870-872 | Delivered exactly when the upstream said yes to the terminator, not accepted otherwise, on record with its whole transcript |
| `Sessions.Session.FinishHeadersOnly` | src/server/session.rs:787-789 | A message without a blank line is finished the same way, and delivered with an empty body |
| `Sessions.Session.RelayMessage` | src/server/session.rs:769-789 | The events of a message whose headers are in: the call with exactly the envelope and credentials the session had, what it began, how that closed, and what was said; a message that nothing stands in the way of is delivered unless a read fails |
| `Sessions.Session.AskHandler` | src/server/session.rs:769-770 | The call is on record with what the handler was told and knew; a body it began is on record with the lines and the header block the upstream holds; a message that nothing stands in the way of gets a sink |
| `Sessions.Session.UseAnswer` | src/server/session.rs:769-789 | A refusal is spoken behind the message, a sink takes the rest of it; one closing event either way |
| `Sessions.Session.FillSink` | src/server/session.rs:787-872 | With or without a body, one closing event with the upstream's transcript, and the session that goes on stands behind the message the headers began |
| `Sessions.Session.RejectMessage` | src/server/session.rs:771-786 | A handler's refusal is tried, with its own code and no other, behind the terminator; what the message left upstream is on record exactly and holds no lone-dot line |
| `Sessions.Session.ReadAway` | src/server/session.rs:771-783 | What is still to come of a refused message is read to exactly its end |
| `Sessions.Session.RefuseLargeHeaders` | src/server/session.rs:880-904 | The 552 and no other code is tried, behind the terminator, and the transaction is cleared; nothing is tried only when the terminator was not reached |
| `Sessions.Session.Mirror` | src/server/session.rs:953-977 | A verdict mid-body is answered at once with its own code, then exactly the rest of the message is drained and the transaction cleared; a lost upstream is answered nothing |
| `Sessions.Session.MirrorRefusal` | src/server/session.rs:959-977 | The answered half of that |
| `Sessions.Session.Conclude` | src/server/session.rs:982-1013 | Exactly one reply is tried, 250 for an accepted outcome and the verdict's code for a refusal, and none for a lost upstream; the session goes on exactly when that reply got out, from WantMail |
| `Sessions.Session.RefuseData` | src/server/session.rs:1018-1031 | Exactly one reply is tried, with that code, which is a refusal; the session goes on exactly when it got out, and a client that has left is no error |
| `Sessions.Session.Send` | src/server/session.rs:347-354 | Every reply that is tried goes on record, whether it got out or not, and it gets out exactly when the connection takes it; only the reply the machine has due can be tried, and one that did not get out ends the run |
| `Sessions.Session.Tell` | src/server/session.rs:182-220 | The same for the greeting, a malformed line, an endless line and a drain, which answer no command |
| `Sessions.Session.Speak` | src/server/session.rs:347-354 | A reply that answers a command and leaves the session where the machine is, or ends it |
| `Sessions.Session.StartTransaction` | src/server/session.rs:356-359 | Counter and handler's list are emptied together |
| `Sessions.Session.Greeting` | src/server/session.rs:419-453 | EHLO and HELO never take the session back below WantMail once there, clear the transaction only from there on, are answered 250, and offer the lines the record of the upstream calls for |
| `Sessions.Session.Reset` | src/server/session.rs:389-397 | RSET clears the transaction, keeps the credentials, and moves the state only down to WantMail |
| `Sessions.Session.BadSequence` | src/server/session.rs:409-413 | 503 and nothing else |
| `Sessions.Session.MailState` | src/server/session.rs:614-637 | For every command in WantMail, exactly the events it is owed: 503, 501 with the transaction untouched; otherwise the call of the handler, then 250 with exactly the new envelope and WantRcpt, or 450 with an empty one |
| `Sessions.Session.NewSender` | src/server/session.rs:624-636 | The second half of that, from the cleared transaction on |
| `Sessions.Session.AskSender` | src/server/session.rs:624-630 | The call on record is the one the handler had, with its answer; what is due is then 250 or 450 |
| `Sessions.Session.AcceptSender` | src/server/session.rs:631-636 | The state moves to WantRcpt only when the 250 got out |
| `Sessions.Session.RcptState` | src/server/session.rs:639-674 | For every command in WantRcpt and every one but DATA in WantData, exactly the events it is owed: 503, 501 and 452 with transaction and state untouched; otherwise the call, 250, the recipient appended, WantData |
| `Sessions.Session.AddRecipient` | src/server/session.rs:660-673 | Counter, handler's list, limit and the machine's envelope grow together, with the call and its 250 on record |
| `Sessions.Session.AcceptRecipient` | src/server/session.rs:670-673 | The state moves to WantData only when the 250 got out |
| `Sessions.Session.DataState` | src/server/session.rs:676-682 | DATA reads exactly a message, with the course of that message on record and nothing else, and ends at WantMail; RCPT and everything else as in WantRcpt |
| `Sessions.Session.AuthContinuation` | src/server/session.rs:560-587 | One 334, then exactly one line of the stream, on record; it is a token, or was answered 500; no line at all ends the session |
| `Sessions.Session.AuthToken` | src/server/session.rs:572-586 | The token is the line without its break; an empty one or one with a break inside is none, and is answered 500 |
| `Sessions.Session.ReadTokens` | src/server/session.rs:503-532 | The tokens are the initial response of PLAIN, if there is one, and one line for each 334 in turn, as many as the mechanism takes; or the exchange ends at the first line that is none |
| `Sessions.Session.AuthCommand` | src/server/session.rs:499-540 | The whole exchange on record: 504 for any other mechanism; else each 334 with the line that answered it, in order, then 500 for a confused line, 535 for tokens without credentials, or the call with exactly the credentials in the tokens and 235; past WantAuth exactly in the last case |
| `Sessions.Session.FinishAuth` | src/server/session.rs:589-612 | The session is past WantAuth exactly when the tokens hold credentials, and then the handler has exactly those, with the call and 235 on record; otherwise it was answered 535 and may try again |
| `Auth.MechanismsMean` | src/server/auth.rs:61-67 | LOGIN takes a username and a password, neither with the command, and gives exactly the two decoded, or nothing when either does not decode or the username is over 256 bytes; PLAIN takes one token, which may come with the command |
| `Auth.PlainMeans` | src/server/auth.rs:48-59 | A decoded PLAIN token is three parts between NULs or more: the second is the username, the third the password, and more is ignored; a username over 256 bytes is refused |
| `Auth.PlainNeedsTwo` | src/server/auth.rs:48-59 | With fewer than two NULs, or when it does not decode, there are no credentials |
| `Auth.TokenOf` | src/server/session.rs:572-586 | A token is a line without its break exactly when that is not empty and holds no other break |
| `Auth.StripMeans` | src/server/session.rs:573-577 | The break of a line is its CRLF, or its LF |
| `Sessions.Session.AuthState` | src/server/session.rs:498-553 | AUTH as above; anything else is 530 when AUTH is required, else exactly what it is owed in WantMail |
| `Sessions.Session.StartTlsState` | src/server/session.rs:455-496 | STARTTLS with a certificate is 220, the upgrade and WantAuth; anything else is 530 when TLS is required, else exactly what it is owed in WantAuth |
| `Sessions.Session.StartTls` | src/server/session.rs:457-484 | 220, then the upgrade on record; the session goes on with the first byte inside TLS |
| `Sessions.Session.StayInTheClear` | src/server/session.rs:485-496 | 530, or the command taken as in WantAuth |
| `Sessions.Session.UpgradeToTls` | src/server/session.rs:459-484 | What was buffered in the clear is gone: the unread bytes are exactly those inside TLS; the upgrade fails exactly when the handshake does |
| `Sessions.Session.DispatchByState` | src/server/session.rs:398-405 | For every state and every command that has no answer of its own there, the session that goes on has recorded exactly the events the command is owed, with the state and the transaction that go with them; a DATA in WantData has consumed exactly a message and recorded its course |
| `Sessions.Session.TransactionState` | src/server/session.rs:402-404 | The same past authentication |
| `Sessions.Session.GateState` | src/server/session.rs:400-401 | The same in front of the two gates |
| `Sessions.Session.AnswerStateless` | src/server/session.rs:361-382 | 221, 250 or 553, nothing else recorded, and only QUIT ends the session |
| `Sessions.Session.Dispatch` | src/server/session.rs:361-407 | For every command in every state, what it is owed and nothing else: the reply of the table; the call of the handler and the reply to that, with the new transaction; the exchange of AUTH; 220 and the upgrade; or the course of a message, exactly whose bytes were consumed. The session stops only at QUIT or for a reason. A DATA with nothing in the way of its message is answered 250 at its end |
| `Sessions.Session.DispatchAnyTime` | src/server/session.rs:361-397 | QUIT 221, NOOP 250, VRFY 553, a greeting and RSET 250 in every state, with state and transaction as each leaves them |
| `Sessions.Session.NextCommandLine` | src/server/session.rs:239-251 | A command line is the next line of the stream, goes on record, and makes it the turn of the command in it; a drain tries 421 and nothing else, an endless line 500 and nothing else, an end nothing; a drain comes first exactly when there is one |
| `Sessions.Session.ReadCommand` | src/server/session.rs:182-208 | The same where no drain came first |
| `Sessions.Session.ServeCommand` | src/server/session.rs:209-229 | A malformed line is answered with its own code and the session goes on; a command gets what it is owed |
| `Sessions.Session.ServeLine` | src/server/session.rs:182-230 | One line is taken and served, from the stream the session is on, so none sent in the clear is dispatched inside TLS; or the session ends for a reason that fits its end |
| `Sessions.Session.Serve` | src/server/session.rs:182-230 | The log of a whole session is a run of the machine, whatever the client, the API and the upstream do, and leaves nothing out: its calls are all the calls the handler had, in order; its transcripts are what every body left upstream; its bytes and the unread ones are the stream, in order. The session ends only at QUIT, at the client's end, at a drain, at an endless line, at a lost upstream or client, at a failed TLS handshake, or at a failed read or reply |
| `History.RunIsSound` | src/server/session.rs:361-682 | Every state of every run is sound: gates passed in order, an envelope exactly from an accepted MAIL to its body, within the recipient limit, and whose turn it is fits the state |
| `History.LinesAreServed` | src/server/session.rs:182-230 | Behind every line taken, and before the next one can be, stands a reply that got out to exactly its command, or its own code when it is malformed; unless the session is over |
| `History.RepliesAreDue` | src/server/session.rs:347-354 | Every reply that is tried, got out or not, is the one due to that command with that code, in 200..=599; the last word tried on a message is 250 exactly behind a delivery and a refusal in 400..=599 otherwise |
| `History.OneAuth` | src/server/session.rs:498-612 | At most one AUTH reaches the handler per session |
| `History.CredsKept` | src/server/session.rs:356-359 | Credentials, once taken, stay the same through every later event, RSET and EHLO included |
| `History.GatesHold` | src/server/session.rs:455-553 | With TLS required no call of the handler comes before the upgrade; with AUTH required no mail, rcpt or body call before a successful AUTH; by `Serve` these are all the calls there were |
| `History.TlsWasUp` | src/server/session.rs:455-496 | TLS is active only behind an upgrade |
| `History.AuthWasCalled` | src/server/session.rs:589-612 | There are credentials only behind the call that gave exactly those |
| `History.PhasesRise` | src/server/session.rs:89-103 | How far the session has come, a transaction not counted, never decreases over a run |
| `History.EnvelopeIsLatest` | src/server/session.rs:614-674 | While nothing ends it, the envelope is the sender of the latest MAIL answered 250 with the RCPTs answered 250 since, in order and with repeats |
| `History.MailWasAccepted` | src/server/session.rs:614-637 | There is an envelope only behind an accepted MAIL with no reset, greeting, body or last word on a message in between |
| `History.BodyUsesEnvelope` | src/server/session.rs:769-770 | Every body is asked for with exactly the sender of one accepted MAIL and the recipients accepted since, at least one, no more than the limit, none from before a reset, a greeting or another message, and with the credentials of the session's own AUTH |
| `History.EnvelopeUsedOnce` | src/server/session.rs:614-682 | No two messages share an envelope: the MAIL of the later one was accepted behind the body of the earlier one |
| `History.BodiesAreClosed` | src/server/session.rs:769-871 | Every body the handler was asked for is closed by the next event, or by the one behind its beginning |
| `History.AllCounted` | src/server/session.rs:589-871 | The calls, the transcripts and the bytes the machine has counted are exactly those among the events, in order |
| `History.AcceptedMeansDelivered` | src/relay.rs:940-970 | A 250 to DATA stands behind a delivery, that behind a body begun, and that behind a call with exactly the client's latest envelope. The upstream reads from the lines it was sent that envelope, the sender the API's if it gave one, and nothing else; it took the MAIL and every RCPT with a 2xx and DATA with a 3xx; it was written one whole message, from which a receiver gets the client's body and the merged fields with nothing left over; and it said yes to that |
| `History.AbandonedHoldsNoTerminator` | src/server/session.rs:769-871 | No prefix of what an unfinished message left upstream contains a lone-dot line |
| `Framing.AfterMessageIsExact` | src/server/data.rs:46-49 | The message ends exactly where the positional reference puts its first lone-dot line, and not at all exactly when there is none |
| `Framing.AfterMeansScan` | src/server/session.rs:920-944 | The line reader and the byte automaton end a message at the same byte |
| `Framing.ScanMeans` | src/server/data.rs:40-49 | The byte automaton is in its end state exactly when the bytes contain a lone-dot line, and otherwise its state is the position in the line |
| `Framing.AfterLine` | src/server/session.rs:927-934 | Taking a line off the stream moves the end of the message with it |
| `Framing.AfterPartial` | src/server/session.rs:935-938 | Dropping more than two LF-free bytes keeps it, seen from inside a line |
| `Framing.AfterCuts` | src/server/session.rs:920-944 | The bytes of a message are a message by themselves, with nothing behind it |
| `Framing.NoDotLinePrefix` | src/server/session.rs:833-853 | A prefix of bytes without a lone-dot line has none either |
| `Breaks.NormalizeBreaks` | src/proxy.rs:407-427 | The loop computes the normal form: every break becomes CRLF, a lone CR is data |
| `Breaks.NormalizeIdempotent` | src/proxy.rs:407-427 | Normalising twice is normalising once |
| `Breaks.NormalizePairs` | src/proxy.rs:407-427 | Every LF of a normal form has its CR |
| `Breaks.NormalizeConcat` | src/server/data.rs:211-243 | Normalising distributes over every cut that does not part a CR from its LF |
| `Breaks.NormalizeKeepsDotLines` | src/server/data.rs:178-193 | Normalising neither makes nor hides a lone-dot line |
| `Breaks.DotStuffBlock` | src/proxy.rs:434-445 | The loop computes the stuffed form |
| `Breaks.StuffNormalizeCommute` | src/proxy.rs:383-445 | Stuffing and normalising commute on every byte string |
| `Breaks.UnstuffUndoesStuff` | src/proxy.rs:434-445 | Unstuffing undoes stuffing |
| `Breaks.UnstuffNormalizeCommute` | src/server/data.rs:178-243 | Unstuffing and normalising commute, so a body relayed stuffed is received as the client's own |
| `Breaks.StuffedHasNoDotLine` | src/proxy.rs:434-445 | No stuffed text ends a message |
| `Breaks.ReceiveReadsMessage` | src/relay.rs:940-954 | A receiver of paired text without a lone-dot line, then the terminator, recovers exactly the unstuffed text and leaves exactly what follows |
| `Data.HeaderCollector.PushLine` | src/server/data.rs:73-95 | The event and the new block for every line in every state of the collector |
| `Data.HeaderCollector.RemainingCapacity` | src/server/data.rs:101-107 | What is left of the cap while collecting, nothing once discarding |
| `Data.HeaderCollector.MarkTooLarge` | src/server/data.rs:112-115 | The block is dropped for good |
| `Data.HeaderCollector.TakePending` | src/server/data.rs:120-126 | The block of a header-only message, handed over once |
| `Data.CollectMeans` | src/server/data.rs:73-95 | A complete block is the header lines with their stuffing off, within the cap, none of them blank or a terminator, followed by exactly the line that ended them |
| `Data.OverlongIsOverCap` | src/server/session.rs:36-41 | The two bytes of slack: an unfinished line over what is left plus two is no half-read terminator or blank line, and crosses the cap however it ends |
| `Data.CollectKeepsEnd` | src/server/session.rs:701-768 | Reading headers does not move the end of the message |
| `Data.BodyFramer.Push` | src/server/data.rs:178-185 | A terminator at a line start is reported with nothing held and everything accounted for; any other line is taken whole; chunks carry whole breaks only |
| `Data.BodyFramer.PushPartial` | src/server/data.rs:189-193 | Bytes without a line ending are taken whole and leave the framer inside a line, fewer than a chunk staged; the account of output against input survives exactly unless there are no bytes and a CR is held |
| `Data.BodyFramer.Flush` | src/server/data.rs:197-199 | All that is staged, whole breaks only; a held CR stays |
| `Data.BodyFramer.Piece` | src/server/data.rs:203-209 | A chunk is all that was staged, at least a chunk's size; otherwise nothing moves |
| `Data.BodyFramer.Append` | src/server/data.rs:211-243 | The index loop stages the normal form of the held CR and the bytes, none included, and holds back a trailing CR |
| `Data.FedLaw` | src/server/data.rs:149-244 | Over any run of calls the output, the staged bytes and the held CR are the normal form of everything fed |
| `Data.AbsorbInPieces` | src/server/data.rs:211-243 | Cutting the input in two changes nothing, if and only if the first piece is not empty, no CR is held, or no LF follows |
| `Data.PartialForgesExactly` | src/server/data.rs:178-193 | A partial at a line start may complete to a terminator the framer does not see exactly when it is a dot, or a dot and a CR |
| `HeaderFields.ParseHeaderBlock` | src/proxy.rs:209-234 | The loop computes the field list, of which the next five rows say what it is for any block, and the rows below its form and round trip |
| `HeaderLines.FieldParses` | src/proxy.rs:209-234 | For every name that is not empty and free of colons, every run of white space, none included, every value that starts with none and ends in no break, folds included, and every line ending: the line parses to exactly that name and value, followed by the fields of whatever text does not continue it |
| `HeaderLines.BlankFieldParses` | src/proxy.rs:209-269 | A value of white space alone is its last byte |
| `HeaderLines.LineYieldsNothing` | src/proxy.rs:222-233 | A line without a colon, with nothing in front of its first or nothing behind it is skipped, and the rest parses as by itself |
| `HeaderLines.NoFieldExactly` | src/proxy.rs:222-233 | A line yields nothing exactly then |
| `HeaderLines.RelayableExactly` | src/proxy.rs:341-358 | A field is relayable exactly when its name is not empty and holds neither white space nor a colon, every CR in its value is followed by an LF, and every LF by a space or a tab |
| `HeaderFields.JoinFolds` | src/proxy.rs:210-221 | The loop joins continuation lines to the line before |
| `HeaderFields.AssertHeaderRelayable` | src/proxy.rs:341-358 | Accepts exactly the relayable lists, and otherwise names the first header that is not |
| `HeaderFields.PrintHeaderBlock` | src/proxy.rs:387-397 | The loop computes the printed block whose round trip is proved below |
| `HeaderRoundTrip.ParsePrinted` | src/proxy.rs:209-397 | Every relayable list printed and parsed gives the same names in order, each with its value as read back |
| `HeaderRoundTrip.HeaderReadBack` | src/proxy.rs:241-269 | A header reads back as itself with its breaks normalised if and only if its value is canonical: not empty, and not starting with white space unless it is one single non-break byte |
| `HeaderRoundTrip.ReadBackExact` | src/proxy.rs:241-269 | The same for a folded value by itself |
| `HeaderRoundTrip.ParsedIsCanonical` | src/proxy.rs:209-234 | Everything the parser produces has that form, with a name that is not empty and holds no colon |
| `HeaderRoundTrip.CanonicalReadBack` | src/proxy.rs:209-397 | A relayable list of such headers reads back as itself with its breaks normalised |
| `HeaderRoundTrip.CollectStuffed` | src/server/data.rs:73-95 | Stuffed text without blank lines, then a blank line, is collected as exactly that text, complete at the blank line and only there |
| `HeaderRoundTrip.PrintedBlockReadBack` | src/proxy.rs:387-397 | A printed block fed to a collector with room is complete at its last line, leaves what follows, and parses to the list as read back |
| `WirePath.MergeIdempotent` | src/proxy.rs:280-295 | Merging the same answer again changes nothing |
| `WirePath.KeptUnnamed` | src/proxy.rs:280-295 | No kept field has a name the API gave, under ASCII case folding |
| `HeaderLines.KeptOne` | src/proxy.rs:280-295 | A client field by itself is kept exactly when no entry of the API has its name, in whatever case |
| `Bytes.FoldedMeans` | src/proxy.rs:280-287 | Two names are the same exactly when they differ at most in the case of ASCII letters |
| `WirePath.KeptConcat` | src/proxy.rs:280-295 | What is kept of two lists is what is kept of the first, then what is kept of the second |
| `HeaderLines.GivenConcat` | src/proxy.rs:280-295 | What the API adds for two lists of entries is what it adds for the first, then what it adds for the second |
| `HeaderLines.GivenOne` | src/proxy.rs:280-295 | One entry of the API adds exactly its field when it has a value, and nothing otherwise |
| `WirePath.MergedReadBack` | src/proxy.rs:280-295 | A relayable merge reads back as the client's kept fields in order, then the API's fields that carry a value in order |
| `WirePath.WireLines` | src/proxy.rs:383-445 | Header block and normalised body hold no lone-dot line, pair every LF, and end in LF when the body does, so `finish` adds no break |
| `WirePath.FarEnd` | src/proxy.rs:383-445 | Through the whole wire path a receiver gets one message with nothing left over, cuts it at the blank line, and parses the kept and the given fields |
| `Replies.Sanitize` | src/smtp/reply.rs:31-52 | The loop computes the sanitised text |
| `Replies.SanitizedIsClean` | src/smtp/reply.rs:31-52 | Sanitised text is printable, within the line limit and has no trailing blank |
| `Replies.SanitizeIdempotent` | src/smtp/reply.rs:31-52 | Sanitising twice is sanitising once |
| `Replies.FoldedRun` | src/smtp/reply.rs:31-43 | Printable text stays, and a run of other bytes, of any length, is one space |
| `Replies.SanitizedMeans` | src/smtp/reply.rs:44-51 | Blanks at the end go; what is then over 506 bytes keeps its first 503 and ends in three dots |
| `Replies.FormatReply` | src/smtp/reply.rs:54-67 | A code outside 200..=599 and an empty list are errors; otherwise the wire form whose shape and round trip are proved below |
| `Replies.WireShape` | src/smtp/reply.rs:54-67 | As many wire lines as texts, each at most 512 octets and ended by the one CRLF in it |
| `Replies.ReadUpstreamReply` | src/relay.rs:489-552 | The loop computes the reading of a reply, its limits and its error cases, and what is left of the stream |
| `Replies.ReadsLine` | src/relay.rs:496-551 | What any whole line does to the reading: it fails for invalid UTF-8, over the total or without three digits; ends with the code and the texts joined for a space behind the code or nothing; and goes on with its text added otherwise |
| `Replies.ReadsNoLine` | src/relay.rs:500-525 | No line at all, and one without an end within its limit, fail the reading |
| `Replies.ReadUndoesFormat` | src/relay.rs:489-552 | Reading what was printed gives the code and the sanitised lines joined by LF, and leaves exactly what followed |
| `Params.ParseParams` | src/smtp/params.rs:25-47 | The loop computes the parameter list, or nothing when any word is malformed |
| `Params.ParseWords` | src/smtp/params.rs:25-47 | Every parameter of an accepted list is well formed, one per word |
| `Params.ParseWordsExactly` | src/smtp/params.rs:25-47 | A list is accepted exactly when each word is, and gives their parameters in order |
| `Params.ParseWordExactly` | src/smtp/params.rs:27-45 | A word is accepted exactly when it is how some well-formed parameter is written |
| `Params.WordsTake` | src/smtp/params.rs:27 | A word is what stands between two runs of white space |
| `Params.WordsSkip` | src/smtp/params.rs:27 | A run of white space of any length is the same as none in front of a word |
| `Params.ParsePrintedParams` | src/smtp/params.rs:25-47 | Well-formed parameters printed and parsed are the same list |
| `Commands.TakeLine` | src/smtp/command.rs:66-71 | There is a line exactly when there is an LF; the line and the rest are the buffer |
| `Commands.ParseCommand` | src/smtp/command.rs:73-142 | A refused line is refused with 500, 501 or 502; accepted parameters are well formed and a recipient is never empty |
| `Commands.ParseAuth` | src/smtp/command.rs:146-164 | A mechanism has 1 to 20 characters, anything else is 501 |
| `Commands.ParsePath` | src/smtp/command.rs:174-210 | Accepted parameters are well formed, and the empty path only where allowed |
| `CommandLines.MalformedExactly` | src/smtp/command.rs:73-91 | A line is answered 500 exactly when it is not letters, at most one argument of UTF-8 without a CR behind one space, and CRLF |
| `CommandLines.ArgumentNeeded` | src/smtp/command.rs:94-136 | EHLO, HELO and VRFY, in any case, with their argument, and 501 without one |
| `CommandLines.ArgumentForbidden` | src/smtp/command.rs:109-120 | QUIT, STARTTLS, DATA and RSET, in any case, and 501 with an argument; NOOP with or without |
| `CommandLines.ArgumentRead` | src/smtp/command.rs:121-133 | AUTH, MAIL and RCPT, in any case, read their own argument, and 501 when they cannot |
| `CommandLines.UnknownExactly` | src/smtp/command.rs:140 | 502 exactly for every other word |
| `CommandLines.VerbsSpelled` | src/smtp/command.rs:93-140 | The byte strings the parser compares with are those words |
| `CommandLines.AuthReads` | src/smtp/command.rs:146-164 | For every text without a space and whatever follows the first one: exactly the mechanisms of 1 to 20 letters, digits, hyphens and underscores, in upper case, and an initial response unless it is empty |
| `CommandLines.PathReads` | src/smtp/command.rs:174-210 | For every keyword in any case, run of white space, address without `>` and tail: the address and the parameters in the tail, unless the address is empty and must not be, or the tail is neither nothing nor a space and well-formed parameters |
| `CommandLines.PathExactly` | src/smtp/command.rs:174-210 | A path is taken exactly when it has that shape |
| `Commands.ParsePrintedMail` | src/smtp/command.rs:73-210 | A MAIL line printed from a relayable address and well-formed parameters is one line that parses to exactly those |
| `Commands.ParsePrintedRcpt` | src/smtp/command.rs:73-210 | The same for RCPT and a recipient that is not empty |
| `Dsn.CheckXtext` | src/smtp/dsn.rs:22-41 | The index loop accepts exactly xtext |
| `Dsn.CheckNotify` | src/smtp/dsn.rs:85-110 | Exactly the lists of distinct known events in which NEVER stands alone |
| `Dsn.CheckValue` | src/smtp/dsn.rs:63-132 | Each keyword's value rule, both ways |
| `Dsn.ValidateDsn` | src/smtp/dsn.rs:43-61 | Exactly the lists in which every keyword of the command occurs at most once, with a valid value |
| `Dsn.NamesSpelled` | src/smtp/dsn.rs:43-110 | The byte strings of keywords and values are the words of the standard |
| `Relay.ClientCode` | src/relay.rs:213-228 | Always a refusal in 400..=599: the upstream's own code when it is one, 550 for an address, 451 otherwise |
| `Relay.RepliedWith` | src/relay.rs:433-442 | A verdict the client can be told, whatever three digits the upstream sent |
| `Relay.CodesTold` | src/relay.rs:213-228 | Whether it comes to a command, during the headers or during the body, an upstream's refusal reaches the client with its own code; any other reply that is no yes, and none at all, as 451 |
| `Relay.MailLineReadBack` | src/relay.rs:301-345 | The MAIL line is one line that parses to that sender, with the DSN parameters exactly when DSN was announced, then the first SIZE value exactly when SIZE was |
| `Relay.RcptLineReadBack` | src/relay.rs:848-866 | The same for RCPT and its DSN parameters |
| `Relay.WantedMeans` | src/relay.rs:301-324 | Of a command's parameters exactly its own delivery-status ones go on, in any case, in order: RET and ENVID with MAIL, NOTIFY and ORCPT with RCPT |
| `Relay.FirstSizeMeans` | src/relay.rs:326-345 | The size passed on is that of the first SIZE, in any case, and none exactly when there is none |
| `Relay.EnvelopeReadBack` | src/relay.rs:848-866 | All the lines that open a transaction, parsed: MAIL with the sender and its permitted parameters, the RCPTs in order with theirs, then DATA |
| `Relay.DsnSurvivesHop` | src/relay.rs:301-324 | Parameters valid on this side are valid on the other |
| `Relay.UpstreamSession.Command` | src/relay.rs:603-626 | One line goes out and the upstream's reply to it is on record; it succeeded exactly when that was read and is of the expected class, and otherwise failed with its code |
| `Relay.UpstreamSession.OpenTransaction` | src/relay.rs:848-866 | One reply for each line sent, and the lines are those of the envelope in order. It succeeded exactly when all went out, every reply to MAIL and RCPT is a 2xx and that to DATA a 3xx; it failed exactly when the last reply, and no earlier one, is outside its class, and with that reply's code, or as unreachable when there was none |
| `Relay.UpstreamSession.Write` | src/relay.rs:872-937 | The chunk goes out piece by piece and is stopped exactly at the first piece that does not get out, with the word read there; otherwise all of it has gone out; the last byte is remembered |
| `Relay.UpstreamSession.WriteFrom` | src/relay.rs:872-937 | One piece of that, keeping where the writing will stop |
| `Relay.UpstreamSession.Push` | src/relay.rs:872-937 | A piece goes out whole exactly when it gets out |
| `Relay.UpstreamSession.Interrupted` | src/relay.rs:905-937 | An interrupted write leaves a prefix, and the verdict is that of the early reply on record |
| `Relay.UpstreamSession.Finish` | src/relay.rs:940-970 | Accepted exactly when the whole terminator went out and a 2xx was read behind it; otherwise the verdict of the reply on record: its own code when that is a refusal, 451 for any other, and a lost connection for none; accepted unless the upstream does not take the terminator or the message |
| `Extensions.ParseExtensions` | src/smtp/extensions.rs:30-51 | The loop computes the keyword map, the last entry winning |
| `Extensions.AddReads` | src/smtp/extensions.rs:30-51 | Any line with three digits and a space or a hyphen announces the word behind them, in upper case, with what follows it; with another separator, nothing |
| `Extensions.CapsRead` | src/smtp/extensions.rs:1-51 | One more line announces DSN or SIZE exactly when that is its word, in any case, and changes no stated limit unless it is SIZE |
| `Extensions.SizeOf` | src/smtp/extensions.rs:19-27 | A stated limit is never zero and fits the machine word |
| `Extensions.DecimalRoundTrip` | src/server/session.rs:426-452 | Decimal printing and reading are inverse |
| `Extensions.UpstreamRecord.Note` | src/proxy.rs:79-117 | The record holds DSN and the size limit through its zero-means-none sentinel |
| `Extensions.CapsSurviveHop` | src/server/session.rs:426-452 | The capabilities read off an EHLO reply, offered again under the proxy's name, printed, sanitised and parsed, are the same |
| `Extensions.GreetingOffers` | src/server/session.rs:419-441 | A greeting offers exactly: STARTTLS in the clear when there is a certificate, AUTH inside TLS or where TLS is not required, DSN and SIZE as the upstream has them; HELO is offered nothing |
| `Extensions.OffersDiffer` | src/server/session.rs:426-441 | No two of those lines are the same |
| `Extensions.OffersSpelled` | src/server/session.rs:419-441 | The byte strings offered are the words of the standard |
| `Extensions.OwnNameOk` | src/main.rs:59 | The service's own name is one for which that holds |
| `Proxy.ProxyHandler.Auth` | src/proxy.rs:634-638 | Credentials are taken as they are |
| `Proxy.ProxyHandler.Mail` | src/proxy.rs:640-659 | A sender over the rate, and no other, is refused 450 and changes nothing; otherwise the transaction is exactly the new sender |
| `Proxy.ProxyHandler.Rcpt` | src/proxy.rs:661-667 | The recipient is appended, repeats included |
| `Proxy.ProxyHandler.Reset` | src/proxy.rs:780-782 | The transaction is emptied and nothing else |
| `Proxy.ProxyHandler.OpenBody` | src/proxy.rs:672-778 | For whatever the API answers and the upstream does: the proxy's own refusals in their order and codes, before anything is written; otherwise an upstream holding exactly the envelope, which it parses as that envelope, and the merged header block; or a refusal with the code of what went wrong there, which left no lone-dot line. A message the proxy has nothing against goes through to an upstream that is there and willing. The call is on the handler's trail either way |
| `Proxy.ProxyHandler.AskApi` | src/proxy.rs:683-778 | The same behind the parsed headers |
| `Proxy.Judge` | src/proxy.rs:683-756 | No verdict is 451; a no, an unusable header and an unusable address are 550, looked at in that order, and nothing else is refused |
| `Proxy.RefusedExactly` | src/proxy.rs:683-756 | A message the API allows is refused exactly for a merged header that is not relayable, or a byte in the sender or a recipient that is not printable ASCII or is a bracket |
| `Proxy.ProxyHandler.HandOver` | src/proxy.rs:750-778 | A message that passed goes on with the sender the API chose, every command taken; or is refused exactly when there was trouble, with the code of what went wrong: no upstream, the first command not taken, or an early word on the headers |
| `Proxy.ProxyHandler.OpenUpstream` | src/proxy.rs:757-778 | What was announced is recorded whenever an upstream was reached, even if it then refused; envelope, then headers; what went wrong is the first command not taken or the early word; however little of them got out, no message ends in it |
| `Proxy.ProxyHandler.SendMessage` | src/proxy.rs:757-778 | The envelope and then the headers, stopping at the first trouble |
| `Proxy.ProxyHandler.SendHeaders` | src/proxy.rs:770-778 | The header block whole, or the early word on it |
| `RateLimit.GrantsBound` | src/ratelimit.rs:88-115 | Over any run of calls, instants in any order, grants are at most the tokens at the start plus what the time up to the latest instant earns |
| `RateLimit.UseBound` | src/ratelimit.rs:88-115 | Tokens stay between zero and the capacity, and a call earns no more than its time does |
| `RateLimit.GrantsAtLeast` | src/ratelimit.rs:88-115 | Over any run of calls a bucket grants at least as many as it has whole tokens, or all of them |
| `RateLimit.FullGrants` | src/ratelimit.rs:88-115 | A full bucket of capacity n grants at least the first n of any run of calls |
| `RateLimit.WaitIsGranted` | src/ratelimit.rs:88-115 | A call 60 / capacity seconds behind the last one is granted, for every capacity of at least one |
| `RateLimit.RateLimiter.AllowAt` | src/ratelimit.rs:88-115 | The answer and the new buckets of one call, with at most one eviction, and that only of an idlest bucket, for a new key, in a full map; the map never exceeds its bound. A new key is granted, so is one with fewer grants since its creation than the limit, and so is one that has waited 60 / limit seconds; grants are counted, and stay within capacity plus elapsed time |
| `RateLimit.RateLimiter.TakeToken` | src/ratelimit.rs:99-114 | A call on a limiter that has room: the bucket of the key, made full when there is none, is used, and the map stays within its bound |
| `RateLimit.RateLimiter.UseToken` | src/ratelimit.rs:99-114 | The same keeps both bounds, from above and from below, on the grants of every bucket |
| `RateLimit.KeyMustGrant` | src/ratelimit.rs:88-115 | What a new key, a key below the limit and a key that has waited can count on |
| `RateLimit.RateLimiter.EvictIdlest` | src/ratelimit.rs:55-63 | Exactly one bucket goes, and none was idler |
| `RateLimit.RateLimiter.Prune` | src/ratelimit.rs:121-127 | Exactly the buckets idle for that long go |
| `RateLimit.SweepingIsInvisible` | src/ratelimit.rs:88-127 | Two limiters that differ in buckets idle for a minute answer alike from then on |
| `RateLimit.SweptLimiterAnswersAlike` | src/ratelimit.rs:88-127 | With a clock that does not go back and sweeps of at least 60 s, every answer is that of a limiter that never forgets |
| `Listener.LimitKeyMeans` | src/server/listener.rs:101-113 | An IPv4 address is its own key, mapped into IPv6 or not; any other two IPv6 addresses share one exactly when they share a /64, and never with an IPv4 address; the key of a key is that key |
| `Listener.ConnectionLimits.TryAcquire` | src/server/listener.rs:60-86 | A permit exactly when both limits have room; a refused acquire changes nothing |
| `Listener.ConnectionLimits.Drop` | src/server/listener.rs:125-147 | Dropping a permit undoes its acquire |
| `Listener.ConnectionLimits.ReserveTotal` | src/server/listener.rs:60-68 | Atomic step: slots in use are the connections under way and stay within the limit |
| `Listener.ConnectionLimits.CountIp` | src/server/listener.rs:69-86 | Atomic step: each count is that of the live permits of its key, between one and the limit |
| `Listener.ConnectionLimits.UncountIp` | src/server/listener.rs:125-147 | Atomic step: the count goes down and vanishes at zero |
| `Listener.ConnectionLimits.ReleaseTotal` | src/server/listener.rs:125-147 | Atomic step: the slot is given back |

## Left out

- TLS handshakes, certificates and crypto providers: an upgrade is a switch to another byte stream that may fail.
- The HTTP API client and its JSON: the verdict is an oracle value with allow, headers and sender.
- Timers, flushing and the race between writing and an early reply: only their possible outcomes are kept.
- UTF-8 lossy conversion and base64: the model works on bytes, for any decoder. Sanitising bytes gives the same text as sanitising characters, because a character outside ASCII is a run of bytes above 0x7f.
- The texts of replies other than the capability lines: events carry codes only.
- Logging, command-line configuration, dropping of privileges, signals and shutdown order: no protocol effect beyond the 421.
- The handshake with the upstream, its EHLO and HELO fallback, the bytes it leaves behind for the session, and the start-up probe.
- Rounding of the limiter's f64 tokens: exact reals.
- Machine integer width, except where a number is read off the wire: a header cap near the largest machine word, for which cap plus slack would overflow, is not modelled.
- Other sessions writing the shared record of the upstream's capabilities between two steps of this one.
- Command lines over 64 KiB: whether one is refused depends on read boundaries in the code as well, so no independence of them is claimed there.
- Proxy.ProxyHandler.Mail: the limiter's answer is given by `World`; the limiter itself is module `RateLimit`.
- Sessions.Session.FinishAuth: the handler takes all credentials, as the only handler of the repository does, so its own refusal of them is not modelled.
- RateLimit.SweptLimiterAnswersAlike: does not cover eviction, which the code does make visible; `RateLimit.RateLimiter.AllowAt` says when none happens.
