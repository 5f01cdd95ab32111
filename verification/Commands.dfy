/**
 One SMTP command line to one command: letters, a single space, the argument, CRLF.
 */
module Commands {
  import opened Bytes
  import opened Utf8
  import opened Params

  datatype Command =
    | Ehlo(domain: Octets)
    | Helo(domain: Octets)
    | Noop
    | Quit
    | StartTls
    | Data
    | Rset
    | Auth(mechanism: Octets, initial: Option<Octets>)
    | Mail(from: Octets, params: seq<Param>)
    | Rcpt(to: Octets, params: seq<Param>)
    | Vrfy(text: Octets)

  /** A command, or the code of the reply that refuses the line. */
  datatype Parsed = Ok(command: Command) | Err(code: nat)

  const EHLO: Octets := [0x45, 0x48, 0x4c, 0x4f]
  const HELO: Octets := [0x48, 0x45, 0x4c, 0x4f]
  const NOOP: Octets := [0x4e, 0x4f, 0x4f, 0x50]
  const QUIT: Octets := [0x51, 0x55, 0x49, 0x54]
  const STARTTLS: Octets := [0x53, 0x54, 0x41, 0x52, 0x54, 0x54, 0x4c, 0x53]
  const DATA: Octets := [0x44, 0x41, 0x54, 0x41]
  const RSET: Octets := [0x52, 0x53, 0x45, 0x54]
  const AUTH: Octets := [0x41, 0x55, 0x54, 0x48]
  const MAIL: Octets := [0x4d, 0x41, 0x49, 0x4c]
  const RCPT: Octets := [0x52, 0x43, 0x50, 0x54]
  const VRFY: Octets := [0x56, 0x52, 0x46, 0x59]
  const FROM: Octets := [0x46, 0x52, 0x4f, 0x4d, COLON]
  const TO: Octets := [0x54, 0x4f, COLON]

  /** The first line of the buffer, its LF included, and the buffer without it. */
  function TakeLine(buf: Octets): (r: Option<(Octets, Octets)>)
    ensures r.None? <==> Free(buf, LF)
    ensures r.Some? ==> IsLine(r.value.0) && buf == r.value.0 + r.value.1
  {
    var n := Find(buf, LF);
    if n == |buf| then None
    else
      assert buf[..n + 1][..n] == buf[..n];
      Some((buf[..n + 1], buf[n + 1..]))
  }

  function VerbLength(s: Octets): (n: nat)
    ensures n <= |s| && (forall i | 0 <= i < n :: IsAlpha(s[i])) && (n < |s| ==> !IsAlpha(s[n]))
  {
    if s == [] || !IsAlpha(s[0]) then 0 else 1 + VerbLength(s[1..])
  }

  function ParseCommand(line: Octets): (r: Parsed)
    ensures r.Err? ==> r.code in {500, 501, 502}
    ensures r.Ok? && r.command.Mail? ==> AllOk(r.command.params)
    ensures r.Ok? && r.command.Rcpt? ==> AllOk(r.command.params) && r.command.to != []
  {
    if !(|line| >= 2 && line[|line| - 2..] == CRLF) then Err(500)
    else
      var body := line[..|line| - 2];
      var n := VerbLength(body);
      if !Free(body, CR) || n == 0 then Err(500)
      else
        var verb, tail := UpperAll(body[..n]), body[n..];
        if tail == [] then ParseVerb(verb, None)
        else if tail[0] != SP || !IsUtf8(tail[1..]) then Err(500)
        else ParseVerb(verb, Some(tail[1..]))
  }

  predicate NoArgument(args: Option<Octets>) {
    args.None? || args.value == []
  }

  function ParseVerb(verb: Octets, args: Option<Octets>): (r: Parsed)
    ensures r.Err? ==> r.code in {501, 502}
    ensures r.Ok? && r.command.Mail? ==> AllOk(r.command.params)
    ensures r.Ok? && r.command.Rcpt? ==> AllOk(r.command.params) && r.command.to != []
  {
    if verb == EHLO || verb == HELO then
      if NoArgument(args) then Err(501)
      else if verb == EHLO then Ok(Ehlo(args.value)) else Ok(Helo(args.value))
    else if verb == NOOP then Ok(Noop)
    else if verb == QUIT || verb == STARTTLS || verb == DATA || verb == RSET then
      if !NoArgument(args) then Err(501)
      else Ok(if verb == QUIT then Quit else if verb == STARTTLS then StartTls
              else if verb == DATA then Data else Rset)
    else if verb == AUTH then ParseAuth(args)
    else if verb == MAIL then
      match ParsePath(args, FROM, true)
      case Some((from, params)) => Ok(Mail(from, params))
      case None => Err(501)
    else if verb == RCPT then
      match ParsePath(args, TO, false)
      case Some((to, params)) => Ok(Rcpt(to, params))
      case None => Err(501)
    else if verb == VRFY then
      if NoArgument(args) then Err(501) else Ok(Vrfy(args.value))
    else Err(502)
  }

  function ParseAuth(args: Option<Octets>): (r: Parsed)
    ensures r.Err? ==> r.code == 501
    ensures r.Ok? ==> r.command.Auth? && 1 <= |r.command.mechanism| <= 20
  {
    if args.None? then Err(501)
    else
      var n := Find(args.value, SP);
      var mechanism := args.value[..n];
      if !(1 <= |mechanism| <= 20) ||
         exists i | 0 <= i < |mechanism| :: !(IsAlpha(mechanism[i]) || IsDigit(mechanism[i]) || mechanism[i] in {DASH, 0x5f})
      then Err(501)
      else
        Ok(Auth(UpperAll(mechanism), if n + 1 < |args.value| then Some(args.value[n + 1..]) else None))
  }

  /** `FROM:<addr> [params]` or `TO:<addr> [params]`. */
  function ParsePath(args: Option<Octets>, keyword: Octets, allowEmpty: bool): (r: Option<(Octets, seq<Param>)>)
    ensures r.Some? ==> AllOk(r.value.1) && (allowEmpty || r.value.0 != [])
  {
    if args.None? || |args.value| < |keyword| || !SameFolded(args.value[..|keyword|], keyword) then None
    else
      var path := TrimStart(args.value[|keyword|..]);
      if !StartsWith(path, LT) then None
      else
        var rest := path[1..];
        var close := Find(rest, GT);
        if close == |rest| || (close == 0 && !allowEmpty) then None
        else
          var address, tail := rest[..close], rest[close + 1..];
          if tail == [] || tail == [SP] then Some((address, []))
          else if tail[0] != SP then None
          else
            match ParseWords(Words(tail[1..]))
            case Some(params) => Some((address, params))
            case None => None
  }

  // ----- a path command printed and read back

  /** Section 4.1.2 of RFC 5321: a path is printable ASCII without the brackets. */
  predicate AddressRelayable(address: Octets) {
    forall i | 0 <= i < |address| :: 0x21 <= address[i] <= 0x7e && address[i] != LT && address[i] != GT
  }

  function PathText(address: Octets, params: seq<Param>): Octets {
    [LT] + address + [GT] + Suffix(params)
  }

  lemma ParsePrintedPath(keyword: Octets, address: Octets, params: seq<Param>, allowEmpty: bool)
    requires AddressRelayable(address) && AllOk(params) && (allowEmpty || address != [])
    ensures ParsePath(Some(keyword + PathText(address, params)), keyword, allowEmpty) == Some((address, params))
  {
    var path := PathText(address, params);
    BracketedAddress(address, Suffix(params));
    PrintedTail(params);
    KeywordInFront(keyword, path);
  }

  lemma KeywordInFront(keyword: Octets, path: Octets)
    ensures var args := keyword + path; |args| >= |keyword| && args[..|keyword|] == keyword && args[|keyword|..] == path
  {
  }

  lemma BracketedAddress(address: Octets, tail: Octets)
    requires AddressRelayable(address)
    ensures var path := [LT] + address + [GT] + tail;
            var rest := path[1..];
            && TrimStart(path) == path && StartsWith(path, LT)
            && Find(rest, GT) == |address| < |rest| && rest[..|address|] == address && rest[|address| + 1..] == tail
  {
    var path := [LT] + address + [GT] + tail;
    assert path[1..] == address + ([GT] + tail);
    FindSkips(address, [GT] + tail, GT);
    assert Find([GT] + tail, GT) == 0;
    assert path[0] == LT;
  }

  lemma PrintedTail(params: seq<Param>)
    requires AllOk(params)
    ensures var tail := Suffix(params);
            if params == [] then tail == []
            else StartsWith(tail, SP) && tail != [SP] && ParseWords(Words(tail[1..])) == Some(params)
  {
    if params != [] {
      SuffixPrintable(params);
      ParsePrintedParams(params);
      PrintedWordIsWord(params[0]);
      var tail := Suffix(params);
      assert |tail| >= 1 + |ParamWord(params[0])|;
      assert Words(tail) == Words(tail[1..]);
    }
  }

  /** A command line built from printable parts. */
  function PathLine(verb: Octets, keyword: Octets, address: Octets, params: seq<Param>): Octets {
    verb + [SP] + (keyword + PathText(address, params)) + CRLF
  }

  predicate Printable(s: Octets) {
    forall i | 0 <= i < |s| :: 0x20 <= s[i] <= 0x7e
  }

  lemma PathArgsPrintable(keyword: Octets, address: Octets, params: seq<Param>)
    requires Printable(keyword) && AddressRelayable(address) && AllOk(params)
    ensures Printable(keyword + PathText(address, params))
  {
    SuffixPrintable(params);
    assert Printable(PathText(address, params));
  }

  predicate IsVerb(verb: Octets) {
    verb != [] && UpperAll(verb) == verb && forall i | 0 <= i < |verb| :: IsAlpha(verb[i])
  }

  lemma VerbEnds(verb: Octets, args: Octets)
    requires IsVerb(verb)
    ensures VerbLength(verb + [SP] + args) == |verb|
  {
    var body := verb + [SP] + args;
    assert forall i | 0 <= i < |verb| :: body[i] == verb[i];
    assert body[|verb|] == SP;
    assert VerbLength(body) >= |verb|;
  }

  lemma PrintedLineShape(verb: Octets, args: Octets)
    requires IsVerb(verb) && Printable(args)
    ensures var body := verb + [SP] + args;
            IsLine(body + CRLF) && Free(body, CR) && (body + CRLF)[..|body|] == body && (body + CRLF)[|body|..] == CRLF
  {
    var body := verb + [SP] + args;
    assert forall i | 0 <= i < |body| :: !IsBreak(body[i]);
    assert (body + CRLF)[..|body| + 1] == body + [CR];
  }

  /** The line is one CRLF line and parses as its verb with its argument. */
  lemma ParsePrintedLine(verb: Octets, args: Octets)
    requires IsVerb(verb) && Printable(args)
    ensures IsLine(verb + [SP] + args + CRLF)
    ensures ParseCommand(verb + [SP] + args + CRLF) == ParseVerb(verb, Some(args))
  {
    var body := verb + [SP] + args;
    PrintedLineShape(verb, args);
    VerbEnds(verb, args);
    AsciiIsUtf8(args);
    assert body[..|verb|] == verb && body[|verb|..] == [SP] + args && ([SP] + args)[1..] == args;
  }

  lemma PathLineReads(verb: Octets, keyword: Octets, address: Octets, params: seq<Param>)
    requires IsVerb(verb) && Printable(keyword) && AddressRelayable(address) && AllOk(params)
    ensures IsLine(PathLine(verb, keyword, address, params))
    ensures ParseCommand(PathLine(verb, keyword, address, params)) == ParseVerb(verb, Some(keyword + PathText(address, params)))
  {
    PathArgsPrintable(keyword, address, params);
    ParsePrintedLine(verb, keyword + PathText(address, params));
  }

  lemma MailVerb(from: Octets, params: seq<Param>)
    requires AddressRelayable(from) && AllOk(params)
    ensures IsVerb(MAIL) && Printable(FROM) && ParseVerb(MAIL, Some(FROM + PathText(from, params))) == Ok(Mail(from, params))
  {
    ParsePrintedPath(FROM, from, params, true);
    MailArgs(FROM + PathText(from, params), from, params);
  }

  lemma MailArgs(args: Octets, from: Octets, params: seq<Param>)
    requires ParsePath(Some(args), FROM, true) == Some((from, params))
    ensures IsVerb(MAIL) && Printable(FROM) && ParseVerb(MAIL, Some(args)) == Ok(Mail(from, params))
  {
  }

  lemma RcptVerb(to: Octets, params: seq<Param>)
    requires AddressRelayable(to) && AllOk(params) && to != []
    ensures IsVerb(RCPT) && Printable(TO) && ParseVerb(RCPT, Some(TO + PathText(to, params))) == Ok(Rcpt(to, params))
  {
    ParsePrintedPath(TO, to, params, false);
    RcptArgs(TO + PathText(to, params), to, params);
  }

  lemma RcptArgs(args: Octets, to: Octets, params: seq<Param>)
    requires ParsePath(Some(args), TO, false) == Some((to, params))
    ensures IsVerb(RCPT) && Printable(TO) && ParseVerb(RCPT, Some(args)) == Ok(Rcpt(to, params))
  {
  }

  lemma ParsePrintedMail(from: Octets, params: seq<Param>)
    requires AddressRelayable(from) && AllOk(params)
    ensures IsLine(PathLine(MAIL, FROM, from, params))
    ensures ParseCommand(PathLine(MAIL, FROM, from, params)) == Ok(Mail(from, params))
  {
    MailVerb(from, params);
    PathLineReads(MAIL, FROM, from, params);
  }

  lemma ParsePrintedRcpt(to: Octets, params: seq<Param>)
    requires AddressRelayable(to) && AllOk(params) && to != []
    ensures IsLine(PathLine(RCPT, TO, to, params))
    ensures ParseCommand(PathLine(RCPT, TO, to, params)) == Ok(Rcpt(to, params))
  {
    RcptVerb(to, params);
    PathLineReads(RCPT, TO, to, params);
  }
}
