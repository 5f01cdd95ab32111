/**
 AUTH PLAIN (RFC 4616) and AUTH LOGIN: how many tokens a mechanism takes, what counts as one, and
 the credentials in them. Base64 is a parameter.
 */
module Auth {
  import opened Bytes
  import opened Commands
  import opened Dsn
  import opened Proxy

  type Decoder = Octets -> Option<Octets>

  /** The most bytes a decoded username may have. */
  const MAX_USERNAME: nat := 256
  const NUL: Byte := 0x00

  /** "PLAIN" and "LOGIN" */
  const PLAIN: Octets := [0x50, 0x4c, 0x41, 0x49, 0x4e]
  const LOGIN: Octets := [0x4c, 0x4f, 0x47, 0x49, 0x4e]

  predicate Supported(command: Command)
    requires command.Auth?
  {
    command.mechanism == PLAIN || command.mechanism == LOGIN
  }

  // ----- tokens

  function StripBreak(line: Octets): Octets {
    if |line| >= 2 && line[|line| - 2..] == CRLF then line[..|line| - 2]
    else if EndsWith(line, LF) then line[..|line| - 1]
    else line
  }

  /** A line without its CRLF, or without its LF. */
  lemma StripMeans(text: Octets)
    ensures StripBreak(text + CRLF) == text
    ensures !EndsWith(text, CR) ==> StripBreak(text + [LF]) == text
  {
    var crlf, lf := text + CRLF, text + [LF];
    assert crlf[..|text|] == text && crlf[|text|..] == CRLF && lf[..|text|] == text;
    if |lf| >= 2 && lf[|lf| - 2..] == CRLF {
      assert lf[|lf| - 2..][0] == lf[|lf| - 2] == text[|text| - 1];
    }
  }

  /** The token in a line: what is in front of its break, unless that is nothing or holds another break. */
  function TokenOf(line: Octets): (token: Option<Octets>)
    ensures token.None? <==> StripBreak(line) == [] || !Free(StripBreak(line), CR) || !Free(StripBreak(line), LF)
    ensures token.Some? ==> token.value == StripBreak(line)
  {
    var text := StripBreak(line);
    if text == [] || !Free(text, CR) || !Free(text, LF) then None else Some(text)
  }

  /** How many tokens a mechanism takes. */
  function TokensOf(command: Command): nat
    requires command.Auth?
  {
    if command.mechanism == LOGIN then 2 else 1
  }

  /** The tokens that came with the command: only PLAIN has an initial response. */
  function InitialTokens(command: Command): (tokens: seq<Octets>)
    requires command.Auth?
    ensures |tokens| <= TokensOf(command)
  {
    if command.mechanism != LOGIN && command.initial.Some? then [command.initial.value] else []
  }

  // ----- credentials

  function DecodePlain(decode: Decoder, token: Octets): Option<Credentials> {
    match decode(token)
    case None => None
    case Some(raw) =>
      var parts := SplitOn(raw, NUL);
      if |parts| < 3 || |parts[1]| > MAX_USERNAME then None else Some(Credentials(parts[1], parts[2]))
  }

  function DecodeLogin(decode: Decoder, user: Octets, secret: Octets): Option<Credentials> {
    match (decode(user), decode(secret))
    case (Some(u), Some(p)) => if |u| > MAX_USERNAME then None else Some(Credentials(u, p))
    case _ => None
  }

  function CredentialsIn(decode: Decoder, command: Command, tokens: seq<Octets>): Option<Credentials>
    requires command.Auth? && |tokens| == TokensOf(command)
  {
    if command.mechanism == LOGIN then DecodeLogin(decode, tokens[0], tokens[1]) else DecodePlain(decode, tokens[0])
  }

  lemma SplitsAt(head: Octets, tail: Octets)
    requires Free(head, NUL)
    ensures SplitOn(head + [NUL] + tail, NUL) == [head] + SplitOn(tail, NUL)
  {
    var s := head + [NUL] + tail;
    assert s == head + ([NUL] + tail);
    FindSkips(head, [NUL] + tail, NUL);
    assert Find([NUL] + tail, NUL) == 0;
    assert s[..|head|] == head && s[|head| + 1..] == tail;
  }

  /** The second and the third of the parts between NULs are the username and the password; a third may itself hold more. */
  lemma PlainMeans(decode: Decoder, token: Octets, zid: Octets, user: Octets, secret: Octets, more: Octets)
    requires Free(zid, NUL) && Free(user, NUL) && Free(secret, NUL) && (more == [] || more[0] == NUL)
    requires decode(token) == Some(zid + [NUL] + (user + [NUL] + (secret + more)))
    ensures DecodePlain(decode, token) == if |user| <= 256 then Some(Credentials(user, secret)) else None
  {
    var raw := secret + more;
    SplitsAt(zid, user + [NUL] + raw);
    SplitsAt(user, raw);
    FirstPart(secret, more);
    var parts := [zid] + ([user] + SplitOn(raw, NUL));
    assert parts[1] == user && parts[2] == secret;
  }

  lemma FirstPart(secret: Octets, more: Octets)
    requires Free(secret, NUL) && (more == [] || more[0] == NUL)
    ensures SplitOn(secret + more, NUL)[0] == secret
  {
    if more == [] {
      assert secret + more == secret && Find(secret, NUL) == |secret|;
    } else {
      assert more == [NUL] + more[1..];
      assert secret + more == secret + [NUL] + more[1..];
      SplitsAt(secret, more[1..]);
    }
  }

  /** With fewer than two NULs there are no credentials. */
  lemma PlainNeedsTwo(decode: Decoder, token: Octets, zid: Octets, user: Octets)
    requires Free(zid, NUL) && Free(user, NUL)
    requires decode(token) in {None, Some(zid), Some(zid + [NUL] + user)}
    ensures DecodePlain(decode, token).None?
  {
    assert Find(zid, NUL) == |zid| && Find(user, NUL) == |user|;
    SplitsAt(zid, user);
  }

  /** LOGIN takes a username and then a password, neither with the command; PLAIN one token, which may come with it. */
  lemma MechanismsMean(decode: Decoder, initial: Option<Octets>, user: Octets, secret: Octets)
    ensures var login := Command.Auth(Ascii("LOGIN"), initial);
            && Supported(login) && TokensOf(login) == 2 && InitialTokens(login) == []
            && (CredentialsIn(decode, login, [user, secret]).Some? <==>
                decode(user).Some? && decode(secret).Some? && |decode(user).value| <= 256)
            && (CredentialsIn(decode, login, [user, secret]).Some? ==>
                  CredentialsIn(decode, login, [user, secret]) == Some(Credentials(decode(user).value, decode(secret).value)))
    ensures var plain := Command.Auth(Ascii("PLAIN"), initial);
            && Supported(plain) && TokensOf(plain) == 1
            && InitialTokens(plain) == (match initial case Some(token) => [token] case None => [])
            && CredentialsIn(decode, plain, [user]) == DecodePlain(decode, user)
  {
    assert PLAIN == Ascii("PLAIN") && LOGIN == Ascii("LOGIN") && PLAIN[0] != LOGIN[0];
  }
}
