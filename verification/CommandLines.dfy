/**
 What every command line means, said of its bytes: which lines are commands at all, what each
 verb makes of its argument, and which paths and mechanisms are taken.
 */
module CommandLines {
  import opened Bytes
  import opened Utf8
  import opened Params
  import opened Commands

  /** A verb: letters, in any case. */
  predicate IsWord(word: Octets) {
    word != [] && forall i | 0 <= i < |word| :: IsAlpha(word[i])
  }

  predicate IsArgument(args: Option<Octets>) {
    args.Some? ==> Free(args.value, CR) && IsUtf8(args.value)
  }

  function BodyOf(word: Octets, args: Option<Octets>): Octets {
    match args case Some(a) => word + ([SP] + a) case None => word
  }

  /** A verb by itself, or with one space and an argument behind it, and CRLF. */
  function LineOf(word: Octets, args: Option<Octets>): Octets {
    BodyOf(word, args) + CRLF
  }

  /** The word is the verb, whatever its case. */
  predicate Spells(word: Octets, verb: Octets) {
    UpperAll(word) == verb
  }

  // ----- which lines are commands

  lemma BodyCut(word: Octets, args: Option<Octets>)
    requires IsWord(word)
    ensures var body := BodyOf(word, args);
            && VerbLength(body) == |word| && body[..|word|] == word
            && body[|word|..] == (match args case Some(a) => [SP] + a case None => [])
  {
    var body := BodyOf(word, args);
    assert forall i | 0 <= i < |word| :: body[i] == word[i];
    assert args.Some? ==> body[|word|] == SP;
    assert VerbLength(body) == |word|;
  }

  lemma LineCut(word: Octets, args: Option<Octets>)
    requires IsWord(word) && IsArgument(args)
    ensures var line := LineOf(word, args);
            |line| >= 2 && line[|line| - 2..] == CRLF && line[..|line| - 2] == BodyOf(word, args)
    ensures Free(BodyOf(word, args), CR)
  {
  }

  lemma LineReads(word: Octets, args: Option<Octets>)
    requires IsWord(word) && IsArgument(args)
    ensures ParseCommand(LineOf(word, args)) == ParseVerb(UpperAll(word), args)
  {
    BodyCut(word, args);
    LineCut(word, args);
    if args.Some? {
      assert ([SP] + args.value)[1..] == args.value;
    }
  }

  /** A line is malformed exactly when it is not a verb with at most one argument, and CRLF. */
  lemma MalformedExactly(line: Octets)
    ensures ParseCommand(line) == Err(500) <==>
            !exists word, args :: IsWord(word) && IsArgument(args) && line == LineOf(word, args)
  {
    if word, args :| IsWord(word) && IsArgument(args) && line == LineOf(word, args) {
      LineReads(word, args);
    }
    if ParseCommand(line) != Err(500) {
      var word, args := WellFormed(line);
    }
  }

  lemma WellFormed(line: Octets) returns (word: Octets, args: Option<Octets>)
    requires ParseCommand(line) != Err(500)
    ensures IsWord(word) && IsArgument(args) && line == LineOf(word, args)
  {
    LineParts(line);
    var body := line[..|line| - 2];
    var n := VerbLength(body);
    word := body[..n];
    if n == |body| {
      args := None;
    } else {
      args := Some(body[n..][1..]);
      CutAt(body, n);
      assert body[n..][1..] == body[n + 1..];
    }
    assert line == body + CRLF;
  }

  lemma LineParts(line: Octets)
    requires ParseCommand(line) != Err(500)
    ensures |line| >= 2 && line[|line| - 2..] == CRLF
    ensures var body := line[..|line| - 2];
            var n := VerbLength(body);
            Free(body, CR) && n > 0 && (n < |body| ==> body[n] == SP && IsUtf8(body[n..][1..]))
  {
  }

  // ----- what each verb makes of its argument

  lemma VerbsSpelled()
    ensures EHLO == Ascii("EHLO") && HELO == Ascii("HELO") && NOOP == Ascii("NOOP") && QUIT == Ascii("QUIT")
    ensures STARTTLS == Ascii("STARTTLS") && DATA == Ascii("DATA") && RSET == Ascii("RSET") && VRFY == Ascii("VRFY")
    ensures AUTH == Ascii("AUTH") && MAIL == Ascii("MAIL") && RCPT == Ascii("RCPT")
    ensures FROM == Ascii("FROM:") && TO == Ascii("TO:")
  {
  }

  /** A greeting and VRFY need an argument. */
  lemma ArgumentNeeded(word: Octets, args: Option<Octets>)
    requires IsWord(word) && IsArgument(args)
    ensures var r, bare := ParseCommand(LineOf(word, args)), args.None? || args.value == [];
            && (Spells(word, EHLO) ==> r == if bare then Err(501) else Ok(Ehlo(args.value)))
            && (Spells(word, HELO) ==> r == if bare then Err(501) else Ok(Helo(args.value)))
            && (Spells(word, VRFY) ==> r == if bare then Err(501) else Ok(Vrfy(args.value)))
  {
    LineReads(word, args);
    VrfyIsLast(args);
  }

  lemma VrfyIsLast(args: Option<Octets>)
    ensures ParseVerb(VRFY, args) == if NoArgument(args) then Err(501) else Ok(Vrfy(args.value))
  {
    assert VRFY[0] != EHLO[0] && VRFY[0] != HELO[0] && VRFY[0] != NOOP[0] && VRFY[0] != QUIT[0];
    assert VRFY[0] != STARTTLS[0] && VRFY[0] != DATA[0] && VRFY[0] != RSET[0] && VRFY[0] != AUTH[0];
    assert VRFY[0] != MAIL[0] && VRFY[0] != RCPT[0];
  }

  /** Four verbs forbid one, and NOOP ignores it. */
  lemma ArgumentForbidden(word: Octets, args: Option<Octets>)
    requires IsWord(word) && IsArgument(args)
    ensures var r, bare := ParseCommand(LineOf(word, args)), args.None? || args.value == [];
            && (Spells(word, QUIT) ==> r == if bare then Ok(Quit) else Err(501))
            && (Spells(word, STARTTLS) ==> r == if bare then Ok(StartTls) else Err(501))
            && (Spells(word, DATA) ==> r == if bare then Ok(Command.Data) else Err(501))
            && (Spells(word, RSET) ==> r == if bare then Ok(Rset) else Err(501))
            && (Spells(word, NOOP) ==> r == Ok(Noop))
  {
    LineReads(word, args);
  }

  /** The verbs with an argument of their own. */
  lemma ArgumentRead(word: Octets, args: Option<Octets>)
    requires IsWord(word) && IsArgument(args)
    ensures var r := ParseCommand(LineOf(word, args));
            && (Spells(word, AUTH) ==> r == ParseAuth(args))
            && (Spells(word, MAIL) ==> r == match ParsePath(args, FROM, true) {
                                          case Some((from, params)) => Ok(Mail(from, params))
                                          case None => Err(501)
                                        })
            && (Spells(word, RCPT) ==> r == match ParsePath(args, TO, false) {
                                          case Some((to, params)) => Ok(Rcpt(to, params))
                                          case None => Err(501)
                                        })
  {
    LineReads(word, args);
    OwnArguments(args);
  }

  lemma OwnArguments(args: Option<Octets>)
    ensures ParseVerb(AUTH, args) == ParseAuth(args)
    ensures ParseVerb(MAIL, args) == match ParsePath(args, FROM, true) {
                                       case Some((from, params)) => Ok(Mail(from, params))
                                       case None => Err(501)
                                     }
    ensures ParseVerb(RCPT, args) == match ParsePath(args, TO, false) {
                                       case Some((to, params)) => Ok(Rcpt(to, params))
                                       case None => Err(501)
                                     }
  {
  }

  /** Every other word, and no verb, is unknown. */
  lemma UnknownExactly(word: Octets, args: Option<Octets>)
    requires IsWord(word) && IsArgument(args)
    ensures ParseCommand(LineOf(word, args)) == Err(502) <==>
            UpperAll(word) !in {EHLO, HELO, NOOP, QUIT, STARTTLS, DATA, RSET, AUTH, MAIL, RCPT, VRFY}
  {
    LineReads(word, args);
  }

  // ----- AUTH

  predicate IsMechanism(m: Octets) {
    1 <= |m| <= 20 && forall i | 0 <= i < |m| :: IsAlpha(m[i]) || IsDigit(m[i]) || m[i] == DASH || m[i] == 0x5f
  }

  /** A mechanism and what follows the first space; nothing there is no initial response. */
  lemma AuthReads(mechanism: Octets, initial: Option<Octets>)
    requires Free(mechanism, SP)
    ensures ParseAuth(Some(BodyOf(mechanism, initial))) ==
            if !IsMechanism(mechanism) then Err(501)
            else Ok(Auth(UpperAll(mechanism), if initial == Some([]) then None else initial))
    ensures ParseAuth(None) == Err(501)
  {
    var args := BodyOf(mechanism, initial);
    var tail := match initial case Some(a) => [SP] + a case None => [];
    assert args == mechanism + tail;
    FindSkips(mechanism, tail, SP);
    assert initial.Some? ==> Find(tail, SP) == 0 && tail[1..] == initial.value;
    assert args[..|mechanism|] == mechanism;
    if initial.Some? {
      assert args[|mechanism| + 1..] == initial.value;
    }
  }

  // ----- MAIL and RCPT

  /** The keyword in any case, whitespace, the address in brackets, and a tail. */
  function PathOf(key: Octets, ws: Octets, address: Octets, tail: Octets): Octets {
    key + (ws + ([LT] + (address + ([GT] + tail))))
  }

  /** Nothing, or a space and well-formed parameters. */
  function TailParams(tail: Octets): Option<seq<Param>> {
    if tail == [] then Some([]) else if tail[0] == SP then ParseWords(Words(tail[1..])) else None
  }

  lemma PathReads(key: Octets, ws: Octets, address: Octets, tail: Octets, keyword: Octets, allowEmpty: bool)
    requires SameFolded(key, keyword) && IsBlank(ws) && Free(address, GT)
    ensures ParsePath(Some(PathOf(key, ws, address, tail)), keyword, allowEmpty) ==
            if (address == [] && !allowEmpty) || TailParams(tail).None? then None
            else Some((address, TailParams(tail).value))
  {
    assert |key| == |keyword| by { assert |UpperAll(key)| == |UpperAll(keyword)|; }
    var rest := address + ([GT] + tail);
    KeywordInFront(key, ws + ([LT] + rest));
    BracketInFront(ws, rest);
    AddressInFront(address, tail);
    PathFrom(PathOf(key, ws, address, tail), keyword, allowEmpty, rest, address, tail);
  }

  /** The same, of the parts a path is cut into. */
  lemma PathFrom(args: Octets, keyword: Octets, allowEmpty: bool, rest: Octets, address: Octets, tail: Octets)
    requires |args| >= |keyword| && SameFolded(args[..|keyword|], keyword)
    requires TrimStart(args[|keyword|..]) == [LT] + rest
    requires Find(rest, GT) == |address| < |rest| && rest[..|address|] == address && rest[|address| + 1..] == tail
    ensures ParsePath(Some(args), keyword, allowEmpty) ==
            if (address == [] && !allowEmpty) || TailParams(tail).None? then None
            else Some((address, TailParams(tail).value))
  {
    assert ([LT] + rest)[1..] == rest;
    assert tail == [SP] ==> tail[1..] == [];
  }

  lemma BracketInFront(ws: Octets, rest: Octets)
    requires IsBlank(ws)
    ensures TrimStart(ws + ([LT] + rest)) == [LT] + rest && ([LT] + rest)[1..] == rest
  {
    assert SpaceLength([LT] + rest) == 0;
    TrimStartMeans(ws, [LT] + rest);
  }

  lemma AddressInFront(address: Octets, tail: Octets)
    requires Free(address, GT)
    ensures var rest := address + ([GT] + tail);
            Find(rest, GT) == |address| && rest[..|address|] == address && rest[|address| + 1..] == tail
  {
    FindSkips(address, [GT] + tail, GT);
    assert Find([GT] + tail, GT) == 0;
  }

  /** Every path that is taken has this shape. */
  lemma PathShape(args: Octets, keyword: Octets, allowEmpty: bool) returns (key: Octets, ws: Octets, address: Octets, tail: Octets)
    requires ParsePath(Some(args), keyword, allowEmpty).Some?
    ensures args == PathOf(key, ws, address, tail)
    ensures SameFolded(key, keyword) && IsBlank(ws) && Free(address, GT) && (allowEmpty || address != [])
  {
    PathParts(args, keyword, allowEmpty);
    key := args[..|keyword|];
    ws := TrimmedIsBlank(args[|keyword|..]);
    address, tail := Bracketed(TrimStart(args[|keyword|..]));
    Rejoined(args, |keyword|, ws, TrimStart(args[|keyword|..]));
  }

  lemma PathParts(args: Octets, keyword: Octets, allowEmpty: bool)
    requires ParsePath(Some(args), keyword, allowEmpty).Some?
    ensures |args| >= |keyword| && SameFolded(args[..|keyword|], keyword)
    ensures var path := TrimStart(args[|keyword|..]);
            StartsWith(path, LT) && Find(path[1..], GT) < |path[1..]| && (allowEmpty || Find(path[1..], GT) > 0)
  {
  }

  lemma Bracketed(path: Octets) returns (address: Octets, tail: Octets)
    requires StartsWith(path, LT) && Find(path[1..], GT) < |path[1..]|
    ensures path == [LT] + (address + ([GT] + tail)) && Free(address, GT) && |address| == Find(path[1..], GT)
  {
    var close := Find(path[1..], GT);
    address, tail := path[1..][..close], path[1..][close + 1..];
    CutAt(path[1..], close);
    CutAt(path, 0);
    assert path[..0] == [];
  }

  lemma CutAt(s: Octets, n: nat)
    requires n < |s|
    ensures s == s[..n] + ([s[n]] + s[n + 1..])
  {
  }

  /** A path is taken exactly when it has that shape, with a tail of well-formed parameters. */
  lemma PathExactly(args: Octets, keyword: Octets, allowEmpty: bool)
    ensures ParsePath(Some(args), keyword, allowEmpty).Some? <==>
            exists key, ws, address, tail ::
              && args == PathOf(key, ws, address, tail) && SameFolded(key, keyword) && IsBlank(ws) && Free(address, GT)
              && (allowEmpty || address != []) && TailParams(tail).Some?
  {
    if ParsePath(Some(args), keyword, allowEmpty).Some? {
      var key, ws, address, tail := PathShape(args, keyword, allowEmpty);
      PathReads(key, ws, address, tail, keyword, allowEmpty);
      assert args == PathOf(key, ws, address, tail);
    } else if key, ws, address, tail :|
        && args == PathOf(key, ws, address, tail) && SameFolded(key, keyword) && IsBlank(ws) && Free(address, GT)
        && (allowEmpty || address != []) && TailParams(tail).Some? {
      PathReads(key, ws, address, tail, keyword, allowEmpty);
    }
  }
}
