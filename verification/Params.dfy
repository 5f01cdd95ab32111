/**
 ESMTP parameter lists (section 4.1.2 of RFC 5321), parsed and printed.
 */
module Params {
  import opened Bytes

  datatype Param = Param(keyword: Octets, value: Option<Octets>)

  predicate IsAsciiSpace(b: Byte) {
    b in {SP, TAB, LF, FF, CR}
  }

  function WordLength(s: Octets): (n: nat)
    ensures n <= |s| && (forall i | 0 <= i < n :: !IsAsciiSpace(s[i]))
    ensures n < |s| ==> IsAsciiSpace(s[n])
  {
    if s == [] || IsAsciiSpace(s[0]) then 0 else 1 + WordLength(s[1..])
  }

  /** The words of `s` between runs of ASCII whitespace. */
  function Words(s: Octets): seq<Octets>
    decreases |s|
  {
    if s == [] then []
    else if IsAsciiSpace(s[0]) then Words(s[1..])
    else [s[..WordLength(s)]] + Words(s[WordLength(s)..])
  }

  predicate IsKeywordStart(b: Byte) {
    IsAlpha(b) || IsDigit(b)
  }

  predicate IsKeywordChar(b: Byte) {
    IsAlpha(b) || IsDigit(b) || b == DASH
  }

  predicate IsValueChar(b: Byte) {
    0x21 <= b <= 0x7e && b != EQUALS
  }

  predicate KeywordOk(k: Octets) {
    k != [] && IsKeywordStart(k[0]) && forall i | 0 <= i < |k| :: IsKeywordChar(k[i])
  }

  predicate ValueOk(v: Octets) {
    v != [] && forall i | 0 <= i < |v| :: IsValueChar(v[i])
  }

  /** The parameters a parser can produce. */
  predicate ParamOk(p: Param) {
    KeywordOk(p.keyword) && (p.value.Some? ==> ValueOk(p.value.value))
  }

  predicate AllOk(params: seq<Param>) {
    forall i | 0 <= i < |params| :: ParamOk(params[i])
  }

  function ParseWord(word: Octets): (p: Option<Param>)
    ensures p.Some? ==> ParamOk(p.value)
  {
    var eq := Find(word, EQUALS);
    var p := Param(word[..eq], if eq < |word| then Some(word[eq + 1..]) else None);
    if ParamOk(p) then Some(p) else None
  }

  /** One malformed word refuses the whole list. */
  function ParseWords(words: seq<Octets>): (r: Option<seq<Param>>)
    ensures r.Some? ==> AllOk(r.value) && |r.value| == |words|
    decreases |words|
  {
    if words == [] then Some([])
    else
      var first, more := ParseWord(words[0]), ParseWords(words[1..]);
      if first.Some? && more.Some? then Some([first.value] + more.value) else None
  }

  method ParseParams(text: Octets) returns (r: Option<seq<Param>>)
    ensures r == ParseWords(Words(text))
  {
    var words := Words(text);
    var out: seq<Param> := [];
    assert words[0..] == words && (ParseWords(words).Some? ==> [] + ParseWords(words).value == ParseWords(words).value);
    for i := 0 to |words|
      invariant ParseWords(words) ==
                match ParseWords(words[i..]) case None => None case Some(more) => Some(out + more)
    {
      assert words[i..][1..] == words[i + 1..];
      var p := ParseWord(words[i]);
      if p.None? {
        return None;
      }
      var more := ParseWords(words[i + 1..]);
      if more.Some? {
        Assoc(out, [p.value], more.value);
      }
      out := out + [p.value];
    }
    assert words[|words|..] == [] && out + [] == out;
    return Some(out);
  }

  // ----- printing

  function ParamWord(p: Param): Octets {
    match p.value
    case Some(v) => p.keyword + [EQUALS] + v
    case None => p.keyword
  }

  /** Each parameter behind a space of its own. */
  function Suffix(params: seq<Param>): Octets
    decreases |params|
  {
    if params == [] then [] else [SP] + ParamWord(params[0]) + Suffix(params[1..])
  }

  lemma ParsePrintedWord(p: Param)
    requires ParamOk(p)
    ensures ParseWord(ParamWord(p)) == Some(p)
  {
    if p.value.Some? {
      var word := ParamWord(p);
      assert word == p.keyword + ([EQUALS] + p.value.value);
      FindSkips(p.keyword, [EQUALS] + p.value.value, EQUALS);
      assert word[..|p.keyword|] == p.keyword && word[|p.keyword| + 1..] == p.value.value;
    } else {
      assert p.keyword + [] == p.keyword && p.keyword[..|p.keyword|] == p.keyword;
      FindSkips(p.keyword, [], EQUALS);
    }
  }

  lemma PrintedWordIsWord(p: Param)
    requires ParamOk(p)
    ensures var w := ParamWord(p); w != [] && forall i | 0 <= i < |w| :: 0x21 <= w[i] <= 0x7e
  {
  }

  lemma WordEnds(w: Octets, t: Octets)
    requires forall i | 0 <= i < |w| :: 0x21 <= w[i] <= 0x7e
    requires t == [] || t[0] == SP
    ensures WordLength(w + t) == |w|
  {
    var s := w + t;
    assert forall i | 0 <= i < |w| :: s[i] == w[i];
    assert t != [] ==> s[|w|] == SP;
    assert WordLength(s) >= |w|;
  }

  lemma WordInFront(w: Octets, t: Octets)
    requires w != [] && forall i | 0 <= i < |w| :: 0x21 <= w[i] <= 0x7e
    requires t == [] || t[0] == SP
    ensures Words([SP] + w + t) == [w] + Words(t)
  {
    var s := w + t;
    assert [SP] + w + t == [SP] + s && ([SP] + s)[1..] == s;
    WordEnds(w, t);
    assert s[..|w|] == w && s[|w|..] == t;
  }

  /** Reading the printed parameters gives back exactly those parameters. */
  lemma {:induction false} ParsePrintedParams(params: seq<Param>)
    requires AllOk(params)
    ensures ParseWords(Words(Suffix(params))) == Some(params)
    decreases |params|
  {
    if params != [] {
      var p, t := params[0], params[1..];
      ParsePrintedWord(p);
      PrintedWordIsWord(p);
      WordInFront(ParamWord(p), Suffix(t));
      ParsePrintedParams(t);
      var words := Words(Suffix(params));
      assert words == [ParamWord(p)] + Words(Suffix(t));
      assert words[0] == ParamWord(p) && words[1..] == Words(Suffix(t));
      assert [p] + t == params;
    }
  }

  /** What is printed is printable ASCII and spaces: nothing that could end the line. */
  lemma {:induction false} SuffixPrintable(params: seq<Param>)
    requires AllOk(params)
    ensures forall i | 0 <= i < |Suffix(params)| :: 0x20 <= Suffix(params)[i] <= 0x7e
    ensures Suffix(params) == [] <==> params == []
    ensures params != [] ==> Suffix(params)[0] == SP
    decreases |params|
  {
    if params != [] {
      PrintedWordIsWord(params[0]);
      SuffixPrintable(params[1..]);
    }
  }

  lemma {:induction false} SuffixConcat(a: seq<Param>, b: seq<Param>)
    ensures Suffix(a + b) == Suffix(a) + Suffix(b)
    decreases |a|
  {
    if a == [] {
      assert a + b == b;
    } else {
      assert (a + b)[1..] == a[1..] + b;
      SuffixConcat(a[1..], b);
    }
  }

  // ----- exactly what is accepted

  predicate AllAsciiSpace(s: Octets) {
    forall i | 0 <= i < |s| :: IsAsciiSpace(s[i])
  }

  /** A run of whitespace in front, of any length, does not matter. */
  lemma {:induction false} WordsSkip(ws: Octets, s: Octets)
    requires AllAsciiSpace(ws)
    ensures Words(ws + s) == Words(s)
    decreases |ws|
  {
    if ws == [] {
      assert ws + s == s;
    } else {
      assert (ws + s)[1..] == ws[1..] + s;
      WordsSkip(ws[1..], s);
    }
  }

  /** A word is what stands between two runs of whitespace. */
  lemma WordsTake(w: Octets, s: Octets)
    requires w != [] && (forall i | 0 <= i < |w| :: !IsAsciiSpace(w[i])) && (s == [] || IsAsciiSpace(s[0]))
    ensures Words(w + s) == [w] + Words(s)
  {
    var t := w + s;
    assert forall i | 0 <= i < |w| :: t[i] == w[i];
    assert s != [] ==> t[|w|] == s[0];
    assert WordLength(t) == |w|;
    assert t[..|w|] == w && t[|w|..] == s;
  }

  /** A word is accepted exactly when it is how some well-formed parameter is written. */
  lemma ParseWordExactly(word: Octets, p: Param)
    ensures ParseWord(word) == Some(p) <==> ParamOk(p) && word == ParamWord(p)
  {
    if ParamOk(p) && word == ParamWord(p) {
      ParsePrintedWord(p);
    }
    if ParseWord(word) == Some(p) {
      var eq := Find(word, EQUALS);
      assert eq < |word| ==> word == word[..eq] + [EQUALS] + word[eq + 1..];
    }
  }

  /** A list is accepted exactly when each of its words is, and gives their parameters in order. */
  lemma {:induction false} ParseWordsExactly(words: seq<Octets>, params: seq<Param>)
    ensures ParseWords(words) == Some(params) <==>
            |params| == |words| && forall i | 0 <= i < |words| :: ParseWord(words[i]) == Some(params[i])
    decreases |words|
  {
    if words != [] && params != [] {
      ParseWordsExactly(words[1..], params[1..]);
      var first, more := ParseWord(words[0]), ParseWords(words[1..]);
      if ParseWords(words) == Some(params) {
        assert params[0] == first.value && params[1..] == more.value;
        forall i | 0 <= i < |words| ensures ParseWord(words[i]) == Some(params[i]) {
          if i > 0 {
            assert words[i] == words[1..][i - 1] && params[i] == params[1..][i - 1];
          }
        }
      }
      if |params| == |words| && forall i | 0 <= i < |words| :: ParseWord(words[i]) == Some(params[i]) {
        assert forall i | 0 <= i < |words[1..]| :: ParseWord(words[1..][i]) == Some(params[1..][i]);
        assert [params[0]] + params[1..] == params;
      }
    }
  }
}
