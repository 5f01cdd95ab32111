/**
 Well-formed UTF-8, which is what the proxy demands of a command argument and of an
 upstream reply before it treats either as text.
 */
module Utf8 {
  import opened Bytes

  predicate IsTail(b: Byte) {
    0x80 <= b <= 0xbf
  }

  /** The length of the character at the front of `s`, or 0 when there is none. */
  function CharLength(s: Octets): (n: nat)
    ensures n <= |s|
  {
    if s == [] then 0
    else if s[0] < 0x80 then 1
    else if 0xc2 <= s[0] <= 0xdf && |s| >= 2 && IsTail(s[1]) then 2
    else if |s| >= 3 && IsTail(s[1]) && IsTail(s[2]) &&
            ((s[0] == 0xe0 && s[1] >= 0xa0) || (s[0] == 0xed && s[1] <= 0x9f) ||
             0xe1 <= s[0] <= 0xec || 0xee <= s[0] <= 0xef) then 3
    else if |s| >= 4 && IsTail(s[1]) && IsTail(s[2]) && IsTail(s[3]) &&
            ((s[0] == 0xf0 && s[1] >= 0x90) || (s[0] == 0xf4 && s[1] <= 0x8f) ||
             0xf1 <= s[0] <= 0xf3) then 4
    else 0
  }

  predicate IsUtf8(s: Octets)
    decreases |s|
  {
    s == [] || (CharLength(s) > 0 && IsUtf8(s[CharLength(s)..]))
  }

  predicate IsAscii(s: Octets) {
    forall i | 0 <= i < |s| :: s[i] < 0x80
  }

  lemma {:induction false} AsciiIsUtf8(s: Octets)
    requires IsAscii(s)
    ensures IsUtf8(s)
    decreases |s|
  {
    if s != [] {
      AsciiIsUtf8(s[1..]);
    }
  }

  /** The length of the whitespace character at the front of `s`, or 0 when it starts with none. */
  function SpaceLength(s: Octets): (n: nat)
    ensures n <= |s|
  {
    if s == [] then 0
    else if 0x09 <= s[0] <= 0x0d || s[0] == 0x20 then 1
    else if |s| >= 2 && s[0] == 0xc2 && (s[1] == 0x85 || s[1] == 0xa0) then 2
    else if |s| >= 3 &&
            ((s[0] == 0xe1 && s[1] == 0x9a && s[2] == 0x80) ||
             (s[0] == 0xe2 && s[1] == 0x80 && (0x80 <= s[2] <= 0x8a || s[2] in {0xa8, 0xa9, 0xaf})) ||
             (s[0] == 0xe2 && s[1] == 0x81 && s[2] == 0x9f) ||
             (s[0] == 0xe3 && s[1] == 0x80 && s[2] == 0x80)) then 3
    else 0
  }

  /** `s` without the whitespace characters it starts with. */
  function TrimStart(s: Octets): (t: Octets)
    ensures |t| <= |s| && SpaceLength(t) == 0
    decreases |s|
  {
    if SpaceLength(s) == 0 then s else TrimStart(s[SpaceLength(s)..])
  }

  /** Whitespace characters and nothing else. */
  predicate IsBlank(s: Octets)
    decreases |s|
  {
    s == [] || (SpaceLength(s) > 0 && IsBlank(s[SpaceLength(s)..]))
  }

  /** What is trimmed is exactly the whitespace in front. */
  lemma {:induction false} TrimStartMeans(ws: Octets, t: Octets)
    requires IsBlank(ws) && SpaceLength(t) == 0
    ensures TrimStart(ws + t) == t
    decreases |ws|
  {
    var n := SpaceLength(ws);
    if ws == [] {
      assert ws + t == t;
    } else {
      assert (ws + t)[..|ws|] == ws;
      assert SpaceLength(ws + t) == n;
      assert (ws + t)[n..] == ws[n..] + t;
      TrimStartMeans(ws[n..], t);
    }
  }

  lemma SpaceStays(s: Octets, t: Octets)
    ensures SpaceLength(s[..SpaceLength(s)] + t) == SpaceLength(s) || SpaceLength(s) == 0
  {
  }

  lemma BlankInFront(s: Octets, t: Octets)
    requires IsBlank(t)
    ensures IsBlank(s[..SpaceLength(s)] + t)
  {
    var n := SpaceLength(s);
    SpaceStays(s, t);
    assert (s[..n] + t)[n..] == t;
    assert n == 0 ==> s[..n] + t == t;
  }

  lemma {:induction false} TrimmedIsBlank(s: Octets) returns (ws: Octets)
    ensures s == ws + TrimStart(s) && IsBlank(ws)
    decreases |s|
  {
    var n := SpaceLength(s);
    if n == 0 {
      ws := [];
    } else {
      var more := TrimmedIsBlank(s[n..]);
      ws := s[..n] + more;
      BlankInFront(s, more);
      Rejoined(s, n, more, TrimStart(s[n..]));
    }
  }

  lemma Rejoined(s: Octets, n: nat, a: Octets, b: Octets)
    requires n <= |s| && s[n..] == a + b
    ensures s == s[..n] + a + b == s[..n] + (a + b)
  {
  }
}
