/**
 The four delivery-status parameters of sections 4.1 to 4.4 of RFC 3461: each at most
 once in a command, and each with a value of its own grammar.
 */
module Dsn {
  import opened Bytes
  import opened Params

  datatype DsnCommand = MailParams | RcptParams

  datatype DsnKeyword = Ret | Envid | Notify | Orcpt {
    function Name(): Octets {
      match this
      case Ret => [0x52, 0x45, 0x54]
      case Envid => [0x45, 0x4e, 0x56, 0x49, 0x44]
      case Notify => [0x4e, 0x4f, 0x54, 0x49, 0x46, 0x59]
      case Orcpt => [0x4f, 0x52, 0x43, 0x50, 0x54]
    }

    predicate On(which: DsnCommand) {
      which.MailParams? <==> (this.Ret? || this.Envid?)
    }
  }

  const FULL: Octets := [0x46, 0x55, 0x4c, 0x4c]
  const HDRS: Octets := [0x48, 0x44, 0x52, 0x53]
  const NEVER: Octets := [0x4e, 0x45, 0x56, 0x45, 0x52]
  const SUCCESS: Octets := [0x53, 0x55, 0x43, 0x43, 0x45, 0x53, 0x53]
  const FAILURE: Octets := [0x46, 0x41, 0x49, 0x4c, 0x55, 0x52, 0x45]
  const DELAY: Octets := [0x44, 0x45, 0x4c, 0x41, 0x59]
  const PLUS: Byte := 0x2b
  const COMMA: Byte := 0x2c
  const SEMICOLON: Byte := 0x3b

  /** Which of the command's own parameters a keyword names, whatever its case. */
  function KeywordOf(keyword: Octets, which: DsnCommand): (k: Option<DsnKeyword>)
    ensures k.Some? ==> k.value.On(which) && UpperAll(keyword) == k.value.Name()
    ensures k.None? ==> forall d: DsnKeyword | d.On(which) :: UpperAll(keyword) != d.Name()
  {
    var u := UpperAll(keyword);
    match which
    case MailParams => if u == Ret.Name() then Some(Ret) else if u == Envid.Name() then Some(Envid) else None
    case RcptParams => if u == Notify.Name() then Some(Notify) else if u == Orcpt.Name() then Some(Orcpt) else None
  }

  lemma NamesSpelled()
    ensures Ret.Name() == Ascii("RET") && Envid.Name() == Ascii("ENVID")
    ensures Notify.Name() == Ascii("NOTIFY") && Orcpt.Name() == Ascii("ORCPT")
    ensures FULL == Ascii("FULL") && HDRS == Ascii("HDRS") && NEVER == Ascii("NEVER")
    ensures SUCCESS == Ascii("SUCCESS") && FAILURE == Ascii("FAILURE") && DELAY == Ascii("DELAY")
  {
  }

  // ----- values

  predicate IsHex(b: Byte) {
    IsDigit(b) || 0x41 <= b <= 0x46 || 0x61 <= b <= 0x66
  }

  /** Printable ASCII other than `+` and `=`, or `+` and two hex digits. */
  predicate IsXtext(s: Octets)
    decreases |s|
  {
    if s == [] then true
    else if s[0] == PLUS then |s| >= 3 && IsHex(s[1]) && IsHex(s[2]) && IsXtext(s[3..])
    else 0x21 <= s[0] <= 0x7e && s[0] != EQUALS && IsXtext(s[1..])
  }

  method CheckXtext(s: Octets) returns (ok: bool)
    ensures ok <==> IsXtext(s)
  {
    var i := 0;
    assert s[0..] == s;
    while i < |s|
      invariant i <= |s| && (IsXtext(s) <==> IsXtext(s[i..]))
    {
      var rest := s[i..];
      if s[i] == PLUS {
        if i + 2 >= |s| || !IsHex(s[i + 1]) || !IsHex(s[i + 2]) {
          return false;
        }
        assert rest[3..] == s[i + 3..];
        i := i + 3;
      } else if 0x21 <= s[i] <= 0x7e && s[i] != EQUALS {
        assert rest[1..] == s[i + 1..];
        i := i + 1;
      } else {
        return false;
      }
    }
    return true;
  }

  function SplitOn(s: Octets, b: Byte): (items: seq<Octets>)
    ensures |items| >= 1
    decreases |s|
  {
    var n := Find(s, b);
    if n == |s| then [s] else [s[..n]] + SplitOn(s[n + 1..], b)
  }

  predicate IsEvent(item: Octets) {
    UpperAll(item) in {NEVER, SUCCESS, FAILURE, DELAY}
  }

  /** Known events, none twice, and NEVER only by itself. */
  predicate NotifyItemsOk(items: seq<Octets>) {
    && (forall i | 0 <= i < |items| :: IsEvent(items[i]))
    && (forall i, j | 0 <= i < j < |items| :: !SameFolded(items[i], items[j]))
    && ((exists i | 0 <= i < |items| :: UpperAll(items[i]) == NEVER) ==> |items| == 1)
  }

  method CheckNotify(v: Octets) returns (ok: bool)
    ensures ok <==> NotifyItemsOk(SplitOn(v, COMMA))
  {
    var items := SplitOn(v, COMMA);
    var seen: seq<Octets> := [];
    for i := 0 to |items|
      invariant |seen| == i && forall j | 0 <= j < i :: seen[j] == UpperAll(items[j])
      invariant forall j | 0 <= j < i :: IsEvent(items[j])
      invariant forall j, k | 0 <= j < k < i :: seen[j] != seen[k]
    {
      var upper := UpperAll(items[i]);
      if !IsEvent(items[i]) {
        return false;
      }
      if upper in seen {
        return false;
      }
      seen := seen + [upper];
    }
    if NEVER in seen && |items| > 1 {
      return false;
    }
    return true;
  }

  /** The grammar of each parameter's value. */
  predicate DsnValueOk(k: DsnKeyword, value: Option<Octets>) {
    && value.Some?
    && var v := value.value;
    match k
    case Ret => SameFolded(v, FULL) || SameFolded(v, HDRS)
    case Envid => 1 <= |v| <= 100 && IsXtext(v)
    case Notify => v != [] && NotifyItemsOk(SplitOn(v, COMMA))
    case Orcpt =>
      var n := Find(v, SEMICOLON);
      |v| <= 500 && n + 1 < |v| && KeywordOk(v[..n]) && IsXtext(v[n + 1..])
  }

  method CheckValue(k: DsnKeyword, value: Option<Octets>) returns (ok: bool)
    ensures ok <==> DsnValueOk(k, value)
  {
    if value.None? {
      return false;
    }
    var v := value.value;
    match k {
      case Ret => ok := SameFolded(v, FULL) || SameFolded(v, HDRS);
      case Envid =>
        ok := CheckXtext(v);
        ok := ok && 1 <= |v| <= 100;
      case Notify =>
        ok := CheckNotify(v);
        ok := ok && v != [];
      case Orcpt =>
        var n := Find(v, SEMICOLON);
        if |v| > 500 || n + 1 >= |v| || !KeywordOk(v[..n]) {
          return false;
        }
        ok := CheckXtext(v[n + 1..]);
    }
  }

  // ----- a command's parameters

  /** The parameters that carry keyword `k`, in order. */
  function With(params: seq<Param>, k: DsnKeyword): seq<Param>
    decreases |params|
  {
    if params == [] then [] else Own(params[0], k) + With(params[1..], k)
  }

  function Own(p: Param, k: DsnKeyword): seq<Param> {
    if UpperAll(p.keyword) == k.Name() then [p] else []
  }

  predicate OnceAndOk(params: seq<Param>, k: DsnKeyword) {
    |With(params, k)| == 0 || (|With(params, k)| == 1 && DsnValueOk(k, With(params, k)[0].value))
  }

  ghost predicate DsnValid(params: seq<Param>, which: DsnCommand) {
    forall k: DsnKeyword | k.On(which) :: OnceAndOk(params, k)
  }

  lemma {:induction false} WithConcat(a: seq<Param>, b: seq<Param>, k: DsnKeyword)
    ensures With(a + b, k) == With(a, k) + With(b, k)
    decreases |a|
  {
    if a == [] {
      assert a + b == b;
    } else {
      assert (a + b)[0] == a[0] && (a + b)[1..] == a[1..] + b;
      WithConcat(a[1..], b, k);
      Assoc(Own(a[0], k), With(a[1..], k), With(b, k));
    }
  }

  lemma WithLast(params: seq<Param>, i: nat, k: DsnKeyword)
    requires i < |params|
    ensures With(params[..i + 1], k) ==
            With(params[..i], k) + Own(params[i], k)
  {
    assert params[..i + 1] == params[..i] + [params[i]];
    WithConcat(params[..i], [params[i]], k);
    assert [params[i]][1..] == [];
    assert Own(params[i], k) + [] == Own(params[i], k);
  }

  /** What has been seen of keyword `k` in the first `i` parameters. */
  predicate SeenOne(params: seq<Param>, i: nat, seen: seq<Octets>, k: DsnKeyword)
    requires i <= |params|
  {
    OnceAndOk(params[..i], k) && (k.Name() in seen <==> With(params[..i], k) != [])
  }

  method ValidateDsn(params: seq<Param>, which: DsnCommand) returns (ok: bool)
    ensures ok <==> DsnValid(params, which)
  {
    var seen: seq<Octets> := [];
    for i := 0 to |params|
      invariant forall d: DsnKeyword | d.On(which) :: SeenOne(params, i, seen, d)
    {
      var k := KeywordOf(params[i].keyword, which);
      if k.Some? {
        var good := CheckValue(k.value, params[i].value);
        if k.value.Name() in seen || !good {
          assert SeenOne(params, i, seen, k.value);
          Spoiled(params, i, k.value);
          return false;
        }
        forall d: DsnKeyword | d.On(which) ensures SeenOne(params, i + 1, seen + [k.value.Name()], d) {
          SeesOne(params, i, seen, k.value, d);
        }
        seen := seen + [k.value.Name()];
      } else {
        forall d: DsnKeyword | d.On(which) ensures SeenOne(params, i + 1, seen, d) {
          SeesNone(params, i, seen, which, d);
        }
      }
    }
    assert params[..|params|] == params;
    assert forall d: DsnKeyword | d.On(which) :: SeenOne(params, |params|, seen, d);
    return true;
  }

  lemma SeesOne(params: seq<Param>, i: nat, seen: seq<Octets>, k: DsnKeyword, d: DsnKeyword)
    requires i < |params| && UpperAll(params[i].keyword) == k.Name() && DsnValueOk(k, params[i].value)
    requires SeenOne(params, i, seen, d) && k.Name() !in seen
    ensures SeenOne(params, i + 1, seen + [k.Name()], d)
  {
    WithLast(params, i, d);
    NamesDiffer(k, d);
  }

  lemma SeesNone(params: seq<Param>, i: nat, seen: seq<Octets>, which: DsnCommand, d: DsnKeyword)
    requires i < |params| && KeywordOf(params[i].keyword, which).None? && d.On(which)
    requires SeenOne(params, i, seen, d)
    ensures SeenOne(params, i + 1, seen, d)
  {
    WithLast(params, i, d);
  }

  lemma NamesDiffer(k: DsnKeyword, d: DsnKeyword)
    ensures k.Name() == d.Name() <==> k == d
  {
  }

  lemma Spoiled(params: seq<Param>, i: nat, k: DsnKeyword)
    requires i < |params| && UpperAll(params[i].keyword) == k.Name()
    requires With(params[..i], k) != [] || !DsnValueOk(k, params[i].value)
    ensures !OnceAndOk(params, k)
  {
    WithLast(params, i, k);
    assert params == params[..i + 1] + params[i + 1..];
    WithConcat(params[..i + 1], params[i + 1..], k);
  }
}
