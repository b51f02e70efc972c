/** String helpers with Python's meaning: `str.strip()`, ASCII `lower`/`upper`,
    `str.isdigit`, decimal `str(n)` and `int(s)`, `", ".join`. Strings are `seq<char>`;
    only the ASCII part of Python's Unicode case and whitespace tables is modelled. */
module Text {
  import opened Wrappers

  /** Characters `str.strip()` removes (the ASCII members of `str.isspace`). */
  predicate IsSpace(c: char) {
    c == ' ' || c == '\t' || c == '\n' || c == '\r' || c == '\U{B}' || c == '\U{C}'
    || ('\U{1C}' <= c <= '\U{1F}')
  }

  predicate IsBlank(s: string) {
    forall i :: 0 <= i < |s| ==> IsSpace(s[i])
  }

  function TrimLeft(s: string): (r: string)
    ensures |r| <= |s| && r == s[|s| - |r|..]
    ensures r == [] || !IsSpace(r[0])
    ensures forall i :: 0 <= i < |s| - |r| ==> IsSpace(s[i])
  {
    if s == [] || !IsSpace(s[0]) then s else TrimLeft(s[1..])
  }

  function TrimRight(s: string): (r: string)
    ensures |r| <= |s| && r == s[..|r|]
    ensures r == [] || !IsSpace(r[|r| - 1])
    ensures forall i :: |r| <= i < |s| ==> IsSpace(s[i])
  {
    if s == [] || !IsSpace(s[|s| - 1]) then s else TrimRight(s[..|s| - 1])
  }

  /** Python `s.strip()`. */
  function Strip(s: string): (r: string)
  {
    TrimRight(TrimLeft(s))
  }

  lemma StripShape(s: string)
    ensures |Strip(s)| <= |s|
    ensures Strip(s) == [] || (!IsSpace(Strip(s)[0]) && !IsSpace(Strip(s)[|Strip(s)| - 1]))
  {
    var l := TrimLeft(s);
    var r := TrimRight(l);
    if r != [] {
      assert r[0] == l[0];
    }
  }

  /** `strip()` gives the empty string exactly for blank input. */
  /** Stripping only removes characters. */
  lemma StripWithin(s: string)
    ensures forall c :: c in Strip(s) ==> c in s
  {
    var l := TrimLeft(s);
    assert forall c :: c in l ==> c in s;
    assert forall c :: c in TrimRight(l) ==> c in l;
  }

  lemma StripEmptyIffBlank(s: string)
    ensures Strip(s) == [] <==> IsBlank(s)
  {
    var l := TrimLeft(s);
    if Strip(s) == [] {
      assert l == [];
    } else {
      StripShape(s);
      var r := Strip(s);
      assert r[0] == l[0] == s[|s| - |l|];
    }
  }

  lemma TrimLeftFixed(s: string)
    requires s == [] || !IsSpace(s[0])
    ensures TrimLeft(s) == s
  {
  }

  lemma TrimRightFixed(s: string)
    requires s == [] || !IsSpace(s[|s| - 1])
    ensures TrimRight(s) == s
  {
  }

  /** Stripping twice is stripping once. */
  lemma StripIdempotent(s: string)
    ensures Strip(Strip(s)) == Strip(s)
  {
    var r := Strip(s);
    StripShape(s);
    TrimLeftFixed(r);
    TrimRightFixed(r);
  }

  function LowerChar(c: char): char {
    if 'A' <= c <= 'Z' then (c as int + 32) as char else c
  }

  function UpperChar(c: char): char {
    if 'a' <= c <= 'z' then (c as int - 32) as char else c
  }

  predicate IsAsciiLetter(c: char) {
    ('a' <= c <= 'z') || ('A' <= c <= 'Z')
  }

  function Lower(s: string): (r: string)
    ensures |r| == |s|
    ensures forall i :: 0 <= i < |s| ==> r[i] == LowerChar(s[i])
  {
    seq(|s|, i requires 0 <= i < |s| => LowerChar(s[i]))
  }

  function Upper(s: string): (r: string)
    ensures |r| == |s|
    ensures forall i :: 0 <= i < |s| ==> r[i] == UpperChar(s[i])
  {
    seq(|s|, i requires 0 <= i < |s| => UpperChar(s[i]))
  }

  /** Python `str.title()` restricted to ASCII: a letter is upper-cased when it does not
      follow a letter, and lower-cased when it does. */
  function Title(s: string): (r: string)
    ensures |r| == |s|
    ensures forall i :: 0 <= i < |s| && IsAsciiLetter(s[i]) ==>
      r[i] == (if i > 0 && IsAsciiLetter(s[i - 1]) then LowerChar(s[i]) else UpperChar(s[i]))
  {
    seq(|s|, i requires 0 <= i < |s| =>
      if !IsAsciiLetter(s[i]) then s[i]
      else if i > 0 && IsAsciiLetter(s[i - 1]) then LowerChar(s[i])
      else UpperChar(s[i]))
  }

  predicate IsDigit(c: char) { '0' <= c <= '9' }

  /** Python `s.isdigit()` restricted to ASCII digits: non-empty and all digits. */
  predicate IsDigits(s: string) {
    |s| > 0 && forall i :: 0 <= i < |s| ==> IsDigit(s[i])
  }

  predicate AllDigits(s: string) {
    forall i :: 0 <= i < |s| ==> IsDigit(s[i])
  }

  function DigitChar(d: nat): char
    requires d < 10
  {
    ('0' as int + d) as char
  }

  /** Decimal rendering, Python `str(n)` for a non-negative integer. */
  function NatToStr(n: nat): (r: string)
    ensures |r| > 0 && AllDigits(r)
  {
    if n < 10 then [DigitChar(n)] else NatToStr(n / 10) + [DigitChar(n % 10)]
  }

  /** Python `int(s)` on a string of ASCII digits. */
  function StrToNat(s: string): nat
    requires AllDigits(s)
  {
    if s == [] then 0 else StrToNat(s[..|s| - 1]) * 10 + (s[|s| - 1] as int - '0' as int)
  }

  /** `int(str(n)) == n`. */
  lemma {:induction false} StrToNatOfNatToStr(n: nat)
    ensures StrToNat(NatToStr(n)) == n
  {
    if n >= 10 {
      var r := NatToStr(n);
      assert r[..|r| - 1] == NatToStr(n / 10);
      StrToNatOfNatToStr(n / 10);
    }
  }

  /** Decimal rendering is injective. */
  lemma NatToStrInjective(a: nat, b: nat)
    requires NatToStr(a) == NatToStr(b)
    ensures a == b
  {
    StrToNatOfNatToStr(a);
    StrToNatOfNatToStr(b);
  }

  /** Python `str(i)` for any integer. */
  function IntToStr(i: int): (r: string)
    ensures |r| > 0
    ensures i >= 0 <==> r[0] != '-'
  {
    if i < 0 then "-" + NatToStr(-i) else NatToStr(i)
  }

  /** Python `int(s)` on an optional minus sign followed by ASCII digits; `None` where
      `int` would raise. */
  function ParseInt(s: string): (r: Option<int>)
    ensures r.Some? ==> |s| > 0 && (r.value < 0 ==> s[0] == '-')
  {
    if |s| > 1 && s[0] == '-' && AllDigits(s[1..]) then Some(-(StrToNat(s[1..]) as int))
    else if |s| > 0 && AllDigits(s) then Some(StrToNat(s))
    else None
  }

  /** `int(str(i)) == i`. */
  lemma ParseIntOfIntToStr(i: int)
    ensures ParseInt(IntToStr(i)) == Some(i)
  {
    if i < 0 {
      var r := IntToStr(i);
      assert r[1..] == NatToStr(-i);
      StrToNatOfNatToStr(-i);
    } else {
      StrToNatOfNatToStr(i);
    }
  }

  lemma LowerIdempotent(s: string)
    ensures Lower(Lower(s)) == Lower(s)
  {
  }

  /** `sep.join(items)`. */
  function Join(items: seq<string>, sep: string): string
  {
    if items == [] then [] else if |items| == 1 then items[0] else items[0] + sep + Join(items[1..], sep)
  }

  /** `s.replace(c, "")` for a single character. */
  function RemoveChar(s: string, c: char): (r: string)
    ensures forall i :: 0 <= i < |r| ==> r[i] != c
    ensures |r| <= |s|
  {
    if s == [] then [] else (if s[0] == c then [] else [s[0]]) + RemoveChar(s[1..], c)
  }

  lemma {:induction false} RemoveCharAbsent(s: string, c: char)
    requires forall i :: 0 <= i < |s| ==> s[i] != c
    ensures RemoveChar(s, c) == s
  {
    if s != [] {
      RemoveCharAbsent(s[1..], c);
    }
  }

  predicate Contains(s: string, c: char) {
    exists i :: 0 <= i < |s| && s[i] == c
  }

  /** The part of `s` before the first `c`, Python `s.split(c)[0]`. */
  function FirstField(s: string, c: char): (r: string)
    ensures |r| <= |s| && r == s[..|r|]
    ensures forall i :: 0 <= i < |r| ==> r[i] != c
    ensures |r| == |s| || s[|r|] == c
  {
    if s == [] || s[0] == c then [] else
      var t := FirstField(s[1..], c);
      assert s[1..][..|t|] == s[1..|t| + 1];
      [s[0]] + t
  }

  predicate HasPrefix(s: string, p: string) {
    |p| <= |s| && s[..|p|] == p
  }

  predicate HasSuffix(s: string, p: string) {
    |p| <= |s| && s[|s| - |p|..] == p
  }
}
