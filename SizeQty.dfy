/** saleor/product/ingestion.py, `parse_sizes_and_qty`: the `size[qty]` notation of the
    supplier sheets. The pattern `([^\[\],\s]+)\s*\[(\d+)\]` is found left to right,
    without overlaps, anywhere in the cell; text around the matches is ignored. Regular
    expression whitespace and digits are their ASCII members here. */
module SizeQty {
  import opened Wrappers
  import opened Text

  /** A character of the size group `[^\[\],\s]`. */
  predicate SizeChar(c: char) {
    c != '[' && c != ']' && c != ',' && !IsSpace(c)
  }

  /** Length of the longest prefix of size characters. */
  function SizeRun(s: string): (n: nat)
    ensures n <= |s|
    ensures n == |s| || !SizeChar(s[n])
  {
    if s == [] || !SizeChar(s[0]) then 0 else 1 + SizeRun(s[1..])
  }

  /** Length of the longest prefix of whitespace, `\s*`. */
  function SpaceRun(s: string): (n: nat)
    ensures n <= |s|
    ensures n == |s| || !IsSpace(s[n])
  {
    if s == [] || !IsSpace(s[0]) then 0 else 1 + SpaceRun(s[1..])
  }

  /** Length of the longest prefix of digits, `\d*`. */
  function DigitRun(s: string): (n: nat)
    ensures n <= |s|
    ensures n == |s| || !IsDigit(s[n])
  {
    if s == [] || !IsDigit(s[0]) then 0 else 1 + DigitRun(s[1..])
  }

  lemma {:induction false} DigitRunDigits(s: string)
    ensures AllDigits(s[..DigitRun(s)])
  {
    if s != [] && IsDigit(s[0]) {
      DigitRunDigits(s[1..]);
      assert s[..DigitRun(s)] == [s[0]] + s[1..][..DigitRun(s[1..])];
    }
  }

  /** One match: the size group, the quantity group as a number, and how many characters
      the match spans. */
  datatype Token = Token(size: string, qty: nat, len: nat)

  /** The match of the pattern that starts at the first character, if any. Every group
      is greedy, and no shorter choice could be followed by what the pattern needs next,
      so the longest runs decide: the size run, then the whitespace run, a bracket, the
      digit run and the closing bracket. */
  function MatchPrefix(s: string): (m: Option<Token>)
    ensures m.Some? ==> 0 < m.value.len <= |s|
  {
    var a := SizeRun(s);
    if a == 0 then None else MatchBracket(s, a)
  }

  /** The rest of a match whose size group is `s[..a]`. */
  function MatchBracket(s: string, a: nat): (m: Option<Token>)
    requires 0 < a <= |s|
    ensures m.Some? ==> 0 < m.value.len <= |s|
  {
    var b := a + SpaceRun(s[a..]);
    if b >= |s| || s[b] != '[' then None else MatchQty(s, a, b)
  }

  /** The quantity group of a match whose opening bracket is `s[b]`. */
  function MatchQty(s: string, a: nat, b: nat): (m: Option<Token>)
    requires 0 < a <= b < |s|
    ensures m.Some? ==> 0 < m.value.len <= |s|
  {
    var t := s[b + 1..];
    var c := b + 1 + DigitRun(t);
    if c == b + 1 || c >= |s| || s[c] != ']' then None
    else
      DigitRunDigits(t);
      assert s[b + 1..c] == t[..DigitRun(t)];
      Some(Token(s[..a], StrToNat(s[b + 1..c]), c + 1))
  }

  /** `re.findall` of the pattern: the (size, quantity) pairs in order. */
  function Matches(s: string): (r: seq<(string, nat)>)
    decreases |s|
  {
    if s == [] then []
    else match MatchPrefix(s)
      case Some(t) => [(t.size, t.qty)] + Matches(s[t.len..])
      case None => Matches(s[1..])
  }

  datatype SizeQtyUnparseable = SizeQtyUnparseable(text: string)

  function SizesOf(ms: seq<(string, nat)>): (r: seq<string>)
    ensures |r| == |ms| && forall k :: 0 <= k < |ms| ==> r[k] == ms[k].0
  {
    seq(|ms|, k requires 0 <= k < |ms| => ms[k].0)
  }

  function QtysOf(ms: seq<(string, nat)>): (r: seq<nat>)
    ensures |r| == |ms| && forall k :: 0 <= k < |ms| ==> r[k] == ms[k].1
  {
    seq(|ms|, k requires 0 <= k < |ms| => ms[k].1)
  }

  /** `parse_sizes_and_qty`: nothing for an empty cell, an error when the cell holds no
      match at all, otherwise the sizes and the quantities in the order they appear. A
      size matched by the pattern holds no whitespace, so its `strip()` changes nothing. */
  function ParseSizesAndQty(s: string): (r: Result<(seq<string>, seq<nat>), SizeQtyUnparseable>)
    ensures s == [] ==> r == Ok(([], []))
    ensures r.Err? <==> s != [] && Matches(s) == []
    ensures r.Err? ==> r.error == SizeQtyUnparseable(s)
    ensures r.Ok? ==> |r.value.0| == |r.value.1|
  {
    if s == [] then Ok(([], []))
    else
      var ms := Matches(s);
      if ms == [] then Err(SizeQtyUnparseable(s))
      else Ok((SizesOf(ms), QtysOf(ms)))
  }

  /** `parse_sizes_and_qty` with its loop: the matches' sizes and quantities appended to
      two lists. */
  method ParseSizesAndQtyLoop(s: string) returns (r: Result<(seq<string>, seq<nat>), SizeQtyUnparseable>)
    ensures r == ParseSizesAndQty(s)
  {
    if s == [] {
      return Ok(([], []));
    }
    var ms := Matches(s);
    if ms == [] {
      return Err(SizeQtyUnparseable(s));
    }
    var sizes: seq<string> := [];
    var quantities: seq<nat> := [];
    for i := 0 to |ms|
      invariant |sizes| == i && |quantities| == i
      invariant forall k :: 0 <= k < i ==> sizes[k] == ms[k].0 && quantities[k] == ms[k].1
    {
      sizes := sizes + [ms[i].0];
      quantities := quantities + [ms[i].1];
    }
    assert sizes == SizesOf(ms) && quantities == QtysOf(ms);
    return Ok((sizes, quantities));
  }

  /** The text of one entry: `size[qty]`. */
  function Entry(size: string, qty: nat): (e: string)
    ensures e == SpacedEntry(size, [], qty)
  {
    size + "[" + NatToStr(qty) + "]"
  }

  /** A size the notation can carry: non-empty, with no bracket, comma or whitespace. */
  predicate WritableSize(size: string) {
    |size| > 0 && forall i :: 0 <= i < |size| ==> SizeChar(size[i])
  }

  lemma {:induction false} SizeRunAt(s: string, a: nat)
    requires a <= |s|
    requires forall i :: 0 <= i < a ==> SizeChar(s[i])
    requires a == |s| || !SizeChar(s[a])
    ensures SizeRun(s) == a
  {
    if a > 0 {
      var t := s[1..];
      assert forall i :: 0 <= i < a - 1 ==> t[i] == s[i + 1];
      assert a - 1 == |t| || t[a - 1] == s[a];
      SizeRunAt(t, a - 1);
    }
  }

  lemma {:induction false} SpaceRunFrom(u: string, n: nat)
    requires n <= |u|
    requires forall i :: 0 <= i < n ==> IsSpace(u[i])
    requires n == |u| || !IsSpace(u[n])
    ensures SpaceRun(u) == n
  {
    if n > 0 {
      var t := u[1..];
      assert forall i :: 0 <= i < n - 1 ==> t[i] == u[i + 1];
      assert n - 1 == |t| || t[n - 1] == u[n];
      SpaceRunFrom(t, n - 1);
    }
  }

  lemma {:induction false} DigitRunFrom(u: string, n: nat)
    requires n <= |u|
    requires forall i :: 0 <= i < n ==> IsDigit(u[i])
    requires n == |u| || !IsDigit(u[n])
    ensures DigitRun(u) == n
  {
    if n > 0 {
      var t := u[1..];
      assert forall i :: 0 <= i < n - 1 ==> t[i] == u[i + 1];
      assert n - 1 == |t| || t[n - 1] == u[n];
      DigitRunFrom(t, n - 1);
    }
  }

  lemma SpaceRunAt(s: string, a: nat, b: nat)
    requires a <= b <= |s|
    requires forall i :: a <= i < b ==> IsSpace(s[i])
    requires b == |s| || !IsSpace(s[b])
    ensures SpaceRun(s[a..]) == b - a
  {
    var u := s[a..];
    assert forall i :: 0 <= i < b - a ==> u[i] == s[a + i];
    assert b == |s| || u[b - a] == s[b];
    SpaceRunFrom(u, b - a);
  }

  lemma DigitRunAt(s: string, b: nat, c: nat)
    requires b < c < |s|
    requires forall i :: b < i < c ==> IsDigit(s[i])
    requires !IsDigit(s[c])
    ensures DigitRun(s[b + 1..]) == c - b - 1
  {
    var t := s[b + 1..];
    assert forall i :: 0 <= i < c - b - 1 ==> t[i] == s[b + 1 + i];
    assert t[c - b - 1] == s[c];
    DigitRunFrom(t, c - b - 1);
  }

  /** A match described by positions: size characters before `a`, whitespace up to the
      bracket at `b`, digits up to `c` and the closing bracket at `c`. */
  lemma MatchAt(s: string, a: nat, b: nat, c: nat)
    requires 0 < a <= b && b + 1 < c < |s|
    requires forall i :: 0 <= i < a ==> SizeChar(s[i])
    requires forall i :: a <= i < b ==> IsSpace(s[i])
    requires s[b] == '[' && s[c] == ']'
    requires forall i :: b < i < c ==> IsDigit(s[i])
    ensures MatchPrefix(s) == Some(Token(s[..a], StrToNat(s[b + 1..c]), c + 1))
  {
    assert !SizeChar(s[a]) by {
      if a < b {
        assert IsSpace(s[a]);
      }
    }
    SizeRunAt(s, a);
    SpaceRunAt(s, a, b);
    DigitRunAt(s, b, c);
    MatchQtyAt(s, a, b, c);
    MatchBracketAt(s, a, b);
  }

  lemma MatchQtyAt(s: string, a: nat, b: nat, c: nat)
    requires 0 < a <= b && b + 1 < c < |s|
    requires DigitRun(s[b + 1..]) == c - b - 1 && s[c] == ']'
    requires AllDigits(s[b + 1..c])
    ensures MatchQty(s, a, b) == Some(Token(s[..a], StrToNat(s[b + 1..c]), c + 1))
  {
  }

  lemma MatchBracketAt(s: string, a: nat, b: nat)
    requires 0 < a <= b < |s|
    requires SpaceRun(s[a..]) == b - a && s[b] == '['
    ensures MatchBracket(s, a) == MatchQty(s, a, b)
  {
  }

  /** An entry with whitespace before its bracket, `size [qty]`. */
  function SpacedEntry(size: string, spaces: string, qty: nat): string {
    size + spaces + "[" + NatToStr(qty) + "]"
  }

  /** A written entry at the front is matched whole, whatever follows it. */
  lemma MatchEntry(size: string, spaces: string, qty: nat, rest: string)
    requires WritableSize(size) && IsBlank(spaces)
    ensures MatchPrefix(SpacedEntry(size, spaces, qty) + rest)
      == Some(Token(size, qty, |SpacedEntry(size, spaces, qty)|))
  {
    var d := NatToStr(qty);
    assert SpacedEntry(size, spaces, qty) + rest == size + spaces + "[" + d + "]" + rest;
    MatchDigits(SpacedEntry(size, spaces, qty) + rest, size, spaces, d, rest);
    StrToNatOfNatToStr(qty);
  }

  /** The same for any non-empty run of digits between the brackets. */
  lemma MatchDigits(s: string, size: string, spaces: string, d: string, rest: string)
    requires s == size + spaces + "[" + d + "]" + rest
    requires WritableSize(size) && IsBlank(spaces) && |d| > 0 && AllDigits(d)
    ensures MatchPrefix(s) == Some(Token(size, StrToNat(d), |size| + |spaces| + |d| + 2))
  {
    var b, c := |size| + |spaces|, |size| + |spaces| + 1 + |d|;
    EntryQty(s, b, size, spaces, d, rest);
    assert s[b] == '[' && s[c] == ']' && s[b + 1..c] == d;
    EntrySize(s, size, spaces, d, rest);
    EntrySpaces(s, size, spaces, d, rest);
    EntryDigits(s, b, size, spaces, d, rest);
    MatchLaidOut(s, |size|, b, c, size, d);
    assert c + 1 == |size| + |spaces| + |d| + 2;
    assert Token(size, StrToNat(d), c + 1) == Token(size, StrToNat(d), |size| + |spaces| + |d| + 2);
  }

  /** `MatchAt` with the groups named. */
  lemma MatchLaidOut(s: string, a: nat, b: nat, c: nat, size: string, d: string)
    requires 0 < a <= b && b + 1 < c < |s|
    requires forall i :: 0 <= i < a ==> SizeChar(s[i])
    requires forall i :: a <= i < b ==> IsSpace(s[i])
    requires s[b] == '[' && s[c] == ']'
    requires forall i :: b < i < c ==> IsDigit(s[i])
    requires s[..a] == size && s[b + 1..c] == d
    ensures AllDigits(d) && MatchPrefix(s) == Some(Token(size, StrToNat(d), c + 1))
  {
    MatchAt(s, a, b, c);
  }

  lemma EntrySize(s: string, size: string, spaces: string, d: string, rest: string)
    requires s == size + spaces + "[" + d + "]" + rest && WritableSize(size)
    ensures s[..|size|] == size && forall i :: 0 <= i < |size| ==> SizeChar(s[i])
  {
    assert forall i :: 0 <= i < |size| ==> s[i] == size[i];
  }

  lemma EntrySpaces(s: string, size: string, spaces: string, d: string, rest: string)
    requires s == size + spaces + "[" + d + "]" + rest && IsBlank(spaces)
    ensures forall i :: |size| <= i < |size| + |spaces| ==> IsSpace(s[i])
  {
    assert forall i :: |size| <= i < |size| + |spaces| ==> s[i] == spaces[i - |size|];
  }

  lemma EntryQty(s: string, b: nat, size: string, spaces: string, d: string, rest: string)
    requires s == size + spaces + "[" + d + "]" + rest && b == |size| + |spaces|
    ensures |s| == b + |d| + 2 + |rest|
    ensures s[b] == '[' && s[b + 1 + |d|] == ']' && s[b + 1..b + 1 + |d|] == d
  {
    assert s == (size + spaces + "[") + d + ("]" + rest);
  }

  lemma EntryDigits(s: string, b: nat, size: string, spaces: string, d: string, rest: string)
    requires s == size + spaces + "[" + d + "]" + rest && b == |size| + |spaces| && AllDigits(d)
    ensures forall i :: b < i < b + 1 + |d| ==> IsDigit(s[i])
  {
    assert forall i :: 0 <= i < |d| ==> s[b + 1 + i] == d[i];
  }

  /** A character outside the size group is skipped. */
  lemma SkipChar(c: char, rest: string)
    requires !SizeChar(c)
    ensures Matches([c] + rest) == Matches(rest)
  {
    assert ([c] + rest)[1..] == rest;
  }

  /** After a written entry the search goes on right behind it. */
  lemma MatchesEntry(size: string, spaces: string, qty: nat, rest: string)
    requires WritableSize(size) && IsBlank(spaces)
    ensures Matches(SpacedEntry(size, spaces, qty) + rest) == [(size, qty)] + Matches(rest)
  {
    MatchEntry(size, spaces, qty, rest);
    var e := SpacedEntry(size, spaces, qty);
    var s := e + rest;
    assert s[|e|..] == rest;
  }

  /** Characters none of which can start a size are skipped. */
  predicate Separator(sep: string) {
    forall i :: 0 <= i < |sep| ==> !SizeChar(sep[i])
  }

  lemma {:induction false} SeparatorSkipped(sep: string, rest: string)
    requires Separator(sep)
    ensures Matches(sep + rest) == Matches(rest)
  {
    if sep != [] {
      var t := sep[1..] + rest;
      assert !SizeChar(sep[0]);
      assert sep + rest == [sep[0]] + t;
      SkipChar(sep[0], t);
      SeparatorSkipped(sep[1..], rest);
    } else {
      assert sep + rest == rest;
    }
  }

  /** Size characters up to `a`, whitespace up to `b` and then no bracket: no match. */
  lemma NoMatchAt(s: string, a: nat, b: nat)
    requires 0 < a <= b <= |s|
    requires forall i :: 0 <= i < a ==> SizeChar(s[i])
    requires a == |s| || !SizeChar(s[a])
    requires forall i :: a <= i < b ==> IsSpace(s[i])
    requires b == |s| || (!IsSpace(s[b]) && s[b] != '[')
    ensures MatchPrefix(s).None?
  {
    SizeRunAt(s, a);
    SpaceRunAt(s, a, b);
  }

  /** A word with no bracket after it, such as a remark in the cell, contributes nothing:
      it is skipped together with the whitespace behind it. */
  lemma {:induction false} UnbracketedWordIgnored(w: string, sep: string, rest: string)
    requires WritableSize(w)
    requires IsBlank(sep)
    requires rest == [] || (rest[0] != '[' && !IsSpace(rest[0]))
    requires sep + rest == [] || !SizeChar((sep + rest)[0])
    ensures Matches(w + sep + rest) == Matches(rest)
    decreases |w|
  {
    var s := w + sep + rest;
    var a := |w|;
    var b := a + |sep|;
    assert forall i :: 0 <= i < a ==> s[i] == w[i];
    assert forall i :: a <= i < b ==> s[i] == sep[i - a];
    assert a == |s| || s[a] == (sep + rest)[0];
    assert b == |s| || s[b] == rest[0];
    NoMatchAt(s, a, b);
    if |w| > 1 {
      assert s[1..] == w[1..] + sep + rest;
      UnbracketedWordIgnored(w[1..], sep, rest);
    } else {
      assert s[1..] == sep + rest;
      SeparatorSkipped(sep, rest);
    }
  }

  /** The cell text of several entries: `size[qty]` items joined by `sep`. */
  function Entries(items: seq<(string, nat)>, sep: string): string {
    Join(EntryTexts(items), sep)
  }

  function EntryTexts(items: seq<(string, nat)>): (r: seq<string>)
    ensures |r| == |items| && forall k :: 0 <= k < |items| ==> r[k] == Entry(items[k].0, items[k].1)
  {
    seq(|items|, k requires 0 <= k < |items| => Entry(items[k].0, items[k].1))
  }

  lemma EntriesCons(items: seq<(string, nat)>, sep: string)
    requires |items| > 1
    ensures Entries(items, sep) == Entry(items[0].0, items[0].1) + (sep + Entries(items[1..], sep))
  {
    assert EntryTexts(items[1..]) == EntryTexts(items)[1..];
  }

  /** Reading back entries joined by a separator finds exactly those entries. */
  lemma {:induction false} MatchesOfEntries(items: seq<(string, nat)>, sep: string)
    requires forall k :: 0 <= k < |items| ==> WritableSize(items[k].0)
    requires Separator(sep)
    ensures Matches(Entries(items, sep)) == items
  {
    if |items| == 1 {
      MatchesEntry(items[0].0, [], items[0].1, []);
      assert Entries(items, sep) == SpacedEntry(items[0].0, [], items[0].1) + [];
    } else if |items| > 1 {
      var tail := Entries(items[1..], sep);
      EntriesCons(items, sep);
      MatchesEntry(items[0].0, [], items[0].1, sep + tail);
      SeparatorSkipped(sep, tail);
      MatchesOfEntries(items[1..], sep);
      assert items == [items[0]] + items[1..];
    }
  }

  /** `parse_sizes_and_qty` reads back what the `size[qty]` notation writes, whatever
      the separator ("6.5[1], 7[1]", "S[5] M[10]", "8[5],9[3]"): the same sizes and
      quantities, in the same order. */
  lemma ParseEntries(items: seq<(string, nat)>, sep: string)
    requires forall k :: 0 <= k < |items| ==> WritableSize(items[k].0)
    requires Separator(sep)
    ensures ParseSizesAndQty(Entries(items, sep)) == Ok((SizesOf(items), QtysOf(items)))
  {
    if items == [] {
      assert Entries(items, sep) == [];
      assert SizesOf(items) == [] && QtysOf(items) == [];
    } else {
      MatchesOfEntries(items, sep);
      assert Entries(items, sep) != [] by {
        assert Matches([]) == [];
      }
    }
  }

  /** Whitespace between a size and its bracket is allowed ("XS [20]"). */
  lemma ParseSpacedEntry(size: string, spaces: string, qty: nat)
    requires WritableSize(size) && IsBlank(spaces)
    ensures ParseSizesAndQty(SpacedEntry(size, spaces, qty)) == Ok(([size], [qty]))
  {
    MatchesEntry(size, spaces, qty, []);
    var e := SpacedEntry(size, spaces, qty);
    assert e + [] == e;
    assert Matches([]) == [];
    assert e != [];
    var ms := [(size, qty)];
    assert Matches(e) == ms;
    assert ParseSizesAndQty(e) == Ok((SizesOf(ms), QtysOf(ms)));
    assert SizesOf(ms) == [size] && QtysOf(ms) == [qty];
  }

  /** Words without a bracketed quantity ("one size") are rejected. */
  lemma WordsOnlyRejected(w: string, v: string)
    requires WritableSize(w) && WritableSize(v)
    ensures ParseSizesAndQty(w + " " + v) == Err(SizeQtyUnparseable(w + " " + v))
  {
    UnbracketedWordIgnored(w, " ", v);
    UnbracketedWordIgnored(v, [], []);
    assert v + [] + [] == v;
  }
}
