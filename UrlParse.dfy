/** The parts of Python's `urllib.parse.urlparse` (3.11, without the bracketed-host check
    added in 3.11.4) and `os.path.splitext`
    that the image URL check reads: the scheme, the network location, and the path with
    its query, fragment and `;params` removed; and the extension of the last path
    component. */
module UrlParse {
  import opened Wrappers
  import opened Text

  /** `s.find(c, start)`: the first index at or after `start` holding `c`, or -1. */
  function FindFrom(s: string, c: char, start: nat): (i: int)
    ensures i == -1 || (start <= i < |s| && s[i] == c)
    ensures i == -1 ==> forall k :: start <= k < |s| ==> s[k] != c
    ensures i != -1 ==> forall k :: start <= k < i ==> s[k] != c
    decreases |s| - start
  {
    if start >= |s| then -1 else if s[start] == c then start else FindFrom(s, c, start + 1)
  }

  /** `s.rfind(c)`: the last index holding `c`, or -1. */
  function RFind(s: string, c: char): (i: int)
    ensures -1 <= i < |s|
    ensures i == -1 || s[i] == c
    ensures forall k :: i < k < |s| ==> s[k] != c
  {
    if s == [] then -1 else if s[|s| - 1] == c then |s| - 1 else RFind(s[..|s| - 1], c)
  }

  /** The characters `urlsplit` strips from the front, C0 controls and the space. */
  predicate C0OrSpace(c: char) { c <= ' ' }

  function LStripC0(s: string): (r: string)
    ensures |r| <= |s| && r == s[|s| - |r|..]
    ensures r == [] || !C0OrSpace(r[0])
  {
    if s == [] || !C0OrSpace(s[0]) then s else LStripC0(s[1..])
  }

  /** The tab, carriage return and line feed `urlsplit` removes everywhere. */
  predicate Unsafe(c: char) { c == '\t' || c == '\r' || c == '\n' }

  function RemoveUnsafe(s: string): (r: string)
    ensures |r| <= |s|
  {
    if s == [] then [] else (if Unsafe(s[0]) then [] else [s[0]]) + RemoveUnsafe(s[1..])
  }

  predicate SchemeChar(c: char) {
    IsAsciiLetter(c) || IsDigit(c) || c == '+' || c == '-' || c == '.'
  }

  /** The schemes whose paths `urlparse` splits `;params` from. */
  const UsesParams: set<string> := {"", "ftp", "hdl", "prospero", "http", "imap", "https",
    "shttp", "rtsp", "rtsps", "rtspu", "sip", "sips", "mms", "sftp", "tel"}

  datatype Url = Url(scheme: string, netloc: string, path: string)

  /** The `ValueError` that `urlsplit` raises for a network location with one square
      bracket but not the other. */
  datatype InvalidIpv6Url = InvalidIpv6Url

  /** The scheme and what follows it: the text before the first colon when it starts
      with an ASCII letter and holds only scheme characters, lower-cased. */
  function SplitScheme(u: string): (r: (string, string))
  {
    var i := FindFrom(u, ':', 0);
    if i > 0 && IsAsciiLetter(u[0]) && (forall k :: 0 <= k < i ==> SchemeChar(u[k]))
    then (Lower(u[..i]), u[i + 1..])
    else ("", u)
  }

  /** `min` over the delimiters found at or after `start`, `|u|` when there are none. */
  function NetlocEnd(u: string, start: nat): (d: nat)
    requires start <= |u|
    ensures start <= d <= |u|
  {
    var d0 := |u|;
    var i1 := FindFrom(u, '/', start);
    var d1 := if i1 >= 0 && i1 < d0 then i1 else d0;
    var i2 := FindFrom(u, '?', start);
    var d2 := if i2 >= 0 && i2 < d1 then i2 else d1;
    var i3 := FindFrom(u, '#', start);
    if i3 >= 0 && i3 < d2 then i3 else d2
  }

  /** The text before the first `c`, all of it when there is none. */
  function Before(s: string, c: char): (r: string)
    ensures |r| <= |s| && r == s[..|r|]
  {
    var i := FindFrom(s, c, 0);
    if i >= 0 then s[..i] else s
  }

  /** `_splitparams`: the path without the `;params` of its last segment. */
  function SplitParams(path: string): string
    requires Contains(path, ';')
  {
    var slash := RFind(path, '/');
    if slash >= 0 then
      var i := FindFrom(path, ';', slash);
      if i < 0 then path else path[..i]
    else
      var i := FindFrom(path, ';', 0);
      path[..i]
  }

  /** `urlparse(url)`, keeping the scheme, the network location and the path. */
  function UrlParse(url: string): Result<Url, InvalidIpv6Url>
  {
    var u := RemoveUnsafe(LStripC0(url));
    var (scheme, rest) := SplitScheme(u);
    var (netloc, rest2) :=
      if HasPrefix(rest, "//") then
        var d := NetlocEnd(rest, 2);
        (rest[2..d], rest[d..])
      else ("", rest);
    if Contains(netloc, '[') != Contains(netloc, ']') then Err(InvalidIpv6Url)
    else
      var path := Before(Before(rest2, '#'), '?');
      var path2 := if scheme in UsesParams && Contains(path, ';') then SplitParams(path) else path;
      Ok(Url(scheme, netloc, path2))
  }

  /** `os.path.splitext(p)[1]` on a POSIX path: from the last dot of the last component,
      provided that component has something other than dots before it. */
  function Extension(p: string): (e: string)
    ensures e == [] || e[0] == '.'
  {
    var sep := RFind(p, '/');
    var dot := RFind(p, '.');
    if dot > sep && (exists k :: sep + 1 <= k < dot && p[k] != '.') then p[dot..] else []
  }

  lemma {:induction false} RemoveUnsafeFixed(s: string)
    requires forall i :: 0 <= i < |s| ==> !Unsafe(s[i])
    ensures RemoveUnsafe(s) == s
  {
    if s != [] {
      RemoveUnsafeFixed(s[1..]);
    }
  }

  /** A character that can follow the opening bracket of a host written out to the end
      of the URL: printable, and neither a closing bracket nor a delimiter. */
  predicate HostChar(c: char) { c > ' ' && c != ']' && c != '/' && c != '?' && c != '#' }

  lemma HttpScheme(host: string)
    ensures SplitScheme("http://" + host) == ("http", "//" + host)
  {
    var u := "http://" + host;
    var i := FindFrom(u, ':', 0);
    assert u[4] == ':';
    assert u[0] != ':' && u[1] != ':' && u[2] != ':' && u[3] != ':';
    assert i == 4;
    assert u[..4] == "http";
    assert Lower("http") == "http";
    assert u[5..] == "//" + host;
  }

  lemma OpenNetloc(host: string)
    requires forall i :: 0 <= i < |host| ==> HostChar(host[i])
    ensures NetlocEnd("//" + host, 2) == |host| + 2
  {
    var rest := "//" + host;
    assert forall k :: 2 <= k < |rest| ==> HostChar(rest[k]) by {
      forall k | 2 <= k < |rest|
        ensures HostChar(rest[k])
      {
        assert rest[k] == host[k - 2];
      }
    }
  }

  /** `urlparse` raises for an http URL whose host opens a square bracket that is never
      closed. */
  lemma UnbalancedHostRaises(host: string)
    requires |host| > 0 && host[0] == '['
    requires forall i :: 0 <= i < |host| ==> HostChar(host[i])
    ensures UrlParse("http://" + host).Err?
  {
    var u := "http://" + host;
    assert u[0] == 'h';
    assert LStripC0(u) == u;
    assert forall i :: 0 <= i < |u| ==> !Unsafe(u[i]) by {
      forall i | 0 <= i < |u|
        ensures !Unsafe(u[i])
      {
        if i >= 7 {
          assert u[i] == host[i - 7];
        }
      }
    }
    RemoveUnsafeFixed(u);
    HttpScheme(host);
    OpenNetloc(host);
    var rest := "//" + host;
    assert HasPrefix(rest, "//");
    assert rest[2..|host| + 2] == host;
    assert Contains(host, '[');
  }
}
