/**
 The URL of the agent's local request, and what is left of path and query once it has been parsed.

 The path is the decoded path of the client's request and is joined to the local URL as it is; http.NewRequest
 then parses the whole as an URL, as net/url does, and decodes the path again.
 */
module TargetUrl {
  import opened Basics

  /** What a parsed URL says after its scheme. */
  datatype Target = Target(host: string, path: string, query: string)

  /** The joined text after "http://", where the local URL is a scheme, a host name and perhaps a port. */
  function Joined(host: string, path: string, query: string): string {
    host + path + if query == "" then "" else "?" + query
  }

  // ---- cutting ----

  function Before(s: string, c: char): (r: string)
    ensures c !in r && |r| <= |s| && r == s[..|r|]
    ensures |r| < |s| ==> s[|r|] == c
  {
    if s == "" || s[0] == c then "" else [s[0]] + Before(s[1..], c)
  }

  function After(s: string, c: char): (r: string)
    ensures if c in s then |r| + |Before(s, c)| + 1 == |s| && r == s[|Before(s, c)| + 1..] else r == ""
  {
    if s == "" then "" else if s[0] == c then s[1..] else After(s[1..], c)
  }

  /** Cutting at a character that the first part does not contain. */
  lemma {:induction false} CutPast(s: string, rest: string, c: char)
    requires c !in s
    ensures Before(s + rest, c) == s + Before(rest, c) && After(s + rest, c) == After(rest, c)
  {
    if s == "" {
      assert s + rest == rest;
    } else {
      assert (s + rest)[1..] == s[1..] + rest;
      CutPast(s[1..], rest, c);
    }
  }

  lemma CutWhole(s: string, c: char)
    requires c !in s
    ensures Before(s, c) == s && After(s, c) == ""
  {
    CutPast(s, "", c);
    assert s + "" == s;
  }

  // ---- percent-escapes and control characters ----

  predicate IsControl(c: char) {
    c < ' ' || c as int == 0x7f
  }

  predicate HasControl(s: string) {
    exists i :: 0 <= i < |s| && IsControl(s[i])
  }

  predicate IsHex(c: char) {
    '0' <= c <= '9' || 'a' <= c <= 'f' || 'A' <= c <= 'F'
  }

  function HexValue(c: char): (v: int)
    requires IsHex(c)
    ensures 0 <= v < 16
  {
    if c <= '9' then c as int - '0' as int
    else if c <= 'F' then c as int - 'A' as int + 10
    else c as int - 'a' as int + 10
  }

  /** Each % with two hexadecimal digits becomes one character; any other % is an error. */
  function Decoded(s: string): (r: Option<string>)
    ensures r.Some? ==> |r.value| <= |s|
  {
    if s == "" then Some("")
    else if s[0] != '%' then
      var d := Decoded(s[1..]);
      if d.None? then None else Some([s[0]] + d.value)
    else if |s| < 3 || !IsHex(s[1]) || !IsHex(s[2]) then None
    else
      var d := Decoded(s[3..]);
      if d.None? then None else Some([(16 * HexValue(s[1]) + HexValue(s[2])) as char] + d.value)
  }

  /** Decoding keeps the length exactly if there is nothing to decode, and then it changes nothing. */
  lemma {:induction false} DecodedSame(s: string)
    ensures '%' !in s ==> Decoded(s) == Some(s)
    ensures '%' in s && Decoded(s).Some? ==> |Decoded(s).value| < |s|
  {
    if s != "" {
      if s[0] != '%' {
        DecodedSame(s[1..]);
        assert s == [s[0]] + s[1..];
      }
    }
  }

  // ---- parsing ----

  /** The fragment is cut off, then the query; the host ends at the first slash; the path is decoded. */
  function Parsed(text: string): Option<Target> {
    var u := Before(text, '#');
    var rest := Before(u, '?');
    var host := Before(rest, '/');
    var path := Decoded(rest[|host|..]);
    if HasControl(u) || path.None? || Decoded(After(text, '#')).None? then None
    else Some(Target(host, path.value, After(u, '?')))
  }

  predicate IsHostChar(c: char) {
    'a' <= c <= 'z' || 'A' <= c <= 'Z' || '0' <= c <= '9' || c == '-' || c == '.'
  }

  /** A host name and perhaps a port. */
  predicate IsHost(host: string) {
    var name := Before(host, ':');
    && name != "" && (forall i :: 0 <= i < |name| ==> IsHostChar(name[i]))
    && (forall i :: |name| < i < |host| ==> '0' <= host[i] <= '9')
  }

  predicate CleanHost(host: string) {
    '/' !in host && '?' !in host && '#' !in host && !HasControl(host)
  }

  lemma HostIsClean(host: string)
    requires IsHost(host)
    ensures CleanHost(host)
  {
    var name := Before(host, ':');
    forall i | 0 <= i < |host|
      ensures IsHostChar(host[i]) || host[i] == ':'
    {
      assert i < |name| ==> host[i] == name[i];
    }
  }

  predicate CleanPath(path: string) {
    && (path == "" || path[0] == '/')
    && '?' !in path && '#' !in path && '%' !in path && !HasControl(path)
  }

  predicate CleanQuery(query: string) {
    '#' !in query && !HasControl(query)
  }

  lemma ControlOfParts(a: string, b: string)
    ensures HasControl(a + b) <==> HasControl(a) || HasControl(b)
  {
    if HasControl(a) {
      var i :| 0 <= i < |a| && IsControl(a[i]);
      assert (a + b)[i] == a[i];
    }
    if HasControl(b) {
      var i :| 0 <= i < |b| && IsControl(b[i]);
      assert (a + b)[|a| + i] == b[i];
    }
  }

  /** What the joined text consists of. */
  lemma JoinedParts(host: string, path: string, query: string)
    ensures var text := Joined(host, path, query);
      && ('#' in text <==> '#' in host || '#' in path || '#' in query)
      && (HasControl(text) <==> HasControl(host) || HasControl(path) || HasControl(query))
  {
    ControlOfParts(host, path);
    if query != "" {
      assert !HasControl("?");
      ControlOfParts("?", query);
      ControlOfParts(host + path, "?" + query);
      assert Joined(host, path, query) == (host + path) + ("?" + query);
    } else {
      assert Joined(host, path, query) == host + path;
    }
  }

  lemma QueryIsCut(full: string, query: string)
    requires '?' !in full
    ensures var text := full + if query == "" then "" else "?" + query;
      Before(text, '?') == full && After(text, '?') == query
  {
    if query == "" {
      CutWhole(full, '?');
      assert full + "" == full;
    } else {
      CutPast(full, "?" + query, '?');
      assert Before("?" + query, '?') == "" && After("?" + query, '?') == ("?" + query)[1..] == query;
      assert full + "" == full;
    }
  }

  lemma HostIsCut(host: string, path: string)
    requires '/' !in host && (path == "" || path[0] == '/')
    ensures Before(host + path, '/') == host && (host + path)[|host|..] == path
  {
    CutPast(host, path, '/');
    assert Before(path, '/') == "" && host + "" == host;
  }

  /** With nothing else in the way, what arrives is the path decoded once more; a malformed escape fails. */
  lemma PathIsDecoded(host: string, path: string, query: string)
    requires IsHost(host) && CleanQuery(query)
    requires path != "" && path[0] == '/' && '?' !in path && '#' !in path && !HasControl(path)
    ensures Parsed(Joined(host, path, query)) ==
      if Decoded(path).None? then None else Some(Target(host, Decoded(path).value, query))
  {
    HostIsClean(host);
    JoinedParts(host, path, query);
    CutWhole(Joined(host, path, query), '#');
    QueryIsCut(host + path, query);
    HostIsCut(host, path);
  }

  /** A control character in it makes the request fail. */
  lemma ControlFails(host: string, path: string, query: string, i: nat)
    requires IsHost(host) && '#' !in path && '#' !in query
    requires i < |path + query| && ((path + query)[i] as int < 32 || (path + query)[i] as int == 127)
    ensures Parsed(Joined(host, path, query)) == None
  {
    HostIsClean(host);
    JoinedParts(host, path, query);
    CutWhole(Joined(host, path, query), '#');
    assert IsControl((path + query)[i]);
    assert HasControl(path + query);
    ControlOfParts(path, query);
  }

  /** From a '#' in the path on, everything is dropped, the query too, unless it holds a malformed escape. */
  lemma HashCutsOff(host: string, path: string, rest: string, query: string)
    requires IsHost(host) && path != "" && CleanPath(path)
    ensures Parsed(Joined(host, path + "#" + rest, query)) ==
      if Decoded(rest + if query == "" then "" else "?" + query).None? then None else Some(Target(host, path, ""))
  {
    HostIsClean(host);
    var tail := rest + if query == "" then "" else "?" + query;
    assert Joined(host, path + "#" + rest, query) == (host + path) + ("#" + tail);
    CutPast(host + path, "#" + tail, '#');
    assert Before("#" + tail, '#') == "" && After("#" + tail, '#') == ("#" + tail)[1..] == tail;
    assert host + path + "" == host + path;
    ControlOfParts(host, path);
    CutWhole(host + path, '?');
    HostIsCut(host, path);
    DecodedSame(path);
  }

  // ---- escaping a path survives ----

  function HexDigit(d: nat): (c: char)
    requires d < 16
    ensures IsHex(c) && HexValue(c) == d
  {
    "0123456789ABCDEF"[d]
  }

  function Escape(c: char): (r: string)
    requires c as int < 256
    ensures |r| == 3 && r[0] == '%' && IsHex(r[1]) && IsHex(r[2]) && 16 * HexValue(r[1]) + HexValue(r[2]) == c as int
  {
    ['%', HexDigit(c as int / 16), HexDigit(c as int % 16)]
  }

  predicate AllBytes(s: string) {
    forall i :: 0 <= i < |s| ==> s[i] as int < 256
  }

  /** Every character as %XX, for text of single bytes. */
  function Escaped(s: string): string
    requires AllBytes(s)
  {
    if s == "" then "" else Escape(s[0]) + Escaped(s[1..])
  }

  lemma OneDecodes(c: char, rest: string)
    requires c as int < 256 && Decoded(rest).Some?
    ensures Decoded(Escape(c) + rest) == Some([c] + Decoded(rest).value)
  {
    assert (Escape(c) + rest)[3..] == rest;
  }

  /** What decoding undoes: escaping, for every string of bytes. */
  lemma {:induction false} EscapedDecodes(s: string)
    requires AllBytes(s)
    ensures Decoded(Escaped(s)) == Some(s)
  {
    if s != "" {
      EscapedDecodes(s[1..]);
      OneDecodes(s[0], Escaped(s[1..]));
      assert s == [s[0]] + s[1..];
    }
  }

  lemma CleanSurvives(host: string, path: string, query: string)
    requires CleanHost(host) && CleanPath(path) && CleanQuery(query)
    ensures Parsed(Joined(host, path, query)) == Some(Target(host, path, query))
  {
    JoinedParts(host, path, query);
    CutWhole(Joined(host, path, query), '#');
    QueryIsCut(host + path, query);
    HostIsCut(host, path);
    DecodedSame(path);
  }

  /** Parsing shortens the text, unless there is no fragment and nothing to decode. */
  lemma SurvivorIsWhole(host: string, path: string, query: string)
    requires CleanHost(host) && Parsed(Joined(host, path, query)) == Some(Target(host, path, query))
    ensures var text := Joined(host, path, query);
      var u := Before(text, '#');
      u == text && Before(u, '?') == host + path && '%' !in path
  {
    var text := Joined(host, path, query);
    var u := Before(text, '#');
    var rest := Before(u, '?');
    var raw := rest[|host|..];
    DecodedSame(raw);
    assert |rest| == |host| + |raw| >= |host| + |path|;
    assert query != "" ==> '?' in u && |u| == |rest| + 1 + |query|;
    assert |u| == |text|;
    assert rest == host + raw;
    DecodedSame(path);
    assert raw == path;
  }

  /**
   Host, path and query survive being joined and parsed exactly if the path is empty or starts with a slash
   and has no '?', '#', '%' or control character, and the query has no '#' or control character.
   */
  lemma TargetSurvivesIff(host: string, path: string, query: string)
    requires IsHost(host)
    ensures Parsed(Joined(host, path, query)) == Some(Target(host, path, query)) <==> CleanPath(path) && CleanQuery(query)
  {
    HostIsClean(host);
    if CleanPath(path) && CleanQuery(query) {
      CleanSurvives(host, path, query);
    }
    if Parsed(Joined(host, path, query)) == Some(Target(host, path, query)) {
      SurvivorIsWhole(host, path, query);
      WholeIsClean(host, path, query);
    }
  }

  lemma WholeIsClean(host: string, path: string, query: string)
    requires Parsed(Joined(host, path, query)) == Some(Target(host, path, query)) && CleanHost(host)
    requires var text := Joined(host, path, query);
      Before(text, '#') == text && Before(text, '?') == host + path && '%' !in path
    ensures CleanPath(path) && CleanQuery(query)
  {
    var full := host + path;
    JoinedParts(host, path, query);
    assert forall c :: c in path ==> c in full;
    assert Before(full, '/') == host;
    assert path != "" ==> full[|host|] == path[0];
  }
}
