/**
 * The parts of a URL as Python's `urlparse` takes them apart (the generic syntax of section 3 of
 * RFC 3986, with `urlparse`'s own leniencies): the scheme, the authority ("netloc") after "//",
 * the path with its last segment's ";params" removed, the query and the port.
 */
module Url {
  import opened Wrappers
  import opened Strings
  import Base64

  /** The characters a scheme may hold after its first letter. */
  predicate SchemeChar(c: char) {
    IsAlnum(c) || c == '+' || c == '-' || c == '.'
  }

  predicate IsScheme(s: string) {
    |s| > 0 && IsAsciiLetter(s[0]) && forall i :: 0 <= i < |s| ==> SchemeChar(s[i])
  }

  /** What follows the scheme and its colon, or the whole URL when it has no scheme. */
  function AfterScheme(url: string): (r: string)
    ensures |r| <= |url|
  {
    if ':' in url && IsScheme(url[..FirstIndex(url, ':')]) then url[FirstIndex(url, ':') + 1..]
    else url
  }

  predicate Delimiter(c: char) { c == '/' || c == '?' || c == '#' }

  /** The length of the longest prefix free of '/', '?' and '#'. */
  function AuthorityLength(s: string): (n: nat)
    ensures n <= |s|
    ensures forall i :: 0 <= i < n ==> !Delimiter(s[i])
    ensures n < |s| ==> Delimiter(s[n])
  {
    if |s| == 0 || Delimiter(s[0]) then 0 else 1 + AuthorityLength(s[1..])
  }

  /** `urlparse(url).netloc`: what follows "//" up to the path, query or fragment. */
  function Netloc(url: string): (r: string)
    ensures forall c :: c in r ==> !Delimiter(c)
  {
    var rest := AfterScheme(url);
    if |rest| >= 2 && rest[..2] == "//" then
      var tail := rest[2..];
      tail[..AuthorityLength(tail)]
    else ""
  }

  /**
   * `_extract_domain(url)`: the netloc, lowercased, up to its first ':'; "" when `urlparse`
   * refuses the URL for an unmatched '[' or ']'.
   */
  function ExtractDomain(url: string): (d: string)
    ensures IsLowered(d) && ':' !in d
    ensures forall c :: c in d ==> !Delimiter(c)
  {
    var n := Netloc(url);
    if ('[' in n) != (']' in n) then ""
    else
      var low := Lower(n);
      LowerIsLowered(n);
      LowerKeepsOut(n);
      var host := SplitOnce(low, ':').0;
      assert forall c :: c in host ==> c in low;
      host
  }

  /** Lowercasing introduces no delimiter. */
  lemma LowerKeepsOut(s: string)
    requires forall c :: c in s ==> !Delimiter(c)
    ensures forall c :: c in Lower(s) ==> !Delimiter(c)
  {
    forall c | c in Lower(s) ensures !Delimiter(c) {
      var i :| 0 <= i < |Lower(s)| && Lower(s)[i] == c;
      assert c == LowerChar(s[i]);
    }
  }

  /** A host free of ':', '[', ']' and the delimiters. */
  predicate PlainHost(h: string) {
    forall c :: c in h ==> !Delimiter(c) && c != ':' && c != '[' && c != ']'
  }

  /** For `scheme://host/path` the extracted domain is the host, lowercased. */
  lemma ExtractDomainOfUrl(scheme: string, host: string, path: string)
    requires IsScheme(scheme) && PlainHost(host)
    requires path == "" || path[0] == '/'
    ensures ExtractDomain(scheme + "://" + host + path) == Lower(host)
  {
    ExtractDomainOfAuthority(scheme, host, path);
    LowerKeepsColonOut(host);
  }

  /** A port after the host is dropped: `scheme://host:port/path` gives the host, lowercased. */
  lemma ExtractDomainDropsPort(scheme: string, host: string, port: string, path: string)
    requires IsScheme(scheme) && PlainHost(host)
    requires forall c :: c in port ==> IsDigit(c)
    requires path == "" || path[0] == '/'
    ensures ExtractDomain(scheme + "://" + host + ":" + port + path) == Lower(host)
  {
    var auth := host + ":" + port;
    HostPortAuthority(host, port);
    ExtractDomainOfAuthority(scheme, auth, path);
    RegroupAuthority(scheme + "://", host, ":", port, path);
    HostOfHostPort(host, port);
  }

  lemma HostOfHostPort(host: string, port: string)
    requires PlainHost(host)
    ensures SplitOnce(Lower(host + ":" + port), ':').0 == Lower(host)
  {
    LowerHostPort(host, port);
    LowerKeepsColonOut(host);
    SplitAtColon(Lower(host), Lower(port));
  }

  /** The domain of `scheme://auth/path` is the lowercased authority up to its first ':'. */
  lemma ExtractDomainOfAuthority(scheme: string, auth: string, path: string)
    requires IsScheme(scheme)
    requires forall c :: c in auth ==> !Delimiter(c) && c != '[' && c != ']'
    requires path == "" || path[0] == '/'
    ensures ExtractDomain(scheme + "://" + auth + path) == SplitOnce(Lower(auth), ':').0
  {
    var url := scheme + "://" + auth + path;
    NetlocOf(scheme, auth + path, auth);
    assert url == scheme + "://" + (auth + path);
    ExtractDomainOfNetloc(url, auth);
  }

  lemma LowerHostPort(host: string, port: string)
    ensures Lower(host + ":" + port) == Lower(host) + [':'] + Lower(port)
  {
    assert host + ":" + port == host + (":" + port);
    LowerAppend(host, ":" + port);
    LowerAppend(":", port);
    assert Lower(":") == [':'];
  }

  lemma HostPortAuthority(host: string, port: string)
    requires PlainHost(host)
    requires forall c :: c in port ==> IsDigit(c)
    ensures forall c :: c in host + ":" + port ==> !Delimiter(c) && c != '[' && c != ']'
  {
    forall c | c in host + ":" + port ensures !Delimiter(c) && c != '[' && c != ']' {
      assert c in host || c == ':' || c in port;
    }
  }

  lemma ExtractDomainOfNetloc(url: string, auth: string)
    requires Netloc(url) == auth && '[' !in auth && ']' !in auth
    ensures ExtractDomain(url) == SplitOnce(Lower(auth), ':').0
  {
  }

  lemma LowerKeepsColonOut(h: string)
    requires PlainHost(h)
    ensures ':' !in Lower(h) && '[' !in Lower(h) && ']' !in Lower(h)
  {
    forall i | 0 <= i < |Lower(h)| ensures Lower(h)[i] != ':' && Lower(h)[i] != '[' && Lower(h)[i] != ']' {
      assert Lower(h)[i] == LowerChar(h[i]);
      assert h[i] in h;
    }
  }

  lemma SplitAtColon(a: string, b: string)
    requires ':' !in a
    ensures SplitOnce(a + [':'] + b, ':').0 == a
  {
    var s := a + [':'] + b;
    assert s[|a|] == ':';
    var i := FirstIndex(s, ':');
    assert s[..|a|] == a;
    assert ':' !in s[..|a|];
  }

  /** The netloc of `scheme://` + `rest` is the part of `rest` before its path. */
  lemma NetlocOf(scheme: string, rest: string, auth: string)
    requires IsScheme(scheme)
    requires |auth| <= |rest| && rest[..|auth|] == auth
    requires forall c :: c in auth ==> !Delimiter(c)
    requires |auth| == |rest| || rest[|auth|] == '/'
    requires ('[' in auth) == (']' in auth)
    ensures Netloc(scheme + "://" + rest) == auth
  {
    AfterSchemeOf(scheme, rest);
    assert ("//" + rest)[2..] == rest;
    AuthorityOf(rest, auth);
  }

  /** A scheme and its colon are removed; the rest is kept as it is. */
  lemma AfterSchemeOf(scheme: string, rest: string)
    requires IsScheme(scheme)
    ensures AfterScheme(scheme + "://" + rest) == "//" + rest
  {
    assert ':' !in scheme by {
      forall i | 0 <= i < |scheme| ensures scheme[i] != ':' { assert SchemeChar(scheme[i]); }
    }
    assert scheme + "://" + rest == scheme + [':'] + ("//" + rest);
    SplitAtChar(scheme, ':', "//" + rest);
  }

  lemma AuthorityOf(rest: string, auth: string)
    requires |auth| <= |rest| && rest[..|auth|] == auth
    requires forall c :: c in auth ==> !Delimiter(c)
    requires |auth| == |rest| || rest[|auth|] == '/'
    ensures AuthorityLength(rest) == |auth|
    decreases |auth|
  {
    if |auth| > 0 {
      assert rest[0] == auth[0] && auth[0] in auth;
      AuthorityOf(rest[1..], auth[1..]);
    }
  }

  /** `urlparse` refuses a netloc holding one of '[' and ']' without the other. */
  predicate Parses(url: string) {
    ('[' in Netloc(url)) == (']' in Netloc(url))
  }

  /** What follows the netloc: the path, the query and the fragment. */
  function AfterNetloc(url: string): (r: string)
    ensures |r| <= |url|
  {
    var rest := AfterScheme(url);
    if |rest| >= 2 && rest[..2] == "//" then rest[2..][AuthorityLength(rest[2..])..] else rest
  }

  /** The path and query: what precedes the first '#'. */
  function BeforeFragment(url: string): (r: string)
    ensures '#' !in r
  {
    SplitOnce(AfterNetloc(url), '#').0
  }

  /** `urlparse(url).query`: what follows the first '?' before the fragment. */
  function Query(url: string): (q: string)
    ensures '#' !in q
  {
    var (_, q, _) := SplitOnce(BeforeFragment(url), '?');
    assert forall c :: c in q ==> c in BeforeFragment(url);
    q
  }

  /** The index of the last `c` in `s`. */
  function LastIndex(s: string, c: char): (i: nat)
    requires c in s
    ensures i < |s| && s[i] == c && c !in s[i + 1..]
  {
    if s[|s| - 1] == c then |s| - 1
    else
      assert c in s[..|s| - 1] by { var k :| 0 <= k < |s| && s[k] == c; assert s[..|s| - 1][k] == c; }
      LastIndex(s[..|s| - 1], c)
  }

  /**
   * `_splitparams`: the path without the ";params" of its last segment (the first ';' after the
   * last '/'); a path without '/' loses everything from its first ';'.
   */
  function StripParams(p: string): (r: string)
    ensures |r| <= |p| && r == p[..|r|]
    ensures ';' !in p ==> r == p
  {
    if ';' !in p then p
    else if '/' in p then
      var k := LastIndex(p, '/');
      if ';' in p[k..] then p[..k + FirstIndex(p[k..], ';')] else p
    else p[..FirstIndex(p, ';')]
  }

  /** `urlparse(url).path` for an http or https URL (schemes that take ";params"). */
  function Path(url: string): (p: string)
    ensures '?' !in p && '#' !in p
  {
    var before := SplitOnce(BeforeFragment(url), '?').0;
    var p := StripParams(before);
    assert forall c :: c in p ==> c in BeforeFragment(url);
    p
  }

  /** The port text of a netloc: after the last '@', past a bracketed host, after the first ':'. */
  function PortText(netloc: string): string {
    var hostinfo := if '@' in netloc then netloc[LastIndex(netloc, '@') + 1..] else netloc;
    if '[' in hostinfo then SplitOnce(SplitOnce(SplitOnce(hostinfo, '[').1, ']').1, ':').1
    else SplitOnce(hostinfo, ':').1
  }

  /** The outcome of `urlparse(url).port`: none, a number, or a `ValueError`. */
  datatype Port = NoPort | PortNumber(n: nat) | BadPort

  /** `urlparse(url).port`: ASCII digits in 0..65535, or an error. */
  function PortOf(url: string): (r: Port)
    ensures r.PortNumber? ==> r.n <= 65535
    ensures r.NoPort? <==> Parses(url) && PortText(Netloc(url)) == ""
  {
    if !Parses(url) then BadPort
    else
      var t := PortText(Netloc(url));
      if t == "" then NoPort
      else if forall c :: c in t ==> IsDigit(c) then
        if DigitsValue(t) <= 65535 then PortNumber(DigitsValue(t)) else BadPort
      else BadPort
  }

  /** The host is one of `domains` or a subdomain of one. */
  predicate UnderDomain(d: string, domains: set<string>) {
    exists a :: a in domains && (d == a || EndsWith(d, "." + a))
  }

  /** A listed domain covers itself and every subdomain. */
  lemma SubdomainUnder(sub: string, a: string, domains: set<string>)
    requires a in domains
    ensures UnderDomain(a, domains)
    ensures UnderDomain(sub + "." + a, domains)
  {
    var d := sub + "." + a;
    assert d[|d| - |"." + a|..] == "." + a;
  }

  /**
   * `scheme://auth/path?query` comes apart into its path and its query, for a path free of
   * '?', '#' and ';' and a query free of '#'.
   */
  lemma PathAndQueryOf(scheme: string, auth: string, path: string, query: string)
    requires IsScheme(scheme)
    requires forall c :: c in auth ==> !Delimiter(c)
    requires path == "" || path[0] == '/'
    requires '?' !in path && '#' !in path && ';' !in path && '#' !in query
    ensures Path(scheme + "://" + auth + path + "?" + query) == path
    ensures Query(scheme + "://" + auth + path + "?" + query) == query
  {
    var url := scheme + "://" + auth + path + "?" + query;
    var pq := path + "?" + query;
    assert url == scheme + "://" + auth + pq;
    assert |pq| > 0 && (pq[0] == '/' || pq[0] == '?');
    AfterNetlocOf(scheme, auth, pq);
    NoFragment(path, query);
    SplitAtChar(path, '?', query);
  }

  lemma NoFragment(path: string, query: string)
    requires '#' !in path && '#' !in query
    ensures SplitOnce(path + "?" + query, '#').0 == path + "?" + query
  {
    var pq := path + "?" + query;
    forall i | 0 <= i < |pq| ensures pq[i] != '#' {
      if i < |path| { assert pq[i] == path[i]; } else if i > |path| { assert pq[i] == query[i - |path| - 1]; }
    }
  }

  /** What follows an authority ended by a delimiter is the path, query and fragment. */
  lemma AfterNetlocOf(scheme: string, auth: string, tail: string)
    requires IsScheme(scheme)
    requires forall c :: c in auth ==> !Delimiter(c)
    requires tail == "" || Delimiter(tail[0])
    ensures AfterNetloc(scheme + "://" + auth + tail) == tail
  {
    var rest := auth + tail;
    assert scheme + "://" + auth + tail == scheme + "://" + rest;
    AfterSchemeOf(scheme, rest);
    assert ("//" + rest)[2..] == rest;
    assert rest[..|auth|] == auth;
    AuthorityOfDelimited(rest, auth);
    assert rest[|auth|..] == tail;
  }

  /** Like `AuthorityOf`, for an authority ended by any delimiter. */
  lemma AuthorityOfDelimited(rest: string, auth: string)
    requires |auth| <= |rest| && rest[..|auth|] == auth
    requires forall c :: c in auth ==> !Delimiter(c)
    requires |auth| == |rest| || Delimiter(rest[|auth|])
    ensures AuthorityLength(rest) == |auth|
    decreases |auth|
  {
    if |auth| > 0 {
      assert rest[0] == auth[0] && auth[0] in auth;
      AuthorityOfDelimited(rest[1..], auth[1..]);
    }
  }

  /** Splitting `a + [c] + b` at its first `c`, when `a` holds none. */
  lemma SplitAtChar(a: string, c: char, b: string)
    requires c !in a
    ensures SplitOnce(a + [c] + b, c) == (a, b, true)
  {
    var s := a + [c] + b;
    assert s[|a|] == c;
    var i := FirstIndex(s, c);
    assert s[..|a|] == a;
    assert c !in s[..|a|];
    assert s[|a| + 1..] == b;
  }

  lemma RegroupAuthority(a: string, host: string, colon: string, port: string, path: string)
    ensures a + host + colon + port + path == a + (host + colon + port) + path
  {
  }

  lemma Regroup(a: string, host: string, colon: string, digits: string, path: string)
    ensures a + host + colon + digits + path == a + (host + colon + digits + path)
  {
  }

  /** A host without '@' or '[' followed by ":" and a port number in 0..65535 gives that port. */
  lemma PortOfHostPort(scheme: string, host: string, n: nat, path: string)
    requires IsScheme(scheme)
    requires forall c :: c in host ==> !Delimiter(c) && c != ':' && c != '@' && c != '[' && c != ']'
    requires n <= 65535
    requires path == "" || path[0] == '/'
    ensures PortOf(scheme + "://" + host + ":" + NatToString(n) + path) == PortNumber(n)
  {
    var digits := NatToString(n);
    var auth := host + ":" + digits;
    assert forall c :: c in auth ==> c in host || c == ':' || c in digits;
    NetlocOf(scheme, auth + path, auth);
    Regroup(scheme + "://", host, ":", digits, path);
    assert '@' !in auth && '[' !in auth && ']' !in auth;
    SplitAtChar(host, ':', digits);
    assert PortText(auth) == digits;
    DigitsValueOfNatToString(n);
  }

  // ---------------------------------------------------------------------------------------
  // Percent-decoding and the query string
  // ---------------------------------------------------------------------------------------

  /** The character an escape "%XY" stands for, when it is one for an ASCII character. */
  function Escaped(s: string): (r: Option<char>)
    ensures r.Some? ==> |s| >= 3 && s[0] == '%' && (r.value as int) < 128
  {
    if |s| >= 3 && s[0] == '%' && Base64.HexValue(s[1]) >= 0 && Base64.HexValue(s[2]) >= 0
       && Base64.HexValue(s[1]) * 16 + Base64.HexValue(s[2]) < 128
    then Some((Base64.HexValue(s[1]) * 16 + Base64.HexValue(s[2])) as char)
    else None
  }

  /** `unquote(s)` on ASCII escapes: each "%XY" naming an ASCII character becomes it. */
  function Unquote(s: string): (r: string)
    ensures |r| <= |s|
    ensures '%' !in s ==> r == s
  {
    if |s| == 0 then []
    else match Escaped(s)
      case Some(c) => [c] + Unquote(s[3..])
      case None => [s[0]] + Unquote(s[1..])
  }

  /** The upper-case hexadecimal digit for `k`. */
  function HexDigit(k: int): (c: char)
    requires 0 <= k < 16
    ensures Base64.HexValue(c) == k
  {
    if k < 10 then ('0' as int + k) as char else ('A' as int + k - 10) as char
  }

  /** `quote` of every character: "%XY" with upper-case hexadecimal digits. */
  function PercentEncode(s: string): (r: string)
    requires forall c :: c in s ==> (c as int) < 128
    ensures |r| == 3 * |s|
  {
    if |s| == 0 then []
    else
      assert s[0] in s;
      assert forall c :: c in s[1..] ==> c in s;
      var n := s[0] as int;
      ['%', HexDigit(n / 16), HexDigit(n % 16)] + PercentEncode(s[1..])
  }

  /** Decoding undoes encoding, for ASCII text. */
  lemma {:induction false} UnquotePercentEncode(s: string)
    requires forall c :: c in s ==> (c as int) < 128
    ensures Unquote(PercentEncode(s)) == s
  {
    if |s| > 0 {
      assert s[0] in s;
      assert forall c :: c in s[1..] ==> c in s;
      var n := s[0] as int;
      var enc := PercentEncode(s);
      assert enc[3..] == PercentEncode(s[1..]);
      assert Escaped(enc) == Some(s[0]);
      UnquotePercentEncode(s[1..]);
    }
  }

  /** A query name or value: '+' stands for a space, then escapes are decoded. */
  function FormDecode(s: string): string {
    Unquote(ReplaceAll(s, "+", " "))
  }

  /**
   * `parse_qsl(query)` with blank values dropped: the '&'-separated pieces holding '=' and a
   * non-empty value, as decoded (name, value) pairs.
   */
  function QueryPairs(query: string): (r: seq<(string, string)>)
    ensures |r| <= |SplitOn(query, '&')|
  {
    PiecePairs(SplitOn(query, '&'))
  }

  function PiecePairs(pieces: seq<string>): (r: seq<(string, string)>)
    ensures |r| <= |pieces|
  {
    if |pieces| == 0 then []
    else
      var (name, value, found) := SplitOnce(pieces[0], '=');
      (if found && value != "" then [(FormDecode(name), FormDecode(value))] else [])
        + PiecePairs(pieces[1..])
  }

  /** The first value given for `name`, if any. */
  function FirstValue(pairs: seq<(string, string)>, name: string): Option<string> {
    if |pairs| == 0 then None
    else if pairs[0].0 == name then Some(pairs[0].1)
    else FirstValue(pairs[1..], name)
  }

  /** The pairs whose name is not `name`. */
  function Without(pairs: seq<(string, string)>, name: string): (r: seq<(string, string)>)
    ensures |r| <= |pairs|
    ensures forall p :: p in r <==> p in pairs && p.0 != name
  {
    if |pairs| == 0 then []
    else (if pairs[0].0 == name then [] else [pairs[0]]) + Without(pairs[1..], name)
  }

  /**
   * `parse_qs(query)` read as `params[name][0]` in the dict's order: each name once, in order of
   * first appearance, with its first value.
   */
  function FirstValues(pairs: seq<(string, string)>): (r: seq<(string, string)>)
    ensures |r| <= |pairs|
    decreases |pairs|
  {
    if |pairs| == 0 then []
    else [pairs[0]] + FirstValues(Without(pairs[1..], pairs[0].0))
  }

  /** Each name appears once, with the first value the query gives it. */
  lemma {:induction false} FirstValuesAreFirst(pairs: seq<(string, string)>)
    ensures forall i :: 0 <= i < |FirstValues(pairs)| ==>
      FirstValue(pairs, FirstValues(pairs)[i].0) == Some(FirstValues(pairs)[i].1)
    ensures forall i, j :: 0 <= i < j < |FirstValues(pairs)| ==>
      FirstValues(pairs)[i].0 != FirstValues(pairs)[j].0
    decreases |pairs|
  {
    if |pairs| > 0 {
      var w := Without(pairs[1..], pairs[0].0);
      var rest := FirstValues(w);
      var r := FirstValues(pairs);
      assert r == [pairs[0]] + rest;
      FirstValuesAreFirst(w);
      FirstValueWithout(pairs[1..], pairs[0].0);
      FirstValuesFromPairs(w);
      forall i | 0 < i < |r| ensures r[i].0 != pairs[0].0 {
        assert r[i] == rest[i - 1];
        assert rest[i - 1] in rest;
      }
    }
  }

  /** Every entry of the result is a pair of the query. */
  lemma {:induction false} FirstValuesFromPairs(pairs: seq<(string, string)>)
    ensures forall p :: p in FirstValues(pairs) ==> p in pairs
    decreases |pairs|
  {
    if |pairs| > 0 {
      var w := Without(pairs[1..], pairs[0].0);
      FirstValuesFromPairs(w);
      assert FirstValues(pairs) == [pairs[0]] + FirstValues(w);
      forall p | p in FirstValues(pairs) ensures p in pairs {
        if p == pairs[0] {
          assert pairs[0] in pairs;
        } else {
          assert p in FirstValues(w);
          assert p in w;
          assert p in pairs[1..];
          var k :| 0 <= k < |pairs[1..]| && pairs[1..][k] == p;
          assert pairs[k + 1] == p;
        }
      }
    }
  }

  /** Every name of the query is listed. */
  lemma {:induction false} FirstValuesNames(pairs: seq<(string, string)>)
    ensures forall p :: p in pairs ==> exists q :: q in FirstValues(pairs) && q.0 == p.0
    decreases |pairs|
  {
    if |pairs| > 0 {
      var w := Without(pairs[1..], pairs[0].0);
      FirstValuesNames(w);
      var r := FirstValues(pairs);
      assert r == [pairs[0]] + FirstValues(w);
      forall p | p in pairs ensures exists q :: q in r && q.0 == p.0 {
        if p.0 == pairs[0].0 {
          assert r[0] in r;
        } else {
          assert p in pairs[1..];
          assert p in w;
          var q :| q in FirstValues(w) && q.0 == p.0;
          assert q in r;
        }
      }
    }
  }

  /** Dropping one name leaves the first values of the others as they were. */
  lemma {:induction false} FirstValueWithout(pairs: seq<(string, string)>, name: string)
    ensures forall n :: n != name ==> FirstValue(Without(pairs, name), n) == FirstValue(pairs, n)
  {
    if |pairs| > 0 {
      FirstValueWithout(pairs[1..], name);
      if pairs[0].0 != name {
        assert Without(pairs, name) == [pairs[0]] + Without(pairs[1..], name);
        assert (Without(pairs, name))[1..] == Without(pairs[1..], name);
      } else {
        assert Without(pairs, name) == Without(pairs[1..], name);
      }
    }
  }
}
