/**
 * Link safety (`LinkSafety`): whether a URL found in content is safe to follow or share. A URL
 * without an http(s) scheme is read as https; its warnings come, in order, from shortener and
 * phishing patterns, look-alike brand domains, redirect parameters, tricks in the path, a bare
 * IPv4 host, a non-standard port and a suspicious top-level domain; the risk level follows from
 * the warnings and from whether the host is trusted.
 */
module LinkSafety {
  import opened Wrappers
  import opened Strings
  import opened Regex
  import opened Url

  const TRUSTED_DOMAINS := {
    "moltbook.com", "www.moltbook.com", "docs.moltbook.com", "github.com", "wikipedia.org",
    "arxiv.org"
  }

  const MALICIOUS_PATTERNS := [
    @"bit\.ly/", @"tinyurl\.com/", @"t\.co/", @"goo\.gl/", @"ow\.ly/", @"is\.gd/", @"buff\.ly/",
    @"rebrand\.ly/", @"discord\.gift/", @"discordgift\.", @"steam.*community.*login",
    @"paypa[l1].*verify", @"login.*verify", @"account.*suspend", @"security.*alert",
    @"update.*billing", @"webhook\.", @"requestbin\.", @"ngrok\.io", @"pipedream\.net"
  ]

  /** The parameter names listed as redirect carriers, as written (one with a capital letter). */
  const SUSPICIOUS_PARAMS := [
    "redirect", "return", "goto", "url", "link", "target", "callback", "next", "continue",
    "returnTo"
  ]

  /** The look-alike patterns of each brand, in the order they are tried. */
  const PHISHING_PATTERNS: seq<(string, seq<string>)> := [
    ("moltbook", [@"m[o0]ltb[o0][o0]k", @"moltbok", @"molltbook", @"moltbook[.-]\w+"]),
    ("google", [@"g[o0][o0]gle", @"gooogle", @"googIe"]),
    ("facebook", [@"faceb[o0][o0]k", @"facebok", @"faceboook"])
  ]

  const SUSPICIOUS_TLDS := [".xyz", ".tk", ".ml", ".ga", ".cf", ".gq", ".pw", ".cc"]

  const EXECUTABLE := @"\.(exe|bat|cmd|ps1|sh|js|vbs)\b"

  const MALICIOUS_WARNING := "URL matches malicious pattern"
  const IMPERSONATING := "Domain may be impersonating "

  datatype LinkRisk = RiskNone | RiskLow | RiskMedium | RiskHigh

  datatype LinkCheck = LinkCheck(isSafe: bool, risk: LinkRisk, url: string, finalDomain: string,
                                 warnings: seq<string>, recommendation: string)

  /** A URL not starting with "http://" or "https://" is read as "https://" + url. */
  function WithScheme(url: string): (r: string)
    ensures StartsWith(r, "http://") || StartsWith(r, "https://")
    ensures StartsWith(url, "http://") || StartsWith(url, "https://") ==> r == url
  {
    if StartsWith(url, "http://") || StartsWith(url, "https://") then url
    else
      assert ("https://" + url)[..8] == "https://";
      "https://" + url
  }

  /** Supplying the scheme twice changes nothing more. */
  lemma WithSchemeIdempotent(url: string)
    ensures WithScheme(WithScheme(url)) == WithScheme(url)
  {
  }

  // ---------------------------------------------------------------------------------------
  // The warnings
  // ---------------------------------------------------------------------------------------

  /** One warning when any malicious pattern (compiled with IGNORECASE) occurs in the URL. */
  function MaliciousWarnings(e: Engine, url: string): (r: seq<string>)
    ensures r == [] || r == [MALICIOUS_WARNING]
    ensures r != [] <==> exists p :: p in MALICIOUS_PATTERNS && Search(e, I(p), url)
  {
    if exists p :: p in MALICIOUS_PATTERNS && Search(e, I(p), url) then [MALICIOUS_WARNING] else []
  }

  /** The first pattern of `patterns` found in the domain. */
  predicate AnyFound(e: Engine, patterns: seq<string>, domain: string) {
    exists p :: p in patterns && Search(e, I(p), domain)
  }

  /**
   * `_check_typosquatting(domain)`: the first brand, in order, one of whose patterns occurs in
   * the domain while the brand's own name does not.
   */
  function TyposquatIn(e: Engine, brands: seq<(string, seq<string>)>, domain: string)
    : (r: Option<string>)
    ensures r.Some? ==> exists i :: (0 <= i < |brands| && brands[i].0 == r.value
      && AnyFound(e, brands[i].1, domain) && !Contains(domain, r.value))
    ensures r.None? <==>
      forall i :: 0 <= i < |brands| ==> !AnyFound(e, brands[i].1, domain) || Contains(domain, brands[i].0)
  {
    if |brands| == 0 then None
    else if AnyFound(e, brands[0].1, domain) && !Contains(domain, brands[0].0) then Some(brands[0].0)
    else
      var r := TyposquatIn(e, brands[1..], domain);
      assert forall i :: 1 <= i < |brands| ==> brands[i] == brands[1..][i - 1];
      r
  }

  function Typosquat(e: Engine, domain: string): (r: Option<string>)
    ensures r.Some? ==> !Contains(domain, r.value)
  {
    TyposquatIn(e, PHISHING_PATTERNS, domain)
  }

  /** A domain holding the brand's name is never reported for that brand. */
  lemma TyposquatNeedsMissingBrand(e: Engine, domain: string)
    requires Contains(domain, "moltbook") && Contains(domain, "google") && Contains(domain, "facebook")
    ensures Typosquat(e, domain).None?
  {
  }

  /** The membership test on parameter names as written: the lowered name against the list. */
  predicate IsSuspiciousNameAsWritten(name: string) {
    Lower(name) in SUSPICIOUS_PARAMS
  }

  /** The membership test with the list lowered too, so that "returnTo" can match. */
  predicate IsSuspiciousName(name: string) {
    Lower(name) in LoweredParams()
  }

  function LoweredParams(): (r: seq<string>)
    ensures |r| == |SUSPICIOUS_PARAMS|
    ensures forall i :: 0 <= i < |r| ==> r[i] == Lower(SUSPICIOUS_PARAMS[i])
  {
    seq(|SUSPICIOUS_PARAMS|, i requires 0 <= i < |SUSPICIOUS_PARAMS| => Lower(SUSPICIOUS_PARAMS[i]))
  }

  /** As written, a lowered name never equals the list's "returnTo": that entry is dead. */
  lemma ReturnToNeverMatchesAsWritten(name: string)
    ensures Lower(name) != "returnTo"
    ensures !IsSuspiciousNameAsWritten("returnTo")
  {
    LowerIsLowered(name);
    if |Lower(name)| == 8 {
      assert LowerChar(Lower(name)[6]) == Lower(name)[6];
      assert LowerChar('T') == 't';
    }
    assert Lower("returnTo") == "returnto";
    assert "returnto" != "returnTo";
  }

  /** Lowering the list makes every spelling of "returnTo" suspicious, and loses no other name. */
  lemma ReturnToMatches(name: string)
    requires Lower(name) == "returnto"
    ensures IsSuspiciousName(name)
    ensures IsSuspiciousNameAsWritten(name) ==> IsSuspiciousName(name)
  {
    assert Lower(SUSPICIOUS_PARAMS[9]) == "returnto";
    assert LoweredParams()[9] == "returnto";
  }

  /** Every name the list as written accepts, the lowered list accepts too. */
  lemma SuspiciousNameWidens(name: string)
    requires IsSuspiciousNameAsWritten(name)
    ensures IsSuspiciousName(name)
  {
    var i :| 0 <= i < |SUSPICIOUS_PARAMS| && SUSPICIOUS_PARAMS[i] == Lower(name);
    LowerIsLowered(name);
    LoweredFixed(Lower(name));
    assert LoweredParams()[i] == Lower(name);
  }

  predicate IsRedirectValue(v: string) {
    StartsWith(v, "http://") || StartsWith(v, "https://")
  }

  function ParamWarning(name: string): string {
    "Parameter '" + name + "' contains redirect URL"
  }

  /**
   * The name test a parameter warning uses: the list as written when `intended` is false, the
   * lowered list when it is true.
   */
  predicate Suspicious(intended: bool, name: string) {
    if intended then IsSuspiciousName(name) else IsSuspiciousNameAsWritten(name)
  }

  /** One warning per suspicious name, in order, whose first value is an http(s) URL. */
  function ParamWarningsOf(intended: bool, params: seq<(string, string)>): (r: seq<string>)
    ensures |r| <= |params|
    ensures forall w :: w in r <==>
      exists p :: (p in params && Suspicious(intended, p.0) && IsRedirectValue(p.1) && w == ParamWarning(p.0))
  {
    if |params| == 0 then []
    else
      var p := params[0];
      var rest := ParamWarningsOf(intended, params[1..]);
      var r := (if Suspicious(intended, p.0) && IsRedirectValue(p.1) then [ParamWarning(p.0)] else []) + rest;
      assert forall q :: q in params <==> q == p || q in params[1..];
      r
  }

  /** The first values of the query's parameters, in the order `parse_qs` lists them. */
  function Params(url: string): seq<(string, string)> {
    FirstValues(QueryPairs(Query(url)))
  }

  /**
   * `_check_suspicious_params(url)`: nothing when `urlparse` refuses the URL. `check_url` runs it
   * with `intended` false; with `intended` true it is the corrected check.
   */
  function ParamWarnings(intended: bool, url: string): (r: seq<string>)
    ensures !Parses(url) ==> r == []
    ensures |r| <= |Params(url)|
  {
    if !Parses(url) then [] else ParamWarningsOf(intended, Params(url))
  }

  /**
   * A warning names a parameter exactly when the parameter's name passes the name test and
   * the first value the query gives it starts with "http://" or "https://".
   */
  lemma ParamWarningsMeaning(intended: bool, url: string, w: string)
    requires Parses(url)
    ensures w in ParamWarnings(intended, url) <==>
      exists n :: Suspicious(intended, n) && Flagged(url, n) && w == ParamWarning(n)
  {
    if w in ParamWarnings(intended, url) {
      ParamWarningNamesFlagged(intended, url, w);
    }
    if exists n :: Suspicious(intended, n) && Flagged(url, n) && w == ParamWarning(n) {
      var n :| Suspicious(intended, n) && Flagged(url, n) && w == ParamWarning(n);
      FlaggedNameWarned(intended, url, n);
    }
  }

  /** As written, a "returnTo" parameter, in any spelling, is never warned about. */
  lemma ReturnToNeverWarnedAsWritten(url: string, n: string)
    requires Lower(n) == "returnto"
    ensures ParamWarning(n) !in ParamWarnings(false, url)
  {
    if ParamWarning(n) in ParamWarnings(false, url) {
      ParamWarningNamesFlagged(false, url, ParamWarning(n));
      var m :| Suspicious(false, m) && Flagged(url, m) && ParamWarning(n) == ParamWarning(m);
      ParamWarningNames(n, m);
      ReturnToNotListed(n);
      assert false;
    }
  }

  /** As written, no spelling of "returnTo" passes the name test. */
  lemma ReturnToNotListed(n: string)
    requires Lower(n) == "returnto"
    ensures !IsSuspiciousNameAsWritten(n)
  {
    assert "returnTo"[6] != "returnto"[6];
  }

  /** Different names give different warnings. */
  lemma ParamWarningNames(n: string, m: string)
    requires ParamWarning(n) == ParamWarning(m)
    ensures n == m
  {
    var tail := "' contains redirect URL";
    assert ParamWarning(n) == "Parameter '" + n + tail;
    assert ParamWarning(m) == "Parameter '" + m + tail;
    assert |n| == |m|;
    assert n == ParamWarning(n)[11..11 + |n|];
    assert m == ParamWarning(m)[11..11 + |m|];
  }

  /** Corrected, a "returnTo" parameter whose first value is an http(s) URL is warned about. */
  lemma ReturnToWarnedIntended(url: string, n: string)
    requires Parses(url) && Lower(n) == "returnto" && Flagged(url, n)
    ensures ParamWarning(n) in ParamWarnings(true, url)
  {
    ReturnToMatches(n);
    FlaggedNameWarned(true, url, n);
  }

  /** Each warning names a listed parameter whose first value is an http(s) URL. */
  lemma ParamWarningNamesFlagged(intended: bool, url: string, w: string)
    requires Parses(url) && w in ParamWarnings(intended, url)
    ensures exists n :: Suspicious(intended, n) && Flagged(url, n) && w == ParamWarning(n)
  {
    var n := WarnedPairFlagged(intended, QueryPairs(Query(url)), w);
    assert Flagged(url, n);
  }

  /** A listed parameter whose first value is an http(s) URL is warned about. */
  lemma FlaggedNameWarned(intended: bool, url: string, n: string)
    requires Parses(url) && Suspicious(intended, n) && Flagged(url, n)
    ensures ParamWarning(n) in ParamWarnings(intended, url)
  {
    FlaggedPairWarned(intended, QueryPairs(Query(url)), n);
  }

  /** The name a warning over the first values of `pairs` is about. */
  lemma WarnedPairFlagged(intended: bool, pairs: seq<(string, string)>, w: string) returns (n: string)
    requires w in ParamWarningsOf(intended, FirstValues(pairs))
    ensures Suspicious(intended, n) && w == ParamWarning(n)
    ensures FirstValue(pairs, n).Some? && IsRedirectValue(FirstValue(pairs, n).value)
  {
    var ps := FirstValues(pairs);
    FirstValuesAreFirst(pairs);
    var p :| p in ps && Suspicious(intended, p.0) && IsRedirectValue(p.1) && w == ParamWarning(p.0);
    var i :| 0 <= i < |ps| && ps[i] == p;
    assert FirstValue(pairs, p.0) == Some(p.1);
    n := p.0;
  }

  /** A listed name whose first value in `pairs` is an http(s) URL is warned about. */
  lemma FlaggedPairWarned(intended: bool, pairs: seq<(string, string)>, n: string)
    requires Suspicious(intended, n) && FirstValue(pairs, n).Some? && IsRedirectValue(FirstValue(pairs, n).value)
    ensures ParamWarning(n) in ParamWarningsOf(intended, FirstValues(pairs))
  {
    var ps := FirstValues(pairs);
    FirstValuesAreFirst(pairs);
    FirstValuesNames(pairs);
    FirstValueIn(pairs, n);
    var q :| q in ps && q.0 == n;
    var i :| 0 <= i < |ps| && ps[i] == q;
    assert FirstValue(pairs, n) == Some(q.1);
    assert q in ps && Suspicious(intended, q.0) && IsRedirectValue(q.1) && ParamWarning(n) == ParamWarning(q.0);
  }

  /** The first value the query gives `n` is an http(s) URL. */
  predicate Flagged(url: string, n: string) {
    var v := FirstValue(QueryPairs(Query(url)), n);
    v.Some? && IsRedirectValue(v.value)
  }

  /** A name with a first value is a name of some pair. */
  lemma {:induction false} FirstValueIn(pairs: seq<(string, string)>, n: string)
    requires FirstValue(pairs, n).Some?
    ensures (n, FirstValue(pairs, n).value) in pairs
  {
    if pairs[0].0 != n {
      FirstValueIn(pairs[1..], n);
    }
  }

  const AT_WARNING := "URL contains @ symbol in path"
  const DOUBLE_ENCODED_WARNING := "URL contains double-encoded characters"
  const TRAVERSAL_WARNING := "URL contains path traversal"
  const EXECUTABLE_WARNING := "URL points to executable file"
  const PATH_WARNINGS := [AT_WARNING, DOUBLE_ENCODED_WARNING, TRAVERSAL_WARNING, EXECUTABLE_WARNING]

  /** The path tricks present in a URL's decoded path, in the order of `PATH_WARNINGS`. */
  function PathTricks(e: Engine, url: string): (r: seq<bool>)
    ensures |r| == 4
  {
    var path := Unquote(Path(url));
    ['@' in path, Contains(url, "%25"), Contains(path, "../") || Contains(path, "..\\"),
     Search(e, I(EXECUTABLE), path)]
  }

  /** `_check_path_tricks(url)` on the decoded path: nothing when `urlparse` refuses the URL. */
  function PathWarnings(e: Engine, url: string): (r: seq<string>)
    ensures !Parses(url) ==> r == []
    ensures |r| <= 4
  {
    if !Parses(url) then [] else Selected(PathTricks(e, url), PATH_WARNINGS)
  }

  lemma PathWarningsDistinct()
    ensures forall j, k :: 0 <= j < k < |PATH_WARNINGS| ==> PATH_WARNINGS[j] != PATH_WARNINGS[k]
  {
    assert AT_WARNING[4] != EXECUTABLE_WARNING[4];
  }

  /** Each path warning is raised exactly when its trick is present. */
  lemma PathWarningsMeaning(e: Engine, url: string)
    requires Parses(url)
    ensures var path := Unquote(Path(url));
      && (AT_WARNING in PathWarnings(e, url) <==> '@' in path)
      && (DOUBLE_ENCODED_WARNING in PathWarnings(e, url) <==> Contains(url, "%25"))
      && (TRAVERSAL_WARNING in PathWarnings(e, url) <==> Contains(path, "../") || Contains(path, "..\\"))
      && (EXECUTABLE_WARNING in PathWarnings(e, url) <==> Search(e, I(EXECUTABLE), path))
  {
    var flags := PathTricks(e, url);
    PathWarningsDistinct();
    SelectedMeaning(flags, PATH_WARNINGS, 0);
    SelectedMeaning(flags, PATH_WARNINGS, 1);
    SelectedMeaning(flags, PATH_WARNINGS, 2);
    SelectedMeaning(flags, PATH_WARNINGS, 3);
  }

  /** The host is four dot-separated groups of one to three ASCII digits. */
  predicate IsIpAddress(domain: string) {
    var parts := SplitOn(domain, '.');
    |parts| == 4 &&
    forall i :: 0 <= i < 4 ==> 1 <= |parts[i]| <= 3 && forall j :: 0 <= j < |parts[i]| ==> IsDigit(parts[i][j])
  }

  /** A port other than 0, 80 and 443; a port `urlparse` cannot read is no warning. */
  function PortWarnings(url: string): (r: seq<string>)
    ensures r != [] <==> PortOf(url).PortNumber? && PortOf(url).n !in {0, 80, 443}
  {
    match PortOf(url)
    case PortNumber(n) =>
      if n != 0 && n != 80 && n != 443 then ["URL uses non-standard port: " + NatToString(n)] else []
    case _ => []
  }

  predicate HasSuspiciousTld(domain: string) {
    exists t :: t in SUSPICIOUS_TLDS && EndsWith(domain, t)
  }

  /** The warnings of `check_url`, in the order the checks run. */
  function Warnings(e: Engine, url: string, domain: string): seq<string> {
    MaliciousWarnings(e, url)
    + (match Typosquat(e, domain) case Some(b) => [IMPERSONATING + b] case None => [])
    + ParamWarnings(false, url)
    + PathWarnings(e, url)
    + (if IsIpAddress(domain) then ["URL uses IP address instead of domain"] else [])
    + PortWarnings(url)
    + (if HasSuspiciousTld(domain) then ["URL uses suspicious top-level domain"] else [])
  }

  /** A warning that marks a link as dangerous rather than doubtful. */
  predicate Severe(w: string) {
    Contains(Lower(w), "malicious") || Contains(Lower(w), "impersonating")
  }

  /**
   * `check_url(url)` against the trusted domains: an empty URL is refused outright; otherwise
   * the link is safe exactly when no warning is raised, and the risk is high for a severe
   * warning, medium for any other, low for an untrusted host and none for a trusted one.
   */
  function Check(e: Engine, trusted: set<string>, url: string): (r: LinkCheck)
    ensures url == "" ==> r == LinkCheck(false, RiskHigh, "", "", ["Empty URL"], "Do not interact")
    ensures url != "" ==>
      r.url == WithScheme(url) && r.finalDomain == ExtractDomain(r.url) && r.warnings == Warnings(e, r.url, r.finalDomain)
    ensures r.isSafe <==> url != "" && r.warnings == []
    ensures url != "" ==>
      && (r.risk == RiskHigh <==> exists w :: w in r.warnings && Severe(w))
      && (r.risk == RiskMedium <==> r.warnings != [] && forall w :: w in r.warnings ==> !Severe(w))
      && (r.risk == RiskLow <==> r.warnings == [] && !UnderDomain(r.finalDomain, trusted))
      && (r.risk == RiskNone <==> r.warnings == [] && UnderDomain(r.finalDomain, trusted))
  {
    if url == "" then LinkCheck(false, RiskHigh, "", "", ["Empty URL"], "Do not interact")
    else
      var u := WithScheme(url);
      var domain := ExtractDomain(u);
      var warnings := Warnings(e, u, domain);
      var isTrusted := UnderDomain(domain, trusted);
      if isTrusted && warnings == [] then LinkCheck(true, RiskNone, u, domain, warnings, "URL appears safe")
      else if warnings != [] && exists w :: w in warnings && Severe(w) then
        LinkCheck(false, RiskHigh, u, domain, warnings, "Do not interact with this URL")
      else if warnings != [] then
        LinkCheck(false, RiskMedium, u, domain, warnings, "Exercise caution with this URL")
      else if !isTrusted then
        LinkCheck(true, RiskLow, u, domain, warnings, "URL is not from a trusted domain")
      else LinkCheck(true, RiskNone, u, domain, warnings, "URL appears safe")
  }

  /** A warning whose middle part is a lower-case severe word is severe. */
  lemma SevereAround(a: string, word: string, c: string)
    requires IsLowered(word) && (word == "malicious" || word == "impersonating")
    ensures Severe(a + word + c)
  {
    LowerAppend(a + word, c);
    LowerAppend(a, word);
    LoweredFixed(word);
    assert StartsWith(word, word);
    ContainsInSuffix(Lower(a), word, word);
    ContainsInPrefix(Lower(a) + word, Lower(c), word);
  }

  lemma MaliciousWarningSevere()
    ensures Severe(MALICIOUS_WARNING)
  {
    assert MALICIOUS_WARNING == "URL matches " + "malicious" + " pattern";
    SevereAround("URL matches ", "malicious", " pattern");
  }

  lemma ImpersonatingSevere(brand: string)
    ensures Severe(IMPERSONATING + brand)
  {
    assert IMPERSONATING + brand == "Domain may be " + "impersonating" + (" " + brand);
    SevereAround("Domain may be ", "impersonating", " " + brand);
  }

  /** A URL any malicious pattern matches is high risk, however trusted its host. */
  lemma MaliciousIsHighRisk(e: Engine, trusted: set<string>, url: string)
    requires url != ""
    requires exists p :: p in MALICIOUS_PATTERNS && Search(e, I(p), WithScheme(url))
    ensures Check(e, trusted, url).risk == RiskHigh && !Check(e, trusted, url).isSafe
  {
    MaliciousWarningSevere();
    var r := Check(e, trusted, url);
    assert r.warnings[0] == MALICIOUS_WARNING;
  }

  /** A host that looks like a brand without naming it is high risk. */
  lemma TyposquatIsHighRisk(e: Engine, trusted: set<string>, url: string)
    requires url != ""
    requires Typosquat(e, ExtractDomain(WithScheme(url))).Some?
    ensures Check(e, trusted, url).risk == RiskHigh
  {
    var u := WithScheme(url);
    var b := Typosquat(e, ExtractDomain(u)).value;
    ImpersonatingSevere(b);
    var r := Check(e, trusted, url);
    var m := MaliciousWarnings(e, u);
    assert r.warnings[|m|] == IMPERSONATING + b;
  }

  /** A trusted domain and its subdomains carry no risk when nothing is flagged. */
  lemma TrustedSubdomainIsSafe(e: Engine, trusted: set<string>, url: string, sub: string, a: string)
    requires a in trusted && url != ""
    requires ExtractDomain(WithScheme(url)) == sub + "." + a
    requires Warnings(e, WithScheme(url), sub + "." + a) == []
    ensures Check(e, trusted, url).risk == RiskNone && Check(e, trusted, url).isSafe
  {
    SubdomainUnder(sub, a, trusted);
  }

  class Checker {
    var trusted: set<string>

    /** `LinkSafety(additional_trusted)`: the built-in trusted domains and the extra ones. */
    constructor (additional: set<string>)
      ensures trusted == TRUSTED_DOMAINS + additional
    {
      trusted := TRUSTED_DOMAINS + additional;
    }

    /** `check_url(url)` against the current trusted domains. */
    method CheckUrl(e: Engine, url: string) returns (r: LinkCheck)
      ensures r == Check(e, trusted, url)
      ensures r.isSafe <==> url != "" && r.warnings == []
    {
      r := Check(e, trusted, url);
    }

    /** `add_trusted_domain(domain)`: stored lowercased. */
    method AddTrustedDomain(domain: string)
      modifies this
      ensures trusted == old(trusted) + {Lower(domain)}
    {
      trusted := trusted + {Lower(domain)};
    }

    /** `remove_trusted_domain(domain)`: lowercased; an absent domain changes nothing. */
    method RemoveTrustedDomain(domain: string)
      modifies this
      ensures trusted == old(trusted) - {Lower(domain)}
      ensures Lower(domain) !in old(trusted) ==> trusted == old(trusted)
    {
      trusted := trusted - {Lower(domain)};
    }
  }
}
