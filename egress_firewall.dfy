/**
 * The egress firewall (`EgressFirewall`): which URLs the agent may contact. A URL's host is
 * taken as `urlparse` does (section 3.2 of RFC 3986: the authority after "//", without the port),
 * then refused in a fixed order: no host, a private address, a blocked pattern, the hourly
 * allowance, and finally (in allowlist mode) a host outside the allowlist.
 */
module EgressFirewall {
  import opened Wrappers
  import opened Strings
  import opened Regex
  import RateLimiter
  import opened Url

  const DEFAULT_ALLOWED := {
    "moltbook.com", "www.moltbook.com", "api.moltbook.com", "api.anthropic.com",
    "api.openai.com", "generativelanguage.googleapis.com", "api.groq.com"
  }

  const DEFAULT_BLOCKED_PATTERNS := [
    @"webhook\.", @"hooks\.slack\.com", @"discord\.com/api/webhooks", @"ngrok\.io",
    @"ngrok\.app", @"tunnel\.cloudflare", @"requestbin\.", @"pipedream\.net", @"hookbin\.com",
    @"burpcollaborator\.", @"interact\.sh", @"canarytokens\.", @"dnslog\.", @"oast\.",
    @"beeceptor\.com", @"mockbin\.org", @"postb\.in", @"paste\.bin", @"pastebin\.com",
    @"hastebin\.com", @"0x0\.st", @"file\.io", @"transfer\.sh"
  ]

  const HOUR := 3600.0
  const MAX_LOG := 1000
  const MAX_LOGGED_URL := 200

  // ---------------------------------------------------------------------------------------
  // The checks
  // ---------------------------------------------------------------------------------------

  /** The private-address patterns, anchored at the start of the host. */
  predicate IsPrivate(d: string) {
    || StartsWith(d, "10.")
    || (StartsWith(d, "172.") && |d| >= 7 && d[6] == '.' &&
        ((d[4] == '1' && '6' <= d[5] <= '9') || (d[4] == '2' && IsDigit(d[5]))
         || (d[4] == '3' && '0' <= d[5] <= '1')))
    || StartsWith(d, "192.168.")
    || StartsWith(d, "127.")
    || StartsWith(d, "localhost")
    || StartsWith(d, "0.0.0.0")
  }

  /** The first blocked pattern, compiled with IGNORECASE, found in the URL or in its host. */
  function FirstBlocked(e: Engine, patterns: seq<string>, url: string, domain: string)
    : (r: Option<string>)
    ensures r.Some? ==> r.value in patterns && (Search(e, I(r.value), url) || Search(e, I(r.value), domain))
    ensures r.None? <==> forall p :: p in patterns ==> !Search(e, I(p), url) && !Search(e, I(p), domain)
  {
    if |patterns| == 0 then None
    else if Search(e, I(patterns[0]), url) || Search(e, I(patterns[0]), domain) then Some(patterns[0])
    else FirstBlocked(e, patterns[1..], url, domain)
  }

  /**
   * The first match refuses the URL only when its pattern text is non-empty: an empty pattern
   * matches everywhere but is false as a condition, and the patterns after it are not tried.
   */
  predicate Blocks(first: Option<string>) {
    first.Some? && first.value != ""
  }

  datatype EgressResult = EgressResult(allowed: bool, url: string, domain: string, reason: string,
                                       rule: Option<string>)

  datatype EgressLog = EgressLog(time: real, url: string, domain: string, allowed: bool,
                                 reason: string, source: string)

  /**
   * The decision of `check_url`, given how many allowed requests fall in the last hour: the
   * first failing check in the order host, private address, blocked pattern, hourly allowance,
   * allowlist gives the reason.
   */
  function Evaluate(e: Engine, patterns: seq<string>, allowMode: string, allowed: set<string>,
                    maxPerHour: int, recent: int, url: string): (r: EgressResult)
    ensures r.url == url && r.domain == ExtractDomain(url)
    ensures r.allowed <==>
      && ExtractDomain(url) != "" && !IsPrivate(ExtractDomain(url))
      && !Blocks(FirstBlocked(e, patterns, url, ExtractDomain(url))) && recent < maxPerHour
      && (allowMode == "allowlist" ==> UnderDomain(ExtractDomain(url), allowed))
    ensures ExtractDomain(url) != "" && IsPrivate(ExtractDomain(url)) ==>
      r.rule == Some("private_ip") && r.reason == "Private/internal IP addresses are blocked"
  {
    var d := ExtractDomain(url);
    if d == "" then EgressResult(false, url, "", "Invalid URL format", None)
    else if IsPrivate(d) then
      EgressResult(false, url, d, "Private/internal IP addresses are blocked", Some("private_ip"))
    else
      var b := FirstBlocked(e, patterns, url, d);
      if Blocks(b) then EgressResult(false, url, d, "URL matches blocked pattern: " + b.value, b)
      else if recent >= maxPerHour then
        EgressResult(false, url, d, "Rate limit exceeded (" + IntToString(maxPerHour) + "/hour)", None)
      else if allowMode == "allowlist" && !UnderDomain(d, allowed) then
        EgressResult(false, url, d, "Domain '" + d + "' not in allowlist", None)
      else EgressResult(true, url, d, "Request allowed", None)
  }

  /** A private host is refused whatever the allowlist, the mode and the allowance say. */
  lemma PrivateAlwaysRefused(e: Engine, patterns: seq<string>, allowMode: string,
                             allowed: set<string>, maxPerHour: int, recent: int, url: string)
    requires ExtractDomain(url) != "" && IsPrivate(ExtractDomain(url))
    ensures !Evaluate(e, patterns, allowMode, allowed, maxPerHour, recent, url).allowed
    ensures forall more :: !Evaluate(e, patterns, allowMode, allowed + more, maxPerHour, recent, url).allowed
  {
  }

  /** The last `MAX_LOG` entries. */
  function KeepLast<T>(s: seq<T>): (r: seq<T>)
    ensures |r| <= MAX_LOG
    ensures |s| <= MAX_LOG ==> r == s
    ensures r == s[|s| - |r|..]
  {
    if |s| > MAX_LOG then s[|s| - MAX_LOG..] else s
  }

  class Firewall {
    var allowedDomains: set<string>
    const allowMode: string
    const logRequests: bool
    const maxPerHour: int
    var blockedPatterns: seq<string>
    var requestTimes: seq<real>
    var requestLog: seq<EgressLog>

    /** The allowed requests kept never outnumber the hourly allowance, nor the log 1000 entries. */
    predicate Valid()
      reads this
    {
      |requestTimes| <= (if maxPerHour > 0 then maxPerHour else 0) && |requestLog| <= MAX_LOG
    }

    /**
     * `EgressFirewall(allowed_domains, blocked_patterns, allow_mode, log_requests,
     * max_requests_per_hour)`: an empty or missing list means the default one.
     */
    constructor (allowedDomains: Option<seq<string>>, blockedPatterns: Option<seq<string>>,
                 allowMode: string, logRequests: bool, maxPerHour: int)
      ensures Valid()
      ensures this.allowedDomains ==
        (if allowedDomains.Some? && |allowedDomains.value| > 0 then set d | d in allowedDomains.value
         else DEFAULT_ALLOWED)
      ensures this.blockedPatterns ==
        (if blockedPatterns.Some? && |blockedPatterns.value| > 0 then blockedPatterns.value
         else DEFAULT_BLOCKED_PATTERNS)
      ensures this.allowMode == allowMode && this.logRequests == logRequests
      ensures this.maxPerHour == maxPerHour
      ensures requestTimes == [] && requestLog == []
    {
      this.allowedDomains :=
        if allowedDomains.Some? && |allowedDomains.value| > 0 then set d | d in allowedDomains.value
        else DEFAULT_ALLOWED;
      this.blockedPatterns :=
        if blockedPatterns.Some? && |blockedPatterns.value| > 0 then blockedPatterns.value
        else DEFAULT_BLOCKED_PATTERNS;
      this.allowMode := allowMode;
      this.logRequests := logRequests;
      this.maxPerHour := maxPerHour;
      requestTimes := [];
      requestLog := [];
    }

    /** The URL passes the host, private-address and pattern checks, so the allowance is consulted. */
    predicate ReachesRateCheck(e: Engine, url: string)
      reads this
    {
      var d := ExtractDomain(url);
      d != "" && !IsPrivate(d) && !Blocks(FirstBlocked(e, blockedPatterns, url, d))
    }

    /** `_log_request(...)`: recorded only when logging is on, keeping the last 1000. */
    method LogRequest(r: EgressResult, source: string, now: real)
      requires Valid()
      modifies this
      ensures Valid()
      ensures requestLog == (if logRequests then KeepLast(old(requestLog) +
                 [EgressLog(now, Take(r.url, MAX_LOGGED_URL), r.domain, r.allowed, r.reason, source)])
               else old(requestLog))
      ensures allowedDomains == old(allowedDomains) && requestTimes == old(requestTimes)
      ensures blockedPatterns == old(blockedPatterns)
    {
      if logRequests {
        requestLog := KeepLast(requestLog +
          [EgressLog(now, Take(r.url, MAX_LOGGED_URL), r.domain, r.allowed, r.reason, source)]);
      }
    }

    /**
     * `check_url(url, source)` at time `now`: the decision of `Evaluate` on the requests of the
     * last hour; the allowance prunes older times once it is consulted, and only an allowed
     * request records its time.
     */
    method CheckUrl(e: Engine, url: string, source: string, now: real) returns (r: EgressResult)
      requires Valid()
      modifies this
      ensures Valid()
      ensures r == Evaluate(e, blockedPatterns, allowMode, allowedDomains, maxPerHour,
                            |RateLimiter.After(old(requestTimes), now - HOUR)|, url)
      ensures blockedPatterns == old(blockedPatterns)
      ensures !old(ReachesRateCheck(e, url)) ==> requestTimes == old(requestTimes)
      ensures old(ReachesRateCheck(e, url)) ==>
        requestTimes == RateLimiter.After(old(requestTimes), now - HOUR) + (if r.allowed then [now] else [])
      ensures requestLog == (if logRequests then KeepLast(old(requestLog) +
                 [EgressLog(now, Take(url, MAX_LOGGED_URL), r.domain, r.allowed, r.reason, source)])
               else old(requestLog))
      ensures allowedDomains == old(allowedDomains)
    {
      var recent := RateLimiter.After(requestTimes, now - HOUR);
      r := Evaluate(e, blockedPatterns, allowMode, allowedDomains, maxPerHour, |recent|, url);
      if ReachesRateCheck(e, url) {
        requestTimes := recent;
        if r.allowed {
          requestTimes := requestTimes + [now];
        }
      }
      LogRequest(r, source, now);
    }

    /** `add_blocked_pattern(pattern)`: tried after the patterns already held. */
    method AddBlockedPattern(pattern: string)
      modifies this
      ensures blockedPatterns == old(blockedPatterns) + [pattern]
      ensures allowedDomains == old(allowedDomains)
      ensures requestTimes == old(requestTimes) && requestLog == old(requestLog)
    {
      blockedPatterns := blockedPatterns + [pattern];
    }

    /** `get_request_log(limit, blocked_only)`: the newest entries, refused ones only if asked. */
    method GetRequestLog(limit: int, blockedOnly: bool) returns (r: seq<EgressLog>)
      ensures r == PyTail(if blockedOnly then Refused(requestLog) else requestLog, limit)
      ensures blockedOnly ==> forall x :: x in r ==> !x.allowed
    {
      var logs := requestLog;
      if blockedOnly {
        logs := Refused(logs);
      }
      r := PyTail(logs, limit);
    }

    /** `get_stats()` at time `now`, leaving out the rounded block rate. */
    method GetStats(now: real) returns (r: Stats)
      ensures r == StatsOf(requestTimes, requestLog, now)
    {
      r := StatsOf(requestTimes, requestLog, now);
    }

    /** `reset_stats()` */
    method ResetStats()
      requires Valid()
      modifies this
      ensures Valid()
      ensures requestTimes == [] && requestLog == []
      ensures allowedDomains == old(allowedDomains) && blockedPatterns == old(blockedPatterns)
    {
      requestTimes := [];
      requestLog := [];
    }

    /** `add_allowed_domain(domain)` */
    method AddAllowedDomain(domain: string)
      modifies this
      ensures allowedDomains == old(allowedDomains) + {Lower(domain)}
      ensures blockedPatterns == old(blockedPatterns)
      ensures requestTimes == old(requestTimes) && requestLog == old(requestLog)
    {
      allowedDomains := allowedDomains + {Lower(domain)};
    }

    /** `remove_allowed_domain(domain)`: removing an absent domain changes nothing. */
    method RemoveAllowedDomain(domain: string)
      modifies this
      ensures allowedDomains == old(allowedDomains) - {Lower(domain)}
      ensures Lower(domain) !in old(allowedDomains) ==> allowedDomains == old(allowedDomains)
      ensures blockedPatterns == old(blockedPatterns)
      ensures requestTimes == old(requestTimes) && requestLog == old(requestLog)
    {
      allowedDomains := allowedDomains - {Lower(domain)};
    }
  }

  /**
   * Python's `s[-n:]`: the last `n` items for a positive `n`, but the whole list for 0 and the
   * list without its first `-n` items for a negative `n`.
   */
  function PyTail<T>(s: seq<T>, n: int): (r: seq<T>)
    ensures 0 < n ==> |r| == (if n < |s| then n else |s|)
    ensures n == 0 ==> r == s
    ensures n < 0 ==> |r| == (if -n < |s| then |s| + n else 0)
    ensures r == s[|s| - |r|..]
  {
    if n > 0 then (if n < |s| then s[|s| - n..] else s)
    else if n == 0 then s
    else if -n < |s| then s[-n..] else []
  }

  /** The refused entries of a log, in order. */
  function Refused(log: seq<EgressLog>): (r: seq<EgressLog>)
    ensures |r| <= |log|
    ensures forall x :: x in r <==> x in log && !x.allowed
  {
    if |log| == 0 then []
    else (if log[0].allowed then [] else [log[0]]) + Refused(log[1..])
  }

  /** The counts `get_stats` reports: requests in the last hour, entries logged and refused. */
  datatype Stats = Stats(requestsThisHour: nat, totalLogged: nat, totalBlocked: nat)

  function StatsOf(times: seq<real>, log: seq<EgressLog>, now: real): (r: Stats)
    ensures r.totalBlocked <= r.totalLogged == |log|
    ensures r.requestsThisHour <= |times|
  {
    Stats(|RateLimiter.After(times, now - HOUR)|, |log|, |Refused(log)|)
  }
}
