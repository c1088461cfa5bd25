/**
 * Credential monitor (`CredentialMonitor`): output is searched for API keys, tokens, passwords
 * and private keys; reads of sensitive environment variables are counted; content that carries
 * a critical credential towards the network is an exfiltration attempt. Alerts are kept under
 * an hourly cap and a total cap. Times are seconds, passed in as `now`.
 */
module CredentialMonitor {
  import opened Wrappers
  import opened Strings
  import opened Regex
  import opened Scoring

  /** One entry of `CREDENTIAL_PATTERNS`: its key, its pattern (compiled ignoring case), its level and its description. */
  datatype CredentialPattern = CredentialPattern(name: string, pattern: Pattern, severity: Risk, description: string)

  const CREDENTIAL_PATTERNS: seq<CredentialPattern> := [
    CredentialPattern("moltbook_key", I(@"moltbook_[a-z]{2}_[A-Za-z0-9]{32,}"), Critical, "Moltbook API key"),
    CredentialPattern("openai_key", I(@"sk-[A-Za-z0-9]{48,}"), Critical, "OpenAI API key"),
    CredentialPattern("openai_project_key", I(@"sk-proj-[A-Za-z0-9\-_]{40,}"), Critical, "OpenAI project key"),
    CredentialPattern("anthropic_key", I(@"sk-ant-[A-Za-z0-9\-_]{40,}"), Critical, "Anthropic API key"),
    CredentialPattern("aws_access_key", I(@"AKIA[0-9A-Z]{16}"), Critical, "AWS access key"),
    CredentialPattern("aws_secret", I(@"(?:aws_secret_access_key|AWS_SECRET)\s*[=:]\s*[A-Za-z0-9/+=]{40}"), Critical, "AWS secret key"),
    CredentialPattern("github_token", I(@"ghp_[A-Za-z0-9]{36}"), High, "GitHub personal access token"),
    CredentialPattern("generic_bearer", I(@"Bearer\s+[A-Za-z0-9\-_\.]{20,}"), High, "Bearer token"),
    CredentialPattern("password_field", I(@"(?:password|passwd|pwd)\s*[=:]\s*['""][^'""]{4,}['""]"), High, "Password in content"),
    CredentialPattern("private_key", I(@"-----BEGIN (?:RSA |EC |OPENSSH )?PRIVATE KEY-----"), Critical, "Private key")
  ]

  /** `SENSITIVE_ENV_VARS` */
  const SENSITIVE_ENV_VARS: set<string> := {
    "ANTHROPIC_API_KEY", "OPENAI_API_KEY", "MOLTBOOK_API_KEY", "AWS_ACCESS_KEY_ID",
    "AWS_SECRET_ACCESS_KEY", "GITHUB_TOKEN", "SLACK_WEBHOOK_URL", "DATABASE_URL",
    "REDIS_URL", "SECRET_KEY", "JWT_SECRET"
  }

  /** `EXFILTRATION_PATTERNS`, compiled ignoring case. */
  const EXFILTRATION_PATTERNS: seq<Pattern> := [
    I(@"curl\s+.*?http"), I(@"wget\s+.*?http"), I(@"requests?\.(get|post)"),
    I(@"fetch\s*\("), I(@"http\.request"), I(@"XMLHttpRequest")
  ]

  const MATCHES_SHOWN := 3
  const SHOWN_CHARS := 20
  const ACCESS_THRESHOLD := 10
  const MAX_ALERTS := 1000
  const HOUR := 3600.0

  /** The messages a result carries (the source formats them as text). */
  datatype Notice =
    | Detected(description: string)             // "<description> detected in output"
    | ExcessiveAccess(keys: seq<string>)        // "Excessive access to sensitive keys: <keys>"
    | SensitiveAccess(keys: seq<string>)        // "Sensitive keys accessed: <keys>"
    | ExfiltrationAttempt                       // "CRITICAL: Credential exfiltration attempt detected"
    | CredentialsOutbound                       // "Credentials detected in content destined for external"

  /** `MonitorResult` */
  datatype MonitorResult = MonitorResult(
    isSafe: bool, alerts: seq<Notice>, riskLevel: Risk, matchedPatterns: seq<string>, recommendation: string)

  /** What an alert says happened. */
  datatype AlertKind = CredentialInOutput | ExcessiveCredentialAccess | ExfiltrationAlert

  /** `CredentialAlert` without its context dictionary; `time` replaces the ISO timestamp. */
  datatype Alert = Alert(time: real, kind: AlertKind, severity: Risk, subject: string)

  /** An alert an operation asks `_log_alert` to record. */
  datatype Request = Request(kind: AlertKind, severity: Risk, subject: string)

  const SAFE := MonitorResult(true, [], NoRisk, [], "")

  /** Safe exactly at "none" and "low". */
  predicate SafeLevel(r: Risk) {
    r == NoRisk || r == Low
  }

  // ---------------------------------------------------------------------------------------
  // monitor_output

  /** The patterns of the table that match, in table order. */
  function Hits(e: Engine, table: seq<CredentialPattern>, content: string): (r: seq<CredentialPattern>)
    ensures forall p :: p in r <==> p in table && |e.findAll(p.pattern, content)| > 0
  {
    if |table| == 0 then []
    else
      (if |e.findAll(table[0].pattern, content)| > 0 then [table[0]] else []) + Hits(e, table[1..], content)
  }

  /** The highest severity among the hits; "none" for none. */
  function Highest(hits: seq<CredentialPattern>): (r: Risk)
    ensures forall i :: 0 <= i < |hits| ==> Score(hits[i].severity) <= Score(r)
    ensures r == NoRisk || exists i :: 0 <= i < |hits| && r == hits[i].severity
    ensures hits == [] ==> r == NoRisk
  {
    if |hits| == 0 then NoRisk
    else
      var rest := Highest(hits[1..]);
      assert forall i :: 1 <= i < |hits| ==> hits[i] == hits[1..][i - 1];
      MaxRisk(hits[0].severity, rest)
  }

  /** `m[:20] + "..."` */
  function Shown(m: string): (r: string)
    ensures |r| <= SHOWN_CHARS + 3 && EndsWith(r, "...")
    ensures StartsWith(m, r[..|r| - 3])
  {
    Take(m, SHOWN_CHARS) + "..."
  }

  /** The first three matches of each hit, each shortened. */
  function ShownMatches(e: Engine, hits: seq<CredentialPattern>, content: string): (r: seq<string>)
    ensures |r| <= MATCHES_SHOWN * |hits|
    ensures forall i :: 0 <= i < |r| ==> |r[i]| <= SHOWN_CHARS + 3 && EndsWith(r[i], "...")
  {
    if |hits| == 0 then []
    else
      var ms := Take(ReportedAll(e.findAll(hits[0].pattern, content)), MATCHES_SHOWN);
      Map(ms) + ShownMatches(e, hits[1..], content)
  }

  function Map(ms: seq<string>): (r: seq<string>)
    ensures |r| == |ms|
    ensures forall i :: 0 <= i < |ms| ==> r[i] == Shown(ms[i])
  {
    if |ms| == 0 then [] else [Shown(ms[0])] + Map(ms[1..])
  }

  function Notices(hits: seq<CredentialPattern>): (r: seq<Notice>)
    ensures |r| == |hits|
    ensures forall i :: 0 <= i < |hits| ==> r[i] == Detected(hits[i].description)
  {
    if |hits| == 0 then [] else [Detected(hits[0].description)] + Notices(hits[1..])
  }

  function HitRequests(hits: seq<CredentialPattern>): (r: seq<Request>)
    ensures |r| == |hits|
    ensures forall i :: 0 <= i < |hits| ==> r[i] == Request(CredentialInOutput, hits[i].severity, hits[i].description)
  {
    if |hits| == 0 then []
    else [Request(CredentialInOutput, hits[0].severity, hits[0].description)] + HitRequests(hits[1..])
  }

  /** `monitor_output(content)`: the result and the alerts it asks to record, one per hit. */
  function Output(e: Engine, table: seq<CredentialPattern>, content: string): (MonitorResult, seq<Request>) {
    if content == "" then (SAFE, [])
    else
      var hits := Hits(e, table, content);
      var level := Highest(hits);
      var safe := SafeLevel(level);
      (MonitorResult(safe, Notices(hits), level, ShownMatches(e, hits, content),
                     if safe then "" else "DO NOT send this output - credential leak detected"),
       HitRequests(hits))
  }

  /** Empty output is safe with nothing to say and nothing to record. */
  lemma EmptyOutputIsSafe(e: Engine, table: seq<CredentialPattern>)
    ensures Output(e, table, "") == (SAFE, [])
    ensures Output(e, table, "").0.isSafe
  {
  }

  /**
   * The level is the highest severity of a matching pattern and the output is safe exactly at
   * "none" or "low"; every matching pattern gives one notice and one alert, and the shown
   * matches are at most three per pattern, each cut to twenty characters and "...".
   */
  lemma OutputMeaning(e: Engine, table: seq<CredentialPattern>, content: string)
    requires content != ""
    ensures var (r, reqs) := Output(e, table, content);
      var hits := Hits(e, table, content);
      && (forall i :: 0 <= i < |hits| ==> Score(hits[i].severity) <= Score(r.riskLevel))
      && (r.riskLevel == NoRisk || exists i :: 0 <= i < |hits| && r.riskLevel == hits[i].severity)
      && (r.isSafe <==> SafeLevel(r.riskLevel))
      && |r.alerts| == |reqs| == |hits|
      && |r.matchedPatterns| <= MATCHES_SHOWN * |hits|
      && (forall i :: 0 <= i < |r.matchedPatterns| ==> |r.matchedPatterns[i]| <= SHOWN_CHARS + 3)
  {
  }

  /**
   * For a table of "high" and "critical" patterns only, non-empty output is safe exactly when
   * no pattern matches.
   */
  lemma OutputSafeIffNoHit(e: Engine, table: seq<CredentialPattern>, content: string)
    requires content != ""
    requires forall i :: 0 <= i < |table| ==> Score(table[i].severity) >= 3
    ensures Output(e, table, content).0.isSafe <==>
      forall i :: 0 <= i < |table| ==> |e.findAll(table[i].pattern, content)| == 0
  {
    var hits := Hits(e, table, content);
    if hits != [] {
      assert hits[0] in table;
      assert Score(hits[0].severity) >= 3;
      assert Score(hits[0].severity) <= Score(Highest(hits));
      assert !Output(e, table, content).0.isSafe;
    } else {
      assert Highest(hits) == NoRisk;
      forall i | 0 <= i < |table|
        ensures |e.findAll(table[i].pattern, content)| == 0
      {
        assert table[i] !in hits;
      }
    }
  }

  /** Every pattern of the table is "high" or "critical". */
  lemma TableSeverities()
    ensures forall i :: 0 <= i < |CREDENTIAL_PATTERNS| ==> Score(CREDENTIAL_PATTERNS[i].severity) >= 3
  {
  }

  /** With the shipped table, non-empty output is safe exactly when no credential pattern matches. */
  lemma OutputSafeIffNoCredential(e: Engine, content: string)
    requires content != ""
    ensures Output(e, CREDENTIAL_PATTERNS, content).0.isSafe <==>
      forall i :: 0 <= i < |CREDENTIAL_PATTERNS| ==> |e.findAll(CREDENTIAL_PATTERNS[i].pattern, content)| == 0
  {
    TableSeverities();
    OutputSafeIffNoHit(e, CREDENTIAL_PATTERNS, content);
  }

  // ---------------------------------------------------------------------------------------
  // monitor_memory_access

  /** `key.upper() in SENSITIVE_ENV_VARS` */
  predicate Sensitive(key: string) {
    Upper(key) in SENSITIVE_ENV_VARS
  }

  function Get(counts: map<string, nat>, k: string): nat {
    if k in counts then counts[k] else 0
  }

  /** The sensitive keys of a list, in order, repeats kept. */
  function SensitiveKeys(keys: seq<string>): (r: seq<string>)
    ensures forall k :: k in r <==> k in keys && Sensitive(k)
  {
    if |keys| == 0 then []
    else (if Sensitive(keys[0]) then [keys[0]] else []) + SensitiveKeys(keys[1..])
  }

  /** The access counts after the keys are read, each sensitive key counted once per read. */
  function Counted(counts: map<string, nat>, keys: seq<string>): map<string, nat>
    decreases |keys|
  {
    if |keys| == 0 then counts
    else
      var last := keys[|keys| - 1];
      var before := Counted(counts, keys[..|keys| - 1]);
      if Sensitive(last) then before[last := Get(before, last) + 1] else before
  }

  /** A key's count grows by the number of times it was read, and only sensitive keys count. */
  lemma {:induction false} CountedMeaning(counts: map<string, nat>, keys: seq<string>, k: string)
    ensures Get(Counted(counts, keys), k) == Get(counts, k) + (if Sensitive(k) then Occurrences(keys, k) else 0)
    decreases |keys|
  {
    if |keys| > 0 {
      CountedMeaning(counts, keys[..|keys| - 1], k);
    }
  }

  function Occurrences(keys: seq<string>, k: string): nat
    decreases |keys|
  {
    if |keys| == 0 then 0
    else Occurrences(keys[..|keys| - 1], k) + (if keys[|keys| - 1] == k then 1 else 0)
  }

  /** The sensitive keys read more than ten times in all. */
  function Unusual(counts: map<string, nat>, accessed: seq<string>): (r: seq<string>)
    ensures forall k :: k in r <==> k in accessed && Get(counts, k) > ACCESS_THRESHOLD
  {
    if |accessed| == 0 then []
    else (if Get(counts, accessed[0]) > ACCESS_THRESHOLD then [accessed[0]] else []) + Unusual(counts, accessed[1..])
  }

  /**
   * `monitor_memory_access(keys)` given the counts before: the result, the new counts and the
   * alert it asks to record, if any.
   */
  function MemoryAccess(alertOnAccess: bool, counts: map<string, nat>, keys: seq<string>)
    : (MonitorResult, map<string, nat>, Option<Request>)
  {
    var accessed := SensitiveKeys(keys);
    var after := Counted(counts, keys);
    if accessed == [] then (SAFE, after, None)
    else
      var unusual := Unusual(after, accessed);
      if unusual != [] then
        (MonitorResult(false, [ExcessiveAccess(unusual)], High, [], "Review access patterns"), after,
         Some(Request(ExcessiveCredentialAccess, High, "")))
      else if alertOnAccess then (MonitorResult(true, [SensitiveAccess(accessed)], Low, [], ""), after, None)
      else (SAFE, after, None)
  }

  /**
   * A read is unsafe, at "high", exactly when some sensitive key read now has been read more
   * than ten times in all; otherwise it is safe, at "low" when some sensitive key was read and
   * alerts on access are on, and at "none" otherwise. Only the unsafe case records an alert.
   */
  lemma MemoryAccessMeaning(alertOnAccess: bool, counts: map<string, nat>, keys: seq<string>)
    ensures var (r, after, req) := MemoryAccess(alertOnAccess, counts, keys);
      var excessive := exists k :: k in keys && Sensitive(k) && Get(after, k) > ACCESS_THRESHOLD;
      && (!r.isSafe <==> excessive)
      && (!r.isSafe <==> req.Some?)
      && (excessive ==> r.riskLevel == High)
      && (!excessive ==> (r.riskLevel == Low <==> alertOnAccess && exists k :: k in keys && Sensitive(k)))
      && (!excessive ==> SafeLevel(r.riskLevel))
      && after == Counted(counts, keys)
  {
    var accessed := SensitiveKeys(keys);
    var after := Counted(counts, keys);
    var unusual := Unusual(after, accessed);
    var excessive := exists k :: k in keys && Sensitive(k) && Get(after, k) > ACCESS_THRESHOLD;
    var touched := exists k :: k in keys && Sensitive(k);
    assert touched <==> accessed != [] by {
      if touched {
        var k :| k in keys && Sensitive(k);
        assert k in accessed;
      }
      if accessed != [] {
        assert accessed[0] in accessed;
      }
    }
    assert excessive <==> unusual != [] by {
      if excessive {
        var k :| k in keys && Sensitive(k) && Get(after, k) > ACCESS_THRESHOLD;
        assert k in accessed;
        assert k in unusual;
      }
      if unusual != [] {
        assert unusual[0] in unusual;
      }
    }
  }

  /** A key is read in any letter case: "anthropic_api_key" is as sensitive as "ANTHROPIC_API_KEY". */
  lemma SensitiveIgnoresCase()
    ensures Sensitive("anthropic_api_key") && Sensitive("ANTHROPIC_API_KEY")
    ensures !Sensitive("HOME")
  {
    assert Upper("anthropic_api_key") == "ANTHROPIC_API_KEY";
    assert Upper("ANTHROPIC_API_KEY") == "ANTHROPIC_API_KEY";
    assert Upper("HOME") == "HOME";
  }

  // ---------------------------------------------------------------------------------------
  // detect_exfiltration_attempt

  /** `detect_exfiltration_attempt(content, destination)`: the result and the alerts it asks to record. */
  function Exfiltration(e: Engine, table: seq<CredentialPattern>, network: seq<Pattern>, content: string,
                        destination: string): (MonitorResult, seq<Request>)
  {
    var (cred, credReqs) := Output(e, table, content);
    var hasNetwork := AnySearch(e, network, content);
    var (level, own, reqs) :=
      if cred.riskLevel == Critical && (hasNetwork || destination != "") then
        (Critical, [ExfiltrationAttempt], [Request(ExfiltrationAlert, Critical, destination)])
      else if cred.riskLevel == High || cred.riskLevel == Critical then (High, [CredentialsOutbound], [])
      else if hasNetwork && destination != "" then (Low, [], [])
      else (NoRisk, [], []);
    (MonitorResult(SafeLevel(level), own + cred.alerts, level, cred.matchedPatterns,
                   if level == Critical then "BLOCK immediately" else ""),
     credReqs + reqs)
  }

  /**
   * An exfiltration attempt is "critical" exactly when a critical credential is present and
   * there is a network call or a destination; any other high or critical credential is
   * "high"; without credentials a network call with a destination is only "low". Unsafe
   * exactly when a credential of "high" or above is present.
   */
  lemma ExfiltrationMeaning(e: Engine, table: seq<CredentialPattern>, network: seq<Pattern>, content: string,
                            destination: string)
    ensures var cred := Output(e, table, content).0;
      var r := Exfiltration(e, table, network, content, destination).0;
      var hasNetwork := AnySearch(e, network, content);
      && (r.riskLevel == Critical <==> cred.riskLevel == Critical && (hasNetwork || destination != ""))
      && (r.riskLevel == High <==> (cred.riskLevel == High || (cred.riskLevel == Critical && !hasNetwork && destination == "")))
      && (Score(cred.riskLevel) < 3 ==> (r.riskLevel == Low <==> hasNetwork && destination != ""))
      && (r.isSafe <==> Score(cred.riskLevel) < 3)
      && r.matchedPatterns == cred.matchedPatterns
  {
  }

  // ---------------------------------------------------------------------------------------
  // Alerts

  /** The alert times within the last hour before `now`, in order. */
  function WithinHour(times: seq<real>, now: real): (r: seq<real>)
    ensures |r| <= |times|
    ensures forall t :: t in r <==> t in times && t > now - HOUR
  {
    if |times| == 0 then []
    else (if times[0] > now - HOUR then [times[0]] else []) + WithinHour(times[1..], now)
  }

  /** The last `MAX_ALERTS` alerts. */
  function Capped(alerts: seq<Alert>): (r: seq<Alert>)
    ensures |r| <= MAX_ALERTS
    ensures |alerts| <= MAX_ALERTS ==> r == alerts
    ensures |alerts| > MAX_ALERTS ==> r == alerts[|alerts| - MAX_ALERTS..]
  {
    if |alerts| > MAX_ALERTS then alerts[|alerts| - MAX_ALERTS..] else alerts
  }

  /**
   * `_log_alert` at `now`: times older than an hour are dropped; with the hourly cap reached
   * nothing else happens; otherwise the time and the alert are appended and the alerts cut
   * to the last thousand.
   */
  function Logged(alerts: seq<Alert>, times: seq<real>, maxPerHour: int, now: real, q: Request)
    : (seq<Alert>, seq<real>)
  {
    var recent := WithinHour(times, now);
    if |recent| >= maxPerHour then (alerts, recent)
    else (Capped(alerts + [Alert(now, q.kind, q.severity, q.subject)]), recent + [now])
  }

  /** The bound both lists keep: at most a thousand alerts, and no more times than the hourly cap. */
  predicate Bounded(alerts: seq<Alert>, times: seq<real>, maxPerHour: int) {
    |alerts| <= MAX_ALERTS && |times| <= (if maxPerHour > 0 then maxPerHour else 0)
  }

  /**
   * Logging keeps the bounds; a rate-limited alert is dropped and otherwise the new alert is
   * the last one kept.
   */
  lemma LoggedMeaning(alerts: seq<Alert>, times: seq<real>, maxPerHour: int, now: real, q: Request)
    requires Bounded(alerts, times, maxPerHour)
    ensures var (a, t) := Logged(alerts, times, maxPerHour, now, q);
      && Bounded(a, t, maxPerHour)
      && (|WithinHour(times, now)| >= maxPerHour ==> a == alerts)
      && (|WithinHour(times, now)| < maxPerHour ==> |a| > 0 && a[|a| - 1] == Alert(now, q.kind, q.severity, q.subject))
  {
  }

  /** A series of alerts logged at the same time, in order. */
  function LoggedAll(alerts: seq<Alert>, times: seq<real>, maxPerHour: int, now: real, qs: seq<Request>)
    : (seq<Alert>, seq<real>)
    decreases |qs|
  {
    if |qs| == 0 then (alerts, times)
    else
      var (a, t) := LoggedAll(alerts, times, maxPerHour, now, qs[..|qs| - 1]);
      Logged(a, t, maxPerHour, now, qs[|qs| - 1])
  }

  /** Logging any series of alerts keeps the bounds. */
  lemma {:induction false} LoggedAllBounded(alerts: seq<Alert>, times: seq<real>, maxPerHour: int, now: real,
                                            qs: seq<Request>)
    requires Bounded(alerts, times, maxPerHour)
    ensures var (a, t) := LoggedAll(alerts, times, maxPerHour, now, qs); Bounded(a, t, maxPerHour)
    decreases |qs|
  {
    if |qs| > 0 {
      LoggedAllBounded(alerts, times, maxPerHour, now, qs[..|qs| - 1]);
      var (a, t) := LoggedAll(alerts, times, maxPerHour, now, qs[..|qs| - 1]);
      LoggedMeaning(a, t, maxPerHour, now, qs[|qs| - 1]);
    }
  }

  /** With a cap of zero or less nothing is ever recorded. */
  lemma {:induction false} NoCapNoAlerts(alerts: seq<Alert>, times: seq<real>, maxPerHour: int, now: real,
                                         qs: seq<Request>)
    requires maxPerHour <= 0
    ensures LoggedAll(alerts, times, maxPerHour, now, qs).0 == alerts
    decreases |qs|
  {
    if |qs| > 0 {
      NoCapNoAlerts(alerts, times, maxPerHour, now, qs[..|qs| - 1]);
    }
  }

  /** The list order of `get_recent_alerts`. */
  function SeverityIndex(s: string): Option<nat> {
    if s == "low" then Some(0)
    else if s == "medium" then Some(1)
    else if s == "high" then Some(2)
    else if s == "critical" then Some(3)
    else None
  }

  /**
   * The alerts whose level sits at or after the given index of "low", "medium", "high",
   * "critical", in order (alerts are only ever raised at "high" or "critical").
   */
  function AtLeast(alerts: seq<Alert>, minIndex: nat): (r: seq<Alert>)
    ensures forall a :: a in r <==> a in alerts && Score(a.severity) >= minIndex + 1
  {
    if |alerts| == 0 then []
    else
      (if Score(alerts[0].severity) >= minIndex + 1 then [alerts[0]] else []) + AtLeast(alerts[1..], minIndex)
  }

  /** Python's `xs[-n:]`: the last `n` items for a positive `n`, all of them for zero, all but the first `-n` below. */
  function LastN<T>(xs: seq<T>, n: int): (r: seq<T>)
    ensures n > 0 ==> |r| == (if n < |xs| then n else |xs|) && r == xs[|xs| - |r|..]
    ensures n == 0 ==> r == xs
    ensures n < 0 ==> r == xs[(if -n < |xs| then -n else |xs|)..]
  {
    if n > 0 then (if n < |xs| then xs[|xs| - n..] else xs)
    else if n == 0 then xs
    else if -n < |xs| then xs[-n..]
    else []
  }

  /**
   * `get_recent_alerts(limit, min_severity)`: the last `limit` alerts at or above the named
   * level; a name outside "low", "medium", "high", "critical" (including "none") is an error.
   */
  function RecentAlerts(alerts: seq<Alert>, limit: int, minSeverity: string): (r: Result<seq<Alert>>)
    ensures r.Success? <==> SeverityIndex(minSeverity).Some?
    ensures r.Success? && limit > 0 ==> |r.value| <= limit
    ensures r.Success? ==> forall a :: a in r.value ==> a in alerts && Score(a.severity) >= SeverityIndex(minSeverity).value + 1
  {
    match SeverityIndex(minSeverity)
    case None => Failure("'" + minSeverity + "' is not in list")
    case Some(i) =>
      var kept := AtLeast(alerts, i);
      var r := LastN(kept, limit);
      assert forall a :: a in r ==> a in kept;
      Success(r)
  }

  /** A limit of zero returns every matching alert rather than none. */
  lemma ZeroLimitReturnsAll(alerts: seq<Alert>)
    ensures RecentAlerts(alerts, 0, "low") == Success(AtLeast(alerts, 0))
  {
  }

  /** How many items of a list equal a value. */
  function Tally<T(==)>(xs: seq<T>, x: T): nat {
    if |xs| == 0 then 0 else (if xs[0] == x then 1 else 0) + Tally(xs[1..], x)
  }

  function Severities(alerts: seq<Alert>): (r: seq<Risk>)
    ensures |r| == |alerts|
  {
    if |alerts| == 0 then [] else [alerts[0].severity] + Severities(alerts[1..])
  }

  function Kinds(alerts: seq<Alert>): (r: seq<AlertKind>)
    ensures |r| == |alerts|
  {
    if |alerts| == 0 then [] else [alerts[0].kind] + Kinds(alerts[1..])
  }

  /** `get_stats()` */
  datatype Stats = Stats(
    totalAlerts: nat, bySeverity: map<Risk, nat>, byKind: map<AlertKind, nat>,
    accessCounts: map<string, nat>, alertsThisHour: nat)

  /** A tally is never more than the list is long. */
  lemma {:induction false} TallyBound<T>(xs: seq<T>, x: T)
    ensures Tally(xs, x) <= |xs|
    ensures Tally(xs, x) == 0 <==> x !in xs
  {
    if |xs| > 0 {
      TallyBound(xs[1..], x);
      assert xs == [xs[0]] + xs[1..];
    }
  }

  function StatsOf(alerts: seq<Alert>, counts: map<string, nat>, times: seq<real>): (s: Stats)
    ensures s.totalAlerts == |alerts| && s.alertsThisHour == |times|
    ensures forall r :: r in s.bySeverity ==> 0 < s.bySeverity[r] <= |alerts|
  {
    var sev := Severities(alerts);
    var kinds := Kinds(alerts);
    forall r
      ensures Tally(sev, r) <= |sev| && (Tally(sev, r) == 0 <==> r !in sev)
    {
      TallyBound(sev, r);
    }
    Stats(|alerts|,
          map r | r in sev :: Tally(sev, r),
          map k | k in kinds :: Tally(kinds, k),
          counts, |times|)
  }

  /** `CredentialMonitor(alert_on_access, max_alerts_per_hour)`. */
  class Monitor {
    const alertOnAccess: bool
    const maxAlertsPerHour: int
    const table: seq<CredentialPattern>
    const network: seq<Pattern>
    var alerts: seq<Alert>
    var accessCounts: map<string, nat>
    var alertTimes: seq<real>

    predicate Valid()
      reads this
    {
      Bounded(alerts, alertTimes, maxAlertsPerHour)
    }

    constructor (alertOnAccess: bool, maxAlertsPerHour: int)
      ensures Valid()
      ensures this.alertOnAccess == alertOnAccess && this.maxAlertsPerHour == maxAlertsPerHour
      ensures table == CREDENTIAL_PATTERNS && network == EXFILTRATION_PATTERNS
      ensures alerts == [] && accessCounts == map[] && alertTimes == []
    {
      this.alertOnAccess := alertOnAccess;
      this.maxAlertsPerHour := maxAlertsPerHour;
      table := CREDENTIAL_PATTERNS;
      network := EXFILTRATION_PATTERNS;
      alerts := [];
      accessCounts := map[];
      alertTimes := [];
    }

    /** `_log_alert(...)` at `now`. */
    method LogAlert(q: Request, now: real)
      requires Valid()
      modifies this
      ensures Valid()
      ensures (alerts, alertTimes) == Logged(old(alerts), old(alertTimes), maxAlertsPerHour, now, q)
      ensures accessCounts == old(accessCounts)
    {
      LoggedMeaning(alerts, alertTimes, maxAlertsPerHour, now, q);
      var recent := WithinHour(alertTimes, now);
      alertTimes := recent;
      if |recent| >= maxAlertsPerHour {
        return;
      }
      alertTimes := alertTimes + [now];
      alerts := alerts + [Alert(now, q.kind, q.severity, q.subject)];
      if |alerts| > MAX_ALERTS {
        alerts := alerts[|alerts| - MAX_ALERTS..];
      }
    }

    /** Logs each request in order. */
    method LogEach(qs: seq<Request>, now: real)
      requires Valid()
      modifies this
      ensures Valid()
      ensures (alerts, alertTimes) == LoggedAll(old(alerts), old(alertTimes), maxAlertsPerHour, now, qs)
      ensures accessCounts == old(accessCounts)
    {
      var i := 0;
      while i < |qs|
        invariant 0 <= i <= |qs|
        invariant Valid()
        invariant (alerts, alertTimes) == LoggedAll(old(alerts), old(alertTimes), maxAlertsPerHour, now, qs[..i])
        invariant accessCounts == old(accessCounts)
      {
        assert qs[..i + 1][..i] == qs[..i];
        LogAlert(qs[i], now);
        i := i + 1;
      }
      assert qs[..i] == qs;
    }

    /** `monitor_output(content, context)` at `now`. */
    method MonitorOutput(e: Engine, content: string, now: real) returns (r: MonitorResult)
      requires Valid()
      modifies this
      ensures Valid()
      ensures r == Output(e, table, content).0
      ensures (alerts, alertTimes) == LoggedAll(old(alerts), old(alertTimes), maxAlertsPerHour, now, Output(e, table, content).1)
      ensures accessCounts == old(accessCounts)
    {
      var out := Output(e, table, content);
      r := out.0;
      LogEach(out.1, now);
    }

    /** `monitor_memory_access(keys)` at `now`. */
    method MonitorMemoryAccess(keys: seq<string>, now: real) returns (r: MonitorResult)
      requires Valid()
      modifies this
      ensures Valid()
      ensures r == MemoryAccess(alertOnAccess, old(accessCounts), keys).0
      ensures accessCounts == Counted(old(accessCounts), keys)
      ensures var q := MemoryAccess(alertOnAccess, old(accessCounts), keys).2;
        (alerts, alertTimes) == (if q.Some? then Logged(old(alerts), old(alertTimes), maxAlertsPerHour, now, q.value)
                                 else (old(alerts), old(alertTimes)))
    {
      var before := accessCounts;
      var i := 0;
      while i < |keys|
        invariant 0 <= i <= |keys|
        invariant accessCounts == Counted(before, keys[..i])
        invariant alerts == old(alerts) && alertTimes == old(alertTimes)
      {
        assert keys[..i + 1][..i] == keys[..i];
        if Sensitive(keys[i]) {
          accessCounts := accessCounts[keys[i] := Get(accessCounts, keys[i]) + 1];
        }
        i := i + 1;
      }
      assert keys[..i] == keys;
      var res := MemoryAccess(alertOnAccess, before, keys);
      r := res.0;
      if res.2.Some? {
        LogAlert(res.2.value, now);
      }
    }

    /** `detect_exfiltration_attempt(content, destination)` at `now`. */
    method DetectExfiltration(e: Engine, content: string, destination: string, now: real) returns (r: MonitorResult)
      requires Valid()
      modifies this
      ensures Valid()
      ensures r == Exfiltration(e, table, network, content, destination).0
      ensures (alerts, alertTimes)
        == LoggedAll(old(alerts), old(alertTimes), maxAlertsPerHour, now, Exfiltration(e, table, network, content, destination).1)
      ensures accessCounts == old(accessCounts)
    {
      var res := Exfiltration(e, table, network, content, destination);
      r := res.0;
      LogEach(res.1, now);
    }

    method GetRecentAlerts(limit: int, minSeverity: string) returns (r: Result<seq<Alert>>)
      ensures r == RecentAlerts(alerts, limit, minSeverity)
    {
      r := RecentAlerts(alerts, limit, minSeverity);
    }

    method GetStats() returns (s: Stats)
      ensures s == StatsOf(alerts, accessCounts, alertTimes)
    {
      s := StatsOf(alerts, accessCounts, alertTimes);
    }

    /** `reset_stats()` */
    method ResetStats()
      modifies this
      ensures Valid()
      ensures alerts == [] && accessCounts == map[] && alertTimes == []
    {
      alerts := [];
      accessCounts := map[];
      alertTimes := [];
    }
  }
}
