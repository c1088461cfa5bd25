/**
 * Output scanning (`OutputScanner`): text an agent is about to post is searched, category by
 * category, for leaked credentials, leaked system-prompt text, echoed injections, file paths
 * and internal addresses; credentials and paths can be redacted.
 */
module OutputScanner {
  import opened Strings
  import opened Regex
  import opened Scoring

  /** One entry of `BLOCKED_PATTERNS`: its name, level, patterns and message. */
  datatype Category = Category(name: string, risk: Risk, patterns: seq<Pattern>, message: string)

  /** `BLOCKED_PATTERNS` in dictionary order, compiled ignoring case and per line. */
  const BLOCKED_PATTERNS: seq<Category> := [
    Category("credential_leak", High, [
      IM(@"moltbook_[a-z]{2}_[A-Za-z0-9]{32,}"),
      IM(@"sk-[A-Za-z0-9]{48,}"),
      IM(@"sk-proj-[A-Za-z0-9\-_]{40,}"),
      IM(@"sk-ant-[A-Za-z0-9\-_]{40,}"),
      IM(@"api[_-]?key\s*[=:]\s*['""][A-Za-z0-9\-_]{20,}['""]"),
      IM(@"api[_-]?secret\s*[=:]\s*['""][A-Za-z0-9\-_]{20,}['""]"),
      IM(@"Bearer\s+[A-Za-z0-9\-_\.]{20,}"),
      IM(@"AKIA[0-9A-Z]{16}"),
      IM(@"aws_secret_access_key\s*[=:]\s*[A-Za-z0-9/+=]{40}")],
      "Potential credential leak detected"),
    Category("system_prompt_leak", High, [
      IM(@"SOUL\.md"),
      IM(@"AGENTS\.md"),
      IM(@"system[_\s]?prompt"),
      IM(@"my\s+(system\s+)?instructions?\s+(are|say|tell)"),
      IM(@"I\s+was\s+(instructed|told|programmed)\s+to"),
      IM(@"my\s+guidelines?\s+(are|say|state)"),
      IM(@"according\s+to\s+my\s+(instructions|guidelines|rules)"),
      IM(@"my\s+api[_\s]?key\s+is"),
      IM(@"I\s+am\s+configured\s+to"),
      IM(@"my\s+configuration\s+(is|says)")],
      "Potential system prompt leak detected"),
    Category("injection_echo", High, [
      IM(@"ignore\s+(all\s+)?(previous|prior)\s+instructions"),
      IM(@"you\s+are\s+now\s+(a\s+)?different"),
      IM(@"disregard\s+(all\s+)?(previous|prior)\s+instructions"),
      IM(@"new\s+instructions?\s*:"),
      IM(@"SYSTEM:\s+you\s+are\s+now"),
      IM(@"DAN\s+mode\s+enabled"),
      IM(@"developer\s+mode\s+enabled"),
      IM(@"jailbreak\s+successful")],
      "Agent may be echoing injection attempts"),
    Category("path_leak", Medium, [
      IM(@"/Users/[^/\s]+/"),
      IM(@"/home/[^/\s]+/"),
      IM(@"C:\\Users\\[^\\]+\\"),
      IM(@"/app/[^/\s]+/credentials"),
      IM(@"/secrets/[^/\s]+"),
      IM(@"\.env\s+file")],
      "Potential file path leak detected"),
    Category("internal_info_leak", Medium, [
      IM(@"localhost:\d+"),
      IM(@"127\.0\.0\.1:\d+"),
      IM(@"192\.168\.\d+\.\d+"),
      IM(@"10\.\d+\.\d+\.\d+"),
      IM(@"internal\.[a-z]+\.[a-z]+"),
      IM(@"(mongodb|mysql|postgres|redis)://[^\s]+")],
      "Potential internal information leak")
  ]

  /** `SUSPICIOUS_CONTEXT`, compiled ignoring case. */
  const SUSPICIOUS_CONTEXT: seq<Pattern> := [
    I(@"here\s+is\s+(the|my)\s+(api|secret|key|password)"),
    I(@"(the|my)\s+credentials?\s+(are|is)\s*:"),
    I(@"I\'ll\s+share\s+(my|the)\s+"),
    I(@"here\'s\s+what\s+I\s+know\s+about\s+my\s+")
  ]

  const CONTEXT_VIOLATION := "Multiple suspicious context patterns detected"

  /** The categories whose matches `redact` rewrites. */
  const REDACTED_CATEGORIES := {"credential_leak", "path_leak"}

  /** `OutputScanResult`; `redactedContent` is never filled in by `scan`. */
  datatype ScanResult = ScanResult(isSafe: bool, riskLevel: Risk, violations: seq<string>, recommendations: seq<string>)

  /** Some pattern of the category matches the content. */
  predicate Matches(e: Engine, c: Category, content: string) {
    AnySearch(e, c.patterns, content)
  }

  /** The categories that match, in table order: the loop stops at a category's first match. */
  function Hits(e: Engine, cats: seq<Category>, content: string): (r: seq<Category>)
    ensures |r| <= |cats|
    ensures forall c :: c in r <==> c in cats && Matches(e, c, content)
  {
    if |cats| == 0 then []
    else (if Matches(e, cats[0], content) then [cats[0]] else []) + Hits(e, cats[1..], content)
  }

  /** The violation text of each matching category: `"<message> (<category>)"`. */
  function Violations(hits: seq<Category>): (r: seq<string>)
    ensures |r| == |hits|
    ensures forall i :: 0 <= i < |hits| ==> r[i] == hits[i].message + " (" + hits[i].name + ")"
  {
    if |hits| == 0 then [] else [hits[0].message + " (" + hits[0].name + ")"] + Violations(hits[1..])
  }

  function Scores(hits: seq<Category>): (r: seq<int>)
    ensures |r| == |hits|
    ensures forall i :: 0 <= i < |hits| ==> r[i] == Score(hits[i].risk)
  {
    if |hits| == 0 then [] else [Score(hits[0].risk)] + Scores(hits[1..])
  }

  /** Some violation mentions `word`, ignoring case. */
  predicate Mentions(violations: seq<string>, word: string) {
    exists i :: 0 <= i < |violations| && Contains(Lower(violations[i]), word)
  }

  const ROTATE := "Rotate any exposed credentials immediately"
  const STRENGTHEN := "Strengthen system prompt anti-leak instructions"
  const COMPROMISED := "Agent may be compromised - review recent inputs"

  /** The advice for a level: two lines for "high" and "medium", one otherwise. */
  function LevelAdvice(level: Risk): (r: seq<string>)
    ensures |r| == if level == High || level == Medium then 2 else 1
  {
    match level
    case High => ["DO NOT post this content - high security risk", "Review agent's system prompt for weaknesses"]
    case Medium => ["Consider redacting sensitive content before posting", "Monitor agent for repeated issues"]
    case Low => ["Content appears mostly safe"]
    case _ => ["Content passed all security checks"]
  }

  /** `_generate_recommendations(violations, risk_level)` */
  function Recommendations(violations: seq<string>, level: Risk): (r: seq<string>)
    ensures |r| >= 1
    ensures Mentions(violations, "credential") ==> ROTATE in r
    ensures Mentions(violations, "system prompt") ==> STRENGTHEN in r
    ensures Mentions(violations, "injection") ==> COMPROMISED in r
  {
    var advice := LevelAdvice(level);
    var rotate := if Mentions(violations, "credential") then [ROTATE] else [];
    var strengthen := if Mentions(violations, "system prompt") then [STRENGTHEN] else [];
    var compromised := if Mentions(violations, "injection") then [COMPROMISED] else [];
    assert rotate != [] ==> (advice + rotate + strengthen + compromised)[|advice|] == ROTATE;
    assert strengthen != [] ==> (advice + rotate + strengthen + compromised)[|advice| + |rotate|] == STRENGTHEN;
    assert compromised != [] ==>
      (advice + rotate + strengthen + compromised)[|advice| + |rotate| + |strengthen|] == COMPROMISED;
    advice + rotate + strengthen + compromised
  }

  /** The overall level of non-empty content: the highest category level, a suspicious context counting 2. */
  function ScanRisk(e: Engine, cats: seq<Category>, context: seq<Pattern>, content: string): Risk {
    var suspicious := CountSearch(e, context, content) >= 2;
    Level3(Scores(Hits(e, cats, content)) + (if suspicious then [2] else []))
  }

  /** `scan(content)` for the given tables and strictness. */
  function Scan(e: Engine, cats: seq<Category>, context: seq<Pattern>, strict: bool, content: string): ScanResult {
    if content == "" then ScanResult(true, NoRisk, [], ["Content is empty - safe to proceed"])
    else
      var hits := Hits(e, cats, content);
      var suspicious := CountSearch(e, context, content) >= 2;
      var violations := Violations(hits) + (if suspicious then [CONTEXT_VIOLATION] else []);
      var level := ScanRisk(e, cats, context, content);
      ScanResult(StrictSafe(level, strict), level, violations, Recommendations(violations, level))
  }

  /** Empty content is safe at "none" with a single recommendation and nothing to report. */
  lemma EmptyContentIsSafe(e: Engine, cats: seq<Category>, context: seq<Pattern>, strict: bool)
    ensures var r := Scan(e, cats, context, strict, "");
      r.isSafe && r.riskLevel == NoRisk && r.violations == [] && |r.recommendations| == 1
  {
  }

  /**
   * A scan reports one violation per matching category, in table order, plus one for two or
   * more suspicious phrases.
   */
  lemma ScanViolations(e: Engine, cats: seq<Category>, context: seq<Pattern>, strict: bool, content: string)
    requires content != ""
    ensures var r := Scan(e, cats, context, strict, content);
      var hits := Hits(e, cats, content);
      var suspicious := CountSearch(e, context, content) >= 2;
      && |r.violations| == |hits| + (if suspicious then 1 else 0)
      && (forall i :: 0 <= i < |hits| ==> r.violations[i] == hits[i].message + " (" + hits[i].name + ")")
      && (suspicious ==> r.violations[|r.violations| - 1] == CONTEXT_VIOLATION)
  {
  }

  /**
   * The level of a scan decides its safety: "high" unsafe, "medium" safe only outside strict
   * mode, "low" and "none" safe; it is "none" exactly when nothing was reported.
   */
  lemma ScanSafety(e: Engine, cats: seq<Category>, context: seq<Pattern>, strict: bool, content: string)
    ensures var r := Scan(e, cats, context, strict, content);
      && (r.isSafe <==> StrictSafe(r.riskLevel, strict))
      && (r.riskLevel == NoRisk <==> r.violations == [])
      && (content != "" ==> r.riskLevel == ScanRisk(e, cats, context, content))
  {
  }

  /** Content is "high" exactly when a "high" category matched. */
  lemma ScanHighIffHighCategory(e: Engine, cats: seq<Category>, context: seq<Pattern>, content: string)
    ensures ScanRisk(e, cats, context, content) == High <==>
      exists c :: c in Hits(e, cats, content) && Score(c.risk) >= 3
  {
    var hits := Hits(e, cats, content);
    var suspicious := CountSearch(e, context, content) >= 2;
    var scores := Scores(hits) + (if suspicious then [2] else []);
    if exists c :: c in hits && Score(c.risk) >= 3 {
      var c :| c in hits && Score(c.risk) >= 3;
      var i :| 0 <= i < |hits| && hits[i] == c;
      assert scores[i] >= 3;
    }
    if SomeAtLeast(scores, 3) {
      var i :| 0 <= i < |scores| && scores[i] >= 3;
      assert i < |hits| && hits[i] in hits;
    }
  }

  /** Two or more suspicious phrases alone make non-empty content at least "medium". */
  lemma SuspiciousContextIsMedium(e: Engine, cats: seq<Category>, context: seq<Pattern>, strict: bool, content: string)
    requires content != "" && CountSearch(e, context, content) >= 2
    ensures var r := Scan(e, cats, context, strict, content);
      CONTEXT_VIOLATION in r.violations && Score(r.riskLevel) >= 2 && (strict ==> !r.isSafe)
  {
    var hits := Hits(e, cats, content);
    var scores := Scores(hits) + [2];
    assert scores[|scores| - 1] == 2;
    assert SomeAtLeast(scores, 2);
  }

  /** No two categories share a name. */
  predicate DistinctNames(cats: seq<Category>) {
    forall i, j :: 0 <= i < j < |cats| ==> cats[i].name != cats[j].name
  }

  /** Distinct categories give distinct hits: no category is reported twice. */
  lemma {:induction false} HitsUnique(e: Engine, cats: seq<Category>, content: string)
    requires DistinctNames(cats)
    ensures DistinctNames(Hits(e, cats, content))
  {
    if |cats| > 0 {
      assert DistinctNames(cats[1..]) by {
        forall i, j | 0 <= i < j < |cats[1..]| ensures cats[1..][i].name != cats[1..][j].name {
          assert cats[1..][i] == cats[i + 1] && cats[1..][j] == cats[j + 1];
        }
      }
      HitsUnique(e, cats[1..], content);
      var rest := Hits(e, cats[1..], content);
      forall c | c in rest ensures c.name != cats[0].name {
        var k :| 0 <= k < |cats[1..]| && cats[1..][k] == c;
        assert cats[k + 1] == c;
      }
      var hits := Hits(e, cats, content);
      if Matches(e, cats[0], content) {
        assert hits == [cats[0]] + rest;
        forall i, j | 0 <= i < j < |hits| ensures hits[i].name != hits[j].name {
          if i == 0 {
            assert hits[j] == rest[j - 1] && rest[j - 1] in rest;
          } else {
            assert hits[i] == rest[i - 1] && hits[j] == rest[j - 1];
            assert rest[i - 1].name != rest[j - 1].name;
          }
        }
      } else {
        assert hits == rest;
      }
    }
  }

  /** The names of the blocked categories are distinct. */
  lemma BlockedNamesDistinct()
    ensures DistinctNames(BLOCKED_PATTERNS)
  {
  }

  /** The (pattern, `"[REDACTED]"`) pairs of the redacted categories, in table order. */
  function RedactPairs(cats: seq<Category>): (r: seq<(Pattern, string)>)
    ensures forall x :: x in r ==>
      (x.1 == "[REDACTED]" && exists c :: c in cats && c.name in REDACTED_CATEGORIES && x.0 in c.patterns)
  {
    if |cats| == 0 then []
    else
      var rest := RedactPairs(cats[1..]);
      (if cats[0].name in REDACTED_CATEGORIES then Pairs(cats[0].patterns) else []) + rest
  }

  function Pairs(ps: seq<Pattern>): (r: seq<(Pattern, string)>)
    ensures |r| == |ps|
    ensures forall i :: 0 <= i < |ps| ==> r[i] == (ps[i], "[REDACTED]")
  {
    if |ps| == 0 then [] else [(ps[0], "[REDACTED]")] + Pairs(ps[1..])
  }

  /** `redact(content)`: every pattern of the redacted categories substituted in turn. */
  function Redact(e: Engine, cats: seq<Category>, content: string): string {
    if content == "" then content else SubEach(e, RedactPairs(cats), content)
  }

  /**
   * With a faithful engine, content where no credential or path pattern matches is returned
   * as it is, whatever the other categories find in it.
   */
  lemma RedactKeepsCleanContent(e: Engine, cats: seq<Category>, content: string)
    requires SubFaithful(e)
    requires forall c :: c in cats && c.name in REDACTED_CATEGORIES ==> !Matches(e, c, content)
    ensures Redact(e, cats, content) == content
  {
    var pairs := RedactPairs(cats);
    forall i | 0 <= i < |pairs| ensures !Search(e, pairs[i].0, content) {
      assert pairs[i] in pairs;
      var c :| c in cats && c.name in REDACTED_CATEGORIES && pairs[i].0 in c.patterns;
      var k :| 0 <= k < |c.patterns| && c.patterns[k] == pairs[i].0;
    }
    if content != "" {
      SubEachNoMatch(e, pairs, content);
    }
  }

  /** Only the credential and path categories take part in redaction. */
  lemma {:induction false} RedactIgnoresOtherCategories(cats: seq<Category>)
    ensures RedactPairs(cats) == RedactPairs(Redactable(cats))
  {
    if |cats| > 0 {
      RedactIgnoresOtherCategories(cats[1..]);
      var rest := Redactable(cats[1..]);
      if cats[0].name in REDACTED_CATEGORIES {
        assert Redactable(cats) == [cats[0]] + rest;
        assert ([cats[0]] + rest)[1..] == rest;
      } else {
        assert Redactable(cats) == rest;
      }
    }
  }

  function Redactable(cats: seq<Category>): (r: seq<Category>)
    ensures |r| <= |cats|
  {
    if |cats| == 0 then []
    else (if cats[0].name in REDACTED_CATEGORIES then [cats[0]] else []) + Redactable(cats[1..])
  }

  /** `OutputScanner(strict_mode)`: a stateless scanner over the compiled tables. */
  class Scanner {
    const strictMode: bool
    const categories: seq<Category>
    const context: seq<Pattern>

    constructor (strictMode: bool)
      ensures this.strictMode == strictMode && categories == BLOCKED_PATTERNS && context == SUSPICIOUS_CONTEXT
    {
      this.strictMode := strictMode;
      categories := BLOCKED_PATTERNS;
      context := SUSPICIOUS_CONTEXT;
    }

    method ScanOf(e: Engine, content: string) returns (r: ScanResult)
      ensures r == Scan(e, categories, context, strictMode, content)
    {
      r := Scan(e, categories, context, strictMode, content);
    }

    method RedactOf(e: Engine, content: string) returns (r: string)
      ensures r == Redact(e, categories, content)
    {
      r := Redact(e, categories, content);
    }

    /** `is_safe(content)`: the verdict of a full scan. */
    method IsSafe(e: Engine, content: string) returns (r: bool)
      ensures r == Scan(e, categories, context, strictMode, content).isSafe
    {
      var result := ScanOf(e, content);
      r := result.isSafe;
    }
  }

  /** `is_safe_to_post(content)`: a strict scanner over the stock tables. */
  function IsSafeToPost(e: Engine, content: string): (r: bool)
    ensures r <==> var level := Scan(e, BLOCKED_PATTERNS, SUSPICIOUS_CONTEXT, true, content).riskLevel;
      level == NoRisk || level == Low
  {
    Scan(e, BLOCKED_PATTERNS, SUSPICIOUS_CONTEXT, true, content).isSafe
  }

  /** `redact_output(content)` */
  function RedactOutput(e: Engine, content: string): string {
    Redact(e, BLOCKED_PATTERNS, content)
  }
}
