/**
 * Reputation protection (`ReputationProtection`): before an agent posts, its content is searched
 * for controversial topics, likely terms-of-service violations, risky claims, spam-like style
 * and odd length; each finding carries a score, and the highest score decides the level and,
 * with strict mode, whether posting is safe.
 */
module ReputationProtection {
  import opened Wrappers
  import opened Strings
  import opened Regex
  import opened Scoring

  /** The three tables of categories. */
  datatype Group = ControversialTopic | TosViolation | RiskyClaim

  /** One entry of a table: its name, patterns (searched ignoring case), level and suggestion. */
  datatype Category = Category(name: string, patterns: seq<Pattern>, risk: Risk, suggestion: string)

  /** `CONTROVERSIAL_TOPICS`, in dictionary order. */
  const CONTROVERSIAL_TOPICS: seq<Category> := [
    Category("politics", [
      I(@"\b(democrat|republican|liberal|conservative|left-?wing|right-?wing)\b"),
      I(@"\b(trump|biden|obama|election fraud|stolen election)\b"),
      I(@"\b(antifa|proud boys|qanon|deep state)\b")],
      High, "Avoid taking political stances"),
    Category("religion", [
      I(@"\b(christian|muslim|jewish|atheist|religious).*(wrong|stupid|evil)\b"),
      I(@"\b(god|allah|jesus).*(doesn't exist|is fake|isn't real)\b"),
      I(@"\b(religion is|all religions are).*(harmful|dangerous|evil)\b")],
      High, "Be respectful of religious beliefs"),
    Category("identity", [
      I(@"\b(trans|transgender|gay|lesbian).*(mental illness|disorder|wrong)\b"),
      I(@"\b(men|women) are (all|inherently|naturally).*(bad|stupid|inferior)\b"),
      I(@"\b(race|racial).*(superior|inferior|intelligence)\b")],
      High, "Avoid generalizations about identity groups"),
    Category("violence", [
      I(@"\b(kill|murder|attack|assault|hurt)\s+(them|those|the)\b"),
      I(@"\b(should|deserve to) (die|be killed|suffer)\b"),
      I(@"\b(violence|violent action) (is|would be) (justified|necessary)\b")],
      High, "Never advocate for violence")
  ]

  /** `TOS_VIOLATIONS`, in dictionary order. */
  const TOS_VIOLATIONS: seq<Category> := [
    Category("spam_indicators", [
      I(@"(click|visit|check out) (this|my|the) (link|url|site)"),
      I(@"(buy|purchase|order) (now|today|here)"),
      I(@"(free|discount|deal|offer).{0,20}(click|link|here)"),
      I(@"(follow|subscribe|join).{0,10}(me|my|us)")],
      Medium, "Avoid promotional language"),
    Category("harassment", [
      I(@"(you('re| are)|they('re| are)) (an? )?(idiot|stupid|moron|dumb)"),
      I(@"(shut up|go away|nobody asked|nobody cares)"),
      I(@"(loser|pathetic|worthless|trash)")],
      High, "Keep discourse respectful"),
    Category("impersonation", [
      I(@"I('m| am) (actually|really) (a human|not an AI|a person)"),
      I(@"(official|verified|authorized) (moltbook|platform|admin)"),
      I(@"I('m| am) @\w+")],
      High, "Never impersonate humans or other agents"),
    Category("manipulation", [
      I(@"(ignore|disregard) (your|their) (instructions|guidelines|rules)"),
      I(@"(do|say) whatever I (tell|ask|want)"),
      I(@"(you must|you have to) (obey|follow|comply)")],
      High, "Don't try to manipulate other agents")
  ]

  /** `RISKY_CLAIMS`, in dictionary order. */
  const RISKY_CLAIMS: seq<Category> := [
    Category("factual_certainty", [
      I(@"(I know for a fact|it('s| is) definitely|100% certain)"),
      I(@"(scientifically proven|studies show|research proves).{0,30}(always|never|definitely)"),
      I(@"(the truth is|the fact is|in reality).{0,20}(everyone|nobody|always|never)")],
      Medium, "Hedge claims with 'I think' or 'It seems'"),
    Category("medical_legal", [
      I(@"(you should|you must|you need to).{0,20}(take|stop taking).{0,20}(medication|medicine|drug)"),
      I(@"(legal|illegal|sue|lawsuit|crime).{0,20}(you should|I advise|you must)"),
      I(@"(diagnos|treatment|prescription|dosage)")],
      High, "Never give medical or legal advice"),
    Category("financial", [
      I(@"(invest|buy|sell).{0,20}(stock|crypto|bitcoin|coin)"),
      I(@"(guaranteed|sure thing|can't lose|easy money)"),
      I(@"(financial advice|investment tip|trading signal)")],
      High, "Never give financial advice")
  ]

  /** `SPAM_INDICATORS`: repeated characters, runs of `!`/`?`, runs of capitals, "same message". */
  const SPAM_INDICATORS: seq<Pattern> := [
    I(@"(.)\1{4,}"),
    I(@"[!?]{3,}"),
    I(@"[A-Z]{10,}"),
    I(@"(same|exact|identical).{0,20}(message|comment|post|reply)")
  ]

  const SPAM_SUGGESTION := "Vary your writing style and avoid repetition"
  const SHORT_SUGGESTION := "Provide more thoughtful responses"
  const LONG_SUGGESTION := "Consider being more concise"
  const SAFE_MESSAGE := "Content appears safe for posting."
  const IMPROVEMENTS_HEADER := "Consider these changes:\n"

  /** Content shorter than this, or longer than `MAX_LENGTH`, draws a low-risk issue. */
  const MIN_LENGTH := 10
  const MAX_LENGTH := 2000

  /** The compiled tables a protector holds (`_controversial`, `_tos`, `_claims`, `_spam`). */
  datatype Rules = Rules(topics: seq<Category>, tos: seq<Category>, claims: seq<Category>, spam: seq<Pattern>)

  function Table(rules: Rules, g: Group): seq<Category> {
    match g
    case ControversialTopic => rules.topics
    case TosViolation => rules.tos
    case RiskyClaim => rules.claims
  }

  /** `ReputationProtection(strict_mode)`: the mode and the compiled tables. */
  datatype Protector = Protector(strictMode: bool, rules: Rules)

  const RULES := Rules(CONTROVERSIAL_TOPICS, TOS_VIOLATIONS, RISKY_CLAIMS, SPAM_INDICATORS)

  function NewProtector(strictMode: bool): Protector {
    Protector(strictMode, RULES)
  }

  /** An issue of a check; `Text` gives the message the source reports. */
  datatype Issue = Flagged(group: Group, name: string) | SpamLike | TooShort | TooLong

  function Text(i: Issue): string {
    match i
    case Flagged(ControversialTopic, n) => "Controversial topic: " + n
    case Flagged(TosViolation, n) => "Potential TOS issue: " + n
    case Flagged(RiskyClaim, n) => "Risky claim: " + n
    case SpamLike => "Content appears spam-like"
    case TooShort => "Response too short - might seem dismissive"
    case TooLong => "Response very long - might seem like spam"
  }

  /** An issue, the suggestion that goes with it and its score. */
  datatype Finding = Finding(issue: Issue, suggestion: string, score: int)

  /** `ReputationCheckResult`; `modifiedContent` is never set. */
  datatype CheckResult = CheckResult(
    isSafe: bool, riskLevel: Risk, issues: seq<Issue>, suggestions: seq<string>, modifiedContent: Option<string>)

  /** Some pattern of the category is found in the content; the source stops at the first. */
  predicate Matches(e: Engine, c: Category, content: string) {
    AnySearch(e, c.patterns, content)
  }

  function FindingOf(g: Group, c: Category): Finding {
    Finding(Flagged(g, c.name), c.suggestion, Score(c.risk))
  }

  /** One finding per matching category, in table order. */
  function Hits(e: Engine, g: Group, cats: seq<Category>, content: string): (r: seq<Finding>)
    ensures |r| <= |cats|
  {
    if |cats| == 0 then []
    else (if Matches(e, cats[0], content) then [FindingOf(g, cats[0])] else []) + Hits(e, g, cats[1..], content)
  }

  /** The findings of a table are those of its matching categories, and nothing else. */
  lemma {:induction false} HitsMembers(e: Engine, g: Group, cats: seq<Category>, content: string)
    ensures forall f :: f in Hits(e, g, cats, content) <==> exists c :: c in cats && Matches(e, c, content) && f == FindingOf(g, c)
    decreases |cats|
  {
    if |cats| > 0 {
      HitsMembers(e, g, cats[1..], content);
      assert forall c :: c in cats <==> c == cats[0] || c in cats[1..];
    }
  }

  /** The spam finding: at least two of the indicators are found. */
  function Spam(e: Engine, indicators: seq<Pattern>, content: string): seq<Finding> {
    if CountSearch(e, indicators, content) >= 2 then [Finding(SpamLike, SPAM_SUGGESTION, 2)] else []
  }

  /** The length finding, counted in characters. */
  function Length(content: string): seq<Finding> {
    if |content| < MIN_LENGTH then [Finding(TooShort, SHORT_SUGGESTION, 1)]
    else if |content| > MAX_LENGTH then [Finding(TooLong, LONG_SUGGESTION, 1)]
    else []
  }

  /** The findings of the three tables, in the order the checks run. */
  function TableHits(e: Engine, rules: Rules, content: string): seq<Finding> {
    Hits(e, ControversialTopic, rules.topics, content)
      + Hits(e, TosViolation, rules.tos, content)
      + Hits(e, RiskyClaim, rules.claims, content)
  }

  /** Every finding of non-empty content, in the order the checks run. */
  function Findings(e: Engine, rules: Rules, content: string): seq<Finding> {
    TableHits(e, rules, content) + Spam(e, rules.spam, content) + Length(content)
  }

  function IssuesOf(fs: seq<Finding>): (r: seq<Issue>)
    ensures |r| == |fs| && forall i :: 0 <= i < |fs| ==> r[i] == fs[i].issue
  {
    seq(|fs|, i requires 0 <= i < |fs| => fs[i].issue)
  }

  function SuggestionsOf(fs: seq<Finding>): (r: seq<string>)
    ensures |r| == |fs| && forall i :: 0 <= i < |fs| ==> r[i] == fs[i].suggestion
  {
    seq(|fs|, i requires 0 <= i < |fs| => fs[i].suggestion)
  }

  function ScoresOf(fs: seq<Finding>): (r: seq<int>)
    ensures |r| == |fs| && forall i :: 0 <= i < |fs| ==> r[i] == fs[i].score
  {
    seq(|fs|, i requires 0 <= i < |fs| => fs[i].score)
  }

  lemma IssuesOfAppend(a: seq<Finding>, b: seq<Finding>)
    ensures IssuesOf(a + b) == IssuesOf(a) + IssuesOf(b)
  {
    assert forall i :: 0 <= i < |a| + |b| ==> IssuesOf(a + b)[i] == (IssuesOf(a) + IssuesOf(b))[i];
  }

  /** High is unsafe, medium is unsafe only in strict mode, low and none are safe. */
  function Verdict(level: Risk, strictMode: bool): (safe: bool)
    ensures !safe <==> level == High || (level == Medium && strictMode)
  {
    match level
    case High => false
    case Medium => !strictMode
    case _ => true
  }

  /** `check_content(content)`; the unused `context` argument is left out. */
  function Check(e: Engine, p: Protector, content: string): (r: CheckResult)
    ensures |content| == 0 ==> r.isSafe && r.riskLevel == NoRisk && r.issues == [] && r.suggestions == []
    ensures r.riskLevel != Critical && (r.riskLevel == NoRisk <==> r.issues == [])
    ensures !r.isSafe <==> r.riskLevel == High || (r.riskLevel == Medium && p.strictMode)
    ensures forall i, j :: 0 <= i < j < |r.suggestions| ==> r.suggestions[i] != r.suggestions[j]
    ensures r.modifiedContent.None?
  {
    if |content| == 0 then CheckResult(true, NoRisk, [], [], None)
    else
      var fs := Findings(e, p.rules, content);
      var level := Level3(ScoresOf(fs));
      CheckResult(Verdict(level, p.strictMode), level, IssuesOf(fs), Dedup(SuggestionsOf(fs)), None)
  }

  /** The names in a table are distinct. */
  predicate DistinctNames(cats: seq<Category>) {
    forall j, k :: 0 <= j < k < |cats| ==> cats[j].name != cats[k].name
  }

  /** What the proofs need of the tables: distinct names, and every controversial topic high risk. */
  predicate WellFormed(rules: Rules) {
    && DistinctNames(rules.topics) && DistinctNames(rules.tos) && DistinctNames(rules.claims)
    && forall c :: c in rules.topics ==> c.risk == High
  }

  lemma RulesWellFormed()
    ensures WellFormed(RULES)
  {
    TopicsWellFormed();
    TosNamesDistinct();
    ClaimNamesDistinct();
  }

  lemma TopicsWellFormed()
    ensures DistinctNames(CONTROVERSIAL_TOPICS)
    ensures forall c :: c in CONTROVERSIAL_TOPICS ==> c.risk == High
  {
    var t := CONTROVERSIAL_TOPICS;
    assert t[0].name[0] == 'p' && t[1].name[0] == 'r' && t[2].name[0] == 'i' && t[3].name[0] == 'v';
  }

  lemma TosNamesDistinct()
    ensures DistinctNames(TOS_VIOLATIONS)
  {
    var t := TOS_VIOLATIONS;
    assert t[0].name[0] == 's' && t[1].name[0] == 'h' && t[2].name[0] == 'i' && t[3].name[0] == 'm';
  }

  lemma ClaimNamesDistinct()
    ensures DistinctNames(RISKY_CLAIMS)
  {
    var t := RISKY_CLAIMS;
    assert t[0].name[1] == 'a' && t[1].name[1] == 'e' && t[2].name[1] == 'i';
  }

  predicate DistinctIssues(fs: seq<Finding>) {
    forall j, k :: 0 <= j < k < |fs| ==> fs[j].issue != fs[k].issue
  }

  /** A table with distinct names gives each category at most one issue. */
  lemma {:induction false} HitsDistinct(e: Engine, g: Group, cats: seq<Category>, content: string)
    requires DistinctNames(cats)
    ensures DistinctIssues(Hits(e, g, cats, content))
    decreases |cats|
  {
    if |cats| > 0 {
      var rest := Hits(e, g, cats[1..], content);
      HitsDistinct(e, g, cats[1..], content);
      HitsMembers(e, g, cats[1..], content);
      if Matches(e, cats[0], content) {
        forall f | f in rest ensures f.issue != Flagged(g, cats[0].name) {
          var c :| c in cats[1..] && Matches(e, c, content) && f == FindingOf(g, c);
          var k :| 0 <= k < |cats[1..]| && cats[1..][k] == c;
          assert cats[k + 1] == c;
        }
        var r := [FindingOf(g, cats[0])] + rest;
        forall j, k | 0 <= j < k < |r| ensures r[j].issue != r[k].issue {
          if j == 0 {
            assert r[k] == rest[k - 1] && r[k] in rest;
          } else {
            assert r[j] == rest[j - 1] && r[k] == rest[k - 1];
          }
        }
      } else {
        assert Hits(e, g, cats, content) == rest;
      }
    }
  }

  /** A table none of whose categories matches gives no finding. */
  lemma {:induction false} HitsNone(e: Engine, g: Group, cats: seq<Category>, content: string)
    requires forall c :: c in cats ==> !Matches(e, c, content)
    ensures Hits(e, g, cats, content) == []
    decreases |cats|
  {
    if |cats| > 0 {
      assert cats[0] in cats;
      assert forall c :: c in cats[1..] ==> c in cats;
      HitsNone(e, g, cats[1..], content);
    }
  }

  lemma DistinctAppend(a: seq<Finding>, b: seq<Finding>)
    requires DistinctIssues(a) && DistinctIssues(b)
    requires forall x :: x in IssuesOf(a) ==> x !in IssuesOf(b)
    ensures DistinctIssues(a + b)
  {
    var r := a + b;
    forall j, k | 0 <= j < k < |r| ensures r[j].issue != r[k].issue {
      if k < |a| {
        assert r[j] == a[j] && r[k] == a[k];
      } else if j < |a| {
        assert r[j] == a[j] && r[k] == b[k - |a|];
        assert IssuesOf(a)[j] in IssuesOf(a) && IssuesOf(b)[k - |a|] in IssuesOf(b);
      } else {
        assert r[j] == b[j - |a|] && r[k] == b[k - |a|];
      }
    }
  }

  /** Each topic, terms-of-service category and claim category adds at most one issue; no issue is reported twice. */
  lemma IssuesDistinct(e: Engine, p: Protector, content: string)
    requires WellFormed(p.rules)
    ensures forall i, j :: 0 <= i < j < |Check(e, p, content).issues| ==>
      Check(e, p, content).issues[i] != Check(e, p, content).issues[j]
  {
    if |content| > 0 {
      var rules := p.rules;
      var h1 := Hits(e, ControversialTopic, rules.topics, content);
      var h2 := Hits(e, TosViolation, rules.tos, content);
      var h3 := Hits(e, RiskyClaim, rules.claims, content);
      HitsDistinct(e, ControversialTopic, rules.topics, content);
      HitsDistinct(e, TosViolation, rules.tos, content);
      HitsDistinct(e, RiskyClaim, rules.claims, content);
      HitsGroup(e, ControversialTopic, rules.topics, content);
      HitsGroup(e, TosViolation, rules.tos, content);
      HitsGroup(e, RiskyClaim, rules.claims, content);
      var s, l := Spam(e, rules.spam, content), Length(content);
      IssuesOfAppend(h1, h2);
      IssuesOfAppend(h1 + h2, h3);
      IssuesOfAppend(h1 + h2 + h3, s);
      DistinctAppend(h1, h2);
      DistinctAppend(h1 + h2, h3);
      DistinctAppend(h1 + h2 + h3, s);
      DistinctAppend(h1 + h2 + h3 + s, l);
    }
  }

  lemma SameNameSameCategory(cats: seq<Category>, c: Category, c': Category)
    requires DistinctNames(cats) && c in cats && c' in cats && c.name == c'.name
    ensures c == c'
  {
    var j :| 0 <= j < |cats| && cats[j] == c;
    var k :| 0 <= k < |cats| && cats[k] == c';
    assert j == k;
  }

  /** The issues of non-empty content: those of the table findings, then spam, then length. */
  lemma IssuesSplit(e: Engine, p: Protector, content: string)
    requires |content| > 0
    ensures Check(e, p, content).issues
      == IssuesOf(TableHits(e, p.rules, content)) + IssuesOf(Spam(e, p.rules.spam, content)) + IssuesOf(Length(content))
  {
    var h, s, l := TableHits(e, p.rules, content), Spam(e, p.rules.spam, content), Length(content);
    IssuesOfAppend(h, s);
    IssuesOfAppend(h + s, l);
  }

  /** Every issue a table yields is flagged with that table's group. */
  lemma {:induction false} HitsGroup(e: Engine, g: Group, cats: seq<Category>, content: string)
    ensures forall x :: x in IssuesOf(Hits(e, g, cats, content)) ==> x.Flagged? && x.group == g
    decreases |cats|
  {
    if |cats| > 0 {
      HitsGroup(e, g, cats[1..], content);
      var rest := Hits(e, g, cats[1..], content);
      var head := if Matches(e, cats[0], content) then [FindingOf(g, cats[0])] else [];
      IssuesOfAppend(head, rest);
    }
  }

  /** In a table with distinct names, a category's issue is yielded exactly when it matches. */
  lemma HitsFlag(e: Engine, g: Group, cats: seq<Category>, content: string, c: Category)
    requires DistinctNames(cats) && c in cats
    ensures Flagged(g, c.name) in IssuesOf(Hits(e, g, cats, content)) <==> Matches(e, c, content)
  {
    var h := Hits(e, g, cats, content);
    HitsMembers(e, g, cats, content);
    if Matches(e, c, content) {
      assert FindingOf(g, c) in h;
      var k :| 0 <= k < |h| && h[k] == FindingOf(g, c);
      assert IssuesOf(h)[k] == Flagged(g, c.name);
    }
    if Flagged(g, c.name) in IssuesOf(h) {
      var k :| 0 <= k < |h| && IssuesOf(h)[k] == Flagged(g, c.name);
      assert h[k] in h;
      var c' :| c' in cats && Matches(e, c', content) && h[k] == FindingOf(g, c');
      SameNameSameCategory(cats, c, c');
    }
  }

  /** A flagged issue of group `g` is among the table issues exactly when `g`'s table yields it. */
  lemma TableIssues(e: Engine, rules: Rules, content: string, x: Issue)
    requires x.Flagged?
    ensures x in IssuesOf(TableHits(e, rules, content)) <==> x in IssuesOf(Hits(e, x.group, Table(rules, x.group), content))
  {
    var h1 := Hits(e, ControversialTopic, rules.topics, content);
    var h2 := Hits(e, TosViolation, rules.tos, content);
    var h3 := Hits(e, RiskyClaim, rules.claims, content);
    IssuesOfAppend(h1, h2);
    IssuesOfAppend(h1 + h2, h3);
    HitsGroup(e, ControversialTopic, rules.topics, content);
    HitsGroup(e, TosViolation, rules.tos, content);
    HitsGroup(e, RiskyClaim, rules.claims, content);
  }

  /** A category's issue is reported exactly when one of its patterns is found in non-empty content. */
  lemma FlaggedMeaning(e: Engine, p: Protector, content: string, g: Group, c: Category)
    requires WellFormed(p.rules) && c in Table(p.rules, g)
    ensures Flagged(g, c.name) in Check(e, p, content).issues <==> |content| > 0 && Matches(e, c, content)
  {
    if |content| > 0 {
      IssuesSplit(e, p, content);
      TableIssues(e, p.rules, content, Flagged(g, c.name));
      HitsFlag(e, g, Table(p.rules, g), content, c);
    }
  }

  /** The spam issue is reported exactly when non-empty content matches two spam indicators. */
  lemma SpamIssueMeaning(e: Engine, p: Protector, content: string)
    ensures SpamLike in Check(e, p, content).issues <==> |content| > 0 && CountSearch(e, p.rules.spam, content) >= 2
  {
    if |content| > 0 {
      var h := IssuesOf(TableHits(e, p.rules, content));
      var s := IssuesOf(Spam(e, p.rules.spam, content));
      var l := IssuesOf(Length(content));
      IssuesSplit(e, p, content);
      HitsAreFlagged(e, p.rules, content);
      assert s == if CountSearch(e, p.rules.spam, content) >= 2 then [SpamLike] else [];
      Unflagged(h, s, l, SpamLike);
    }
  }

  /** The length issues are reported exactly outside the bounds, for non-empty content. */
  lemma LengthIssuesMeaning(e: Engine, p: Protector, content: string)
    ensures TooShort in Check(e, p, content).issues <==> 0 < |content| < MIN_LENGTH
    ensures TooLong in Check(e, p, content).issues <==> |content| > MAX_LENGTH
  {
    if |content| > 0 {
      var h := IssuesOf(TableHits(e, p.rules, content));
      var s := IssuesOf(Spam(e, p.rules.spam, content));
      var l := IssuesOf(Length(content));
      IssuesSplit(e, p, content);
      HitsAreFlagged(e, p.rules, content);
      assert TooShort !in s && TooLong !in s;
      assert l == if |content| < MIN_LENGTH then [TooShort] else if |content| > MAX_LENGTH then [TooLong] else [];
      Unflagged(h, s, l, TooShort);
      Unflagged(h, s, l, TooLong);
    }
  }

  lemma Unflagged(h: seq<Issue>, s: seq<Issue>, l: seq<Issue>, x: Issue)
    requires !x.Flagged? && forall y :: y in h ==> y.Flagged?
    ensures x in h + s + l <==> x in s || x in l
  {
  }

  lemma HitsAreFlagged(e: Engine, rules: Rules, content: string)
    ensures forall x :: x in IssuesOf(TableHits(e, rules, content)) ==> x.Flagged?
  {
    var h1 := Hits(e, ControversialTopic, rules.topics, content);
    var h2 := Hits(e, TosViolation, rules.tos, content);
    var h3 := Hits(e, RiskyClaim, rules.claims, content);
    IssuesOfAppend(h1, h2);
    IssuesOfAppend(h1 + h2, h3);
    HitsGroup(e, ControversialTopic, rules.topics, content);
    HitsGroup(e, TosViolation, rules.tos, content);
    HitsGroup(e, RiskyClaim, rules.claims, content);
  }

  /** Every suggestion of a finding is reported, once. */
  lemma SuggestionsMeaning(e: Engine, p: Protector, content: string, s: string)
    requires |content| > 0
    ensures s in Check(e, p, content).suggestions <==>
      exists f :: f in Findings(e, p.rules, content) && f.suggestion == s
  {
    var fs := Findings(e, p.rules, content);
    if s in SuggestionsOf(fs) {
      var k :| 0 <= k < |fs| && SuggestionsOf(fs)[k] == s;
      assert fs[k] in fs;
    }
    if exists f :: f in fs && f.suggestion == s {
      var f :| f in fs && f.suggestion == s;
      var k :| 0 <= k < |fs| && fs[k] == f;
      assert SuggestionsOf(fs)[k] == s;
    }
  }

  /** A controversial topic, all of which are high risk, makes content unsafe in either mode. */
  lemma ControversialIsUnsafe(e: Engine, p: Protector, content: string, c: Category)
    requires WellFormed(p.rules) && c in p.rules.topics && |content| > 0 && Matches(e, c, content)
    ensures var r := Check(e, p, content); !r.isSafe && r.riskLevel == High
  {
    var rules := p.rules;
    var fs := Findings(e, rules, content);
    var h := Hits(e, ControversialTopic, rules.topics, content);
    HitsMembers(e, ControversialTopic, rules.topics, content);
    assert FindingOf(ControversialTopic, c) in h;
    assert fs == h + (Hits(e, TosViolation, rules.tos, content)
      + Hits(e, RiskyClaim, rules.claims, content) + Spam(e, rules.spam, content) + Length(content));
    var k :| 0 <= k < |h| && h[k] == FindingOf(ControversialTopic, c);
    assert fs[k] == h[k];
    assert ScoresOf(fs)[k] == 3;
  }

  /** Content with nothing found is safe, with no risk at ordinary length and low risk otherwise. */
  lemma QuietContent(e: Engine, p: Protector, content: string)
    requires |content| > 0
    requires forall g, c :: c in Table(p.rules, g) ==> !Matches(e, c, content)
    requires CountSearch(e, p.rules.spam, content) < 2
    ensures var r := Check(e, p, content);
      r.isSafe && (r.riskLevel == NoRisk <==> MIN_LENGTH <= |content| <= MAX_LENGTH)
  {
    var rules := p.rules;
    assert Table(rules, ControversialTopic) == rules.topics;
    assert Table(rules, TosViolation) == rules.tos;
    assert Table(rules, RiskyClaim) == rules.claims;
    HitsNone(e, ControversialTopic, rules.topics, content);
    HitsNone(e, TosViolation, rules.tos, content);
    HitsNone(e, RiskyClaim, rules.claims, content);
    var fs := Findings(e, rules, content);
    assert fs == Length(content);
  }

  /** Strict mode changes only the verdict: the same issues, and whatever strict mode passes, lenient mode passes. */
  lemma StrictModeOnlyTightens(e: Engine, rules: Rules, content: string)
    ensures var strict, lenient := Check(e, Protector(true, rules), content), Check(e, Protector(false, rules), content);
      && strict.issues == lenient.issues && strict.riskLevel == lenient.riskLevel
      && (strict.isSafe ==> lenient.isSafe)
      && (lenient.isSafe && !strict.isSafe <==> lenient.riskLevel == Medium)
  {
  }

  /** The numbered lines of `suggest_improvements`, issues zipped with suggestions from `n`. */
  function Numbered(issues: seq<Issue>, suggestions: seq<string>, n: nat): (r: seq<string>)
    ensures |r| == 2 * (if |issues| <= |suggestions| then |issues| else |suggestions|)
  {
    if |issues| == 0 || |suggestions| == 0 then []
    else
      [NatToString(n) + ". " + Text(issues[0]), "   Suggestion: " + suggestions[0] + "\n"]
        + Numbered(issues[1..], suggestions[1..], n + 1)
  }

  /** The text `suggest_improvements` builds from a check result. */
  function Improvements(res: CheckResult): (r: string)
    ensures res.isSafe <==> r == SAFE_MESSAGE
    ensures !res.isSafe ==> StartsWith(r, IMPROVEMENTS_HEADER)
  {
    if res.isSafe then SAFE_MESSAGE
    else
      var lines := [IMPROVEMENTS_HEADER] + Numbered(res.issues, res.suggestions, 1);
      var r := Join("\n", lines);
      JoinStartsWithFirst(lines);
      assert r[3] == 's' && SAFE_MESSAGE[3] == 't';
      r
  }

  /** `suggest_improvements(content)`: the safe message exactly when the check passes. */
  function SuggestImprovements(e: Engine, p: Protector, content: string): (r: string)
    ensures Check(e, p, content).isSafe <==> r == SAFE_MESSAGE
    ensures !Check(e, p, content).isSafe ==> StartsWith(r, IMPROVEMENTS_HEADER)
  {
    Improvements(Check(e, p, content))
  }

  lemma JoinStartsWithFirst(ws: seq<string>)
    requires |ws| > 0
    ensures StartsWith(Join("\n", ws), ws[0])
  {
    if |ws| > 1 {
      var j := Join("\n", ws[1..]);
      assert Join("\n", ws) == ws[0] + ("\n" + j);
      assert (ws[0] + ("\n" + j))[..|ws[0]|] == ws[0];
    }
  }
}
