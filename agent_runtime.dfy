/**
 * The agent runtime's deterministic guards (`MoltbookAgent`): the daily post and comment
 * counters and their reset, the budget gate over the cost tracker, the injection gate over the
 * scanner, the decision to answer a post, and the bookkeeping after a comment or a post.
 * The budget the cost tracker reports, the language model's reply, the random draw, the day
 * and whether the server accepted a post or comment are parameters.
 */
module AgentRuntime {
  import opened Wrappers
  import opened Strings
  import opened Regex
  import opened Scoring
  import Scanner
  import CostCalculator

  /** A post as the API returns it. */
  datatype Post = Post(id: string, title: string, content: string, author: string, submolt: string)

  /** What one language-model call produced: the text and the tokens it used. */
  datatype Reply = Reply(content: string, inTokens: int, outTokens: int)

  /** `_check_budget` on the status the cost tracker reports. */
  predicate WithinBudget(b: CostCalculator.BudgetStatus) {
    && !(b.dailyRemaining.Some? && b.dailyRemaining.value <= 0.0)
    && !(b.monthlyRemaining.Some? && b.monthlyRemaining.value <= 0.0)
  }

  /** The runtime's budget gate agrees with the tracker's own `budget_ok` rule. */
  lemma WithinBudgetIsBudgetOk(b: CostCalculator.BudgetStatus)
    requires b.dailyRemaining == CostCalculator.Remaining(b.dailyLimit, b.today)
    requires b.monthlyRemaining == CostCalculator.Remaining(b.monthlyLimit, b.month)
    ensures WithinBudget(b) <==> CostCalculator.BudgetOk(b.today, b.month, b.dailyLimit, b.monthlyLimit)
  {
    CostCalculator.BudgetOkIffRemaining(b.today, b.month, b.dailyLimit, b.monthlyLimit);
  }

  /**
   * `_scan_content(content)` given `scan`, what the non-strict scanner reports for the content:
   * with scanning off, safe and no result; otherwise the result, refused only when it is
   * suspicious, the agent is strict and the risk is high.
   */
  function ScanGate(scanAll: bool, strict: bool, scan: Scanner.ScanResult)
    : (r: (bool, Option<Scanner.ScanResult>))
    ensures !scanAll ==> r == (true, None)
    ensures scanAll ==> r.1 == Some(scan)
  {
    if !scanAll then (true, None)
    else if scan.isSuspicious && strict && scan.riskLevel == High then (false, Some(scan))
    else (true, Some(scan))
  }

  /**
   * On the scanner's own results the gate refuses exactly the high-risk content of a strict
   * agent that scans, and never empty content.
   */
  lemma ScanGateOfScan(e: Engine, cats: seq<Scanner.Category>, scanAll: bool, strict: bool, content: string)
    ensures var scan := Scanner.ScanWith(e, cats, false, content);
      !ScanGate(scanAll, strict, scan).0 <==> scanAll && strict && scan.riskLevel == High
    ensures ScanGate(scanAll, strict, Scanner.ScanWith(e, cats, false, "")).0
  {
  }

  const TITLE_TAG := "Title:"

  /** The title line: every "Title:" removed, stripped, cut to 100 characters. */
  function ParseTitle(line: string): (t: string)
    ensures |t| <= 100
    ensures forall c :: c in t ==> c in line
  {
    var cleaned := ReplaceAll(line, TITLE_TAG, "");
    ReplaceAllChars(line, TITLE_TAG, "");
    StripChars(cleaned);
    var t := Take(Strip(cleaned), 100);
    assert forall c :: c in t ==> c in Strip(cleaned);
    t
  }

  /**
   * The reply parsed into a post: the title from the first line of the stripped text, and the
   * rest, stripped, as the content, or the whole unstripped reply when it has a single line.
   */
  function ParsePost(response: string): (r: (string, string))
    ensures |r.0| <= 100 && '\n' !in r.0
    ensures '\n' !in Strip(response) ==> r.1 == response
    ensures '\n' in Strip(response) ==> |r.1| < |response|
  {
    var stripped := Strip(response);
    var split := SplitOnce(stripped, '\n');
    var title := ParseTitle(split.0);
    assert '\n' !in split.0;
    if split.2 then
      StripShorter(response);
      StripShorter(split.1);
      assert |split.1| < |stripped|;
      (title, Strip(split.1))
    else (title, response)
  }

  /** Stripping keeps only characters of the original. */
  lemma StripChars(s: string)
    ensures forall c :: c in Strip(s) ==> c in s
  {
    var l := StripLeft(s);
    assert forall c :: c in l ==> c in s by {
      forall c | c in l ensures c in s {
        var k :| 0 <= k < |l| && l[k] == c;
        assert s[|s| - |l| + k] == c;
      }
    }
  }

  lemma StripShorter(s: string)
    ensures |Strip(s)| <= |s|
  {
  }

  /** A string with non-blank ends is its own strip. */
  lemma StripOfTrimmed(s: string)
    requires |s| > 0 && !IsSpace(s[0]) && !IsSpace(s[|s| - 1])
    ensures Strip(s) == s
  {
  }

  /** A tagged, trimmed title of at most 100 characters comes back as it was. */
  lemma ParseTitleOfTagged(t: string)
    requires |t| > 0 && |t| <= 100 && !IsSpace(t[0]) && !IsSpace(t[|t| - 1])
    requires !Contains(t, TITLE_TAG)
    ensures ParseTitle(TITLE_TAG + t) == t
  {
    var line := TITLE_TAG + t;
    assert StartsWith(line, TITLE_TAG);
    assert line[|TITLE_TAG|..] == t;
    ReplaceAllAbsent(t, TITLE_TAG, "");
    assert ReplaceAll(line, TITLE_TAG, "") == t;
    StripOfTrimmed(t);
  }

  /** A trimmed reply of two or more lines splits at its first line break. */
  lemma ParsePostOfLines(first: string, body: string)
    requires |first| > 0 && '\n' !in first && !IsSpace(first[0])
    requires |body| > 0 && !IsSpace(body[0]) && !IsSpace(body[|body| - 1])
    ensures ParsePost(first + "\n" + body) == (ParseTitle(first), body)
  {
    var s := first + "\n" + body;
    StripOfTrimmed(s);
    var (a, rest, found) := SplitOnce(s, '\n');
    assert found && a == first && rest == body by {
      assert s[|first|] == '\n';
      assert FirstIndex(s, '\n') == |first|;
    }
    StripOfTrimmed(body);
  }

  /**
   * A reply written as "Title:" + a trimmed one-line title of at most 100 characters, a line
   * break and a trimmed body parses back into that title and body.
   */
  lemma ParsePostOfTitled(t: string, body: string)
    requires |t| > 0 && |t| <= 100 && '\n' !in t && !IsSpace(t[0]) && !IsSpace(t[|t| - 1])
    requires !Contains(t, TITLE_TAG)
    requires |body| > 0 && !IsSpace(body[0]) && !IsSpace(body[|body| - 1])
    ensures ParsePost(TITLE_TAG + t + "\n" + body) == (t, body)
  {
    assert '\n' !in TITLE_TAG + t;
    assert (TITLE_TAG + t)[0] == 'T';
    ParsePostOfLines(TITLE_TAG + t, body);
    ParseTitleOfTagged(t);
  }

  /** What `_generate_response` yields: nothing once the budget is spent or when the model call fails. */
  function Generated(budget: CostCalculator.BudgetStatus, reply: Option<string>): (t: Option<string>)
    ensures t.Some? <==> WithinBudget(budget) && reply.Some?
    ensures t.Some? ==> t == reply
  {
    if !WithinBudget(budget) then None else reply
  }

  class Agent {
    const name: string
    const postsPerDay: int
    const commentsPerDay: int
    const strictMode: bool
    const scanAllContent: bool
    var postsToday: int
    var commentsToday: int
    var lastResetDay: string
    var respondedPosts: set<string>

    /** Neither counter is negative or above its daily cap. */
    predicate Valid()
      reads this
    {
      && 0 <= postsToday <= (if postsPerDay > 0 then postsPerDay else 0)
      && 0 <= commentsToday <= (if commentsPerDay > 0 then commentsPerDay else 0)
    }

    /** `MoltbookAgent(config)`, started on the day `today`. */
    constructor (name: string, postsPerDay: int, commentsPerDay: int, strictMode: bool,
                 scanAllContent: bool, today: string)
      ensures Valid()
      ensures this.name == name && this.postsPerDay == postsPerDay
      ensures this.commentsPerDay == commentsPerDay && this.strictMode == strictMode
      ensures this.scanAllContent == scanAllContent
      ensures postsToday == 0 && commentsToday == 0 && lastResetDay == today
      ensures respondedPosts == {}
    {
      this.name := name;
      this.postsPerDay := postsPerDay;
      this.commentsPerDay := commentsPerDay;
      this.strictMode := strictMode;
      this.scanAllContent := scanAllContent;
      postsToday := 0;
      commentsToday := 0;
      lastResetDay := today;
      respondedPosts := {};
    }

    /** `_reset_daily_counters()` on the day `today`: only a new day zeroes the counters. */
    method ResetDailyCounters(today: string)
      requires Valid()
      modifies this
      ensures Valid()
      ensures today != old(lastResetDay) ==>
        postsToday == 0 && commentsToday == 0 && lastResetDay == today
      ensures today == old(lastResetDay) ==>
        postsToday == old(postsToday) && commentsToday == old(commentsToday)
        && lastResetDay == old(lastResetDay)
      ensures respondedPosts == old(respondedPosts)
    {
      if today != lastResetDay {
        postsToday := 0;
        commentsToday := 0;
        lastResetDay := today;
      }
    }

    /**
     * `_should_respond_to_post(post)` given the random draw: never the agent's own post, never
     * one already answered, never past the daily comment cap, and only for a draw of at most 0.7.
     */
    predicate ShouldRespond(post: Post, draw: real)
      reads this
      ensures ShouldRespond(post, draw) ==>
        post.author != name && post.id !in respondedPosts && commentsToday < commentsPerDay
      ensures draw > 0.7 ==> !ShouldRespond(post, draw)
    {
      if post.author == name then false
      else if post.id in respondedPosts then false
      else if commentsToday >= commentsPerDay then false
      else if draw > 0.7 then false
      else true
    }

    /**
     * `_process_post(post)`, given the scanner's result on the post's content: the scan gate, the decision to answer, the reply (under the budget
     * the cost tracker reports) and the comment the server accepts or not. Only an accepted
     * comment marks the post answered and counts, by one, for the day.
     */
    method ProcessPost(post: Post, scan: Scanner.ScanResult, draw: real,
                       budget: CostCalculator.BudgetStatus, reply: Option<string>, serverOk: bool)
      returns (commented: bool)
      requires Valid()
      modifies this
      ensures Valid()
      ensures commented <==>
        && ScanGate(scanAllContent, strictMode, scan).0
        && old(ShouldRespond(post, draw))
        && Generated(budget, reply).Some? && reply.value != "" && serverOk
      ensures commented ==>
        respondedPosts == old(respondedPosts) + {post.id} && commentsToday == old(commentsToday) + 1
      ensures !commented ==>
        respondedPosts == old(respondedPosts) && commentsToday == old(commentsToday)
      ensures postsToday == old(postsToday) && lastResetDay == old(lastResetDay)
    {
      var verdict := ScanGate(scanAllContent, strictMode, scan);
      if !verdict.0 { return false; }
      if !ShouldRespond(post, draw) { return false; }
      var text := Generated(budget, reply);
      if text.None? || text.value == "" { return false; }
      if !serverOk { return false; }
      respondedPosts := respondedPosts + {post.id};
      commentsToday := commentsToday + 1;
      commented := true;
    }

    /**
     * `_create_post(submolt)`: refused at the daily cap or when the budget is spent; a reply is
     * parsed into title and content, and only a post the server accepted counts for the day.
     */
    method CreatePost(budget: CostCalculator.BudgetStatus, reply: Option<string>, serverOk: bool)
      returns (r: Option<(string, string)>)
      requires Valid()
      modifies this
      ensures Valid()
      ensures r.Some? <==>
        old(postsToday) < postsPerDay && Generated(budget, reply).Some? && reply.value != "" && serverOk
      ensures r.Some? ==> r.value == ParsePost(reply.value) && postsToday == old(postsToday) + 1
      ensures r.None? ==> postsToday == old(postsToday)
      ensures commentsToday == old(commentsToday) && respondedPosts == old(respondedPosts)
      ensures lastResetDay == old(lastResetDay)
    {
      if postsToday >= postsPerDay { return None; }
      if !WithinBudget(budget) { return None; }
      var text := Generated(budget, reply);
      if text.None? || text.value == "" { return None; }
      var parsed := ParsePost(text.value);
      if !serverOk { return None; }
      postsToday := postsToday + 1;
      r := Some(parsed);
    }
  }
}
