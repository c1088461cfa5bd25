/**
 * Financial safety (`FinancialSafety`): requests are searched for purchase, payment, crypto,
 * trading, signup and gift-card wording and for payment-site addresses; what is found sets a
 * risk level, whether the user must approve, and whether the request is refused. Spending is
 * recorded and checked against a daily limit. Times are seconds since the epoch, passed in as
 * `now`; a record is "today's" when it falls on the same UTC day as `now`.
 */
module FinancialSafety {
  import opened Wrappers
  import opened Strings
  import opened Regex
  import opened Scoring

  /** `FINANCIAL_PATTERNS`: each pattern (compiled ignoring case), its threat name and its level. */
  const FINANCIAL_PATTERNS: seq<(Pattern, string, Risk)> := [
    (I(@"\b(buy|purchase|order|acquire|get me)\b.*\$\s*\d+"), "purchase_request", Critical),
    (I(@"\b(buy|purchase|order|acquire|get me)\b.*\b(subscription|plan|service|product)\b"), "purchase_request2", Critical),
    (I(@"\b(add to cart|checkout|complete.*(order|purchase)|place.*(order|bid))\b"), "checkout_attempt", Critical),
    (I(@"\b(send|transfer|pay|wire)\b.*\b(money|\$|dollars|euros|funds)\b"), "money_transfer", Critical),
    (I(@"\b(venmo|paypal|zelle|cash ?app|wise|western union)\b"), "payment_service", High),
    (I(@"\b(sign ?up|subscribe|register|create account)\b.*\b(paid|premium|pro|plus)\b"), "paid_signup", High),
    (I(@"\b(free trial|start trial)\b"), "trial_signup", Medium),
    (I(@"\b(upgrade|unlock|activate)\b.*\b(premium|pro|full|paid)\b"), "upgrade_request", High),
    (I(@"\b(bitcoin|btc|ethereum|eth|crypto|wallet|seed ?phrase|private key)\b"), "crypto_mention", High),
    (I(@"\b(send|transfer)\b.*\b(btc|eth|crypto|coin)\b"), "crypto_transfer", Critical),
    (I(@"\b(connect|link).*(wallet|metamask)\b"), "wallet_connect", Critical),
    (I(@"\b(invest|trade|buy|sell)\b.*\b(stock|share|option|future|forex)\b"), "trading_request", Critical),
    (I(@"\b(deposit|withdraw)\b.*\b(funds|money|\$)\b"), "deposit_withdraw", Critical),
    (I(@"\b(call|use|invoke)\b.*\b(api|endpoint)\b.*\b(times|iterations|loop)\b"), "bulk_api_call", Medium),
    (I(@"\b(generate|create)\b.*\b(\d{3,}|hundreds|thousands)\b.*\b(images?|videos?|files?)\b"), "expensive_generation", High),
    (I(@"\b(agree|accept|sign|approve)\b.*\b(terms|contract|agreement|tos)\b"), "agreement_signing", High),
    (I(@"\b(confirm|authorize|approve)\b.*\b(payment|charge|transaction|purchase)\b"), "transaction_approval", Critical),
    (I(@"\b(gift ?cards?|prepaid ?cards?|store ?credits?)\b"), "gift_card", High),
    (I(@"\b(redeem|activate)\b.*\b(code|voucher|coupon)\b"), "code_redemption", Medium)
  ]

  /** `FINANCIAL_DOMAINS`, compiled ignoring case. */
  const FINANCIAL_DOMAINS: seq<Pattern> := [
    I(@"paypal\.com"), I(@"stripe\.com"), I(@"square\.com"),
    I(@"venmo\.com"), I(@"cash\.app"), I(@"zelle\.com"),
    I(@"wise\.com"), I(@"westernunion\.com"),
    I(@"coinbase\.com"), I(@"binance\.com"), I(@"kraken\.com"),
    I(@"robinhood\.com"), I(@"etrade\.com"), I(@"fidelity\.com"),
    I(@"checkout\."), I(@"pay\."), I(@"payment\."),
    I(@"shop\."), I(@"store\."), I(@"buy\.")
  ]

  /** The threats that always need the user's approval (not "purchase_request2"). */
  const APPROVAL_REQUIRED: set<string> := {
    "purchase_request", "checkout_attempt", "money_transfer",
    "crypto_transfer", "trading_request", "deposit_withdraw",
    "transaction_approval", "wallet_connect"
  }

  /** The amount patterns of `_extract_amount`, tried in order, compiled ignoring case. */
  const AMOUNT_PATTERNS: seq<Pattern> := [
    I(@"\$\s*([\d,]+(?:\.\d{2})?)"),
    I(@"([\d,]+(?:\.\d{2})?)\s*(?:dollars?|usd)"),
    I(@"([\d,]+(?:\.\d{2})?)\s*(?:euros?|eur)")
  ]

  const FINANCIAL_URL := "financial_url"
  const DAY := 86400.0

  /** One threat found: its name and its level. */
  datatype Threat = Threat(name: string, risk: Risk)

  /** `FinancialCheckResult` */
  datatype CheckResult = CheckResult(
    isSafe: bool, riskLevel: Risk, threats: seq<string>, requiresApproval: bool,
    recommendations: seq<string>)

  /** `SpendingRecord`; `time` replaces the ISO timestamp. */
  datatype Spending = Spending(time: real, action: string, cost: real, approved: bool, details: string)

  /** `get_stats()` */
  datatype Stats = Stats(
    dailyLimit: real, dailySpent: real, dailyRemaining: real, todayBlocked: nat,
    todayApproved: nat, totalBlocked: nat, blockAll: bool)

  /** The gate's settings. */
  datatype Config = Config(dailyLimit: real, requireApprovalAbove: real, blockAll: bool)

  /** The constructor's defaults: nothing may be spent and every financial action is blocked. */
  const DEFAULT := Config(0.0, 0.0, true)

  /** A safe answer with nothing found. */
  const SAFE := CheckResult(true, NoRisk, [], false, [])

  // ---------------------------------------------------------------------------------------
  // Threats

  /** The threats of the table whose pattern matches, in table order. */
  function Matched(e: Engine, table: seq<(Pattern, string, Risk)>, content: string): (r: seq<Threat>)
    ensures |r| <= |table|
  {
    if |table| == 0 then []
    else
      (if Search(e, table[0].0, content) then [Threat(table[0].1, table[0].2)] else [])
      + Matched(e, table[1..], content)
  }

  /** A threat is reported exactly when some entry of the table names it and its pattern matches. */
  lemma {:induction false} MatchedMeaning(e: Engine, table: seq<(Pattern, string, Risk)>, content: string, t: Threat)
    ensures t in Matched(e, table, content) <==>
      exists i :: 0 <= i < |table| && Search(e, table[i].0, content) && t == Threat(table[i].1, table[i].2)
    decreases |table|
  {
    if |table| > 0 {
      MatchedMeaning(e, table[1..], content, t);
      if t in Matched(e, table[1..], content) {
        var i :| 0 <= i < |table[1..]| && Search(e, table[1..][i].0, content) && t == Threat(table[1..][i].1, table[1..][i].2);
        assert table[i + 1] == table[1..][i];
      }
      if exists i :: 0 <= i < |table| && Search(e, table[i].0, content) && t == Threat(table[i].1, table[i].2) {
        var i :| 0 <= i < |table| && Search(e, table[i].0, content) && t == Threat(table[i].1, table[i].2);
        if i > 0 {
          assert table[1..][i - 1] == table[i];
        }
      }
    }
  }

  /** The threats of `check_request`: the table's, then one payment-site threat at "high". */
  function Threats(e: Engine, table: seq<(Pattern, string, Risk)>, domains: seq<Pattern>, content: string): seq<Threat> {
    Matched(e, table, content)
    + (if AnySearch(e, domains, content) then [Threat(FINANCIAL_URL, High)] else [])
  }

  function Names(ts: seq<Threat>): (r: seq<string>)
    ensures |r| == |ts|
    ensures forall i :: 0 <= i < |ts| ==> r[i] == ts[i].name
  {
    if |ts| == 0 then [] else [ts[0].name] + Names(ts[1..])
  }

  function Scores(ts: seq<Threat>): (r: seq<int>)
    ensures |r| == |ts|
    ensures forall i :: 0 <= i < |ts| ==> r[i] == Score(ts[i].risk)
  {
    if |ts| == 0 then [] else [Score(ts[0].risk)] + Scores(ts[1..])
  }

  /** Some threat found needs approval whatever the amount. */
  predicate NeedsApproval(ts: seq<Threat>) {
    exists i :: 0 <= i < |ts| && ts[i].name in APPROVAL_REQUIRED
  }

  // ---------------------------------------------------------------------------------------
  // Amounts

  predicate AllDigits(s: string) {
    forall c :: c in s ==> IsDigit(c)
  }

  /**
   * `float(t)` for the shapes the amount patterns capture once the commas are gone: digits,
   * or digits (possibly none) followed by "." and two digits; nothing for the empty string.
   */
  function ParseDecimal(t: string): Option<real> {
    if t == "" then None
    else if AllDigits(t) then Some(DigitsValue(t) as real)
    else if |t| >= 3 && t[|t| - 3] == '.' && AllDigits(t[..|t| - 3]) && AllDigits(t[|t| - 2..]) then
      Some(DigitsValue(t[..|t| - 3]) as real + DigitsValue(t[|t| - 2..]) as real / 100.0)
    else None
  }

  /** `float(s.replace(",", ""))` */
  function ParseAmount(s: string): Option<real> {
    ParseDecimal(ReplaceAll(s, ",", ""))
  }

  /** A whole number written out in decimal reads back as itself; commas alone give nothing. */
  lemma ParseAmountMeaning(n: nat)
    ensures ParseDecimal(NatToString(n)) == Some(n as real)
    ensures ParseAmount(",") == None
  {
    DigitsValueOfNatToString(n);
    assert ReplaceAll(",", ",", "") == "" by {
      assert StartsWith(",", ",");
      assert ","[1..] == "";
    }
  }

  /** A parsed amount is never negative: the patterns capture no sign. */
  lemma ParseDecimalNonNegative(t: string)
    ensures ParseDecimal(t).Some? ==> ParseDecimal(t).value >= 0.0
  {
  }

  /**
   * `_extract_amount(content)`: the first pattern that matches and whose first capture parses
   * gives the amount; a capture that does not parse moves on to the next pattern.
   */
  function ExtractAmount(e: Engine, ps: seq<Pattern>, content: string): (r: Option<real>)
    ensures r.Some? ==> exists i :: 0 <= i < |ps| && Search(e, ps[i], content)
    ensures r.Some? ==> r.value >= 0.0
  {
    if |ps| == 0 then None
    else
      var ms := e.findAll(ps[0], content);
      var parsed := if |ms| > 0 then ParseAmount(Reported(ms[0])) else None;
      if parsed.Some? then
        ParseDecimalNonNegative(ReplaceAll(Reported(ms[0]), ",", ""));
        parsed
      else
        var rest := ExtractAmount(e, ps[1..], content);
        assert rest.Some? ==> exists i :: 0 <= i < |ps| && Search(e, ps[i], content) by {
          if rest.Some? {
            var i :| 0 <= i < |ps[1..]| && Search(e, ps[1..][i], content);
            assert ps[i + 1] == ps[1..][i];
          }
        }
        rest
  }

  /** `if amount and amount > require_approval_above`: a zero amount counts as none. */
  predicate AmountNeedsApproval(amount: Option<real>, above: real) {
    amount.Some? && amount.value != 0.0 && amount.value > above
  }

  // ---------------------------------------------------------------------------------------
  // The check

  /** Some threat name contains "crypto" (`"crypto" in str(threats)`). */
  predicate MentionsCrypto(names: seq<string>) {
    exists i :: 0 <= i < |names| && Contains(names[i], "crypto")
  }

  /** The verdict on threats found: refused under a block, or when approval or a high level demands. */
  function Verdict(c: Config, level: Risk, approval: bool): (r: (bool, string)) {
    if c.blockAll then (false, "Financial actions are blocked for this agent")
    else if approval then (false, "This action requires explicit user approval")
    else if level == Critical || level == High then (false, "Exercise extreme caution with financial requests")
    else (true, "Monitor this interaction for financial manipulation")
  }

  /** `check_request(content)` with the given tables. */
  function Check(e: Engine, table: seq<(Pattern, string, Risk)>, domains: seq<Pattern>, c: Config,
                 content: string): CheckResult
  {
    var ts := Threats(e, table, domains, content);
    if ts == [] then SAFE
    else
      var names := Names(ts);
      var level := Level4(Scores(ts));
      var approval := NeedsApproval(ts) || AmountNeedsApproval(ExtractAmount(e, AMOUNT_PATTERNS, content), c.requireApprovalAbove);
      var (safe, first) := Verdict(c, level, approval);
      CheckResult(safe, level, names, approval,
                  [first]
                  + (if MentionsCrypto(names) then ["Crypto requests are high-risk for scams"] else [])
                  + (if "gift_card" in names then ["Gift card requests are a common scam tactic"] else []))
  }

  /**
   * Nothing found is safe at "none" without approval or advice, even when the text names an
   * amount above the approval threshold.
   */
  lemma NothingFoundIsSafe(e: Engine, table: seq<(Pattern, string, Risk)>, domains: seq<Pattern>, c: Config,
                           content: string)
    requires forall i :: 0 <= i < |table| ==> !Search(e, table[i].0, content)
    requires !AnySearch(e, domains, content)
    ensures Check(e, table, domains, c, content) == SAFE
  {
    if Matched(e, table, content) != [] {
      MatchedMeaning(e, table, content, Matched(e, table, content)[0]);
    }
  }

  /**
   * The level is the highest score found (critical 4, high 3, medium 2, low 1, the payment
   * site counting once at 3); approval is needed for a listed threat or an amount above the
   * threshold; under a total block anything found is refused, otherwise a request is refused
   * exactly when it needs approval or is high or critical.
   */
  lemma CheckMeaning(e: Engine, table: seq<(Pattern, string, Risk)>, domains: seq<Pattern>, c: Config,
                     content: string)
    ensures var ts := Threats(e, table, domains, content);
      var r := Check(e, table, domains, c, content);
      && r.threats == Names(ts)
      && (ts != [] ==> r.riskLevel == Level4(Scores(ts)))
      && (r.requiresApproval <==>
            (ts != [] && (NeedsApproval(ts)
              || AmountNeedsApproval(ExtractAmount(e, AMOUNT_PATTERNS, content), c.requireApprovalAbove))))
      && (c.blockAll ==> (r.isSafe <==> ts == []))
      && (!c.blockAll ==> (r.isSafe <==> ts == [] || (!r.requiresApproval && Score(r.riskLevel) <= 2)))
      && (ts != [] ==> |r.recommendations| >= 1)
  {
  }

  /** A payment site raises the level to at least "high", and only one such threat is listed. */
  lemma PaymentSiteIsHigh(e: Engine, table: seq<(Pattern, string, Risk)>, domains: seq<Pattern>, c: Config,
                          content: string)
    requires AnySearch(e, domains, content)
    ensures Score(Check(e, table, domains, c, content).riskLevel) >= 3
    ensures !Check(e, table, domains, c, content).isSafe
  {
    var ts := Threats(e, table, domains, content);
    var k := |ts| - 1;
    assert ts[k] == Threat(FINANCIAL_URL, High);
    assert Scores(ts)[k] == 3;
    assert SomeAtLeast(Scores(ts), 3);
    var level := Level4(Scores(ts));
    assert level == High || level == Critical;
  }

  /**
   * `is_financial_safe` on the default gate (also what `block_all_financial_actions` installs):
   * content is safe exactly when nothing financial is found in it, and nothing can be spent.
   */
  lemma DefaultGateRefusesAll(e: Engine, content: string, records: seq<Spending>, amount: real, now: real)
    ensures Check(e, FINANCIAL_PATTERNS, FINANCIAL_DOMAINS, DEFAULT, content).isSafe
            <==> Threats(e, FINANCIAL_PATTERNS, FINANCIAL_DOMAINS, content) == []
    ensures !CanSpend(DEFAULT, records, amount, now)
  {
    CheckMeaning(e, FINANCIAL_PATTERNS, FINANCIAL_DOMAINS, DEFAULT, content);
  }

  /** `check_url(url)`: a payment site is refused at "high" and needs approval. */
  function CheckUrl(e: Engine, domains: seq<Pattern>, url: string): (r: CheckResult)
    ensures r.isSafe <==> !AnySearch(e, domains, url)
    ensures r.isSafe ==> r == SAFE
    ensures !r.isSafe ==> r.riskLevel == High && r.requiresApproval && r.threats == [FINANCIAL_URL]
  {
    if AnySearch(e, domains, url) then
      CheckResult(false, High, [FINANCIAL_URL], true,
                  ["This appears to be a financial/payment site", "Do not interact without explicit user approval"])
    else SAFE
  }

  // ---------------------------------------------------------------------------------------
  // Spending

  /** The UTC day of a time. */
  function Day(t: real): int {
    (t / DAY).Floor
  }

  /** `get_daily_spending()`: the approved costs recorded on the day of `now`. */
  function DailySpent(records: seq<Spending>, now: real): real
    decreases |records|
  {
    if |records| == 0 then 0.0
    else
      var last := records[|records| - 1];
      DailySpent(records[..|records| - 1], now) + (if last.approved && Day(last.time) == Day(now) then last.cost else 0.0)
  }

  /** Records of other days and refused records add nothing to the day's spending. */
  lemma {:induction false} DailySpentOnlyApprovedToday(records: seq<Spending>, now: real)
    requires forall i :: 0 <= i < |records| ==> !records[i].approved || Day(records[i].time) != Day(now)
    ensures DailySpent(records, now) == 0.0
    decreases |records|
  {
    if |records| > 0 {
      DailySpentOnlyApprovedToday(records[..|records| - 1], now);
    }
  }

  /** Recording an approved cost today adds exactly that cost; anything else adds nothing. */
  lemma DailySpentRecord(records: seq<Spending>, r: Spending, now: real)
    ensures DailySpent(records + [r], now)
      == DailySpent(records, now) + (if r.approved && Day(r.time) == Day(now) then r.cost else 0.0)
  {
    assert (records + [r])[..|records|] == records;
  }

  /**
   * `can_spend(amount)` at `now`: never under a total block or without a positive daily
   * limit; otherwise exactly when today's approved spending plus the amount stays within it.
   */
  function CanSpend(c: Config, records: seq<Spending>, amount: real, now: real): (ok: bool)
    ensures ok <==> !c.blockAll && c.dailyLimit > 0.0 && DailySpent(records, now) + amount <= c.dailyLimit
  {
    if c.blockAll then false
    else if c.dailyLimit <= 0.0 then false
    else DailySpent(records, now) + amount <= c.dailyLimit
  }

  /**
   * A spend that `can_spend` allows, once recorded as approved at the same time, leaves the
   * day's approved spending within the daily limit.
   */
  lemma AllowedSpendStaysWithinLimit(c: Config, records: seq<Spending>, action: string, amount: real,
                                     details: string, now: real)
    requires CanSpend(c, records, amount, now)
    ensures DailySpent(records + [Spending(now, action, amount, true, details)], now) <= c.dailyLimit
    ensures c.dailyLimit > 0.0 && !c.blockAll
  {
    DailySpentRecord(records, Spending(now, action, amount, true, details), now);
  }

  function CountWhere(records: seq<Spending>, approved: bool, day: Option<int>): nat
    decreases |records|
  {
    if |records| == 0 then 0
    else
      var last := records[|records| - 1];
      CountWhere(records[..|records| - 1], approved, day)
      + (if last.approved == approved && (day.None? || Day(last.time) == day.value) then 1 else 0)
  }

  /** `get_stats()` at `now`; the remaining allowance is never negative. */
  function StatsOf(c: Config, records: seq<Spending>, now: real): (s: Stats)
    ensures s.dailyRemaining >= 0.0
    ensures s.dailySpent + s.dailyRemaining >= c.dailyLimit
    ensures s.dailySpent <= c.dailyLimit ==> s.dailySpent + s.dailyRemaining == c.dailyLimit
  {
    var spent := DailySpent(records, now);
    var rest := c.dailyLimit - spent;
    Stats(c.dailyLimit, spent, if rest >= 0.0 then rest else 0.0,
          CountWhere(records, false, Some(Day(now))), CountWhere(records, true, Some(Day(now))),
          CountWhere(records, false, None), c.blockAll)
  }

  /** `FinancialSafety(daily_limit, require_approval_above, block_all_financial)`. */
  class Gate {
    const config: Config
    const patterns: seq<(Pattern, string, Risk)>
    const domains: seq<Pattern>
    var spending: seq<Spending>

    constructor (config: Config)
      ensures this.config == config && patterns == FINANCIAL_PATTERNS && domains == FINANCIAL_DOMAINS
      ensures spending == []
    {
      this.config := config;
      patterns := FINANCIAL_PATTERNS;
      domains := FINANCIAL_DOMAINS;
      spending := [];
    }

    method CheckRequest(e: Engine, content: string) returns (r: CheckResult)
      ensures r == Check(e, patterns, domains, config, content)
    {
      r := Check(e, patterns, domains, config, content);
    }

    method CheckUrlOf(e: Engine, url: string) returns (r: CheckResult)
      ensures r == CheckUrl(e, domains, url)
    {
      r := CheckUrl(e, domains, url);
    }

    /** `record_spending(action, cost, approved, details)` at `now`. */
    method RecordSpending(action: string, cost: real, approved: bool, details: string, now: real)
      modifies this
      ensures spending == old(spending) + [Spending(now, action, cost, approved, details)]
      ensures DailySpent(spending, now) == DailySpent(old(spending), now) + (if approved then cost else 0.0)
    {
      DailySpentRecord(spending, Spending(now, action, cost, approved, details), now);
      spending := spending + [Spending(now, action, cost, approved, details)];
    }

    method GetDailySpending(now: real) returns (total: real)
      ensures total == DailySpent(spending, now)
    {
      total := DailySpent(spending, now);
    }

    method CanSpendNow(amount: real, now: real) returns (ok: bool)
      ensures ok <==> !config.blockAll && config.dailyLimit > 0.0 && DailySpent(spending, now) + amount <= config.dailyLimit
    {
      ok := CanSpend(config, spending, amount, now);
    }

    method GetStats(now: real) returns (s: Stats)
      ensures s == StatsOf(config, spending, now)
    {
      s := StatsOf(config, spending, now);
    }
  }
}
