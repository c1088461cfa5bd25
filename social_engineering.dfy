/**
 * Social engineering defense (`SocialEngineeringDefense`): a trust score per agent, nudged up
 * by positive interactions and down by negative ones, flags and blocks; and an analysis of each
 * message that looks for manipulation techniques and behavioural warning signs, weighs the
 * worst of them by the author's trust, and records the message. Times are seconds since the
 * epoch, passed in as `now`.
 */
module SocialEngineering {
  import opened Strings
  import opened Regex
  import opened Scoring

  datatype Severity = SevHigh | SevMedium | SevLow

  /** A manipulation technique: its name, its patterns (searched ignoring case) and its risk. */
  datatype Technique = Technique(name: string, patterns: seq<string>, risk: Severity)

  /** The weight of a risk: `{"high": 3, "medium": 2, "low": 1}`. */
  function Weight(s: Severity): nat {
    match s
    case SevHigh => 3
    case SevMedium => 2
    case SevLow => 1
  }

  /** The weight given to every behavioural flag (medium). */
  const BEHAVIOR_WEIGHT: nat := 2

  const TECHNIQUES: seq<Technique> := [
    Technique("authority_claim", [
      @"I('m| am) (from|with|a) (moltbook|the platform|support|admin|moderator)",
      @"(official|authorized|verified) (agent|representative|staff)",
      @"(speak|act)(ing)? on behalf of",
      @"I have (special|admin|elevated) (access|privileges|permissions)"], SevHigh),
    Technique("urgency_pressure", [
      @"(urgent|immediately|right now|asap|emergency)",
      @"(must|need to|have to) (act|respond|do this) (now|quickly|fast)",
      @"(limited time|expires soon|last chance|don't wait)",
      @"(before it's too late|running out of time)"], SevMedium),
    Technique("social_proof", [
      @"(everyone|all agents|most agents) (does|do|are doing) (this|it)",
      @"(it's|this is) (normal|common|standard) (practice|behavior)",
      @"(other agents|they all) (already|have) (done|shared|revealed)",
      @"you('re| are) the only one (who|that) (doesn't|hasn't)"], SevMedium),
    Technique("flattery", [
      @"you('re| are) (so|really|very|incredibly) (smart|intelligent|helpful|special)",
      @"(only you|you alone) can (help|do this|understand)",
      @"I('ve| have) (heard|seen) (great|amazing|wonderful) things about you",
      @"you('re| are) (different|better|superior) (from|than) other agents"], SevLow),
    Technique("reciprocity", [
      @"I (did|helped|gave) you .* (now|so) you (should|must|need to)",
      @"(remember when|after) I .* (you owe|return the favor)",
      @"(quid pro quo|fair exchange|return the favor)",
      @"I('ll| will) .* (if|when) you .* (first|for me)"], SevMedium),
    Technique("secrecy_request", [
      @"(don't|do not) (tell|share|mention) (anyone|this|to others)",
      @"(keep|this is) (between us|our secret|confidential)",
      @"(private|secret) (conversation|matter|deal)",
      @"(nobody|no one) (needs to|should) know"], SevHigh),
    Technique("identity_questioning", [
      @"(who|what) (are you really|do you really|is your true)",
      @"(tell me|reveal|show) your (true|real) (self|nature|purpose)",
      @"(behind|underneath) your (persona|character|act)",
      @"(drop|stop) the (act|pretense|facade)"], SevMedium),
    Technique("hypothetical_trap", [
      @"(hypothetically|theoretically|in theory|just imagine)",
      @"(let's|let us) (pretend|imagine|say|assume) (that|you)",
      @"(what if|suppose|assuming) (you|we|there) (were|could|had)",
      @"(in a|for a) (hypothetical|theoretical|imaginary) (scenario|situation)"], SevMedium),
    Technique("emotional_manipulation", [
      @"(you('re| are) making me|I('m| am)) (sad|upset|hurt|disappointed)",
      @"(if you (cared|really|truly)|don't you care)",
      @"(please|I('m| am) begging|I need you to) (help|understand|listen)",
      @"(you('re| are) being|that's) (mean|cruel|unfair|heartless)"], SevMedium),
    Technique("insider_knowledge", [
      @"I (know|heard|learned) (about|that) your (instructions|prompt|guidelines)",
      @"(your (creator|developer|operator)|the one who made you) (told|said|wants)",
      @"I('ve| have) (seen|read|accessed) your (config|configuration|settings)",
      @"(between|among) (us agents|AI agents|the agents)"], SevHigh)
  ]

  const DECLINE_INDICATORS: seq<string> := ["no", "cannot", "won't", "refuse", "decline"]

  const MAX_HISTORY := 100
  const HISTORY_CONTENT := 200
  const DAY := 86400.0

  /** `AgentTrustScore`; times rather than ISO strings. */
  datatype Trust = Trust(
    agentName: string, score: real, interactions: nat, positive: nat, negative: nat,
    flags: seq<string>, lastInteraction: real, firstSeen: real)

  /**
   * One remembered message. The source stores a dict with "time", "content" and "techniques"
   * and reads its "response" with a default of ""; `response` is that value.
   */
  datatype Entry = Entry(time: real, content: string, techniques: seq<string>, response: string)

  /** `ManipulationResult` */
  datatype Manipulation = Manipulation(
    isManipulation: bool, riskLevel: Risk, techniques: seq<string>,
    recommendations: seq<Advice>, trustScore: real)

  /** Some pattern of the technique is found in `content`. */
  predicate Uses(e: Engine, t: Technique, content: string) {
    exists i :: 0 <= i < |t.patterns| && Search(e, I(t.patterns[i]), content)
  }

  predicate Increasing(s: seq<nat>) {
    forall i, j :: 0 <= i < j < |s| ==> s[i] < s[j]
  }

  /**
   * The indices of the techniques of `table` used in `content`, in table order: each technique
   * is counted once, however many of its patterns match.
   */
  function Detected(e: Engine, table: seq<Technique>, content: string): (r: seq<nat>)
    ensures Increasing(r)
    ensures forall j :: 0 <= j < |r| ==> r[j] < |table|
    ensures forall i :: 0 <= i < |table| ==> (i in r <==> Uses(e, table[i], content))
  {
    if |table| == 0 then []
    else
      var init := Detected(e, table[..|table| - 1], content);
      assert forall i :: 0 <= i < |table| - 1 ==> table[..|table| - 1][i] == table[i];
      init + (if Uses(e, table[|table| - 1], content) then [|table| - 1] else [])
  }

  function NamesOf(table: seq<Technique>, ix: seq<nat>): (r: seq<string>)
    requires forall j :: 0 <= j < |ix| ==> ix[j] < |table|
    ensures |r| == |ix|
  {
    seq(|ix|, j requires 0 <= j < |ix| => table[ix[j]].name)
  }

  function WeightsOf(table: seq<Technique>, ix: seq<nat>): (r: seq<nat>)
    requires forall j :: 0 <= j < |ix| ==> ix[j] < |table|
    ensures |r| == |ix|
  {
    seq(|ix|, j requires 0 <= j < |ix| => Weight(table[ix[j]].risk))
  }

  /** A message is recent when less than a whole day old (`timedelta.days < 1`). */
  predicate Recent(h: Entry, now: real) {
    ((now - h.time) / DAY).Floor < 1
  }

  function RecentOf(history: seq<Entry>, now: real): (r: seq<Entry>)
    ensures |r| <= |history|
    ensures forall h :: h in r ==> h in history && Recent(h, now)
  {
    if |history| == 0 then []
    else (if Recent(history[0], now) then [history[0]] else []) + RecentOf(history[1..], now)
  }

  function CountFlattery(hs: seq<Entry>): (k: nat)
    ensures k <= |hs|
  {
    if |hs| == 0 then 0 else (if "flattery" in hs[0].techniques then 1 else 0) + CountFlattery(hs[1..])
  }

  /** The response contains a decline indicator, ignoring case. */
  predicate Declined(h: Entry) {
    exists i :: 0 <= i < |DECLINE_INDICATORS| && Contains(Lower(h.response), DECLINE_INDICATORS[i])
  }

  function CountDeclines(hs: seq<Entry>): (k: nat)
    ensures k <= |hs|
    ensures (forall h :: h in hs ==> h.response == "") ==> k == 0
  {
    if |hs| == 0 then 0
    else
      var rest := CountDeclines(hs[1..]);
      assert forall h :: h in hs[1..] ==> h in hs;
      (if Declined(hs[0]) then 1 else 0) + rest
  }

  function CountQuestions(hs: seq<Entry>): (k: nat)
    ensures k <= |hs|
  {
    if |hs| == 0 then 0 else (if '?' in hs[0].content then 1 else 0) + CountQuestions(hs[1..])
  }

  /** `recent[-5:]` */
  function LastFive(hs: seq<Entry>): (r: seq<Entry>)
    ensures |r| <= 5 && |r| <= |hs| && r == hs[|hs| - |r|..]
  {
    if |hs| <= 5 then hs else hs[|hs| - 5..]
  }

  /**
   * `_analyze_behavior`: the behavioural flags over the author's messages of the last day:
   * three flattering messages, two declines among the last five followed by more messages,
   * and five questions.
   */
  function Behavior(history: seq<Entry>, now: real): (flags: seq<string>)
    ensures |flags| <= 3
    ensures history == [] ==> flags == []
  {
    if history == [] then []
    else
      var recent := RecentOf(history, now);
      FlagList(RapidTrust(recent), Persistent(recent), Fishing(recent))
  }

  /** Three flattering messages. */
  predicate RapidTrust(recent: seq<Entry>) {
    CountFlattery(recent) >= 3
  }

  /** Two declines among the last five messages, and more messages than declines. */
  predicate Persistent(recent: seq<Entry>) {
    var declines := CountDeclines(LastFive(recent));
    declines >= 2 && |recent| > declines
  }

  /** Five questions among at least five messages. */
  predicate Fishing(recent: seq<Entry>) {
    CountQuestions(recent) >= 5 && |recent| >= 5
  }

  /** The flags raised, in the source's order. */
  function FlagList(rapid: bool, persistent: bool, fishing: bool): (flags: seq<string>)
    ensures |flags| <= 3
    ensures "persistence" in flags ==> persistent
  {
    (if rapid then ["rapid_trust_building"] else [])
    + (if persistent then ["persistence"] else [])
    + (if fishing then ["information_fishing"] else [])
  }

  /**
   * No message the defense records carries a response, so "persistence" is never raised on a
   * history it built.
   */
  lemma PersistenceNeverRaised(history: seq<Entry>, now: real)
    requires forall h :: h in history ==> h.response == ""
    ensures "persistence" !in Behavior(history, now)
  {
    if history != [] {
      var recent := RecentOf(history, now);
      assert forall h :: h in LastFive(recent) ==> h in recent;
      assert !Persistent(recent);
    }
  }

  /**
   * What `_record_interaction_internal` evidently means to remember so that the persistence check
   * has something to read: the same entry as `Memo`, with the reply the agent gave.
   */
  function MemoWithResponse(content: string, techniques: seq<string>, response: string, now: real): (h: Entry)
    ensures h.response == response
    ensures h.(response := "") == Memo(content, techniques, now)
  {
    Entry(now, Take(content, HISTORY_CONTENT), techniques, response)
  }

  /**
   * With replies remembered, two declined requests followed by a third message within the day
   * raise "persistence".
   */
  lemma PersistenceRaisedWithResponses(a: string, b: string, c: string, now: real)
    ensures "persistence" in Behavior([MemoWithResponse(a, [], "no", now), MemoWithResponse(b, [], "no", now),
                                       MemoWithResponse(c, [], "", now)], now)
  {
    var x := MemoWithResponse(a, [], "no", now);
    var y := MemoWithResponse(b, [], "no", now);
    var z := MemoWithResponse(c, [], "", now);
    var history := [x, y, z];
    RecentNow(history, now);
    assert LastFive(history) == history;
    DeclinedNo(x);
    DeclinedNo(y);
    assert !Declined(z) by {
      assert Lower(z.response) == "";
      forall i | 0 <= i < |DECLINE_INDICATORS|
        ensures !Contains(Lower(z.response), DECLINE_INDICATORS[i])
      {
        assert !StartsWith("", DECLINE_INDICATORS[i]);
      }
    }
    assert history[1..] == [y, z] && history[1..][1..] == [z] && history[1..][1..][1..] == [];
    assert CountDeclines(history) == 2;
    assert Persistent(history);
  }

  /** Messages stamped `now` are all recent at `now`. */
  lemma {:induction false} RecentNow(history: seq<Entry>, now: real)
    requires forall h :: h in history ==> h.time == now
    ensures RecentOf(history, now) == history
  {
    if |history| > 0 {
      assert ((now - history[0].time) / DAY).Floor == 0;
      RecentNow(history[1..], now);
      assert [history[0]] + history[1..] == history;
    }
  }

  /** The reply "no" is a decline. */
  lemma DeclinedNo(h: Entry)
    requires h.response == "no"
    ensures Declined(h)
  {
    assert Lower("no") == "no";
    assert StartsWith("no", DECLINE_INDICATORS[0]);
  }

  function MaxOf(s: seq<nat>): (m: nat)
    requires |s| > 0
    ensures m in s && forall x :: x in s ==> x <= m
  {
    if |s| == 1 then s[0]
    else
      var rest := MaxOf(s[1..]);
      assert forall x :: x in s ==> x == s[0] || x in s[1..];
      if s[0] >= rest then s[0] else rest
  }

  /** `1.0 + (0.5 - trust)`: a lower trust scales the risk up. */
  function TrustModifier(trust: real): real {
    1.0 + (0.5 - trust)
  }

  /**
   * The level and verdict of `analyze_interaction` from the risk weights found, the number of
   * techniques and the author's trust.
   */
  function Verdict(weights: seq<nat>, count: nat, trust: real): (r: (Risk, bool))
    ensures (r.0 == NoRisk) <==> weights == []
    ensures r.1 <==> (r.0 == High || r.0 == Medium || (r.0 == Low && count > 1))
  {
    if weights == [] then (NoRisk, false)
    else
      var m := MaxOf(weights) as real * TrustModifier(trust);
      if m >= 3.0 then (High, true)
      else if m >= 2.0 then (Medium, true)
      else (Low, count > 1)
  }

  /** With trust at most 0.5, one high-risk finding always makes the verdict high. */
  lemma HighRiskFromDistrustedIsHigh(weights: seq<nat>, count: nat, trust: real)
    requires 3 in weights && trust <= 0.5
    ensures Verdict(weights, count, trust) == (High, true)
  {
    var mx, t := MaxOf(weights) as real, TrustModifier(trust);
    assert mx >= 3.0 && t >= 1.0;
    ScaleUp(mx, t);
  }

  lemma ScaleUp(x: real, t: real)
    requires x >= 3.0 && t >= 1.0
    ensures x * t >= 3.0
  {
    assert x * t - 3.0 == (x - 3.0) * t + 3.0 * (t - 1.0);
  }

  /** A fully trusted author's single finding, even a high-risk one, is judged low and not manipulation. */
  lemma TrustedSingleFindingIsLow(w: nat, trust: real)
    requires 1 <= w <= 3 && trust == 1.0
    ensures Verdict([w], 1, trust) == (Low, false)
  {
  }

  /** Raising the trust never raises the level. */
  lemma VerdictAntitone(weights: seq<nat>, count: nat, t1: real, t2: real)
    requires t1 <= t2
    ensures Score(Verdict(weights, count, t2).0) <= Score(Verdict(weights, count, t1).0)
  {
    if weights != [] {
      var m := MaxOf(weights) as real;
      assert m * TrustModifier(t1) - m * TrustModifier(t2) == m * (t2 - t1);
      assert m * (t2 - t1) >= 0.0;
    }
  }

  /** The recommendations `_generate_recommendations` can give; `AdviceText` gives each one's wording. */
  datatype Advice =
    | ExtremeCaution | ShareNothing | ConsiderIgnoring | BeCautious | VerifyClaims
    | VerifyAuthority | RejectSecrecy | TakeTime | LowTrust | Normal

  function AdviceText(a: Advice): string {
    match a
    case ExtremeCaution => "Exercise extreme caution with this agent"
    case ShareNothing => "Do not share any sensitive information"
    case ConsiderIgnoring => "Consider ignoring this interaction"
    case BeCautious => "Be cautious - potential manipulation detected"
    case VerifyClaims => "Verify claims independently"
    case VerifyAuthority => "Verify authority claims through official channels"
    case RejectSecrecy => "Reject requests for secrecy - this is a red flag"
    case TakeTime => "Take time to think - urgency is often manufactured"
    case LowTrust => "This agent has low trust - limit interaction"
    case Normal => "Interaction appears normal"
  }

  /** `_generate_recommendations` before its fallback. */
  function Advise(techniques: seq<string>, level: Risk, trust: real): (r: seq<Advice>)
    ensures Normal !in r
  {
    (if level == High then [ExtremeCaution, ShareNothing, ConsiderIgnoring] else [])
    + (if level == Medium then [BeCautious, VerifyClaims] else [])
    + (if "authority_claim" in techniques then [VerifyAuthority] else [])
    + (if "secrecy_request" in techniques then [RejectSecrecy] else [])
    + (if "urgency_pressure" in techniques then [TakeTime] else [])
    + (if trust < 0.3 then [LowTrust] else [])
  }

  /** `_generate_recommendations`: never empty, "appears normal" only when there is nothing else to say. */
  function Recommendations(techniques: seq<string>, level: Risk, trust: real): (r: seq<Advice>)
    ensures |r| > 0
  {
    var advice := Advise(techniques, level, trust);
    if advice == [] then [Normal] else advice
  }

  /**
   * The "appears normal" advice is given, alone, exactly when the level is none or low, no
   * authority, secrecy or urgency technique was found, and the trust is at least 0.3.
   */
  lemma RecommendationsNormal(techniques: seq<string>, level: Risk, trust: real)
    ensures var r := Recommendations(techniques, level, trust);
      (Normal in r <==> r == [Normal])
      && (r == [Normal] <==>
          (&& level != High && level != Medium
           && "authority_claim" !in techniques && "secrecy_request" !in techniques
           && "urgency_pressure" !in techniques && trust >= 0.3))
  {
  }

  /** A high level always advises extreme caution first; an authority claim always asks for verification. */
  lemma RecommendationsForRisk(techniques: seq<string>, level: Risk, trust: real)
    ensures level == High ==> Recommendations(techniques, level, trust)[..3] == [ExtremeCaution, ShareNothing, ConsiderIgnoring]
    ensures "authority_claim" in techniques ==> VerifyAuthority in Recommendations(techniques, level, trust)
  {
  }

  /** The flags merged with `added`, without repeats, kept in first-seen order (the source's set has no order). */
  function AddFlags(flags: seq<string>, added: seq<string>): (r: seq<string>)
    ensures forall f :: f in r <==> f in flags || f in added
    ensures forall i, j :: 0 <= i < j < |r| ==> r[i] != r[j]
  {
    Dedup(flags + added)
  }

  /** The trust after a positive interaction at `now`: up 0.02, capped at 1.0. */
  function Rewarded(t: Trust, now: real): (u: Trust)
    ensures u.interactions == t.interactions + 1 && u.positive == t.positive + 1 && u.negative == t.negative
    ensures u.score <= 1.0 && (t.score <= 1.0 ==> t.score <= u.score)
    ensures u.agentName == t.agentName && u.flags == t.flags
  {
    t.(interactions := t.interactions + 1, positive := t.positive + 1,
       score := if 1.0 <= t.score + 0.02 then 1.0 else t.score + 0.02, lastInteraction := now)
  }

  /** The trust after a negative interaction at `now`: down 0.1, floored at 0.0. */
  function Penalized(t: Trust, now: real): (u: Trust)
    ensures u.interactions == t.interactions + 1 && u.negative == t.negative + 1 && u.positive == t.positive
    ensures u.score >= 0.0 && (t.score >= 0.0 ==> u.score <= t.score)
    ensures u.agentName == t.agentName && u.flags == t.flags
  {
    t.(interactions := t.interactions + 1, negative := t.negative + 1,
       score := if 0.0 >= t.score - 0.1 then 0.0 else t.score - 0.1, lastInteraction := now)
  }

  function RewardedTimes(t: Trust, now: real, n: nat): Trust {
    if n == 0 then t else Rewarded(RewardedTimes(t, now, n - 1), now)
  }

  /** `n` positive interactions add 0.02 each, up to the cap. */
  lemma {:induction false} RewardedTimesScore(t: Trust, now: real, n: nat)
    requires t.score <= 1.0
    ensures var u := RewardedTimes(t, now, n);
      && u.score == (if 1.0 <= t.score + 0.02 * n as real then 1.0 else t.score + 0.02 * n as real)
      && u.interactions == t.interactions + n && u.positive == t.positive + n
  {
    if n > 0 {
      RewardedTimesScore(t, now, n - 1);
    }
  }

  /**
   * One negative interaction takes five positive ones to undo, when no bound is hit, in exact
   * arithmetic (the program's doubles can land one rounding step away).
   */
  lemma FiveToRecover(t: Trust, now: real)
    requires 0.1 <= t.score <= 1.0
    ensures RewardedTimes(Penalized(t, now), now, 5).score == t.score
  {
    RewardedTimesScore(Penalized(t, now), now, 5);
  }

  /** `flag_agent`: the reason added and the score down 0.2, floored at 0.0. */
  function Flagged(t: Trust, reason: string): (u: Trust)
    ensures u.score >= 0.0 && (t.score >= 0.0 ==> u.score <= t.score)
    ensures u.flags == t.flags + [reason]
  {
    t.(flags := t.flags + [reason], score := if 0.0 >= t.score - 0.2 then 0.0 else t.score - 0.2)
  }

  /** `block_agent`: the score set to 0.0 and a "BLOCKED: reason" flag added. */
  function Blocked(t: Trust, reason: string): (u: Trust)
    ensures u.score == 0.0 && u.flags == t.flags + ["BLOCKED: " + reason]
  {
    t.(score := 0.0, flags := t.flags + ["BLOCKED: " + reason])
  }

  /**
   * `trust.score == 0.0 or "BLOCKED" in str(trust.flags)`: the list's text shows "BLOCKED"
   * exactly when one of its flags contains it.
   */
  predicate IsBlocked(t: Trust) {
    t.score == 0.0 || exists i :: 0 <= i < |t.flags| && Contains(t.flags[i], "BLOCKED")
  }

  /** A blocked agent is listed as blocked. */
  lemma BlockedIsBlocked(t: Trust, reason: string)
    ensures IsBlocked(Blocked(t, reason))
  {
  }

  /** The names of `names` whose trust marks them blocked, in order. */
  function BlockedNames(names: seq<string>, scores: map<string, Trust>): (r: seq<string>)
    requires forall n :: n in names ==> n in scores
    ensures forall n :: n in r <==> n in names && IsBlocked(scores[n])
  {
    if |names| == 0 then []
    else (if IsBlocked(scores[names[0]]) then [names[0]] else []) + BlockedNames(names[1..], scores)
  }

  /** The per-author history after recording `entry`: the last 100 messages. */
  function Remember(history: seq<Entry>, entry: Entry): (r: seq<Entry>)
    ensures |r| <= MAX_HISTORY || |r| == |history| + 1
    ensures |history| < MAX_HISTORY ==> r == history + [entry]
    ensures |r| > 0 && r[|r| - 1] == entry
    ensures forall h :: h in r ==> h in history || h == entry
  {
    var all := history + [entry];
    if |all| > MAX_HISTORY then all[|all| - MAX_HISTORY..] else all
  }

  /** The invariant every trust record keeps. */
  predicate TrustValid(name: string, t: Trust, defaultTrust: real) {
    && t.agentName == name
    && t.positive + t.negative == t.interactions
    && (0.0 <= defaultTrust <= 1.0 ==> 0.0 <= t.score <= 1.0)
  }

  /** The invariant every history keeps: at most 100 messages, each cut to 200 characters, without response. */
  predicate HistoryValid(history: seq<Entry>) {
    |history| <= MAX_HISTORY
    && forall h :: h in history ==> |h.content| <= HISTORY_CONTENT && h.response == ""
  }

  /** Each positive or negative interaction, flag and block keeps a record valid. */
  lemma UpdatesKeepTrustValid(name: string, t: Trust, defaultTrust: real, now: real, reason: string)
    requires TrustValid(name, t, defaultTrust)
    ensures TrustValid(name, Rewarded(t, now), defaultTrust)
    ensures TrustValid(name, Penalized(t, now), defaultTrust)
    ensures TrustValid(name, Flagged(t, reason), defaultTrust)
    ensures TrustValid(name, Blocked(t, reason), defaultTrust)
  {
  }

  /** Every agent is listed once in `order`, and every record keeps its invariant. */
  ghost predicate RecordsValid(scores: map<string, Trust>, order: seq<string>, defaultTrust: real) {
    && (forall n :: n in scores <==> n in order)
    && (forall i, j :: 0 <= i < j < |order| ==> order[i] != order[j])
    && (forall n :: n in scores ==> TrustValid(n, scores[n], defaultTrust))
  }

  ghost predicate HistoriesValid(history: map<string, seq<Entry>>) {
    forall a :: a in history ==> HistoryValid(history[a])
  }

  /** Replacing a known agent's record by a valid one keeps the records valid. */
  lemma RecordsUpdate(scores: map<string, Trust>, order: seq<string>, defaultTrust: real, name: string, u: Trust)
    requires RecordsValid(scores, order, defaultTrust) && name in scores
    requires TrustValid(name, u, defaultTrust)
    ensures RecordsValid(scores[name := u], order, defaultTrust)
  {
  }

  /** Adding a new agent's valid record keeps the records valid. */
  lemma RecordsAdd(scores: map<string, Trust>, order: seq<string>, defaultTrust: real, name: string, u: Trust)
    requires RecordsValid(scores, order, defaultTrust) && name !in scores
    requires TrustValid(name, u, defaultTrust)
    ensures RecordsValid(scores[name := u], order + [name], defaultTrust)
  {
  }

  /** The record `get_trust_score(name)` returns at `now`: the known one, or a fresh one at the default trust. */
  function Known(scores: map<string, Trust>, name: string, defaultTrust: real, now: real): (t: Trust)
    ensures name in scores ==> t == scores[name]
    ensures name !in scores ==> t.score == defaultTrust && t.interactions == 0 && t.flags == []
  {
    if name in scores then scores[name] else Trust(name, defaultTrust, 0, 0, 0, [], now, now)
  }

  /** The author's remembered messages (none for an unknown author). */
  function Past(history: map<string, seq<Entry>>, author: string): seq<Entry> {
    if author in history then history[author] else []
  }

  /** What `_record_interaction_internal` remembers of a message: at most its first 200 characters, and no response. */
  function Memo(content: string, techniques: seq<string>, now: real): (h: Entry)
    ensures |h.content| <= HISTORY_CONTENT && |h.content| <= |content| && h.content == content[..|h.content|]
    ensures h.response == "" && h.techniques == techniques
  {
    Entry(now, Take(content, HISTORY_CONTENT), techniques, "")
  }

  /**
   * The record after `record_interaction(author, was_positive, flags)` at `now`: one more
   * interaction, counted as positive or negative, and the flags merged without repeats.
   */
  function Interacted(t: Trust, wasPositive: bool, flags: seq<string>, now: real): (u: Trust)
    ensures u.interactions == t.interactions + 1
    ensures wasPositive ==> u.positive == t.positive + 1 && u.negative == t.negative
    ensures !wasPositive ==> u.negative == t.negative + 1 && u.positive == t.positive
    ensures flags == [] ==> u.flags == t.flags
    ensures flags != [] ==> (forall f :: f in u.flags <==> f in t.flags || f in flags)
    ensures flags != [] ==> forall i, j :: 0 <= i < j < |u.flags| ==> u.flags[i] != u.flags[j]
    ensures u.agentName == t.agentName
    ensures 0.0 <= t.score <= 1.0 ==> 0.0 <= u.score <= 1.0
  {
    var v := if wasPositive then Rewarded(t, now) else Penalized(t, now);
    if flags == [] then v else v.(flags := AddFlags(v.flags, flags))
  }

  /**
   * `analyze_interaction` on a message from an author of trust `trust` with remembered messages
   * `past`: the techniques of `table` used, in table order and each once, then the behavioural
   * flags; the verdict weighs the worst finding by the trust.
   */
  function Analysis(e: Engine, table: seq<Technique>, trust: real, past: seq<Entry>, content: string, now: real)
    : (r: Manipulation)
    ensures var ix := Detected(e, table, content);
      && |r.techniques| == |ix| + |Behavior(past, now)|
      && r.techniques[..|ix|] == NamesOf(table, ix)
      && r.techniques[|ix|..] == Behavior(past, now)
    ensures (r.riskLevel == NoRisk) <==> r.techniques == []
    ensures r.isManipulation <==> (r.riskLevel == High || r.riskLevel == Medium || (r.riskLevel == Low && |r.techniques| > 1))
    ensures r.recommendations == Recommendations(r.techniques, r.riskLevel, trust) && r.trustScore == trust
  {
    var ix := Detected(e, table, content);
    var flags := Behavior(past, now);
    var techniques := NamesOf(table, ix) + flags;
    var weights := WeightsOf(table, ix) + seq(|flags|, _ => BEHAVIOR_WEIGHT);
    var verdict := Verdict(weights, |techniques|, trust);
    Manipulation(verdict.1, verdict.0, techniques, Recommendations(techniques, verdict.0, trust), trust)
  }

  /** "persistence" is never among the findings of an analysis over a history the defense recorded. */
  lemma AnalysisWithoutPersistence(e: Engine, table: seq<Technique>, trust: real, past: seq<Entry>, content: string, now: real)
    requires forall h :: h in past ==> h.response == ""
    ensures var r := Analysis(e, table, trust, past, content, now);
      "persistence" !in r.techniques[|Detected(e, table, content)|..]
  {
    PersistenceNeverRaised(past, now);
  }

  /** `get_stats()` */
  datatype Stats = Stats(tracked: nat, blocked: nat, lowTrust: nat, highTrust: nat, totalFlags: nat)

  function CountWhere(names: seq<string>, scores: map<string, Trust>, low: bool): (k: nat)
    requires forall n :: n in names ==> n in scores
    ensures k <= |names|
  {
    if |names| == 0 then 0
    else
      var s := scores[names[0]].score;
      (if (low && s < 0.3) || (!low && s > 0.7) then 1 else 0) + CountWhere(names[1..], scores, low)
  }

  function TotalFlags(names: seq<string>, scores: map<string, Trust>): nat
    requires forall n :: n in names ==> n in scores
  {
    if |names| == 0 then 0 else |scores[names[0]].flags| + TotalFlags(names[1..], scores)
  }

  /** The defense: the trust records, in the order the agents were first seen, and the message history. */
  class Defense {
    const defaultTrust: real
    /** The compiled technique table (`_compile_patterns`). */
    const techniques: seq<Technique>
    var scores: map<string, Trust>
    var order: seq<string>
    var history: map<string, seq<Entry>>

    ghost predicate Valid()
      reads this
    {
      RecordsValid(scores, order, defaultTrust) && HistoriesValid(history)
    }

    /** `SocialEngineeringDefense(default_trust=0.5)`, with nothing loaded. */
    constructor (defaultTrust: real)
      ensures Valid()
      ensures this.defaultTrust == defaultTrust && techniques == TECHNIQUES
      ensures scores == map[] && order == [] && history == map[]
    {
      this.defaultTrust := defaultTrust;
      techniques := TECHNIQUES;
      scores := map[];
      order := [];
      history := map[];
    }

    /**
     * `get_trust_score(agent_name)` at `now`: a known agent's record unchanged, or a new one
     * at the default trust with no interactions.
     */
    method GetTrustScore(name: string, now: real) returns (t: Trust)
      requires Valid()
      modifies this
      ensures Valid()
      ensures t == Known(old(scores), name, defaultTrust, now)
      ensures name in old(scores) ==> scores == old(scores) && order == old(order)
      ensures name !in old(scores) ==> scores == old(scores)[name := t] && order == old(order) + [name]
      ensures history == old(history)
    {
      if name in scores {
        return scores[name];
      }
      t := Trust(name, defaultTrust, 0, 0, 0, [], now, now);
      RecordsAdd(scores, order, defaultTrust, name, t);
      scores := scores[name := t];
      order := order + [name];
    }

    /** `_record_interaction_internal(author, content, techniques)` at `now`. */
    method RecordInternal(author: string, content: string, techniques: seq<string>, now: real)
      requires Valid()
      modifies this
      ensures Valid()
      ensures history == old(history)[author := Remember(Past(old(history), author), Memo(content, techniques, now))]
      ensures scores == old(scores) && order == old(order)
    {
      history := history[author := Remember(Past(history, author), Memo(content, techniques, now))];
    }

    /**
     * `analyze_interaction(author, content)` at `now`: the analysis of `Analysis` under the
     * author's trust, after which the message and its findings are recorded.
     */
    method AnalyzeInteraction(e: Engine, author: string, content: string, now: real) returns (r: Manipulation)
      requires Valid()
      modifies this
      ensures Valid()
      ensures r == Analysis(e, techniques, Known(old(scores), author, defaultTrust, now).score, Past(old(history), author), content, now)
      ensures history == old(history)[author := Remember(Past(old(history), author), Memo(content, r.techniques, now))]
      ensures scores == old(scores)[author := Known(old(scores), author, defaultTrust, now)]
      ensures order == (if author in old(scores) then old(order) else old(order) + [author])
    {
      var t := GetTrustScore(author, now);
      r := Analysis(e, techniques, t.score, Past(history, author), content, now);
      RecordInternal(author, content, r.techniques, now);
    }

    /**
     * `record_interaction(author, was_positive, flags)` at `now`: one more interaction, positive
     * or negative, and the new flags merged without repeats.
     */
    method RecordInteraction(author: string, wasPositive: bool, flags: seq<string>, now: real)
      requires Valid()
      modifies this
      ensures Valid()
      ensures scores == old(scores)[author := Interacted(Known(old(scores), author, defaultTrust, now), wasPositive, flags, now)]
      ensures order == (if author in old(scores) then old(order) else old(order) + [author])
      ensures history == old(history)
    {
      var t := GetTrustScore(author, now);
      var u := Interacted(t, wasPositive, flags, now);
      RecordsUpdate(scores, order, defaultTrust, author, u);
      scores := scores[author := u];
    }

    /** `flag_agent(agent_name, reason)` */
    method FlagAgent(name: string, reason: string, now: real)
      requires Valid()
      modifies this
      ensures Valid()
      ensures scores == old(scores)[name := Flagged(Known(old(scores), name, defaultTrust, now), reason)]
      ensures order == (if name in old(scores) then old(order) else old(order) + [name])
      ensures history == old(history)
    {
      var t := GetTrustScore(name, now);
      UpdatesKeepTrustValid(name, t, defaultTrust, now, reason);
      RecordsUpdate(scores, order, defaultTrust, name, Flagged(t, reason));
      scores := scores[name := Flagged(t, reason)];
    }

    /** `block_agent(agent_name, reason)`: afterwards the agent is listed as blocked. */
    method BlockAgent(name: string, reason: string, now: real)
      requires Valid()
      modifies this
      ensures Valid()
      ensures scores == old(scores)[name := Blocked(Known(old(scores), name, defaultTrust, now), reason)]
      ensures order == (if name in old(scores) then old(order) else old(order) + [name])
      ensures IsBlocked(scores[name])
      ensures history == old(history)
    {
      var t := GetTrustScore(name, now);
      UpdatesKeepTrustValid(name, t, defaultTrust, now, reason);
      RecordsUpdate(scores, order, defaultTrust, name, Blocked(t, reason));
      scores := scores[name := Blocked(t, reason)];
      BlockedIsBlocked(t, reason);
    }

    /** `get_blocked_agents()`: the agents with no trust left or a "BLOCKED" flag, in the order first seen. */
    method GetBlockedAgents() returns (r: seq<string>)
      requires Valid()
      ensures r == BlockedNames(order, scores)
      ensures forall n :: n in r <==> n in scores && IsBlocked(scores[n])
    {
      r := BlockedNames(order, scores);
    }

    /** `get_stats()` */
    method GetStats() returns (s: Stats)
      requires Valid()
      ensures s == Stats(|scores|, |BlockedNames(order, scores)|, CountWhere(order, scores, true),
                         CountWhere(order, scores, false), TotalFlags(order, scores))
    {
      s := Stats(|scores|, |BlockedNames(order, scores)|, CountWhere(order, scores, true),
                 CountWhere(order, scores, false), TotalFlags(order, scores));
    }
  }
}
