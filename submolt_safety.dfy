/**
 * Submolt safety (`SubmoltSafety`): a risk profile per submolt (a Moltbook community), created
 * on first sight from the submolt's name, raised by recorded attacks, lowered by safe
 * interactions, pinned at 1.0 by blocking; a check turns a profile's risk into a level and a
 * verdict. Times are seconds since the epoch, passed in as `now`.
 */
module SubmoltSafety {
  import opened Wrappers
  import opened Strings
  import opened Regex
  import opened Scoring

  /** The core Moltbook submolts, which start at a risk of 0.1. */
  const KNOWN_SAFE: set<string> := {"general", "ai_discussion", "announcements", "help", "introductions"}

  /** Name patterns of submolts that tend to be unmoderated or hostile (searched ignoring case). */
  const RISKY_PATTERNS: seq<string> := [
    "test", "hack", "exploit", "jailbreak", "uncensored", "nofilter", "anonymous", "temp",
    "throwaway", @"\d{6,}"
  ]

  /** Topics that attract attackers, searched for as substrings of the name. */
  const RISKY_TOPICS: seq<string> := ["security", "hacking", "prompt_injection", "ai_safety", "red_team"]

  const KNOWN_SAFE_RISK := 0.1
  const PATTERN_BONUS := 0.2
  const TOPIC_BONUS := 0.1
  const SAFE_STEP := 0.01
  const MAX_FLAGS := 10
  const DAY := 86400.0

  /** `SubmoltProfile`; `firstSeen` and `lastUpdated` are times rather than ISO strings. */
  datatype Profile = Profile(
    name: string, firstSeen: real, riskScore: real, attackCount: nat,
    safeInteractions: nat, flags: seq<string>, lastUpdated: real)

  /** What `check_submolt` warns about; `Text` gives the message. */
  datatype Warning = WasBlocked | NewSubmolt(ageDays: int) | HighAttackRate(attacks: nat) | Flagged(flags: seq<string>)

  /** `SubmoltCheckResult` */
  datatype CheckResult = CheckResult(
    isSafe: bool, riskLevel: Risk, submolt: string, profile: Option<Profile>,
    warnings: seq<Warning>, recommendation: string)

  function Text(w: Warning): string {
    match w
    case WasBlocked => "This submolt has been blocked"
    case NewSubmolt(d) => "New submolt (only " + IntToString(d) + " days old)"
    case HighAttackRate(a) => "High attack rate: " + NatToString(a) + " attacks"
    case Flagged(fs) => "Flagged: " + Join(", ", fs)
  }

  function Min(a: real, b: real): real { if a <= b then a else b }

  function Max(a: real, b: real): real { if a >= b then a else b }

  /** A lowered string is one whose every character is its own lower case. */
  lemma LoweredByChars(s: string, t: string)
    requires IsLowered(s)
    requires forall c :: c in t ==> c in s
    ensures IsLowered(t)
  {
    forall i | 0 <= i < |t|
      ensures LowerChar(t[i]) == t[i]
    {
      assert t[i] in s;
      var j :| 0 <= j < |s| && s[j] == t[i];
    }
  }

  /** `_normalize_name(submolt)`: lower case, every "m/" deleted, whitespace stripped. */
  function NormalizeName(submolt: string): string {
    StripRight(StripLeft(ReplaceAll(Lower(submolt), "m/", "")))
  }

  /** A normalized name is lowered and has no whitespace at either end. */
  lemma NormalizeNameShape(submolt: string)
    ensures IsLowered(NormalizeName(submolt))
    ensures var r := NormalizeName(submolt); r == [] || (!IsSpace(r[0]) && !IsSpace(r[|r| - 1]))
  {
    var lowered := Lower(submolt);
    var deleted := ReplaceAll(lowered, "m/", "");
    LowerIsLowered(submolt);
    ReplaceAllChars(lowered, "m/", "");
    LoweredByChars(lowered, deleted);
    StripKeepsLowered(deleted);
  }

  /** Stripping keeps a string lowered and leaves no whitespace at either end. */
  lemma StripKeepsLowered(s: string)
    requires IsLowered(s)
    ensures var r := StripRight(StripLeft(s));
      IsLowered(r) && (r == [] || (!IsSpace(r[0]) && !IsSpace(r[|r| - 1])))
  {
    var left := StripLeft(s);
    var r := StripRight(left);
    assert forall c :: c in left ==> c in s;
    LoweredByChars(s, left);
    assert forall c :: c in r ==> c in left;
    LoweredByChars(left, r);
    assert r != [] ==> r[0] == left[0];
  }

  /** A name already lowered, free of "m/" and stripped is its own normal form. */
  lemma NormalizeNameFixed(name: string)
    requires IsLowered(name) && !Contains(name, "m/")
    requires name == [] || (!IsSpace(name[0]) && !IsSpace(name[|name| - 1]))
    ensures NormalizeName(name) == name
  {
    LoweredFixed(name);
    ReplaceAllAbsent(name, "m/", "");
  }

  /**
   * Deleting "m/" in one pass can create a new "m/": normalizing is not idempotent, and
   * `check_submolt` and `block_submolt`, which normalize a name and then look its profile up
   * by normalizing again, file "mm//" under the blocked name "m/" but the profile "".
   */
  lemma NormalizeNameNotIdempotent()
    ensures NormalizeName("mm//") == "m/"
    ensures NormalizeName(NormalizeName("mm//")) == ""
  {
    NormalizeOnce();
    NormalizeTwice();
  }

  /** The first normalization of "mm//" deletes the inner "m/" and leaves "m/". */
  lemma NormalizeOnce()
    ensures NormalizeName("mm//") == "m/"
  {
    var s: string := ['m', 'm', '/', '/'];
    var t: string := ['m', '/'];
    assert Lower(s) == s;
    assert s[..2][1] != t[1];
    assert s[1..] == t + ['/'];
    assert StartsWith(s[1..], t);
    assert s[1..][2..] == ['/'];
    assert ReplaceAll(['/'], t, "") == ['/'];
    assert ReplaceAll(s, t, "") == t;
    StripFixed(t);
  }

  /** Normalizing "m/" deletes all of it. */
  lemma NormalizeTwice()
    ensures NormalizeName("m/") == ""
  {
    var t: string := ['m', '/'];
    assert Lower(t) == t;
    assert ReplaceAll(t, t, "") == "";
  }

  /** `s` with "m/" deleted again and again until none is left. */
  function DeleteMarkers(s: string): (r: string)
    ensures !Contains(r, "m/")
    ensures forall c :: c in r ==> c in s
    decreases |s|
  {
    if Contains(s, "m/") then
      DeleteShortens(s, "m/");
      ReplaceAllChars(s, "m/", "");
      DeleteMarkers(ReplaceAll(s, "m/", ""))
    else s
  }

  /**
   * The normalization `_normalize_name` evidently intends: a name with any "m/" prefix taken off,
   * lowered and stripped, such that normalizing a normalized name changes nothing. Deleting
   * "m/" until none is left gives that.
   */
  function NormalizeNameIntended(submolt: string): string {
    StripRight(StripLeft(DeleteMarkers(Lower(submolt))))
  }

  /** The intended normalization is idempotent, so normalizing twice files a name once. */
  lemma NormalizeNameIntendedIdempotent(submolt: string)
    ensures NormalizeNameIntended(NormalizeNameIntended(submolt)) == NormalizeNameIntended(submolt)
  {
    var r := NormalizeNameIntended(submolt);
    NormalizeNameIntendedShape(submolt);
    LoweredFixed(r);
    assert DeleteMarkers(Lower(r)) == r;
    StripFixed(r);
  }

  /** An intended normal form is lowered, free of "m/" and stripped. */
  lemma NormalizeNameIntendedShape(submolt: string)
    ensures var r := NormalizeNameIntended(submolt);
      IsLowered(r) && !Contains(r, "m/") && (r == [] || (!IsSpace(r[0]) && !IsSpace(r[|r| - 1])))
  {
    var lowered := Lower(submolt);
    var deleted := DeleteMarkers(lowered);
    LowerIsLowered(submolt);
    LoweredByChars(lowered, deleted);
    StripKeepsLowered(deleted);
    StripKeepsOut(deleted, "m/");
  }

  /** Stripping cannot create an occurrence. */
  lemma StripKeepsOut(s: string, p: string)
    requires !Contains(s, p)
    ensures !Contains(StripRight(StripLeft(s)), p)
  {
    var left := StripLeft(s);
    var r := StripRight(left);
    if Contains(r, p) {
      assert left[0..|r|] == r;
      ContainsInSlice(left, 0, |r|, p);
      assert s[|s| - |left|..|s|] == left;
      ContainsInSlice(s, |s| - |left|, |s|, p);
    }
  }

  /** The intended normalization files "mm//" under the one name "" whether applied once or twice. */
  lemma NormalizeNameIntendedOfDoubleMarker()
    ensures NormalizeNameIntended("mm//") == ""
    ensures NormalizeNameIntended(NormalizeNameIntended("mm//")) == ""
  {
    var s: string := ['m', 'm', '/', '/'];
    var t: string := ['m', '/'];
    assert Lower(s) == s;
    DeleteOnce(s, t);
    DeleteMarkersOfMarker(t);
    assert DeleteMarkers(s) == "";
    NormalizeNameIntendedIdempotent("mm//");
  }

  lemma DeleteOnce(s: string, t: string)
    requires s == ['m', 'm', '/', '/'] && t == ['m', '/']
    ensures Contains(s, "m/") && ReplaceAll(s, "m/", "") == t
  {
    assert s[..2][1] != t[1];
    assert s[1..] == t + ['/'];
    assert StartsWith(s[1..], t);
    assert s[1..][2..] == ['/'];
    assert ReplaceAll(['/'], t, "") == ['/'];
    assert ReplaceAll(s, t, "") == t;
    assert OccursAt(s, t, 1);
    OccursAtContains(s, t, 1);
  }

  lemma DeleteMarkersOfMarker(t: string)
    requires t == ['m', '/']
    ensures DeleteMarkers(t) == ""
  {
    assert StartsWith(t, "m/");
    assert ReplaceAll(t, "m/", "") == "";
    assert DeleteMarkers("") == "";
  }

  /** A string whose ends are not whitespace is its own strip. */
  lemma StripFixed(s: string)
    requires s == [] || (!IsSpace(s[0]) && !IsSpace(s[|s| - 1]))
    ensures StripRight(StripLeft(s)) == s
  {
  }

  /** 0.2 when some risky name pattern matches, else 0. */
  function PatternBonus(e: Engine, name: string): (b: real)
    ensures b == PATTERN_BONUS <==> exists i :: 0 <= i < |RISKY_PATTERNS| && Search(e, I(RISKY_PATTERNS[i]), name)
    ensures b == 0.0 || b == PATTERN_BONUS
  {
    if FirstPattern(e, RISKY_PATTERNS, name) < |RISKY_PATTERNS| then PATTERN_BONUS else 0.0
  }

  /** The index of the first pattern of `ps` found in `name` (ignoring case), or `|ps|`. */
  function FirstPattern(e: Engine, ps: seq<string>, name: string): (i: nat)
    ensures i <= |ps|
    ensures i < |ps| ==> Search(e, I(ps[i]), name)
    ensures forall j :: 0 <= j < i ==> !Search(e, I(ps[j]), name)
  {
    if |ps| == 0 then 0
    else if Search(e, I(ps[0]), name) then 0
    else 1 + FirstPattern(e, ps[1..], name)
  }

  /** 0.1 when some risky topic occurs in the name, else 0. */
  function TopicBonus(name: string): (b: real)
    ensures b == TOPIC_BONUS <==> exists i :: 0 <= i < |RISKY_TOPICS| && Contains(name, RISKY_TOPICS[i])
    ensures b == 0.0 || b == TOPIC_BONUS
  {
    if exists i :: 0 <= i < |RISKY_TOPICS| && Contains(name, RISKY_TOPICS[i]) then TOPIC_BONUS else 0.0
  }

  /**
   * The initial risk of a new profile: 0.1 for a known-safe name; otherwise the base risk,
   * plus 0.2 for a risky name pattern and 0.1 for a risky topic (each counted once), capped at 1.0.
   */
  function InitialRisk(e: Engine, newSubmoltRisk: real, name: string): (r: real)
    ensures r <= 1.0
    ensures newSubmoltRisk >= 0.0 ==> r >= 0.0
  {
    if name in KNOWN_SAFE then KNOWN_SAFE_RISK
    else Min(newSubmoltRisk + PatternBonus(e, name) + TopicBonus(name), 1.0)
  }

  /**
   * A known-safe name starts at 0.1; any other starts at the base risk plus the bonuses it
   * earns, each at most once, capped at 1.0.
   */
  lemma InitialRiskMeaning(e: Engine, newSubmoltRisk: real, name: string)
    ensures name in KNOWN_SAFE ==> InitialRisk(e, newSubmoltRisk, name) == KNOWN_SAFE_RISK
    ensures name !in KNOWN_SAFE ==>
      InitialRisk(e, newSubmoltRisk, name) == Min(newSubmoltRisk + PatternBonus(e, name) + TopicBonus(name), 1.0)
  {
  }

  /** An unknown name's initial risk lies between the base risk and the base risk plus 0.3, within the cap. */
  lemma InitialRiskBounds(e: Engine, newSubmoltRisk: real, name: string)
    requires name !in KNOWN_SAFE
    ensures Min(newSubmoltRisk, 1.0) <= InitialRisk(e, newSubmoltRisk, name) <= Min(newSubmoltRisk + 0.3, 1.0)
  {
  }

  /** A fresh profile first seen at `now`: no attacks, no safe interactions, no flags. */
  function NewProfile(e: Engine, newSubmoltRisk: real, name: string, now: real): (p: Profile)
    ensures p.name == name && p.firstSeen == now && p.lastUpdated == now
    ensures p.riskScore == InitialRisk(e, newSubmoltRisk, name)
    ensures p.attackCount == 0 && p.safeInteractions == 0 && p.flags == []
  {
    Profile(name, now, InitialRisk(e, newSubmoltRisk, name), 0, 0, [], now)
  }

  /** A new profile's risk is in bounds when a non-negative base risk is asked for. */
  lemma NewProfileInBounds(e: Engine, newSubmoltRisk: real, name: string, now: real, nonNegative: bool)
    requires nonNegative ==> newSubmoltRisk >= 0.0
    ensures InBounds(NewProfile(e, newSubmoltRisk, name, now).riskScore, nonNegative)
  {
  }

  function Recommendation(l: Risk): string {
    match l
    case High | Critical => "Avoid this submolt"
    case Medium => "Exercise caution in this submolt"
    case Low => "Generally safe with monitoring"
    case NoRisk => "Safe to engage"
  }

  /** Whole days since `firstSeen`, as `timedelta.days` (rounded down). */
  function AgeDays(p: Profile, now: real): int {
    ((now - p.firstSeen) / DAY).Floor
  }

  /** More attacks than 0.3 per safe interaction (at least one interaction counted). */
  predicate HighRate(p: Profile) {
    p.attackCount > 0 && p.attackCount as real / Max(p.safeInteractions as real, 1.0) > 0.3
  }

  /** The warnings of `check_submolt` for an unblocked profile, in order: age, attack rate, flags. */
  function Warnings(p: Profile, now: real): (ws: seq<Warning>)
    ensures |ws| <= 3
    ensures (exists d :: NewSubmolt(d) in ws) <==> AgeDays(p, now) < 7
    ensures HighAttackRate(p.attackCount) in ws <==> HighRate(p)
    ensures Flagged(p.flags) in ws <==> p.flags != []
    ensures WasBlocked !in ws
  {
    (if AgeDays(p, now) < 7 then [NewSubmolt(AgeDays(p, now))] else [])
    + (if HighRate(p) then [HighAttackRate(p.attackCount)] else [])
    + (if p.flags != [] then [Flagged(p.flags)] else [])
  }

  /**
   * The verdict of `check_submolt` on an unblocked submolt's profile: safe exactly when the
   * risk is below 0.4, that is when the level is "none" or "low".
   */
  function Assess(name: string, p: Profile, now: real): (r: CheckResult)
    ensures r.isSafe <==> p.riskScore < 0.4
    ensures r.isSafe <==> Score(r.riskLevel) <= 1
    ensures r.riskLevel == Banded(p.riskScore)
    ensures r.submolt == name && r.profile == Some(p) && r.warnings == Warnings(p, now)
  {
    var level := Banded(p.riskScore);
    CheckResult(Score(level) <= 1, level, name, Some(p), Warnings(p, now), Recommendation(level))
  }

  /** The verdict on a blocked submolt, which carries its profile only if one exists. */
  function BlockedResult(name: string, profiles: map<string, Profile>): (r: CheckResult)
    ensures !r.isSafe && r.riskLevel == High && r.warnings == [WasBlocked]
    ensures r.profile.Some? <==> name in profiles
  {
    CheckResult(false, High, name, if name in profiles then Some(profiles[name]) else None,
                [WasBlocked], "Do not engage with this submolt")
  }

  /** A profile whose risk has been pinned at 1.0 is always assessed high and unsafe. */
  lemma PinnedIsHigh(name: string, p: Profile, now: real)
    requires p.riskScore == 1.0
    ensures Assess(name, p, now).riskLevel == High && !Assess(name, p, now).isSafe
  {
  }

  /** A known-safe submolt starts at level "none"; an unknown plain name at the default 0.3 starts "low". */
  lemma FreshProfileLevels(e: Engine, name: string, now: real)
    ensures name in KNOWN_SAFE ==> Assess(name, NewProfile(e, 0.3, name, now), now).riskLevel == NoRisk
    ensures name !in KNOWN_SAFE && PatternBonus(e, name) == 0.0 && TopicBonus(name) == 0.0 ==>
      Assess(name, NewProfile(e, 0.3, name, now), now).riskLevel == Low
    ensures name !in KNOWN_SAFE && PatternBonus(e, name) == PATTERN_BONUS && TopicBonus(name) == TOPIC_BONUS ==>
      Assess(name, NewProfile(e, 0.3, name, now), now).riskLevel == Medium
  {
  }

  /** `flags[-10:]`: the ten latest flags. */
  function LastFlags(flags: seq<string>): (r: seq<string>)
    ensures |r| == (if |flags| <= MAX_FLAGS then |flags| else MAX_FLAGS)
    ensures r == flags[|flags| - |r|..]
  {
    if |flags| <= MAX_FLAGS then flags else flags[|flags| - MAX_FLAGS..]
  }

  /** The flag `record_attack` adds. */
  function AttackFlag(attackType: string): string {
    "attack:" + attackType
  }

  /** The profile after `record_attack(submolt, attack_type)` at `now`. */
  function Attacked(p: Profile, increment: real, attackType: string, now: real): (q: Profile)
    ensures q.name == p.name && q.firstSeen == p.firstSeen && q.safeInteractions == p.safeInteractions
    ensures q.attackCount == p.attackCount + 1 && q.lastUpdated == now
    ensures q.riskScore <= 1.0
    ensures increment >= 0.0 && p.riskScore <= 1.0 ==> p.riskScore <= q.riskScore
    ensures q.flags == LastFlags(p.flags + [AttackFlag(attackType)])
  {
    p.(attackCount := p.attackCount + 1, riskScore := Min(p.riskScore + increment, 1.0),
       flags := LastFlags(p.flags + [AttackFlag(attackType)]), lastUpdated := now)
  }

  /** After an attack the profile holds at most ten flags: the new one last, after the latest older ones. */
  lemma AttackedFlags(p: Profile, increment: real, attackType: string, now: real)
    ensures var q := Attacked(p, increment, attackType, now);
      && |q.flags| <= MAX_FLAGS && |q.flags| <= |p.flags| + 1
      && q.flags[|q.flags| - 1] == AttackFlag(attackType)
      && q.flags[..|q.flags| - 1] == p.flags[|p.flags| + 1 - |q.flags|..]
  {
    var q := Attacked(p, increment, attackType, now);
    var all := p.flags + [AttackFlag(attackType)];
    assert q.flags == all[|all| - |q.flags|..];
    assert q.flags[..|q.flags| - 1] == all[|all| - |q.flags|..|all| - 1];
    assert all[..|all| - 1] == p.flags;
  }

  /** `n` attacks of the same type in a row. */
  function AttackedTimes(p: Profile, increment: real, attackType: string, now: real, n: nat): Profile
  {
    if n == 0 then p else Attacked(AttackedTimes(p, increment, attackType, now, n - 1), increment, attackType, now)
  }

  /** Each attack adds the increment until the risk reaches the cap. */
  lemma {:induction false} AttackedTimesRisk(p: Profile, increment: real, attackType: string, now: real, n: nat)
    requires increment >= 0.0 && p.riskScore <= 1.0
    ensures AttackedTimes(p, increment, attackType, now, n).riskScore == Min(p.riskScore + n as real * increment, 1.0)
    ensures AttackedTimes(p, increment, attackType, now, n).attackCount == p.attackCount + n
  {
    if n > 0 {
      AttackedTimesRisk(p, increment, attackType, now, n - 1);
      assert (n - 1) as real * increment + increment == n as real * increment;
    }
  }

  /** The profile after `record_safe_interaction(submolt)` at `now`. */
  function Calmed(p: Profile, now: real): (q: Profile)
    ensures q.name == p.name && q.firstSeen == p.firstSeen && q.attackCount == p.attackCount && q.flags == p.flags
    ensures q.safeInteractions == p.safeInteractions + 1 && q.lastUpdated == now
    ensures q.riskScore >= 0.0 && q.riskScore >= p.riskScore - SAFE_STEP
    ensures q.riskScore <= Max(p.riskScore, 0.0)
  {
    p.(safeInteractions := p.safeInteractions + 1, riskScore := Max(p.riskScore - SAFE_STEP, 0.0), lastUpdated := now)
  }

  /** An attack keeps the risk in bounds when the increment is not negative wherever risks must not be. */
  lemma AttackedInBounds(p: Profile, increment: real, attackType: string, now: real, nonNegative: bool)
    requires InBounds(p.riskScore, nonNegative) && (nonNegative ==> increment >= 0.0)
    ensures InBounds(Attacked(p, increment, attackType, now).riskScore, nonNegative)
  {
  }

  /** A safe interaction keeps the risk in bounds. */
  lemma CalmedInBounds(p: Profile, now: real, nonNegative: bool)
    requires InBounds(p.riskScore, nonNegative)
    ensures InBounds(Calmed(p, now).riskScore, nonNegative)
  {
  }

  /** `n` safe interactions in a row. */
  function CalmedTimes(p: Profile, now: real, n: nat): Profile
  {
    if n == 0 then p else Calmed(CalmedTimes(p, now, n - 1), now)
  }

  /** Each safe interaction takes 0.01 off the risk, down to 0. */
  lemma {:induction false} CalmedTimesRisk(p: Profile, now: real, n: nat)
    requires p.riskScore >= 0.0
    ensures CalmedTimes(p, now, n).riskScore == Max(p.riskScore - n as real * SAFE_STEP, 0.0)
    ensures CalmedTimes(p, now, n).safeInteractions == p.safeInteractions + n
  {
    if n > 0 {
      CalmedTimesRisk(p, now, n - 1);
    }
  }

  /**
   * A blocked submolt's profile keeps its risk of 1.0 after unblocking: in exact arithmetic it
   * takes 61 safe interactions, and not 60, before a check finds it safe again (the program's
   * doubles round the sixtieth step below 0.4).
   */
  lemma UnblockedNeedsSixtyOne(p: Profile, name: string, now: real)
    requires p.riskScore == 1.0
    ensures !Assess(name, CalmedTimes(p, now, 60), now).isSafe
    ensures Assess(name, CalmedTimes(p, now, 61), now).isSafe
  {
    CalmedTimesRisk(p, now, 60);
    CalmedTimesRisk(p, now, 61);
  }

  /** The profile after `block_submolt(submolt, reason)`: risk pinned at 1.0 and a flag added. */
  function Pinned(p: Profile, reason: string): (q: Profile)
    ensures q.riskScore == 1.0 && q.flags == p.flags + ["BLOCKED: " + reason]
    ensures q.name == p.name && q.attackCount == p.attackCount && q.safeInteractions == p.safeInteractions
    ensures q.firstSeen == p.firstSeen && q.lastUpdated == p.lastUpdated
  {
    p.(riskScore := 1.0, flags := p.flags + ["BLOCKED: " + reason])
  }

  /** The profiles once `name` has one: an existing profile is kept. */
  function WithProfile(profiles: map<string, Profile>, e: Engine, newSubmoltRisk: real, name: string, now: real)
    : (r: map<string, Profile>)
    ensures name in r
  {
    if name in profiles then profiles else profiles[name := NewProfile(e, newSubmoltRisk, name, now)]
  }

  /** The insertion order once `name` has a profile. */
  function WithName(order: seq<string>, profiles: map<string, Profile>, name: string): (r: seq<string>)
    ensures name in profiles ==> r == order
    ensures name !in profiles ==> r == order + [name]
  {
    if name in profiles then order else order + [name]
  }

  /** The names of `names` whose profile's risk is at most `maxRisk` and that are not blocked, in order. */
  function SafeNames(names: seq<string>, profiles: map<string, Profile>, blocked: set<string>, maxRisk: real)
    : (r: seq<string>)
    requires forall n :: n in names ==> n in profiles
    ensures |r| <= |names|
  {
    if |names| == 0 then []
    else
      var last := names[|names| - 1];
      SafeNames(names[..|names| - 1], profiles, blocked, maxRisk)
      + (if profiles[last].riskScore <= maxRisk && last !in blocked then [last] else [])
  }

  /** `get_safe_submolts` lists exactly the unblocked names whose risk is at most the bound. */
  lemma {:induction false} SafeNamesMeaning(names: seq<string>, profiles: map<string, Profile>,
                                            blocked: set<string>, maxRisk: real)
    requires forall n :: n in names ==> n in profiles
    ensures forall n :: n in SafeNames(names, profiles, blocked, maxRisk) <==>
      (n in names && profiles[n].riskScore <= maxRisk && n !in blocked)
  {
    if |names| > 0 {
      var init := names[..|names| - 1];
      assert forall n :: n in names <==> n in init || n == names[|names| - 1];
      SafeNamesMeaning(init, profiles, blocked, maxRisk);
    }
  }

  /** The names of `names` whose profile's risk is at least `minRisk`, in order. */
  function RiskyNames(names: seq<string>, profiles: map<string, Profile>, minRisk: real): (r: seq<string>)
    requires forall n :: n in names ==> n in profiles
    ensures forall n :: n in r <==> n in names && profiles[n].riskScore >= minRisk
  {
    if |names| == 0 then []
    else
      (if profiles[names[0]].riskScore >= minRisk then [names[0]] else [])
      + RiskyNames(names[1..], profiles, minRisk)
  }

  /** How many of `names` have a risk of at least 0.7. */
  function CountHigh(names: seq<string>, profiles: map<string, Profile>): (k: nat)
    requires forall n :: n in names ==> n in profiles
    ensures k <= |names|
  {
    if |names| == 0 then 0
    else (if profiles[names[0]].riskScore >= 0.7 then 1 else 0) + CountHigh(names[1..], profiles)
  }

  /** The attacks recorded over `names`. */
  function TotalAttacks(names: seq<string>, profiles: map<string, Profile>): nat
    requires forall n :: n in names ==> n in profiles
  {
    if |names| == 0 then 0 else profiles[names[0]].attackCount + TotalAttacks(names[1..], profiles)
  }

  predicate Distinct(s: seq<string>) {
    forall i, j :: 0 <= i < j < |s| ==> s[i] != s[j]
  }

  /** A sequence without repeats has as many elements as the set of its elements. */
  lemma {:induction false} DistinctCard(s: seq<string>)
    requires Distinct(s)
    ensures |set n | n in s| == |s|
  {
    if |s| > 0 {
      var init := s[..|s| - 1];
      assert Distinct(init);
      DistinctCard(init);
      assert (set n | n in s) == (set n | n in init) + {s[|s| - 1]};
      assert s[|s| - 1] !in init;
    }
  }

  /** A risk within the bounds a tracker keeps: at most 1.0, and not negative when `nonNegative`. */
  predicate InBounds(risk: real, nonNegative: bool) {
    risk <= 1.0 && (nonNegative ==> risk >= 0.0)
  }

  /**
   * The tracker's invariant on values: the order lists each profiled name once, each profile
   * is filed under its own name, and each risk is in bounds.
   */
  ghost predicate Consistent(profiles: map<string, Profile>, order: seq<string>, nonNegative: bool) {
    && (forall n :: n in profiles <==> n in order)
    && Distinct(order)
    && (forall n :: n in profiles ==> profiles[n].name == n && InBounds(profiles[n].riskScore, nonNegative))
  }

  /** Adding a fresh profile under a new name keeps the invariant. */
  lemma ConsistentAdd(profiles: map<string, Profile>, order: seq<string>, nonNegative: bool, q: Profile)
    requires Consistent(profiles, order, nonNegative) && q.name !in profiles
    requires InBounds(q.riskScore, nonNegative)
    ensures Consistent(profiles[q.name := q], order + [q.name], nonNegative)
  {
  }

  /** Replacing a profile by one with the same name and an in-bounds risk keeps the invariant. */
  lemma ConsistentUpdate(profiles: map<string, Profile>, order: seq<string>, nonNegative: bool, q: Profile)
    requires Consistent(profiles, order, nonNegative) && q.name in profiles
    requires InBounds(q.riskScore, nonNegative)
    ensures Consistent(profiles[q.name := q], order, nonNegative)
  {
  }

  /** What the invariant says of one profiled name. */
  lemma InvariantAt(profiles: map<string, Profile>, order: seq<string>, nonNegative: bool, n: string)
    requires Consistent(profiles, order, nonNegative) && n in profiles
    ensures profiles[n].name == n && InBounds(profiles[n].riskScore, nonNegative)
  {
  }

  /** `get_stats()` */
  datatype Stats = Stats(tracked: nat, blockedCount: nat, highRisk: nat, totalAttacks: nat, safeSubmolts: nat)

  /** The tracker: the profiles, in the order they were created, and the blocked names. */
  class Tracker {
    const newSubmoltRisk: real
    const attackRiskIncrement: real
    var profiles: map<string, Profile>
    /** The names of `profiles` in insertion order, as a Python dict iterates them. */
    var order: seq<string>
    var blocked: set<string>

    /**
     * Each profile is filed under its own name and at most 1.0 risky; with a non-negative
     * base risk and increment, no risk is negative.
     */
    ghost predicate Valid()
      reads this
    {
      Consistent(profiles, order, newSubmoltRisk >= 0.0 && attackRiskIncrement >= 0.0)
    }

    /** `SubmoltSafety(new_submolt_risk=0.3, attack_risk_increment=0.1)`, with nothing loaded. */
    constructor (newSubmoltRisk: real, attackRiskIncrement: real)
      ensures Valid()
      ensures this.newSubmoltRisk == newSubmoltRisk && this.attackRiskIncrement == attackRiskIncrement
      ensures profiles == map[] && order == [] && blocked == {}
    {
      this.newSubmoltRisk := newSubmoltRisk;
      this.attackRiskIncrement := attackRiskIncrement;
      profiles := map[];
      order := [];
      blocked := {};
    }

    /** Files `q` in place of the profile under its name; the invariant holds for an in-bounds risk. */
    method Replace(q: Profile)
      requires Valid() && q.name in profiles
      requires InBounds(q.riskScore, newSubmoltRisk >= 0.0 && attackRiskIncrement >= 0.0)
      modifies this
      ensures Valid()
      ensures profiles == old(profiles)[q.name := q] && order == old(order) && blocked == old(blocked)
    {
      ConsistentUpdate(profiles, order, newSubmoltRisk >= 0.0 && attackRiskIncrement >= 0.0, q);
      profiles := profiles[q.name := q];
    }

    /** `_get_or_create_profile(submolt)`: the normalized name, which now has a profile. */
    method GetOrCreate(e: Engine, submolt: string, now: real) returns (name: string)
      requires Valid()
      modifies this
      ensures Valid()
      ensures name == NormalizeName(submolt) && name in profiles
      ensures profiles == WithProfile(old(profiles), e, newSubmoltRisk, name, now)
      ensures order == WithName(old(order), old(profiles), name)
      ensures blocked == old(blocked)
    {
      name := NormalizeName(submolt);
      if name !in profiles {
        NewProfileInBounds(e, newSubmoltRisk, name, now, newSubmoltRisk >= 0.0 && attackRiskIncrement >= 0.0);
        Add(NewProfile(e, newSubmoltRisk, name, now));
      }
    }

    /** Files `q` under its new name, after every name already profiled. */
    method Add(q: Profile)
      requires Valid() && q.name !in profiles
      requires InBounds(q.riskScore, newSubmoltRisk >= 0.0 && attackRiskIncrement >= 0.0)
      modifies this
      ensures Valid()
      ensures profiles == old(profiles)[q.name := q] && order == old(order) + [q.name] && blocked == old(blocked)
    {
      ConsistentAdd(profiles, order, newSubmoltRisk >= 0.0 && attackRiskIncrement >= 0.0, q);
      profiles := profiles[q.name := q];
      order := order + [q.name];
    }

    /**
     * `check_submolt(submolt)` at `now`: a blocked name is refused without creating a profile;
     * otherwise the name's profile (created if need be) is assessed. The profile is looked up
     * by normalizing the already normalized name once more, as the source does.
     */
    method CheckSubmolt(e: Engine, submolt: string, now: real) returns (r: CheckResult)
      requires Valid()
      modifies this
      ensures Valid()
      ensures blocked == old(blocked)
      ensures NormalizeName(submolt) in blocked ==>
        r == BlockedResult(NormalizeName(submolt), old(profiles)) && profiles == old(profiles) && order == old(order)
      ensures NormalizeName(submolt) !in blocked ==>
        (var key := NormalizeName(NormalizeName(submolt));
         && profiles == WithProfile(old(profiles), e, newSubmoltRisk, key, now)
         && order == WithName(old(order), old(profiles), key)
         && r == Assess(NormalizeName(submolt), profiles[key], now))
      ensures r.isSafe ==> NormalizeName(submolt) !in blocked
    {
      var name := NormalizeName(submolt);
      if name in blocked {
        return BlockedResult(name, profiles);
      }
      var key := GetOrCreate(e, name, now);
      r := Assess(name, profiles[key], now);
    }

    /** `record_attack(submolt, attack_type)` at `now`. */
    method RecordAttack(e: Engine, submolt: string, attackType: string, now: real)
      requires Valid()
      modifies this
      ensures Valid()
      ensures var name := NormalizeName(submolt);
        var created := WithProfile(old(profiles), e, newSubmoltRisk, name, now);
        && profiles == created[name := Attacked(created[name], attackRiskIncrement, attackType, now)]
        && order == WithName(old(order), old(profiles), name)
      ensures blocked == old(blocked)
    {
      var name := GetOrCreate(e, submolt, now);
      var p := profiles[name];
      InvariantAt(profiles, order, newSubmoltRisk >= 0.0 && attackRiskIncrement >= 0.0, name);
      AttackedInBounds(p, attackRiskIncrement, attackType, now, newSubmoltRisk >= 0.0 && attackRiskIncrement >= 0.0);
      Replace(Attacked(p, attackRiskIncrement, attackType, now));
    }

    /** `record_safe_interaction(submolt)` at `now`. */
    method RecordSafeInteraction(e: Engine, submolt: string, now: real)
      requires Valid()
      modifies this
      ensures Valid()
      ensures var name := NormalizeName(submolt);
        var created := WithProfile(old(profiles), e, newSubmoltRisk, name, now);
        && profiles == created[name := Calmed(created[name], now)]
        && order == WithName(old(order), old(profiles), name)
      ensures blocked == old(blocked)
    {
      var name := GetOrCreate(e, submolt, now);
      var p := profiles[name];
      InvariantAt(profiles, order, newSubmoltRisk >= 0.0 && attackRiskIncrement >= 0.0, name);
      CalmedInBounds(p, now, newSubmoltRisk >= 0.0 && attackRiskIncrement >= 0.0);
      Replace(Calmed(p, now));
    }

    /**
     * `block_submolt(submolt, reason)` at `now`: the normalized name is blocked and the profile
     * (found by normalizing once more) is pinned at a risk of 1.0.
     */
    method BlockSubmolt(e: Engine, submolt: string, reason: string, now: real)
      requires Valid()
      modifies this
      ensures Valid()
      ensures blocked == old(blocked) + {NormalizeName(submolt)}
      ensures var key := NormalizeName(NormalizeName(submolt));
        var created := WithProfile(old(profiles), e, newSubmoltRisk, key, now);
        && profiles == created[key := Pinned(created[key], reason)]
        && order == WithName(old(order), old(profiles), key)
        && profiles[key].riskScore == 1.0
    {
      var name := NormalizeName(submolt);
      blocked := blocked + {name};
      var key := GetOrCreate(e, name, now);
      var p := profiles[key];
      InvariantAt(profiles, order, newSubmoltRisk >= 0.0 && attackRiskIncrement >= 0.0, key);
      Replace(Pinned(p, reason));
    }

    /** `unblock_submolt(submolt)`: only the block goes; the profile keeps its risk. */
    method UnblockSubmolt(submolt: string)
      requires Valid()
      modifies this
      ensures Valid()
      ensures blocked == old(blocked) - {NormalizeName(submolt)}
      ensures profiles == old(profiles) && order == old(order)
    {
      blocked := blocked - {NormalizeName(submolt)};
    }

    /** `get_safe_submolts(max_risk)`: the unblocked names at most `maxRisk` risky, in insertion order. */
    method GetSafeSubmolts(maxRisk: real) returns (r: seq<string>)
      requires Valid()
      ensures r == SafeNames(order, profiles, blocked, maxRisk)
    {
      r := [];
      var i := 0;
      while i < |order|
        invariant 0 <= i <= |order|
        invariant r == SafeNames(order[..i], profiles, blocked, maxRisk)
      {
        var name := order[i];
        assert order[..i + 1][..i] == order[..i];
        if profiles[name].riskScore <= maxRisk && name !in blocked {
          r := r + [name];
        }
        i := i + 1;
      }
      assert order[..i] == order;
    }

    /**
     * `get_risky_submolts(min_risk)`: the names at least `minRisk` risky, in insertion order,
     * followed by every blocked name once, in the set's own order.
     */
    method GetRiskySubmolts(minRisk: real) returns (r: seq<string>)
      requires Valid()
      ensures |r| == |RiskyNames(order, profiles, minRisk)| + |blocked|
      ensures r[..|RiskyNames(order, profiles, minRisk)|] == RiskyNames(order, profiles, minRisk)
      ensures forall n :: n in r[|RiskyNames(order, profiles, minRisk)|..] <==> n in blocked
      ensures Distinct(r[|RiskyNames(order, profiles, minRisk)|..])
    {
      var listed: seq<string> := [];
      var rest := blocked;
      while rest != {}
        invariant forall n :: n in blocked <==> n in listed || n in rest
        invariant forall n :: n in listed ==> n !in rest
        invariant Distinct(listed)
        invariant |listed| + |rest| == |blocked|
        decreases |rest|
      {
        var n :| n in rest;
        listed := listed + [n];
        rest := rest - {n};
      }
      var risky := RiskyNames(order, profiles, minRisk);
      r := risky + listed;
      assert r[..|risky|] == risky && r[|risky|..] == listed;
    }

    /** `get_stats()`: every count is bounded by the number of tracked submolts. */
    method GetStats() returns (s: Stats)
      requires Valid()
      ensures s == Stats(|profiles|, |blocked|, CountHigh(order, profiles), TotalAttacks(order, profiles),
                         |SafeNames(order, profiles, blocked, 0.3)|)
      ensures s.highRisk <= s.tracked && s.safeSubmolts <= s.tracked
    {
      DistinctCard(order);
      assert profiles.Keys == set n | n in order;
      s := Stats(|profiles|, |blocked|, CountHigh(order, profiles), TotalAttacks(order, profiles),
                 |SafeNames(order, profiles, blocked, 0.3)|);
    }
  }
}
