/**
 * Interaction analysis (`InteractionAnalyzer`): every interaction with the agent is recorded,
 * with per-author statistics; an analysis of the recent interactions looks for mention spam,
 * bursts of messages in one minute, the same content from several agents, look-alike
 * usernames and floods of new agents, and turns the confidence of what it found into a risk
 * level. Reply chains can be blocked. Times are seconds since the epoch, passed in as `now`;
 * Python's per-process `hash(frozenset(words))` is the uninterpreted `fingerprint`.
 */
module InteractionAnalyzer {
  import opened Wrappers
  import opened Strings
  import opened Regex
  import opened Scoring

  /** The `THRESHOLDS` the analysis uses. */
  const MENTION_SPAM := 5
  const COORDINATED_TIMING := 3
  const REPLY_CHAIN_DEPTH := 10
  const NEW_AGENT_FLOOD := 5
  const SIMILAR_USERNAMES := 0.7
  /** How many content fingerprints an author's statistics keep. */
  const MAX_HASHES := 50
  const PREVIEW := 100
  const HOUR := 3600.0
  /** The confidence of a look-alike username finding. */
  const SOCK_PUPPET_CONFIDENCE := 0.6

  /** `\w+`: the words of a text. */
  const WORD := Plain(@"\w+")

  /** The name parts `_username_similarity` deletes, in order, wherever they occur. */
  const SUFFIXES: seq<string> := ["_bot", "bot", "_ai", "ai", "_agent", "agent", "123", "1", "2"]

  /** One recorded interaction; `time` replaces the ISO time string. */
  datatype Interaction = Interaction(
    author: string, contentHash: string, preview: string, kind: string, time: real,
    postId: Option<string>, parentAuthor: Option<string>, mentions: seq<string>)

  /** The statistics kept per author. */
  datatype AgentStats = AgentStats(
    interactions: nat, firstSeen: real, lastSeen: real, contentHashes: seq<string>,
    mentionTimes: seq<real>)

  /** The `pattern_type` strings. */
  datatype Kind = MentionSpam | CoordinatedTiming | DuplicateContent | SimilarUsernames | NewAgentFlood
  {
    function Name(): string {
      match this
      case MentionSpam => "mention_spam"
      case CoordinatedTiming => "coordinated_timing"
      case DuplicateContent => "duplicate_content"
      case SimilarUsernames => "similar_usernames"
      case NewAgentFlood => "new_agent_flood"
    }
  }

  /** `InteractionPattern`, without its description and first-seen time. */
  datatype Found = Found(kind: Kind, agents: seq<string>, confidence: real, occurrences: nat)

  /** `AnalysisResult` */
  datatype AnalysisResult = AnalysisResult(
    isSuspicious: bool, riskLevel: Risk, patterns: seq<Found>, recommendations: seq<Advice>)

  /** `get_stats()` */
  datatype Stats = Stats(totalInteractions: nat, uniqueAgents: nat, blockedChains: nat, patternsDetected: nat)

  function RMin(a: real, b: real): real { if a <= b then a else b }

  function RMax(a: real, b: real): real { if a >= b then a else b }

  // ---------------------------------------------------------------------------------------
  // Content similarity

  /** `set(re.findall(r'\w+', s.lower()))` */
  function WordSet(e: Engine, s: string): set<string> {
    set m | m in e.findAll(WORD, Lower(s)) :: m.text
  }

  /** The Jaccard index of two word sets, 0 when either is empty. */
  function Jaccard(a: set<string>, b: set<string>): (r: real)
    ensures 0.0 <= r <= 1.0
    ensures a == {} || b == {} ==> r == 0.0
  {
    if a == {} || b == {} then 0.0
    else
      assert |a * b| <= |a| && |a| <= |a + b| by { CardBounds(a, b); }
      |a * b| as real / |a + b| as real
  }

  /** An intersection is no larger than either side, a union no smaller. */
  lemma CardBounds(a: set<string>, b: set<string>)
    ensures |a * b| <= |a| && |a * b| <= |b|
    ensures |a| <= |a + b| && |b| <= |a + b|
  {
    assert a == (a - b) + (a * b);
    assert b == (b - a) + (a * b);
    assert a + b == (a - b) + b;
    assert a + b == (b - a) + a;
  }

  /** `_content_similarity(c1, c2)` */
  function ContentSimilarity(e: Engine, c1: string, c2: string): real {
    Jaccard(WordSet(e, c1), WordSet(e, c2))
  }

  /**
   * The similarity is symmetric, and it is 1 exactly for equal non-empty word sets: identical
   * texts are fully similar, and full similarity means the same words.
   */
  lemma JaccardMeaning(a: set<string>, b: set<string>)
    ensures Jaccard(a, b) == Jaccard(b, a)
    ensures Jaccard(a, b) == 1.0 <==> a == b && a != {}
  {
    assert a * b == b * a && a + b == b + a;
    if a == b && a != {} {
      assert a * b == a && a + b == a;
    }
    if Jaccard(a, b) == 1.0 {
      assert a != {} && b != {};
      CardBounds(a, b);
      var i, u := |a * b|, |a + b|;
      assert i as real == u as real;
      assert |a + b| + |a * b| == |a| + |b|;
      assert |a - b| + |a * b| == |a|;
      assert |b - a| + |a * b| == |b|;
      assert a - b == {} && b - a == {};
      assert a == b by {
        forall x | x in a ensures x in b { assert x !in a - b; }
        forall x | x in b ensures x in a { assert x !in b - a; }
      }
    }
  }

  lemma ContentSimilarityMeaning(e: Engine, c1: string, c2: string)
    ensures ContentSimilarity(e, c1, c2) == ContentSimilarity(e, c2, c1)
    ensures 0.0 <= ContentSimilarity(e, c1, c2) <= 1.0
    ensures WordSet(e, c1) == {} ==> ContentSimilarity(e, c1, c2) == 0.0
    ensures ContentSimilarity(e, c1, c2) == 1.0 <==> WordSet(e, c1) == WordSet(e, c2) != {}
  {
    JaccardMeaning(WordSet(e, c1), WordSet(e, c2));
  }

  // ---------------------------------------------------------------------------------------
  // Username similarity

  /** The name lower-cased, with every listed part deleted in turn. */
  function Stripped(name: string): string {
    DeleteAll(Lower(name), SUFFIXES)
  }

  function DeleteAll(s: string, parts: seq<string>): string
    requires forall p :: p in parts ==> |p| > 0
    decreases |parts|
  {
    if |parts| == 0 then s else DeleteAll(ReplaceAll(s, parts[0], ""), parts[1..])
  }

  /** The positions at which `a` and `b` have the same character (as `zip` pairs them). */
  function Common(a: string, b: string): (n: nat)
    ensures n <= |a| && n <= |b|
  {
    if |a| == 0 || |b| == 0 then 0
    else (if a[0] == b[0] then 1 else 0) + Common(a[1..], b[1..])
  }

  lemma {:induction false} CommonSymmetric(a: string, b: string)
    ensures Common(a, b) == Common(b, a)
    decreases |a|
  {
    if |a| > 0 && |b| > 0 {
      CommonSymmetric(a[1..], b[1..]);
    }
  }

  lemma {:induction false} CommonSelf(a: string)
    ensures Common(a, a) == |a|
    decreases |a|
  {
    if |a| > 0 {
      CommonSelf(a[1..]);
    }
  }

  /**
   * The similarity of two stripped names: the share of aligned positions that agree, out of
   * the longer length; 0 when either is empty.
   */
  function NameSimilarity(a: string, b: string): (r: real)
    ensures 0.0 <= r <= 1.0
    ensures a == "" || b == "" ==> r == 0.0
  {
    if a == "" || b == "" then 0.0
    else
      var m := if |a| >= |b| then |a| else |b|;
      RatioBounds(Common(a, b), m);
      Common(a, b) as real / m as real
  }

  lemma RatioBounds(c: nat, m: nat)
    requires 0 < m && c <= m
    ensures 0.0 <= c as real / m as real <= 1.0
  {
    var q := c as real / m as real;
    assert q * (m as real) == c as real;
  }

  /** `_username_similarity(n1, n2)` */
  function UsernameSimilarity(n1: string, n2: string): real {
    NameSimilarity(Stripped(n1), Stripped(n2))
  }

  /**
   * The similarity is in [0, 1] and symmetric; names that strip to nothing score 0, and names
   * that strip to the same non-empty name score 1.
   */
  lemma UsernameSimilarityMeaning(n1: string, n2: string)
    ensures 0.0 <= UsernameSimilarity(n1, n2) <= 1.0
    ensures UsernameSimilarity(n1, n2) == UsernameSimilarity(n2, n1)
    ensures Stripped(n1) == "" || Stripped(n2) == "" ==> UsernameSimilarity(n1, n2) == 0.0
    ensures Stripped(n1) == Stripped(n2) != "" ==> UsernameSimilarity(n1, n2) == 1.0
  {
    NameSimilarityMeaning(Stripped(n1), Stripped(n2));
  }

  lemma NameSimilarityMeaning(a: string, b: string)
    ensures NameSimilarity(a, b) == NameSimilarity(b, a)
    ensures a == b != "" ==> NameSimilarity(a, b) == 1.0
  {
    CommonSymmetric(a, b);
    CommonSelf(a);
    if a == b && a != "" {
      assert NameSimilarity(a, b) == |a| as real / |a| as real;
    }
  }

  // ---------------------------------------------------------------------------------------
  // Recording

  /** The last `n` elements of `xs`, as `xs[-n:]`. */
  function Last<T>(xs: seq<T>, n: nat): (r: seq<T>)
    ensures |r| <= n && |r| <= |xs|
    ensures xs != [] && n > 0 ==> r != [] && r[|r| - 1] == xs[|xs| - 1]
    ensures |xs| <= n ==> r == xs
  {
    if |xs| <= n then xs else xs[|xs| - n..]
  }

  /** The times less than an hour before `now`. */
  function WithinHour(ts: seq<real>, now: real): (r: seq<real>)
    ensures forall t :: t in r <==> t in ts && now - t < HOUR
  {
    if |ts| == 0 then []
    else (if now - ts[0] < HOUR then [ts[0]] else []) + WithinHour(ts[1..], now)
  }

  /**
   * An author's statistics after one more interaction at `now`: counted, seen now (and first
   * seen now if new), the content fingerprint kept among the last 50, and for a mention, the
   * mention time kept among those of the last hour.
   */
  function Updated(prior: Option<AgentStats>, hash: string, kind: string, now: real): AgentStats {
    var s := if prior.Some? then prior.value else AgentStats(0, now, now, [], []);
    AgentStats(s.interactions + 1, s.firstSeen, now, Last(s.contentHashes + [hash], MAX_HASHES),
               if kind == "mention" then WithinHour(s.mentionTimes + [now], now) else s.mentionTimes)
  }

  /** The effect of one interaction on its author's statistics, as the source promises it. */
  lemma UpdatedMeaning(prior: Option<AgentStats>, hash: string, kind: string, now: real)
    ensures var s := Updated(prior, hash, kind, now);
      && s.interactions == (if prior.Some? then prior.value.interactions else 0) + 1
      && s.firstSeen == (if prior.Some? then prior.value.firstSeen else now)
      && s.lastSeen == now
      && |s.contentHashes| <= MAX_HASHES && s.contentHashes[|s.contentHashes| - 1] == hash
      && (kind == "mention" ==> now in s.mentionTimes && forall t :: t in s.mentionTimes ==> now - t < HOUR)
      && (kind != "mention" ==> prior.Some? ==> s.mentionTimes == prior.value.mentionTimes)
  {
    var p := if prior.Some? then prior.value else AgentStats(0, now, now, [], []);
    assert now in p.mentionTimes + [now];
  }

  // ---------------------------------------------------------------------------------------
  // Detection

  function Filter(xs: seq<Interaction>, keep: Interaction -> bool): (r: seq<Interaction>)
    ensures |r| <= |xs|
    ensures forall x :: x in r <==> x in xs && keep(x)
  {
    if |xs| == 0 then [] else (if keep(xs[0]) then [xs[0]] else []) + Filter(xs[1..], keep)
  }

  function Authors(xs: seq<Interaction>): (r: seq<string>)
    ensures |r| == |xs|
    ensures forall a :: a in r <==> exists x :: x in xs && x.author == a
  {
    if |xs| == 0 then [] else [xs[0].author] + Authors(xs[1..])
  }

  /** The interactions after `cutoff`. */
  function Recent(xs: seq<Interaction>, cutoff: real): seq<Interaction> {
    Filter(xs, (x: Interaction) => x.time > cutoff)
  }

  /** The author of every mention, once per mention. */
  function MentionAuthors(xs: seq<Interaction>): seq<string> {
    Authors(Filter(xs, (x: Interaction) => x.kind == "mention"))
  }

  /** One mention-spam finding per author in `keys` with at least five mentions. */
  function SpamFrom(keys: seq<string>, counts: multiset<string>): seq<Found> {
    if |keys| == 0 then []
    else
      var n := counts[keys[0]];
      (if n >= MENTION_SPAM then [Found(MentionSpam, [keys[0]], RMin(n as real / 10.0, 1.0), n)] else [])
      + SpamFrom(keys[1..], counts)
  }

  /** `_detect_mention_spam(xs)`, authors in order of their first mention. */
  function DetectMentionSpam(xs: seq<Interaction>): seq<Found> {
    var ms := MentionAuthors(xs);
    SpamFrom(Dedup(ms), multiset(ms))
  }

  /** The finding about `a` that `SpamFrom` gives for a count of `n`. */
  function SpamFinding(a: string, n: nat): Found {
    Found(MentionSpam, [a], RMin(n as real / 10.0, 1.0), n)
  }

  /**
   * Exactly the authors of `keys` with at least five mentions are reported, each by a
   * finding carrying their count and the confidence min(count/10, 1).
   */
  lemma {:induction false} SpamFromMeaning(keys: seq<string>, counts: multiset<string>)
    ensures forall f :: f in SpamFrom(keys, counts) ==>
      |f.agents| == 1 && f.agents[0] in keys && f == SpamFinding(f.agents[0], counts[f.agents[0]])
      && counts[f.agents[0]] >= MENTION_SPAM
    ensures forall a :: a in keys && counts[a] >= MENTION_SPAM ==> SpamFinding(a, counts[a]) in SpamFrom(keys, counts)
    decreases |keys|
  {
    if |keys| > 0 {
      SpamFromMeaning(keys[1..], counts);
      forall a | a in keys && counts[a] >= MENTION_SPAM
        ensures SpamFinding(a, counts[a]) in SpamFrom(keys, counts)
      {
        if a != keys[0] {
          assert a in keys[1..];
        }
      }
    }
  }

  /** Mention spam is reported for exactly the authors with at least five mentions among `xs`. */
  lemma MentionSpamMeaning(xs: seq<Interaction>, a: string)
    ensures var n := multiset(MentionAuthors(xs))[a];
      n >= MENTION_SPAM <==> SpamFinding(a, n) in DetectMentionSpam(xs)
    ensures forall f :: f in DetectMentionSpam(xs) ==> f.kind == MentionSpam && f.confidence <= 1.0
  {
    var ms := MentionAuthors(xs);
    SpamFromMeaning(Dedup(ms), multiset(ms));
    if multiset(ms)[a] >= MENTION_SPAM {
      assert a in ms;
    }
  }

  /** The clock minute of a time (`time[:16]` of its ISO form). */
  function Minute(t: real): int {
    (t / 60.0).Floor
  }

  function Minutes(xs: seq<Interaction>): (r: seq<int>)
    ensures |r| == |xs| && forall i :: 0 <= i < |xs| ==> r[i] == Minute(xs[i].time)
  {
    if |xs| == 0 then [] else [Minute(xs[0].time)] + Minutes(xs[1..])
  }

  /** The interactions sent in clock minute `m`. */
  function InMinute(xs: seq<Interaction>, m: int): seq<Interaction> {
    Filter(xs, (x: Interaction) => Minute(x.time) == m)
  }

  /** Minute `m` holds at least three messages from at least two agents. */
  predicate Burst(xs: seq<Interaction>, m: int) {
    |InMinute(xs, m)| >= COORDINATED_TIMING && |Dedup(Authors(InMinute(xs, m)))| >= 2
  }

  /** The finding for minute `m`: its agents, the confidence min(count/5, 1) and the count. */
  function BurstFinding(xs: seq<Interaction>, m: int): Found {
    var items := InMinute(xs, m);
    Found(CoordinatedTiming, Dedup(Authors(items)), RMin(|items| as real / 5.0, 1.0), |items|)
  }

  /** One finding per minute in `keys` that is a burst. */
  function BurstsIn(xs: seq<Interaction>, keys: seq<int>): seq<Found> {
    if |keys| == 0 then []
    else (if Burst(xs, keys[0]) then [BurstFinding(xs, keys[0])] else []) + BurstsIn(xs, keys[1..])
  }

  /** `_detect_coordinated_timing(xs)` */
  function DetectCoordinatedTiming(xs: seq<Interaction>): seq<Found> {
    BurstsIn(xs, Dedup(Minutes(xs)))
  }

  /** Exactly the bursts among `keys` are reported, each by its own finding. */
  lemma {:induction false} BurstsInMeaning(xs: seq<Interaction>, keys: seq<int>)
    ensures forall f :: f in BurstsIn(xs, keys) ==> exists m :: m in keys && Burst(xs, m) && f == BurstFinding(xs, m)
    ensures forall m :: m in keys && Burst(xs, m) ==> BurstFinding(xs, m) in BurstsIn(xs, keys)
    decreases |keys|
  {
    if |keys| > 0 {
      BurstsInMeaning(xs, keys[1..]);
      assert forall m :: m in keys[1..] ==> m in keys;
      forall m | m in keys && Burst(xs, m)
        ensures BurstFinding(xs, m) in BurstsIn(xs, keys)
      {
        if m != keys[0] {
          assert m in keys[1..];
        }
      }
    }
  }

  /**
   * Coordinated timing is reported for exactly the minutes holding at least three messages
   * from at least two agents; the finding names exactly the agents who wrote in that minute.
   */
  lemma CoordinatedTimingMeaning(xs: seq<Interaction>)
    ensures forall f :: f in DetectCoordinatedTiming(xs) ==> exists m :: Burst(xs, m) && f == BurstFinding(xs, m)
    ensures forall m :: Burst(xs, m) ==> BurstFinding(xs, m) in DetectCoordinatedTiming(xs)
    ensures forall m :: Burst(xs, m) ==>
      && BurstFinding(xs, m).occurrences >= COORDINATED_TIMING && |BurstFinding(xs, m).agents| >= 2
      && 0.0 < BurstFinding(xs, m).confidence <= 1.0
      && forall a :: a in BurstFinding(xs, m).agents <==> exists x :: x in xs && Minute(x.time) == m && x.author == a
  {
    var keys := Dedup(Minutes(xs));
    BurstsInMeaning(xs, keys);
    forall m | Burst(xs, m)
      ensures BurstFinding(xs, m) in DetectCoordinatedTiming(xs)
    {
      var x := InMinute(xs, m)[0];
      assert x in InMinute(xs, m);
      var i :| 0 <= i < |xs| && xs[i] == x;
      assert Minutes(xs)[i] == m;
    }
  }

  function Hashes(xs: seq<Interaction>): (r: seq<string>)
    ensures |r| == |xs| && forall i :: 0 <= i < |xs| ==> r[i] == xs[i].contentHash
  {
    if |xs| == 0 then [] else [xs[0].contentHash] + Hashes(xs[1..])
  }

  /** The interactions with fingerprint `h`. */
  function WithHash(xs: seq<Interaction>, h: string): seq<Interaction> {
    Filter(xs, (x: Interaction) => x.contentHash == h)
  }

  /** The authors of the interactions with fingerprint `h`, once per interaction. */
  function PostersOf(xs: seq<Interaction>, h: string): seq<string> {
    Authors(WithHash(xs, h))
  }

  /** Fingerprint `h` was posted at least twice, by at least two agents. */
  predicate Duplicated(xs: seq<Interaction>, h: string) {
    |PostersOf(xs, h)| >= 2 && |Dedup(PostersOf(xs, h))| >= 2
  }

  /** The finding for fingerprint `h`: its agents, the confidence min(count/3, 1) and the count. */
  function DuplicateFinding(xs: seq<Interaction>, h: string): Found {
    var authors := PostersOf(xs, h);
    Found(DuplicateContent, Dedup(authors), RMin(|authors| as real / 3.0, 1.0), |authors|)
  }

  /** One finding per fingerprint in `keys` that is duplicated. */
  function DuplicatesIn(xs: seq<Interaction>, keys: seq<string>): seq<Found> {
    if |keys| == 0 then []
    else (if Duplicated(xs, keys[0]) then [DuplicateFinding(xs, keys[0])] else []) + DuplicatesIn(xs, keys[1..])
  }

  /** `_detect_content_similarity(xs)` */
  function DetectDuplicates(xs: seq<Interaction>): seq<Found> {
    DuplicatesIn(xs, Dedup(Hashes(xs)))
  }

  /** Exactly the duplicated fingerprints among `keys` are reported, each by its own finding. */
  lemma {:induction false} DuplicatesInMeaning(xs: seq<Interaction>, keys: seq<string>)
    ensures forall f :: f in DuplicatesIn(xs, keys) ==>
      exists h :: h in keys && Duplicated(xs, h) && f == DuplicateFinding(xs, h)
    ensures forall h :: h in keys && Duplicated(xs, h) ==> DuplicateFinding(xs, h) in DuplicatesIn(xs, keys)
    decreases |keys|
  {
    if |keys| > 0 {
      DuplicatesInMeaning(xs, keys[1..]);
      assert forall h :: h in keys[1..] ==> h in keys;
      forall h | h in keys && Duplicated(xs, h)
        ensures DuplicateFinding(xs, h) in DuplicatesIn(xs, keys)
      {
        if h != keys[0] {
          assert h in keys[1..];
        }
      }
    }
  }

  /**
   * Duplicate content is reported for exactly the fingerprints posted by at least two
   * agents; the finding names exactly those agents.
   */
  lemma DuplicatesMeaning(xs: seq<Interaction>)
    ensures forall f :: f in DetectDuplicates(xs) ==> exists h :: Duplicated(xs, h) && f == DuplicateFinding(xs, h)
    ensures forall h :: Duplicated(xs, h) ==> DuplicateFinding(xs, h) in DetectDuplicates(xs)
    ensures forall h :: Duplicated(xs, h) ==>
      && DuplicateFinding(xs, h).occurrences >= 2 && |DuplicateFinding(xs, h).agents| >= 2
      && 0.0 < DuplicateFinding(xs, h).confidence <= 1.0
      && forall a :: a in DuplicateFinding(xs, h).agents <==> exists x :: x in xs && x.contentHash == h && x.author == a
  {
    var keys := Dedup(Hashes(xs));
    DuplicatesInMeaning(xs, keys);
    forall h | Duplicated(xs, h)
      ensures DuplicateFinding(xs, h) in DetectDuplicates(xs)
    {
      var a := PostersOf(xs, h)[0];
      assert a in PostersOf(xs, h);
      var x :| x in WithHash(xs, h) && x.author == a;
      var i :| 0 <= i < |xs| && xs[i] == x;
      assert Hashes(xs)[i] == h;
    }
  }

  /** The agents of `others` whose names are at least 0.7 similar to `a` under `sim`. */
  function SimilarTo(sim: (string, string) -> real, a: string, others: seq<string>): (r: seq<string>)
    ensures forall b :: b in r <==> b in others && sim(a, b) >= SIMILAR_USERNAMES
  {
    if |others| == 0 then []
    else
      var rest := SimilarTo(sim, a, others[1..]);
      assert forall b :: b in others[1..] ==> b in others;
      (if sim(a, others[0]) >= SIMILAR_USERNAMES then [others[0]] else []) + rest
  }

  /**
   * `_detect_sock_puppets()` over the agents in the order first recorded; `sim` is the name
   * similarity, `UsernameSimilarity` in the analysis.
   */
  function DetectSockPuppets(sim: (string, string) -> real, agents: seq<string>): seq<Found> {
    if |agents| == 0 then []
    else
      var similar := SimilarTo(sim, agents[0], agents[1..]);
      (if similar != [] then [Found(SimilarUsernames, [agents[0]] + similar, SOCK_PUPPET_CONFIDENCE, |similar| + 1)] else [])
      + DetectSockPuppets(sim, agents[1..])
  }

  /**
   * Every look-alike finding starts with an agent and lists after it only agents at least
   * 0.7 similar to it.
   */
  lemma {:induction false} SockPuppetsSound(sim: (string, string) -> real, agents: seq<string>)
    ensures forall f :: f in DetectSockPuppets(sim, agents) ==>
      && f.kind == SimilarUsernames && f.confidence == SOCK_PUPPET_CONFIDENCE
      && |f.agents| >= 2 && f.occurrences == |f.agents| && f.agents[0] in agents
      && forall b :: b in f.agents[1..] ==> b in agents && sim(f.agents[0], b) >= SIMILAR_USERNAMES
    decreases |agents|
  {
    if |agents| > 0 {
      SockPuppetsSound(sim, agents[1..]);
      assert forall b :: b in agents[1..] ==> b in agents;
    }
  }

  /** Finding `f` is about agent `a` and lists agent `b`. */
  predicate Reports(f: Found, a: string, b: string) {
    |f.agents| > 0 && f.agents[0] == a && b in f.agents
  }

  /** Every pair of look-alike agents, the earlier first, is reported by the finding about the earlier one. */
  lemma {:induction false} SockPuppetsComplete(sim: (string, string) -> real, agents: seq<string>)
    ensures forall i, j :: 0 <= i < j < |agents| && sim(agents[i], agents[j]) >= SIMILAR_USERNAMES ==>
      exists f :: f in DetectSockPuppets(sim, agents) && Reports(f, agents[i], agents[j])
    decreases |agents|
  {
    if |agents| > 0 {
      var rest := agents[1..];
      SockPuppetsComplete(sim, rest);
      forall i, j | 0 <= i < j < |agents| && sim(agents[i], agents[j]) >= SIMILAR_USERNAMES
        ensures exists f :: f in DetectSockPuppets(sim, agents) && Reports(f, agents[i], agents[j])
      {
        if i == 0 {
          FirstAgentReported(sim, agents, j);
        } else {
          assert agents[i] == rest[i - 1] && agents[j] == rest[j - 1];
          var f :| f in DetectSockPuppets(sim, rest) && Reports(f, rest[i - 1], rest[j - 1]);
          assert f in DetectSockPuppets(sim, agents);
        }
      }
    }
  }

  /** A later look-alike of the first agent is listed by the finding about the first agent. */
  lemma FirstAgentReported(sim: (string, string) -> real, agents: seq<string>, j: int)
    requires 0 < j < |agents| && sim(agents[0], agents[j]) >= SIMILAR_USERNAMES
    ensures exists f :: f in DetectSockPuppets(sim, agents) && Reports(f, agents[0], agents[j])
  {
    var similar := SimilarTo(sim, agents[0], agents[1..]);
    assert agents[j] in agents[1..];
    assert agents[j] in similar;
    var f := Found(SimilarUsernames, [agents[0]] + similar, SOCK_PUPPET_CONFIDENCE, |similar| + 1);
    assert Reports(f, agents[0], agents[j]);
    assert similar != [];
    assert DetectSockPuppets(sim, agents)[0] == f;
  }

  /** The agents first seen less than an hour before `now`. */
  function NewAgents(agents: seq<string>, stats: map<string, AgentStats>, now: real): (r: seq<string>)
    ensures |r| <= |agents|
    ensures forall a :: a in r <==> a in agents && a in stats && stats[a].firstSeen > now - HOUR
  {
    if |agents| == 0 then []
    else
      (if agents[0] in stats && stats[agents[0]].firstSeen > now - HOUR then [agents[0]] else [])
      + NewAgents(agents[1..], stats, now)
  }

  /** `_detect_new_agent_flood()`: one finding when at least five agents are new. */
  function DetectFlood(agents: seq<string>, stats: map<string, AgentStats>, now: real): seq<Found> {
    var newcomers := NewAgents(agents, stats, now);
    if |newcomers| >= NEW_AGENT_FLOOD then [Found(NewAgentFlood, newcomers, RMin(|newcomers| as real / 10.0, 1.0), |newcomers|)]
    else []
  }

  /** Some finding is more confident than `t`. */
  predicate Above(ps: seq<Found>, t: real) {
    exists i :: 0 <= i < |ps| && ps[i].confidence > t
  }

  /**
   * The risk rule of `analyze_patterns`: nothing found is "none"; a finding more than 0.8
   * confident is "high", one more than 0.5 confident "medium" (both suspicious); otherwise
   * "low", not suspicious.
   */
  function RiskRule(ps: seq<Found>): (r: (Risk, bool))
    ensures r.0 == NoRisk <==> ps == []
    ensures r.0 == High <==> Above(ps, 0.8)
    ensures r.0 == Medium <==> Above(ps, 0.5) && !Above(ps, 0.8)
    ensures r.0 == Low <==> ps != [] && !Above(ps, 0.5)
    ensures r.1 <==> r.0 == High || r.0 == Medium
  {
    if ps == [] then (NoRisk, false)
    else if Above(ps, 0.8) then (High, true)
    else if Above(ps, 0.5) then (Medium, true)
    else (Low, false)
  }

  predicate HasKind(ps: seq<Found>, k: Kind) {
    exists i :: 0 <= i < |ps| && ps[i].kind == k
  }

  /** The recommendations `_generate_recommendations` can give; `AdviceText` gives their wording. */
  datatype Advice = RateLimit | Scrutinize | CopyPasted | SockPuppets | Influx | NothingFound

  function AdviceText(a: Advice): string {
    match a
    case RateLimit => "Consider rate-limiting responses to mention spam"
    case Scrutinize => "Possible coordinated attack - increase scrutiny"
    case CopyPasted => "Detect content being copy-pasted - likely attack"
    case SockPuppets => "Potential sock puppet network - be cautious"
    case Influx => "Unusual influx of new agents - may be attack setup"
    case NothingFound => "No suspicious patterns detected"
  }

  /** The advice `_generate_recommendations` gives for each kind of finding. */
  function AdviceFor(k: Kind): Advice {
    match k
    case MentionSpam => RateLimit
    case CoordinatedTiming => Scrutinize
    case DuplicateContent => CopyPasted
    case SimilarUsernames => SockPuppets
    case NewAgentFlood => Influx
  }

  /** The advice for kind `k` when some finding has that kind. */
  function AdviceIf(ps: seq<Found>, k: Kind): seq<Advice> {
    if HasKind(ps, k) then [AdviceFor(k)] else []
  }

  /** `_generate_recommendations(ps)`: one piece of advice per kind found, in a fixed order. */
  function Recommendations(ps: seq<Found>): (r: seq<Advice>)
    ensures |r| > 0
    ensures NothingFound in r <==> ps == []
    ensures ps == [] ==> r == [NothingFound]
  {
    var advice := AdviceIf(ps, MentionSpam) + AdviceIf(ps, CoordinatedTiming) + AdviceIf(ps, DuplicateContent)
      + AdviceIf(ps, SimilarUsernames) + AdviceIf(ps, NewAgentFlood);
    assert ps != [] ==> HasKind(ps, ps[0].kind) && |AdviceIf(ps, ps[0].kind)| > 0;
    if advice == [] then [NothingFound] else advice
  }

  /** Each kind found, and only a kind found, is answered by its advice. */
  lemma RecommendationsPerKind(ps: seq<Found>, k: Kind)
    ensures HasKind(ps, k) <==> AdviceFor(k) in Recommendations(ps)
  {
    var advice := AdviceIf(ps, MentionSpam) + AdviceIf(ps, CoordinatedTiming) + AdviceIf(ps, DuplicateContent)
      + AdviceIf(ps, SimilarUsernames) + AdviceIf(ps, NewAgentFlood);
    assert forall a :: a in advice <==> exists j :: j in {MentionSpam, CoordinatedTiming, DuplicateContent, SimilarUsernames, NewAgentFlood} && a in AdviceIf(ps, j);
    if HasKind(ps, k) {
      assert AdviceFor(k) in AdviceIf(ps, k);
    }
  }

  /** The findings of `analyze_patterns`, in the order the detectors run. */
  function Findings(xs: seq<Interaction>, agents: seq<string>, stats: map<string, AgentStats>, now: real): seq<Found> {
    DetectMentionSpam(xs) + DetectCoordinatedTiming(xs) + DetectDuplicates(xs)
    + DetectSockPuppets(UsernameSimilarity, agents) + DetectFlood(agents, stats, now)
  }

  /** `analyze_patterns(time_window_hours)` at `now`, over the interactions after the window's start. */
  function Analysis(interactions: seq<Interaction>, agents: seq<string>, stats: map<string, AgentStats>,
                    windowHours: int, now: real): (r: AnalysisResult)
  {
    var ps := Findings(Recent(interactions, now - windowHours as real * HOUR), agents, stats, now);
    var (level, suspicious) := RiskRule(ps);
    AnalysisResult(suspicious, level, ps, Recommendations(ps))
  }

  /** The verdict and the advice follow from the findings alone. */
  lemma AnalysisMeaning(interactions: seq<Interaction>, agents: seq<string>, stats: map<string, AgentStats>,
                        windowHours: int, now: real)
    ensures var r := Analysis(interactions, agents, stats, windowHours, now);
      && r.patterns == Findings(Recent(interactions, now - windowHours as real * HOUR), agents, stats, now)
      && (r.riskLevel, r.isSuspicious) == RiskRule(r.patterns)
      && r.recommendations == Recommendations(r.patterns)
  {
  }

  /** Two look-alike names alone make the analysis "medium" and suspicious. */
  lemma SockPuppetsAloneAreMedium(ps: seq<Found>)
    requires ps != [] && forall i :: 0 <= i < |ps| ==> ps[i].confidence == SOCK_PUPPET_CONFIDENCE
    ensures RiskRule(ps) == (Medium, true)
  {
    assert ps[0].confidence > 0.5;
  }

  /** `check_reply_chain(post_id, depth)`: blocked chains first, then chains ten or more deep. */
  function ReplyChain(blocked: set<string>, postId: string, depth: int): (r: (bool, string))
    ensures r.0 <==> postId !in blocked && depth < REPLY_CHAIN_DEPTH
  {
    if postId in blocked then (false, "This reply chain has been blocked")
    else if depth >= REPLY_CHAIN_DEPTH then (false, "Reply chain too deep (" + IntToString(depth) + " levels)")
    else (true, "Chain appears safe")
  }

  /** Every agent with statistics is listed once, in the order first recorded. */
  ghost predicate StatsValid(agents: seq<string>, stats: map<string, AgentStats>) {
    && (forall a :: a in stats <==> a in agents)
    && (forall i, j :: 0 <= i < j < |agents| ==> agents[i] != agents[j])
    && (forall a :: a in stats ==> |stats[a].contentHashes| <= MAX_HASHES)
  }

  /** The statistics and agent list after recording an interaction by `author`. */
  function WithAgent(agents: seq<string>, stats: map<string, AgentStats>, author: string): seq<string> {
    if author in stats then agents else agents + [author]
  }

  lemma StatsUpdate(agents: seq<string>, stats: map<string, AgentStats>, author: string, s: AgentStats)
    requires StatsValid(agents, stats) && |s.contentHashes| <= MAX_HASHES
    ensures StatsValid(WithAgent(agents, stats, author), stats[author := s])
  {
  }

  /** `get_agent_summary(agent_name)`, without the ISO formatting of the times. */
  datatype Summary = Summary(
    agent: string, totalInteractions: nat, firstSeen: Option<real>, lastSeen: Option<real>,
    recentInteractions: nat, mentionFrequency: nat)

  /**
   * The summary of one agent: its counters when it has statistics and zeros and no times
   * otherwise; the recorded interactions it wrote, counted one by one.
   */
  function AgentSummary(interactions: seq<Interaction>, stats: map<string, AgentStats>, name: string): (r: Summary)
    ensures r.agent == name
    ensures r.recentInteractions <= |interactions|
    ensures r.recentInteractions == 0 <==> forall x :: x in interactions ==> x.author != name
    ensures name in stats ==>
      && r.totalInteractions == stats[name].interactions && r.firstSeen == Some(stats[name].firstSeen)
      && r.lastSeen == Some(stats[name].lastSeen) && r.mentionFrequency == |stats[name].mentionTimes|
    ensures name !in stats ==> r.totalInteractions == 0 && r.firstSeen.None? && r.lastSeen.None? && r.mentionFrequency == 0
  {
    var authors := Authors(interactions);
    MultisetCountBound(authors, name);
    var recent := multiset(authors)[name];
    if name in stats then
      var s := stats[name];
      Summary(name, s.interactions, Some(s.firstSeen), Some(s.lastSeen), recent, |s.mentionTimes|)
    else Summary(name, 0, None, None, recent, 0)
  }

  /** A count in a sequence is at most its length and is zero exactly for an absent value. */
  lemma {:induction false} MultisetCountBound<T>(xs: seq<T>, x: T)
    ensures multiset(xs)[x] <= |xs|
    ensures multiset(xs)[x] == 0 <==> x !in xs
    decreases |xs|
  {
    if |xs| > 0 {
      MultisetCountBound(xs[1..], x);
      assert xs == [xs[0]] + xs[1..];
      assert multiset(xs) == multiset{xs[0]} + multiset(xs[1..]);
    }
  }

  /**
   * `InteractionAnalyzer()`: the interactions, per-author statistics (with the agents in the
   * order first seen, as the dictionary keeps them), the last findings and the blocked chains.
   */
  class Analyzer {
    const fingerprint: set<string> -> string
    var interactions: seq<Interaction>
    var stats: map<string, AgentStats>
    var agents: seq<string>
    var detected: seq<Found>
    var blockedChains: set<string>

    ghost predicate Valid()
      reads this
    {
      StatsValid(agents, stats)
    }

    constructor (fingerprint: set<string> -> string)
      ensures Valid()
      ensures this.fingerprint == fingerprint
      ensures interactions == [] && stats == map[] && agents == [] && detected == [] && blockedChains == {}
    {
      this.fingerprint := fingerprint;
      interactions := [];
      stats := map[];
      agents := [];
      detected := [];
      blockedChains := {};
    }

    /** `_content_hash(content)` */
    function ContentHash(e: Engine, content: string): string
      reads this
    {
      fingerprint(WordSet(e, content))
    }

    /**
     * `record_interaction(author, content, kind, post_id, parent_author, mentions)` at `now`:
     * the interaction is appended and its author's statistics updated.
     */
    method RecordInteraction(e: Engine, author: string, content: string, kind: string,
                             postId: Option<string>, parentAuthor: Option<string>,
                             mentions: seq<string>, now: real)
      requires Valid()
      modifies this
      ensures Valid()
      ensures interactions == old(interactions) + [Interaction(author, ContentHash(e, content), Take(content, PREVIEW),
                                                               kind, now, postId, parentAuthor, mentions)]
      ensures stats == old(stats)[author := Updated(if author in old(stats) then Some(old(stats)[author]) else None,
                                                    ContentHash(e, content), kind, now)]
      ensures agents == WithAgent(old(agents), old(stats), author)
      ensures detected == old(detected) && blockedChains == old(blockedChains)
    {
      var h := ContentHash(e, content);
      interactions := interactions + [Interaction(author, h, Take(content, PREVIEW), kind, now, postId, parentAuthor, mentions)];
      var s := Updated(if author in stats then Some(stats[author]) else None, h, kind, now);
      StatsUpdate(agents, stats, author, s);
      agents := WithAgent(agents, stats, author);
      stats := stats[author := s];
    }

    /** `analyze_patterns(window_hours)` at `now`; the findings are kept. */
    method AnalyzePatterns(windowHours: int, now: real) returns (r: AnalysisResult)
      modifies this
      ensures r == Analysis(interactions, agents, stats, windowHours, now)
      ensures detected == r.patterns
      ensures interactions == old(interactions) && stats == old(stats) && agents == old(agents)
      ensures blockedChains == old(blockedChains)
    {
      r := Analysis(interactions, agents, stats, windowHours, now);
      detected := r.patterns;
    }

    method CheckReplyChain(postId: string, depth: int) returns (r: (bool, string))
      ensures r == ReplyChain(blockedChains, postId, depth)
      ensures r.0 ==> postId !in blockedChains && depth < REPLY_CHAIN_DEPTH
    {
      r := ReplyChain(blockedChains, postId, depth);
    }

    /** `block_chain(post_id, reason)`: afterwards every check of the chain refuses. */
    method BlockChain(postId: string, reason: string)
      modifies this
      ensures blockedChains == old(blockedChains) + {postId}
      ensures forall d :: !ReplyChain(blockedChains, postId, d).0
      ensures interactions == old(interactions) && stats == old(stats) && agents == old(agents)
      ensures detected == old(detected)
    {
      blockedChains := blockedChains + {postId};
    }

    /** `get_agent_summary(agent_name)` */
    method GetAgentSummary(name: string) returns (r: Summary)
      ensures r == AgentSummary(interactions, stats, name)
    {
      r := AgentSummary(interactions, stats, name);
    }

    method GetStats() returns (s: Stats)
      ensures s == Stats(|interactions|, |stats|, |blockedChains|, |detected|)
    {
      s := Stats(|interactions|, |stats|, |blockedChains|, |detected|);
    }
  }
}
