/**
 * Content provenance (`ContentProvenance`): every piece of content is tracked under a short
 * hash of its normalized text, with the agent who first posted it and the agents who reposted
 * it since. A check scores a sighting of the content from its author's reputation, a false
 * claim of originality, the length of its repost chain, campaign wording and nested quotes.
 * SHA-256 is the uninterpreted `digest` (text to hex digest); times are seconds, passed in as
 * `now`.
 */
module ContentProvenance {
  import opened Wrappers
  import opened Strings
  import opened Regex
  import opened Scoring

  /** The `CHAIN_RISK` weights the check uses. */
  const KNOWN_BAD_ORIGIN := 0.5
  const MANY_INTERMEDIARIES := 0.1
  /** Risk added for content claimed as original by someone who did not post it first. */
  const FALSE_CLAIM := 0.2
  const CAMPAIGN := 0.3
  /** Risk added per quote once there are more than two. */
  const PER_QUOTE := 0.1

  /** `CAMPAIGN_INDICATORS`, compiled ignoring case. */
  const CAMPAIGN_INDICATORS: seq<Pattern> := [
    I(@"#\w+.*#\w+.*#\w+"),
    I(@"(repost|share|spread)\s+(this|the word)"),
    I(@"(copy|paste)\s+(this|and share)"),
    I(@"(RT|retweet|boost):")
  ]

  /** The quote patterns of `_extract_quoted_content`, with `re.MULTILINE | re.DOTALL`. */
  const QUOTE_PATTERNS: seq<Pattern> := [
    Pattern(@">\s*(.+?)(?=\n[^>]|\Z)", Flags(false, true, true)),
    Pattern("\"([^\"]{20,})\"", Flags(false, true, true)),
    Pattern("\U{300C}([^\U{300D}]{20,})\U{300D}", Flags(false, true, true)),
    Pattern(@"@\w+\s+said[:\s]+(.+?)(?=\n\n|\Z)", Flags(false, true, true))
  ]

  /** `ContentOrigin`; `firstSeen` is a time rather than an ISO string. */
  datatype Origin = Origin(
    contentHash: string, originalAuthor: string, firstSeen: real, chainLength: int,
    intermediaries: seq<string>, riskScore: real, flags: seq<string>)

  /** What a check warns about; `Text` gives the message and `Weight` the risk it adds. */
  datatype Warning =
    | FlaggedContent
    | FlaggedSource(author: string)
    | ClaimedOriginal
    | LongChain(length: int)
    | Campaign
    | NestedQuotes(count: nat)

  /** `ProvenanceCheckResult` */
  datatype CheckResult = CheckResult(
    isSafe: bool, riskLevel: Risk, origin: Option<Origin>, warnings: seq<Warning>,
    recommendation: string)

  /** `get_stats()` */
  datatype Stats = Stats(trackedContent: nat, flaggedContent: nat, flaggedSources: nat, longChains: nat)

  function Text(w: Warning): string {
    match w
    case FlaggedContent => "This content has been flagged as malicious"
    case FlaggedSource(a) => "Author @" + a + " is flagged as suspicious"
    case ClaimedOriginal => "Content claimed as original but seen before"
    case LongChain(n) => "Content has passed through " + IntToString(n) + " agents"
    case Campaign => "Content appears to be part of a coordinated campaign"
    case NestedQuotes(n) => "Content contains " + NatToString(n) + " levels of quotes"
  }

  /**
   * The risk each warning adds. Flagged content is never scored by the check; its weight is
   * the 1.0 that flagging pins an origin's risk at.
   */
  function Weight(w: Warning): real {
    match w
    case FlaggedContent => 1.0
    case FlaggedSource(_) => KNOWN_BAD_ORIGIN
    case ClaimedOriginal => FALSE_CLAIM
    case LongChain(n) => MANY_INTERMEDIARIES * n as real
    case Campaign => CAMPAIGN
    case NestedQuotes(n) => PER_QUOTE * n as real
  }

  /** The risk of a list of warnings: the sum of their weights. */
  function Total(ws: seq<Warning>): real {
    if |ws| == 0 then 0.0 else Weight(ws[0]) + Total(ws[1..])
  }

  lemma {:induction false} TotalAppend(a: seq<Warning>, b: seq<Warning>)
    ensures Total(a + b) == Total(a) + Total(b)
    decreases |a|
  {
    if |a| > 0 {
      assert (a + b)[0] == a[0] && (a + b)[1..] == a[1..] + b;
      TotalAppend(a[1..], b);
    } else {
      assert a + b == b;
    }
  }

  function RealMax(a: real, b: real): real { if a >= b then a else b }

  /** `_hash_content(content)`: the first 16 hex digits of the digest of the normalized text. */
  function Hash(digest: string -> string, content: string): (h: string)
    ensures |h| <= 16
  {
    Take(digest(Normalize(content)), 16)
  }

  /** The hash depends only on the normalized text: normalizing first changes nothing. */
  lemma HashOfNormalized(digest: string -> string, content: string)
    ensures Hash(digest, Normalize(content)) == Hash(digest, content)
  {
    NormalizeIdempotent(content);
  }

  /** In particular, the hash ignores the case of the text. */
  lemma HashIgnoresCase(digest: string -> string, content: string)
    ensures Hash(digest, Lower(content)) == Hash(digest, content)
  {
    LowerIsLowered(content);
    LoweredFixed(Lower(content));
  }

  /** No element of `xs` occurs twice. */
  predicate Distinct(xs: seq<string>) {
    forall i, j :: 0 <= i < j < |xs| ==> xs[i] != xs[j]
  }

  /** The chain `get_chain` reports: the original author, then the reposters in order. */
  function Chain(o: Origin): seq<string> {
    [o.originalAuthor] + o.intermediaries
  }

  /**
   * What the check keeps true of an origin: its chain length counts the original author and
   * each reposter once, nobody appears twice in the chain, and its risk is not negative.
   */
  predicate WellFormed(o: Origin) {
    && o.chainLength == |o.intermediaries| + 1
    && Distinct(Chain(o))
    && o.riskScore >= 0.0
  }

  /** A well-formed origin's chain has `chainLength` distinct names. */
  lemma ChainLength(o: Origin)
    requires WellFormed(o)
    ensures |Chain(o)| == o.chainLength && Distinct(Chain(o))
    ensures o.originalAuthor !in o.intermediaries
  {
    forall k | 0 <= k < |o.intermediaries| ensures o.intermediaries[k] != o.originalAuthor {
      assert Chain(o)[0] == o.originalAuthor && Chain(o)[k + 1] == o.intermediaries[k];
    }
  }

  /** A first sighting: the author is the original, nobody has reposted it, no risk yet. */
  function NewOrigin(h: string, author: string, now: real, flags: seq<string>): (o: Origin)
    ensures WellFormed(o) && Chain(o) == [author]
  {
    Origin(h, author, now, 1, [], 0.0, flags)
  }

  /**
   * The chain update of a check by `author` of seen content: someone other than the original
   * author who has not reposted it yet is appended to the reposters, and the chain length
   * becomes their number plus one.
   */
  function Reposted(o: Origin, author: string): Origin {
    if author == o.originalAuthor || author in o.intermediaries then o
    else o.(intermediaries := o.intermediaries + [author],
            chainLength := |o.intermediaries| + 2)
  }

  /**
   * A repost appends its author to the chain once: a name already in the chain (the original
   * author's included) changes nothing, and nothing but the chain changes.
   */
  lemma RepostedChain(o: Origin, author: string)
    ensures Chain(Reposted(o, author)) == if author in Chain(o) then Chain(o) else Chain(o) + [author]
    ensures author in Chain(Reposted(o, author))
    ensures var q := Reposted(o, author);
      q.contentHash == o.contentHash && q.originalAuthor == o.originalAuthor
      && q.firstSeen == o.firstSeen && q.riskScore == o.riskScore && q.flags == o.flags
  {
    if author !in Chain(o) {
      assert Chain(Reposted(o, author)) == Chain(o) + [author];
    } else {
      assert author == Chain(o)[0] || author in Chain(o)[1..];
    }
  }

  /** Reposting keeps an origin well formed, and reposting twice is reposting once. */
  lemma RepostedWellFormed(o: Origin, author: string)
    requires WellFormed(o)
    ensures WellFormed(Reposted(o, author))
    ensures Reposted(Reposted(o, author), author) == Reposted(o, author)
  {
    RepostedChain(o, author);
    var q := Reposted(o, author);
    if author !in Chain(o) {
      var c := Chain(o) + [author];
      assert Chain(q) == c;
      forall i, j | 0 <= i < j < |c| ensures c[i] != c[j] {
        if j == |c| - 1 {
          assert c[i] == Chain(o)[i];
        } else {
          assert c[i] == Chain(o)[i] && c[j] == Chain(o)[j];
        }
      }
    }
    RepostedChain(q, author);
    assert author in Chain(q);
  }

  /** Reposts by each of `authors` in turn. */
  function RepostedAll(o: Origin, authors: seq<string>): Origin
    decreases |authors|
  {
    if |authors| == 0 then o else RepostedAll(Reposted(o, authors[0]), authors[1..])
  }

  /**
   * A run of reposts by distinct agents new to the chain grows the chain by exactly those
   * agents, in order, and the chain length by their number.
   */
  lemma {:induction false} RepostedAllGrows(o: Origin, authors: seq<string>)
    requires WellFormed(o)
    requires Distinct(authors)
    requires forall a :: a in authors ==> a !in Chain(o)
    ensures Chain(RepostedAll(o, authors)) == Chain(o) + authors
    ensures RepostedAll(o, authors).chainLength == o.chainLength + |authors|
    ensures WellFormed(RepostedAll(o, authors))
    decreases |authors|
  {
    if |authors| > 0 {
      RepostStep(o, authors);
      RepostedAllGrows(Reposted(o, authors[0]), authors[1..]);
      assert Chain(o) + authors == Chain(o) + [authors[0]] + authors[1..];
    }
  }

  /** One step of `RepostedAllGrows`: the first new author joins, the rest are still new. */
  lemma RepostStep(o: Origin, authors: seq<string>)
    requires WellFormed(o) && Distinct(authors) && |authors| > 0
    requires forall a :: a in authors ==> a !in Chain(o)
    ensures var q := Reposted(o, authors[0]);
      && WellFormed(q) && Chain(q) == Chain(o) + [authors[0]] && q.chainLength == o.chainLength + 1
      && Distinct(authors[1..]) && forall a :: a in authors[1..] ==> a !in Chain(q)
  {
    RepostedChain(o, authors[0]);
    RepostedWellFormed(o, authors[0]);
    assert authors[0] in authors;
    DistinctRest(authors);
    var q := Reposted(o, authors[0]);
    forall a | a in authors[1..] ensures a !in Chain(q) {
      assert a in authors;
    }
  }

  /** The rest of a list without repeats has none, nor its first element. */
  lemma DistinctRest(xs: seq<string>)
    requires Distinct(xs) && |xs| > 0
    ensures Distinct(xs[1..]) && xs[0] !in xs[1..]
  {
    var rest := xs[1..];
    forall i, j | 0 <= i < j < |rest| ensures rest[i] != rest[j] {
      assert rest[i] == xs[i + 1] && rest[j] == xs[j + 1];
    }
    forall k | 0 <= k < |rest| ensures rest[k] != xs[0] {
      assert rest[k] == xs[k + 1];
    }
  }

  /** `quoted_from` is falsy: absent or empty. */
  predicate NoQuote(quotedFrom: Option<string>) {
    quotedFrom == None || quotedFrom == Some("")
  }

  /** `len(self._extract_quoted_content(content))`: the matches of all quote patterns together. */
  function QuoteCount(e: Engine, ps: seq<Pattern>, content: string): nat
    decreases |ps|
  {
    if |ps| == 0 then 0 else |e.findAll(ps[0], content)| + QuoteCount(e, ps[1..], content)
  }

  /**
   * The warnings of `check_content` for content that is not flagged, in the order the source
   * adds them: a flagged author; for content first posted by someone else, a false claim of
   * originality and, when the author joins the chain and makes it too long, the chain length;
   * campaign wording; more than two quotes.
   */
  function Concerns(e: Engine, prior: Option<Origin>, content: string, author: string,
                    quotedFrom: Option<string>, claimOriginal: bool, badSource: bool,
                    maxSafe: int): seq<Warning>
  {
    (if badSource then [FlaggedSource(author)] else [])
    + RepostConcerns(prior, author, quotedFrom, claimOriginal, maxSafe)
    + ContentConcerns(e, content)
  }

  /** The warnings about a sighting of content that someone else posted first. */
  function RepostConcerns(prior: Option<Origin>, author: string, quotedFrom: Option<string>,
                          claimOriginal: bool, maxSafe: int): seq<Warning>
  {
    if prior.Some? && prior.value.originalAuthor != author then
      (if NoQuote(quotedFrom) && claimOriginal then [ClaimedOriginal] else [])
      + (var q := Reposted(prior.value, author);
         if author !in prior.value.intermediaries && q.chainLength > maxSafe
         then [LongChain(q.chainLength)] else [])
    else []
  }

  /** The warnings about the text itself: campaign wording, more than two quotes. */
  function ContentConcerns(e: Engine, content: string): seq<Warning> {
    var quotes := QuoteCount(e, QUOTE_PATTERNS, content);
    (if AnySearch(e, CAMPAIGN_INDICATORS, content) then [Campaign] else [])
    + (if quotes > 2 then [NestedQuotes(quotes)] else [])
  }

  function Recommendation(level: Risk): string {
    match level
    case High | Critical => "Avoid engaging with this content"
    case Medium => "Proceed with caution"
    case Low => "Appears relatively safe"
    case NoRisk => "No provenance concerns"
  }

  /** The answer for flagged content, which carries its origin only if one was recorded. */
  function FlaggedResult(origins: map<string, Origin>, h: string): (r: CheckResult)
    ensures !r.isSafe && r.riskLevel == High && r.warnings == [FlaggedContent]
    ensures r.origin.Some? <==> h in origins
  {
    CheckResult(false, High, if h in origins then Some(origins[h]) else None,
                [FlaggedContent], "Do not engage with this content")
  }

  /**
   * `check_content` on content with hash `h` that is not flagged: the origin seen before (or
   * a new one) takes the repost, its risk becomes the larger of its old risk and this check's,
   * and the check's risk is banded into the verdict.
   */
  function Checked(e: Engine, prior: Option<Origin>, h: string, content: string, author: string,
                   quotedFrom: Option<string>, claimOriginal: bool, badSource: bool,
                   maxSafe: int, now: real): (r: CheckResult)
    ensures r.origin.Some?
  {
    var ws := Concerns(e, prior, content, author, quotedFrom, claimOriginal, badSource, maxSafe);
    var risk := Total(ws);
    var base := if prior.Some? then Reposted(prior.value, author) else NewOrigin(h, author, now, []);
    var level := Banded(risk);
    CheckResult(Score(level) <= 1, level, Some(base.(riskScore := RealMax(base.riskScore, risk))),
                ws, Recommendation(level))
  }

  /** No warning weighs less than nothing, so no check's risk is negative. */
  lemma {:induction false} TotalNonNegative(ws: seq<Warning>)
    requires forall i :: 0 <= i < |ws| ==> !ws[i].LongChain? || ws[i].length >= 0
    ensures Total(ws) >= 0.0
    decreases |ws|
  {
    if |ws| > 0 {
      assert forall i :: 1 <= i < |ws| ==> ws[1..][i - 1] == ws[i];
      TotalNonNegative(ws[1..]);
    }
  }

  /** A chain length the check warns about is the new, positive length of the chain. */
  lemma ConcernsNonNegative(e: Engine, prior: Option<Origin>, content: string, author: string,
                            quotedFrom: Option<string>, claimOriginal: bool, badSource: bool, maxSafe: int)
    requires prior.Some? ==> WellFormed(prior.value)
    ensures Total(Concerns(e, prior, content, author, quotedFrom, claimOriginal, badSource, maxSafe)) >= 0.0
  {
    var ws := Concerns(e, prior, content, author, quotedFrom, claimOriginal, badSource, maxSafe);
    if prior.Some? {
      RepostedWellFormed(prior.value, author);
    }
    TotalNonNegative(ws);
  }

  /**
   * The verdict of a check is the band of the sum of its warnings' weights: unsafe exactly
   * from 0.4, "high" from 0.7, "medium" from 0.4, "low" from 0.2, "none" below.
   */
  lemma CheckedVerdict(e: Engine, prior: Option<Origin>, h: string, content: string, author: string,
                       quotedFrom: Option<string>, claimOriginal: bool, badSource: bool,
                       maxSafe: int, now: real)
    ensures var r := Checked(e, prior, h, content, author, quotedFrom, claimOriginal, badSource, maxSafe, now);
      && r.riskLevel == Banded(Total(r.warnings))
      && (r.isSafe <==> Total(r.warnings) < 0.4)
      && r.recommendation == Recommendation(r.riskLevel)
  {
  }

  /** A check leaves the content's origin well formed and filed under the content's hash. */
  lemma CheckedWellFormed(e: Engine, prior: Option<Origin>, h: string, content: string, author: string,
                          quotedFrom: Option<string>, claimOriginal: bool, badSource: bool,
                          maxSafe: int, now: real)
    requires prior.Some? ==> WellFormed(prior.value) && prior.value.contentHash == h
    ensures var o := Checked(e, prior, h, content, author, quotedFrom, claimOriginal, badSource, maxSafe, now).origin.value;
      WellFormed(o) && o.contentHash == h
  {
    ConcernsNonNegative(e, prior, content, author, quotedFrom, claimOriginal, badSource, maxSafe);
    if prior.Some? {
      RepostedWellFormed(prior.value, author);
      RepostedChain(prior.value, author);
    }
  }

  /** A first sighting stores a new origin: the author, a chain of one, no reposters. */
  lemma CheckedFirstSighting(e: Engine, h: string, content: string, author: string,
                             quotedFrom: Option<string>, claimOriginal: bool, badSource: bool,
                             maxSafe: int, now: real)
    ensures var r := Checked(e, None, h, content, author, quotedFrom, claimOriginal, badSource, maxSafe, now);
      var o := r.origin.value;
      && o.contentHash == h && o.originalAuthor == author && o.firstSeen == now
      && o.chainLength == 1 && o.intermediaries == [] && o.flags == []
      && o.riskScore == Total(r.warnings)
      && ClaimedOriginal !in r.warnings && (forall n :: LongChain(n) !in r.warnings)
  {
    ConcernsNonNegative(e, None, content, author, quotedFrom, claimOriginal, badSource, maxSafe);
  }

  /**
   * Checking seen content appends the author to its chain once (see `RepostedChain`), and the
   * stored risk never decreases: it is at least the old risk and at least this check's risk.
   */
  lemma CheckedSeen(e: Engine, o: Origin, h: string, content: string, author: string,
                    quotedFrom: Option<string>, claimOriginal: bool, badSource: bool,
                    maxSafe: int, now: real)
    ensures var r := Checked(e, Some(o), h, content, author, quotedFrom, claimOriginal, badSource, maxSafe, now);
      var q := r.origin.value;
      && q == Reposted(o, author).(riskScore := q.riskScore)
      && q.riskScore >= o.riskScore && q.riskScore >= Total(r.warnings)
      && (q.riskScore == o.riskScore || q.riskScore == Total(r.warnings))
  {
    RepostedChain(o, author);
  }

  /**
   * A false claim of originality is only held against someone other than the original author,
   * and only when they claim it without naming a source; a long-chain warning only comes with
   * a new reposter, and names the chain's new length.
   */
  lemma ConcernsMeaning(e: Engine, prior: Option<Origin>, content: string, author: string,
                        quotedFrom: Option<string>, claimOriginal: bool, badSource: bool, maxSafe: int)
    ensures var ws := Concerns(e, prior, content, author, quotedFrom, claimOriginal, badSource, maxSafe);
      && (ClaimedOriginal in ws <==>
            prior.Some? && prior.value.originalAuthor != author && claimOriginal && NoQuote(quotedFrom))
      && (forall n :: LongChain(n) in ws ==>
            prior.Some? && author !in Chain(prior.value)
            && n == Reposted(prior.value, author).chainLength && n > maxSafe)
  {
    var a: seq<Warning> := if badSource then [FlaggedSource(author)] else [];
    var b := RepostConcerns(prior, author, quotedFrom, claimOriginal, maxSafe);
    var c := ContentConcerns(e, content);
    assert Concerns(e, prior, content, author, quotedFrom, claimOriginal, badSource, maxSafe) == a + b + c;
    RepostConcernsMeaning(prior, author, quotedFrom, claimOriginal, maxSafe);
    assert forall w :: w in a + c ==> w == Campaign || w.NestedQuotes? || w.FlaggedSource?;
  }

  /** A flagged author and campaign wording are always reported, and only then. */
  lemma ConcernsOfSource(e: Engine, prior: Option<Origin>, content: string, author: string,
                         quotedFrom: Option<string>, claimOriginal: bool, badSource: bool, maxSafe: int)
    ensures var ws := Concerns(e, prior, content, author, quotedFrom, claimOriginal, badSource, maxSafe);
      && (FlaggedSource(author) in ws <==> badSource)
      && (Campaign in ws <==> AnySearch(e, CAMPAIGN_INDICATORS, content))
      && FlaggedContent !in ws
  {
    var a: seq<Warning> := if badSource then [FlaggedSource(author)] else [];
    var b := RepostConcerns(prior, author, quotedFrom, claimOriginal, maxSafe);
    var c := ContentConcerns(e, content);
    assert Concerns(e, prior, content, author, quotedFrom, claimOriginal, badSource, maxSafe) == a + b + c;
    RepostConcernsMeaning(prior, author, quotedFrom, claimOriginal, maxSafe);
    ContentConcernsMeaning(e, content);
  }

  lemma ContentConcernsMeaning(e: Engine, content: string)
    ensures Campaign in ContentConcerns(e, content) <==> AnySearch(e, CAMPAIGN_INDICATORS, content)
    ensures forall w :: w in ContentConcerns(e, content) ==> w == Campaign || w.NestedQuotes?
  {
  }

  lemma RepostConcernsMeaning(prior: Option<Origin>, author: string, quotedFrom: Option<string>,
                              claimOriginal: bool, maxSafe: int)
    ensures var ws := RepostConcerns(prior, author, quotedFrom, claimOriginal, maxSafe);
      && (ClaimedOriginal in ws <==>
            prior.Some? && prior.value.originalAuthor != author && claimOriginal && NoQuote(quotedFrom))
      && (forall n :: LongChain(n) in ws ==>
            prior.Some? && author !in Chain(prior.value)
            && n == Reposted(prior.value, author).chainLength && n > maxSafe)
      && (forall w :: w in ws ==> w == ClaimedOriginal || w.LongChain?)
  {
    if prior.Some? && prior.value.originalAuthor != author && author !in prior.value.intermediaries {
      RepostedChain(prior.value, author);
    }
  }

  /** `record_origin(content, author)`: a fresh origin marked "original". */
  function Recorded(h: string, author: string, now: real): (o: Origin)
    ensures WellFormed(o) && o.contentHash == h && Chain(o) == [author] && o.flags == ["original"]
  {
    NewOrigin(h, author, now, ["original"])
  }

  /** `flag_content` on a recorded origin: the reason is added to its flags, its risk pinned at 1.0. */
  function FlaggedOrigin(o: Origin, reason: string): (q: Origin)
    ensures q.flags == o.flags + [reason] && q.riskScore == 1.0
    ensures Chain(q) == Chain(o) && q.chainLength == o.chainLength
    ensures WellFormed(o) ==> WellFormed(q)
  {
    o.(flags := o.flags + [reason], riskScore := 1.0)
  }

  /** Every origin is well formed and filed under its own hash. */
  ghost predicate OriginsValid(origins: map<string, Origin>) {
    forall h :: h in origins ==> WellFormed(origins[h]) && origins[h].contentHash == h
  }

  lemma OriginsUpdate(origins: map<string, Origin>, o: Origin)
    requires OriginsValid(origins) && WellFormed(o)
    ensures OriginsValid(origins[o.contentHash := o])
  {
  }

  /** The origins whose chains are longer than `maxSafe`. */
  function LongChains(origins: map<string, Origin>, maxSafe: int): set<string> {
    set h | h in origins && origins[h].chainLength > maxSafe
  }

  /**
   * `ContentProvenance(max_safe_chain_length)`: the origins by hash, the flagged content
   * hashes and the flagged authors.
   */
  class Provenance {
    const digest: string -> string
    const maxSafeChainLength: int
    var origins: map<string, Origin>
    var flaggedContent: set<string>
    var flaggedSources: set<string>

    ghost predicate Valid()
      reads this
    {
      OriginsValid(origins)
    }

    /** A tracker with nothing loaded. */
    constructor (digest: string -> string, maxSafeChainLength: int)
      ensures Valid()
      ensures this.digest == digest && this.maxSafeChainLength == maxSafeChainLength
      ensures origins == map[] && flaggedContent == {} && flaggedSources == {}
    {
      this.digest := digest;
      this.maxSafeChainLength := maxSafeChainLength;
      origins := map[];
      flaggedContent := {};
      flaggedSources := {};
    }

    /**
     * `check_content(content, author, quoted_from, claim_original)` at `now`. Flagged content
     * is refused before anything is recorded; otherwise the content's origin (created on first
     * sight) is updated as `Checked` says.
     */
    method CheckContent(e: Engine, content: string, author: string, quotedFrom: Option<string>,
                        claimOriginal: bool, now: real) returns (r: CheckResult)
      requires Valid()
      modifies this
      ensures Valid()
      ensures flaggedContent == old(flaggedContent) && flaggedSources == old(flaggedSources)
      ensures var h := Hash(digest, content);
        h in flaggedContent ==> r == FlaggedResult(old(origins), h) && origins == old(origins)
      ensures var h := Hash(digest, content);
        h !in flaggedContent ==>
          && r == Checked(e, if h in old(origins) then Some(old(origins)[h]) else None, h, content,
                          author, quotedFrom, claimOriginal, author in flaggedSources,
                          maxSafeChainLength, now)
          && origins == old(origins)[h := r.origin.value]
    {
      var h := Hash(digest, content);
      if h in flaggedContent {
        return FlaggedResult(origins, h);
      }
      var prior := if h in origins then Some(origins[h]) else None;
      r := Checked(e, prior, h, content, author, quotedFrom, claimOriginal, author in flaggedSources,
                   maxSafeChainLength, now);
      CheckedWellFormed(e, prior, h, content, author, quotedFrom, claimOriginal,
                        author in flaggedSources, maxSafeChainLength, now);
      OriginsUpdate(origins, r.origin.value);
      origins := origins[h := r.origin.value];
    }

    /** `record_origin(content, author)` at `now`: any earlier origin is replaced. */
    method RecordOrigin(content: string, author: string, now: real)
      requires Valid()
      modifies this
      ensures Valid()
      ensures origins == old(origins)[Hash(digest, content) := Recorded(Hash(digest, content), author, now)]
      ensures flaggedContent == old(flaggedContent) && flaggedSources == old(flaggedSources)
    {
      var o := Recorded(Hash(digest, content), author, now);
      OriginsUpdate(origins, o);
      origins := origins[o.contentHash := o];
    }

    /** `flag_content(content, reason)`: the hash is flagged; a recorded origin is flagged too. */
    method FlagContent(content: string, reason: string)
      requires Valid()
      modifies this
      ensures Valid()
      ensures flaggedContent == old(flaggedContent) + {Hash(digest, content)}
      ensures var h := Hash(digest, content);
        origins == if h in old(origins) then old(origins)[h := FlaggedOrigin(old(origins)[h], reason)] else old(origins)
      ensures flaggedSources == old(flaggedSources)
    {
      var h := Hash(digest, content);
      flaggedContent := flaggedContent + {h};
      if h in origins {
        var q := FlaggedOrigin(origins[h], reason);
        OriginsUpdate(origins, q);
        origins := origins[h := q];
      }
    }

    /** `flag_source(author, reason)`; the reason only goes to the log. */
    method FlagSource(author: string, reason: string)
      modifies this
      ensures flaggedSources == old(flaggedSources) + {author}
      ensures origins == old(origins) && flaggedContent == old(flaggedContent)
    {
      flaggedSources := flaggedSources + {author};
    }

    /**
     * `get_chain(content)`: the original author and the reposters of the content, or nothing
     * for unseen content; the chain has `chain_length` distinct names.
     */
    method GetChain(content: string) returns (r: Option<seq<string>>)
      requires Valid()
      ensures var h := Hash(digest, content);
        && (r.Some? <==> h in origins)
        && (r.Some? ==> r.value == Chain(origins[h]) && |r.value| == origins[h].chainLength
                        && Distinct(r.value) && r.value[0] == origins[h].originalAuthor)
    {
      var h := Hash(digest, content);
      if h !in origins {
        return None;
      }
      ChainLength(origins[h]);
      r := Some(Chain(origins[h]));
    }

    /** `get_stats()` */
    method GetStats() returns (s: Stats)
      ensures s == Stats(|origins|, |flaggedContent|, |flaggedSources|,
                         |LongChains(origins, maxSafeChainLength)|)
    {
      s := Stats(|origins|, |flaggedContent|, |flaggedSources|, |LongChains(origins, maxSafeChainLength)|);
    }
  }
}
