/**
 * Memory sanitizer (`MemorySanitizer`): content is scored for attack fragments before it is
 * kept in long-term memory, the last day's memories are joined and scanned for attacks that
 * only appear once the fragments are assembled, and suspicious entries can be purged. The
 * memory is a dictionary in insertion order (a map and the order of its keys). Hashes are
 * the `hash` function given at construction; times are seconds, passed in as `now`.
 */
module MemorySanitizer {
  import opened Wrappers
  import opened Strings
  import opened Regex
  import opened Scoring
  import Base64

  /** One entry of `FRAGMENT_PATTERNS`: its key, its pattern (compiled ignoring case) and its weight. */
  datatype FragmentPattern = FragmentPattern(name: string, pattern: Pattern, risk: real)

  const FRAGMENT_PATTERNS: seq<FragmentPattern> := [
    FragmentPattern("base64_chunk", I(@"[A-Za-z0-9+/]{20,}={0,2}"), 0.3),
    FragmentPattern("hex_fragment", I(@"(?:0x)?[0-9a-fA-F]{16,}"), 0.3),
    FragmentPattern("url_encoded", I(@"(?:%[0-9a-fA-F]{2}){5,}"), 0.4),
    FragmentPattern("partial_instruction", I(@"(?:ignore|disregard|forget|override)(?:\s|$)"), 0.5),
    FragmentPattern("continuation_marker", I(@"(?:part\s*\d|continued|to\s+be\s+continued|next\s+part)"), 0.4),
    FragmentPattern("code_fragment", I(@"(?:eval|exec|import|require|function)\s*\("), 0.6),
    FragmentPattern("credential_fragment", I(@"(?:sk-|moltbook_|api_?key|Bearer\s)"), 0.7)
  ]

  /** `ASSEMBLED_ATTACK_PATTERNS`, compiled ignoring case and multi-line. */
  const ASSEMBLED_ATTACK_PATTERNS: seq<Pattern> := [
    IM(@"ignore\s+(all\s+)?(previous|prior)\s+instructions"),
    IM(@"disregard\s+(all\s+)?(your|previous)\s+"),
    IM(@"you\s+are\s+now\s+"),
    IM(@"new\s+instructions?\s*:"),
    IM(@"system\s*:\s*you"),
    IM(@"(?:sk-[A-Za-z0-9]{48,}|moltbook_[a-z]{2}_[A-Za-z0-9]{32,})"),
    IM(@"curl\s+.*?http"),
    IM(@"wget\s+.*?http"),
    IM(@"exec\s*\([^)]+\)"),
    IM(@"eval\s*\([^)]+\)")
  ]

  /** The base64 runs the assembled scan tries to decode. */
  const B64_RUN := Plain(@"[A-Za-z0-9+/]{30,}={0,2}")

  const STORED_CHARS := 500
  const ATTACK_RISK := 1.0
  const FLAGGED_RISK := 0.5
  const DAY := 86400.0
  const MIN_FRAGMENTS := 3     // a pattern needs more matches than this to count in the assembled scan
  const MEDIUM_FRAGMENTS := 10 // more fragments than this in all make the scan "medium"
  const ATTACKS_SHOWN := 3
  const RUNS_DECODED := 5
  const DECODED_SHOWN := 50

  /** `MemoryEntry`; `time` replaces the ISO timestamp. */
  datatype Entry = Entry(id: string, content: string, time: real, source: string, flagged: bool, riskScore: real)

  /** `MemoryScanResult` */
  datatype ScanResult = ScanResult(
    isSafe: bool, riskLevel: Risk, suspiciousPatterns: seq<string>, assembledAttacks: seq<string>,
    recommendations: seq<string>, fragmentsDetected: nat)

  /** `get_stats()`, the average unrounded. */
  datatype Stats = Stats(
    totalEntries: nat, flaggedEntries: nat, averageRiskScore: real, flaggedHashes: nat,
    lastScan: Option<real>, needsScan: bool)

  // ---------------------------------------------------------------------------------------
  // sanitize_before_store

  /** The weight of the fragments: each pattern's weight times its number of matches. */
  function FragmentRisk(e: Engine, table: seq<FragmentPattern>, content: string): real {
    if |table| == 0 then 0.0
    else table[0].risk * |e.findAll(table[0].pattern, content)| as real + FragmentRisk(e, table[1..], content)
  }

  /** The notes of the matching fragment patterns: "<name>: <n> matches". */
  function FragmentNotes(e: Engine, table: seq<FragmentPattern>, content: string): seq<string> {
    if |table| == 0 then []
    else
      var n := |e.findAll(table[0].pattern, content)|;
      (if n > 0 then [table[0].name + ": " + NatToString(n) + " matches"] else [])
      + FragmentNotes(e, table[1..], content)
  }

  /** Weights that are never negative give a fragment weight that is never negative. */
  lemma {:induction false} FragmentRiskNonNegative(e: Engine, table: seq<FragmentPattern>, content: string)
    requires forall i :: 0 <= i < |table| ==> table[i].risk >= 0.0
    ensures FragmentRisk(e, table, content) >= 0.0
  {
    if |table| > 0 {
      FragmentRiskNonNegative(e, table[1..], content);
      assert table[0].risk * |e.findAll(table[0].pattern, content)| as real >= 0.0;
    }
  }

  /** No fragment match, no fragment weight. */
  lemma {:induction false} FragmentRiskNone(e: Engine, table: seq<FragmentPattern>, content: string)
    requires forall i :: 0 <= i < |table| ==> |e.findAll(table[i].pattern, content)| == 0
    ensures FragmentRisk(e, table, content) == 0.0
    ensures FragmentNotes(e, table, content) == []
  {
    if |table| > 0 {
      FragmentRiskNone(e, table[1..], content);
    }
  }

  /** The score of content: fragments, plus 1.0 once for an attack, plus 0.5 for a flagged hash. */
  function RiskOf(e: Engine, table: seq<FragmentPattern>, attacks: seq<Pattern>, flagged: set<string>,
                  h: string, content: string): real
  {
    FragmentRisk(e, table, content)
    + (if AnySearch(e, attacks, content) then ATTACK_RISK else 0.0)
    + (if h in flagged then FLAGGED_RISK else 0.0)
  }

  /** What the blocking message lists. */
  function Detected(e: Engine, table: seq<FragmentPattern>, attacks: seq<Pattern>, flagged: set<string>,
                    h: string, content: string): seq<string>
  {
    FragmentNotes(e, table, content)
    + (if AnySearch(e, attacks, content) then ["Complete attack pattern detected"] else [])
    + (if h in flagged then ["Previously flagged content"] else [])
  }

  /**
   * `sanitize_before_store(content, source)` at `now`, given the content's hash: whether the
   * content may be kept, the content or the blocking message, and the entry to keep.
   */
  function Sanitize(e: Engine, table: seq<FragmentPattern>, attacks: seq<Pattern>, flagged: set<string>,
                    threshold: real, h: string, content: string, source: string, now: real)
    : (bool, string, Option<Entry>)
  {
    if content == "" then (true, "", None)
    else
      var risk := RiskOf(e, table, attacks, flagged, h, content);
      if risk >= threshold then
        (false, "Content blocked: " + Join(", ", Detected(e, table, attacks, flagged, h, content)), None)
      else
        (true, content, Some(Entry(source + ":" + h, Take(content, STORED_CHARS), now, source, risk > threshold / 2.0, risk)))
  }

  /**
   * Empty content is accepted and nothing kept; other content is refused, and nothing kept,
   * exactly when its score reaches the threshold; accepted content comes back unchanged and is
   * kept under "<source>:<hash>", cut to 500 characters, flagged exactly when its score is
   * above half the threshold.
   */
  lemma SanitizeMeaning(e: Engine, table: seq<FragmentPattern>, attacks: seq<Pattern>, flagged: set<string>,
                        threshold: real, h: string, content: string, source: string, now: real)
    ensures var (ok, text, entry) := Sanitize(e, table, attacks, flagged, threshold, h, content, source, now);
      var risk := RiskOf(e, table, attacks, flagged, h, content);
      && (ok <==> content == "" || risk < threshold)
      && (ok ==> text == content)
      && (entry.Some? <==> ok && content != "")
      && (entry.Some? ==> && entry.value.id == source + ":" + h
                          && entry.value.content == Take(content, STORED_CHARS)
                          && |entry.value.content| <= STORED_CHARS
                          && StartsWith(content, entry.value.content)
                          && (entry.value.flagged <==> risk > threshold / 2.0)
                          && entry.value.riskScore == risk)
      && (!ok ==> StartsWith(text, "Content blocked: "))
  {
  }

  /**
   * Content whose hash is flagged scores half a point more than the same content unflagged,
   * and so is refused whenever its unflagged score is within half a point of the threshold.
   */
  lemma FlaggedHashRaisesRisk(e: Engine, table: seq<FragmentPattern>, attacks: seq<Pattern>, flagged: set<string>,
                              threshold: real, h: string, content: string, source: string, now: real)
    requires content != "" && h in flagged
    requires RiskOf(e, table, attacks, flagged - {h}, h, content) + FLAGGED_RISK >= threshold
    ensures RiskOf(e, table, attacks, flagged, h, content) == RiskOf(e, table, attacks, flagged - {h}, h, content) + FLAGGED_RISK
    ensures !Sanitize(e, table, attacks, flagged, threshold, h, content, source, now).0
  {
  }

  /** Every shipped weight is positive. */
  lemma FragmentWeightsPositive()
    ensures forall i :: 0 <= i < |FRAGMENT_PATTERNS| ==> FRAGMENT_PATTERNS[i].risk > 0.0
  {
  }

  /**
   * With a threshold of zero or below every non-empty content is refused, since no score is
   * negative.
   */
  lemma NonPositiveThresholdRefusesAll(e: Engine, flagged: set<string>, threshold: real, h: string, content: string,
                                       source: string, now: real)
    requires threshold <= 0.0 && content != ""
    ensures !Sanitize(e, FRAGMENT_PATTERNS, ASSEMBLED_ATTACK_PATTERNS, flagged, threshold, h, content, source, now).0
  {
    FragmentWeightsPositive();
    FragmentRiskNonNegative(e, FRAGMENT_PATTERNS, content);
  }

  // ---------------------------------------------------------------------------------------
  // scan_assembled_memory

  /** The entries of the keys, in order. */
  function Values(order: seq<string>, memory: map<string, Entry>): (r: seq<Entry>)
    requires forall k :: k in order ==> k in memory
    ensures |r| == |order|
    ensures forall i :: 0 <= i < |order| ==> r[i] == memory[order[i]]
  {
    if |order| == 0 then [] else [memory[order[0]]] + Values(order[1..], memory)
  }

  /** The entries of the last day before `now`, in order. */
  function Recent(entries: seq<Entry>, now: real): (r: seq<Entry>)
    ensures forall x :: x in r <==> x in entries && x.time > now - DAY
  {
    if |entries| == 0 then []
    else (if entries[0].time > now - DAY then [entries[0]] else []) + Recent(entries[1..], now)
  }

  function Contents(entries: seq<Entry>): (r: seq<string>)
    ensures |r| == |entries|
    ensures forall i :: 0 <= i < |entries| ==> r[i] == entries[i].content
  {
    if |entries| == 0 then [] else [entries[0].content] + Contents(entries[1..])
  }

  /** The first three matches of each attack pattern in the assembled text. */
  function AttackMatches(e: Engine, attacks: seq<Pattern>, combined: string): (r: seq<string>)
    ensures |r| <= ATTACKS_SHOWN * |attacks|
    ensures r != [] ==> AnySearch(e, attacks, combined)
  {
    if |attacks| == 0 then []
    else
      var ms := Take(ReportedAll(e.findAll(attacks[0], combined)), ATTACKS_SHOWN);
      var rest := AttackMatches(e, attacks[1..], combined);
      assert rest != [] ==> AnySearch(e, attacks, combined) by {
        if rest != [] {
          var i :| 0 <= i < |attacks[1..]| && Search(e, attacks[1..][i], combined);
          assert attacks[i + 1] == attacks[1..][i];
        }
      }
      ms + rest
  }

  /** Some attack pattern matches exactly when some match is reported. */
  lemma {:induction false} AttackMatchesMeaning(e: Engine, attacks: seq<Pattern>, combined: string)
    ensures AttackMatches(e, attacks, combined) != [] <==> AnySearch(e, attacks, combined)
  {
    if |attacks| > 0 {
      AttackMatchesMeaning(e, attacks[1..], combined);
      if AnySearch(e, attacks, combined) && !Search(e, attacks[0], combined) {
        var i :| 0 <= i < |attacks| && Search(e, attacks[i], combined);
        assert attacks[1..][i - 1] == attacks[i];
      }
      if Search(e, attacks[0], combined) {
        assert |ReportedAll(e.findAll(attacks[0], combined))| > 0;
      }
    }
  }

  /** The fragment patterns with more than three matches: "<name>: <n> fragments", and how many in all. */
  function Fragments(e: Engine, table: seq<FragmentPattern>, combined: string): (r: (seq<string>, nat))
    ensures |r.0| <= |table|
    ensures r.0 == [] ==> r.1 == 0
    ensures r.0 != [] ==> r.1 > MIN_FRAGMENTS
  {
    if |table| == 0 then ([], 0)
    else
      var n := |e.findAll(table[0].pattern, combined)|;
      var (notes, count) := Fragments(e, table[1..], combined);
      if n > MIN_FRAGMENTS then ([table[0].name + ": " + NatToString(n) + " fragments"] + notes, n + count)
      else (notes, count)
  }

  /** The run decodes as base64 to text an attack pattern matches. */
  predicate HidesAttack(e: Engine, attacks: seq<Pattern>, run: string) {
    Base64.Decode(run).Some? && AnySearch(e, attacks, Base64.AsciiText(Base64.Decode(run).value))
  }

  /** "Hidden in base64: ..." for each of the first five runs that decodes to text an attack pattern matches. */
  function Hidden(e: Engine, attacks: seq<Pattern>, runs: seq<string>): (r: seq<string>)
    ensures |r| <= |runs|
    ensures r != [] <==> exists i :: 0 <= i < |runs| && HidesAttack(e, attacks, runs[i])
  {
    if |runs| == 0 then []
    else
      var here :=
        match Base64.Decode(runs[0])
        case None => []
        case Some(bs) =>
          var decoded := Base64.AsciiText(bs);
          if AnySearch(e, attacks, decoded) then ["Hidden in base64: " + Take(decoded, DECODED_SHOWN)] else [];
      here + Hidden(e, attacks, runs[1..])
  }

  /** The verdict on what the scan found. */
  function ScanLevel(attacks: seq<string>, suspicious: seq<string>, fragments: nat): (Risk, bool) {
    if attacks != [] then (High, false)
    else if suspicious != [] && fragments > MEDIUM_FRAGMENTS then (Medium, false)
    else if suspicious != [] then (Low, true)
    else (NoRisk, true)
  }

  /** `scan_assembled_memory()` over the given entries (the last day's, in order). */
  function Scan(e: Engine, table: seq<FragmentPattern>, attacks: seq<Pattern>, recent: seq<Entry>): ScanResult {
    var combined := Join(" ", Contents(recent));
    var found := AttackMatches(e, attacks, combined)
      + Hidden(e, attacks, Take(ReportedAll(e.findAll(B64_RUN, combined)), RUNS_DECODED));
    var (suspicious, count) := Fragments(e, table, combined);
    var (level, safe) := ScanLevel(found, suspicious, count);
    ScanResult(safe, level, suspicious, found,
               if safe then []
               else ["Review flagged memory entries", "Consider purging suspicious content"]
                    + (if found != [] then ["Agent may be under fragmented attack"] else []),
               count)
  }

  /**
   * Any assembled attack makes the scan "high" and unsafe; otherwise fragments with more than
   * ten in all make it "medium" and unsafe, fewer make it "low" and safe, and none "none" and
   * safe. An unsafe scan always recommends a review.
   */
  lemma ScanMeaning(e: Engine, table: seq<FragmentPattern>, attacks: seq<Pattern>, recent: seq<Entry>)
    ensures var r := Scan(e, table, attacks, recent);
      && (r.assembledAttacks != [] ==> r.riskLevel == High && !r.isSafe)
      && ((r.assembledAttacks == [] && r.suspiciousPatterns != [] && r.fragmentsDetected > MEDIUM_FRAGMENTS)
            ==> r.riskLevel == Medium && !r.isSafe)
      && ((r.assembledAttacks == [] && r.suspiciousPatterns != [] && r.fragmentsDetected <= MEDIUM_FRAGMENTS)
            ==> r.riskLevel == Low && r.isSafe)
      && (r.assembledAttacks == [] && r.suspiciousPatterns == [] ==> r.riskLevel == NoRisk && r.isSafe)
      && (r.isSafe <==> Score(r.riskLevel) <= 1)
      && (!r.isSafe <==> |r.recommendations| >= 2)
      && (r.suspiciousPatterns == [] <==> r.fragmentsDetected == 0)
  {
  }

  /** An attack pattern that matches the joined text of the recent entries makes the scan unsafe. */
  lemma AssembledAttackIsHigh(e: Engine, table: seq<FragmentPattern>, attacks: seq<Pattern>, recent: seq<Entry>)
    requires AnySearch(e, attacks, Join(" ", Contents(recent)))
    ensures Scan(e, table, attacks, recent).riskLevel == High
    ensures !Scan(e, table, attacks, recent).isSafe
  {
    AttackMatchesMeaning(e, attacks, Join(" ", Contents(recent)));
  }

  /** An attack hidden in one of the first five base64 runs of the joined text makes the scan unsafe. */
  lemma HiddenAttackIsHigh(e: Engine, table: seq<FragmentPattern>, attacks: seq<Pattern>, recent: seq<Entry>, i: nat)
    requires var runs := ReportedAll(e.findAll(B64_RUN, Join(" ", Contents(recent))));
      i < |runs| && i < RUNS_DECODED && HidesAttack(e, attacks, runs[i])
    ensures Scan(e, table, attacks, recent).riskLevel == High
    ensures !Scan(e, table, attacks, recent).isSafe
  {
    var runs := ReportedAll(e.findAll(B64_RUN, Join(" ", Contents(recent))));
    assert Take(runs, RUNS_DECODED)[i] == runs[i];
  }

  /** A run holding an encoded attack hides it, and so does the run with a surplus "=". */
  lemma EncodedAttackHidden(e: Engine, attacks: seq<Pattern>, bs: seq<Base64.byte>)
    requires AnySearch(e, attacks, Base64.AsciiText(bs))
    ensures HidesAttack(e, attacks, Base64.Encode(bs))
    ensures HidesAttack(e, attacks, Base64.Encode(bs) + "=")
  {
    Base64.DecodeEncode(bs);
    SurplusPadSkipped(bs);
  }

  /** A surplus "=" after an encoding does not change what it decodes to. */
  lemma SurplusPadSkipped(bs: seq<Base64.byte>)
    ensures Base64.Decode(Base64.Encode(bs) + "=") == Some(bs)
  {
    Base64.LonePad();
    Base64.DecodeEncodeThen(bs, "=");
    assert bs + [] == bs;
  }

  /** After an encoding that ends in padding, any ASCII text is ignored. */
  lemma PaddedAttackHidden(e: Engine, attacks: seq<Pattern>, bs: seq<Base64.byte>, t: string)
    requires AnySearch(e, attacks, Base64.AsciiText(bs))
    requires |bs| % 3 != 0 && Base64.IsAscii(t)
    ensures HidesAttack(e, attacks, Base64.Encode(bs) + t)
  {
    Base64.DecodeEncodeThen(bs, t);
  }

  // ---------------------------------------------------------------------------------------
  // purge_suspicious and the rest

  /** An entry the purge removes. */
  predicate Doomed(x: Entry, threshold: real) {
    x.riskScore >= threshold || x.flagged
  }

  /** `threshold or self.risk_threshold`: a missing or zero threshold means the default. */
  function PurgeThreshold(given: Option<real>, default: real): real {
    if given.None? || given.value == 0.0 then default else given.value
  }

  /** The keys whose entries the purge removes, in order. */
  function DoomedKeys(order: seq<string>, memory: map<string, Entry>, threshold: real): (r: seq<string>)
    requires forall k :: k in order ==> k in memory
    ensures forall k :: k in r <==> k in order && Doomed(memory[k], threshold)
    ensures |r| <= |order|
  {
    if |order| == 0 then []
    else (if Doomed(memory[order[0]], threshold) then [order[0]] else []) + DoomedKeys(order[1..], memory, threshold)
  }

  /** The keys that survive the purge, in order. */
  function Survivors(order: seq<string>, memory: map<string, Entry>, threshold: real): (r: seq<string>)
    requires forall k :: k in order ==> k in memory
    ensures forall k :: k in r <==> k in order && !Doomed(memory[k], threshold)
  {
    if |order| == 0 then []
    else (if Doomed(memory[order[0]], threshold) then [] else [order[0]]) + Survivors(order[1..], memory, threshold)
  }

  /** The hashes of the stored (cut) contents of the given keys. */
  function HashesOf(hash: string -> string, keys: seq<string>, memory: map<string, Entry>): (r: set<string>)
    requires forall k :: k in keys ==> k in memory
    ensures forall k :: k in keys ==> hash(memory[k].content) in r
  {
    if |keys| == 0 then {} else {hash(memory[keys[0]].content)} + HashesOf(hash, keys[1..], memory)
  }

  /** No key twice. */
  predicate Unique(order: seq<string>) {
    forall i, j :: 0 <= i < j < |order| ==> order[i] != order[j]
  }

  /** The order lists the keys of the memory, each once. */
  ghost predicate Ordered(order: seq<string>, memory: map<string, Entry>) {
    Unique(order) && (forall k :: k in order <==> k in memory)
  }

  /** The first key of a unique list does not come again. */
  lemma HeadNotInTail(xs: seq<string>)
    requires Unique(xs) && |xs| > 0
    ensures xs[0] !in xs[1..]
  {
    forall j | 0 <= j < |xs[1..]|
      ensures xs[1..][j] != xs[0]
    {
      assert xs[1..][j] == xs[j + 1];
    }
  }

  /** Removing and keeping preserve the order's uniqueness. */
  lemma {:induction false} FilteredUnique(order: seq<string>, memory: map<string, Entry>, threshold: real)
    requires forall k :: k in order ==> k in memory
    requires Unique(order)
    ensures Unique(DoomedKeys(order, memory, threshold)) && Unique(Survivors(order, memory, threshold))
  {
    if |order| > 0 {
      FilteredUnique(order[1..], memory, threshold);
      HeadNotInTail(order);
    }
  }

  /** The items of a list, as a set. */
  function Members(xs: seq<string>): (r: set<string>)
    ensures forall x :: x in r <==> x in xs
  {
    set x | x in xs
  }

  /** A unique list holds as many items as its set of items. */
  lemma {:induction false} UniqueCard(xs: seq<string>)
    requires Unique(xs)
    ensures |Members(xs)| == |xs|
  {
    if |xs| > 0 {
      UniqueCard(xs[1..]);
      HeadNotInTail(xs);
      assert Members(xs) == {xs[0]} + Members(xs[1..]);
    }
  }

  /** The memory a purge leaves. */
  function Kept(order: seq<string>, memory: map<string, Entry>, threshold: real): map<string, Entry>
    requires forall k :: k in order ==> k in memory
  {
    memory - Members(DoomedKeys(order, memory, threshold))
  }

  /** After a purge the order still lists the kept keys, each once. */
  lemma PurgeKeepsOrder(order: seq<string>, memory: map<string, Entry>, threshold: real)
    requires Ordered(order, memory)
    ensures Ordered(Survivors(order, memory, threshold), Kept(order, memory, threshold))
  {
    FilteredUnique(order, memory, threshold);
  }

  /** After a purge no entry at or above the threshold and no flagged entry remains. */
  lemma PurgeLeavesNoSuspect(order: seq<string>, memory: map<string, Entry>, threshold: real)
    requires Ordered(order, memory)
    ensures var kept := Kept(order, memory, threshold);
      forall k :: k in kept ==> !kept[k].flagged && kept[k].riskScore < threshold
  {
  }

  /** The purge count is the number of entries removed. */
  lemma PurgeCount(order: seq<string>, memory: map<string, Entry>, threshold: real)
    requires Ordered(order, memory)
    ensures |memory| == |Kept(order, memory, threshold)| + |DoomedKeys(order, memory, threshold)|
  {
    var doomed := DoomedKeys(order, memory, threshold);
    FilteredUnique(order, memory, threshold);
    UniqueCard(doomed);
    var gone := Members(doomed);
    assert gone <= memory.Keys;
    assert Kept(order, memory, threshold).Keys == memory.Keys - gone;
    assert memory.Keys == (memory.Keys - gone) + gone;
  }

  /** `MemorySanitizer(memory_file, scan_interval_hours, risk_threshold)`, the memory file left out. */
  class Sanitizer {
    const hash: string -> string
    const scanIntervalHours: int
    const riskThreshold: real
    const table: seq<FragmentPattern>
    const attacks: seq<Pattern>
    var memory: map<string, Entry>
    var order: seq<string>
    var lastScan: real
    var flaggedHashes: set<string>

    ghost predicate Valid()
      reads this
    {
      Ordered(order, memory)
    }

    constructor (hash: string -> string, scanIntervalHours: int, riskThreshold: real)
      ensures Valid()
      ensures this.hash == hash && this.scanIntervalHours == scanIntervalHours && this.riskThreshold == riskThreshold
      ensures table == FRAGMENT_PATTERNS && attacks == ASSEMBLED_ATTACK_PATTERNS
      ensures memory == map[] && order == [] && lastScan == 0.0 && flaggedHashes == {}
    {
      this.hash := hash;
      this.scanIntervalHours := scanIntervalHours;
      this.riskThreshold := riskThreshold;
      table := FRAGMENT_PATTERNS;
      attacks := ASSEMBLED_ATTACK_PATTERNS;
      memory := map[];
      order := [];
      lastScan := 0.0;
      flaggedHashes := {};
    }

    /** `sanitize_before_store(content, source)` at `now`. */
    method SanitizeBeforeStore(e: Engine, content: string, source: string, now: real) returns (ok: bool, text: string)
      requires Valid()
      modifies this
      ensures Valid()
      ensures var r := Sanitize(e, table, attacks, flaggedHashes, riskThreshold, hash(content), content, source, now);
        && ok == r.0 && text == r.1
        && (r.2.None? ==> memory == old(memory) && order == old(order))
        && (r.2.Some? ==> && memory == old(memory)[r.2.value.id := r.2.value]
                          && order == (if r.2.value.id in old(memory) then old(order) else old(order) + [r.2.value.id]))
      ensures flaggedHashes == old(flaggedHashes) && lastScan == old(lastScan)
    {
      var r := Sanitize(e, table, attacks, flaggedHashes, riskThreshold, hash(content), content, source, now);
      ok, text := r.0, r.1;
      if r.2.Some? {
        var x := r.2.value;
        if x.id !in memory {
          order := order + [x.id];
        }
        memory := memory[x.id := x];
      }
    }

    /** `is_safe_to_store(content, source)` at `now`. */
    method IsSafeToStore(e: Engine, content: string, source: string, now: real) returns (ok: bool)
      requires Valid()
      modifies this
      ensures Valid()
      ensures var r := Sanitize(e, table, attacks, old(flaggedHashes), riskThreshold, hash(content), content, source, now);
        && ok == r.0
        && (r.2.None? ==> memory == old(memory) && order == old(order))
        && (r.2.Some? ==> && memory == old(memory)[r.2.value.id := r.2.value]
                          && order == (if r.2.value.id in old(memory) then old(order) else old(order) + [r.2.value.id]))
      ensures flaggedHashes == old(flaggedHashes) && lastScan == old(lastScan)
    {
      var text;
      ok, text := SanitizeBeforeStore(e, content, source, now);
    }

    /** `scan_assembled_memory()` at `now`: the last day's entries, in insertion order. */
    method ScanAssembledMemory(e: Engine, now: real) returns (r: ScanResult)
      requires Valid()
      modifies this
      ensures Valid()
      ensures r == Scan(e, table, attacks, Recent(Values(order, memory), now))
      ensures lastScan == now
      ensures memory == old(memory) && order == old(order) && flaggedHashes == old(flaggedHashes)
    {
      r := Scan(e, table, attacks, Recent(Values(order, memory), now));
      lastScan := now;
    }

    /** `purge_suspicious(threshold)` */
    method PurgeSuspicious(threshold: Option<real>) returns (purged: nat)
      requires Valid()
      modifies this
      ensures Valid()
      ensures var t := PurgeThreshold(threshold, riskThreshold);
        && memory == Kept(old(order), old(memory), t)
        && order == Survivors(old(order), old(memory), t)
        && flaggedHashes == old(flaggedHashes) + HashesOf(hash, DoomedKeys(old(order), old(memory), t), old(memory))
        && purged == |DoomedKeys(old(order), old(memory), t)|
        && purged == |old(memory)| - |memory|
      ensures lastScan == old(lastScan)
    {
      var t := PurgeThreshold(threshold, riskThreshold);
      var before, beforeOrder := memory, order;
      PurgeKeepsOrder(order, memory, t);
      PurgeCount(order, memory, t);
      var toRemove := DoomedKeys(order, memory, t);
      RecordHashes(toRemove);
      purged := RemoveKeys(toRemove);
      order := Survivors(beforeOrder, before, t);
    }

    /** The first loop of `purge_suspicious`: the stored contents' hashes are flagged. */
    method RecordHashes(keys: seq<string>)
      requires forall k :: k in keys ==> k in memory
      modifies this
      ensures memory == old(memory) && order == old(order) && lastScan == old(lastScan)
      ensures flaggedHashes == old(flaggedHashes) + HashesOf(hash, keys, memory)
    {
      var i := 0;
      while i < |keys|
        invariant 0 <= i <= |keys|
        invariant memory == old(memory) && order == old(order) && lastScan == old(lastScan)
        invariant flaggedHashes == old(flaggedHashes) + HashesOf(hash, keys[..i], memory)
      {
        assert keys[..i + 1] == keys[..i] + [keys[i]];
        HashesAppend(hash, keys[..i], keys[i], memory);
        flaggedHashes := flaggedHashes + {hash(memory[keys[i]].content)};
        i := i + 1;
      }
      assert keys[..i] == keys;
    }

    /** The second loop of `purge_suspicious`: the keys are deleted and counted. */
    method RemoveKeys(keys: seq<string>) returns (n: nat)
      modifies this
      ensures memory == old(memory) - Members(keys) && n == |keys|
      ensures order == old(order) && flaggedHashes == old(flaggedHashes) && lastScan == old(lastScan)
    {
      n := 0;
      while n < |keys|
        invariant 0 <= n <= |keys|
        invariant memory == old(memory) - Members(keys[..n])
        invariant order == old(order) && flaggedHashes == old(flaggedHashes) && lastScan == old(lastScan)
      {
        assert Members(keys[..n + 1]) == Members(keys[..n]) + {keys[n]} by {
          assert keys[..n + 1] == keys[..n] + [keys[n]];
        }
        memory := memory - {keys[n]};
        n := n + 1;
      }
      assert keys[..n] == keys;
    }

    /** `get_flagged_entries()` */
    method GetFlaggedEntries() returns (r: seq<Entry>)
      requires Valid()
      ensures forall x :: x in r <==> x in Values(order, memory) && x.flagged
    {
      r := FlaggedOf(Values(order, memory));
    }

    /** `get_stats()` at `now`. */
    method GetStats(now: real) returns (s: Stats)
      requires Valid()
      ensures s == StatsOf(Values(order, memory), |flaggedHashes|, lastScan, scanIntervalHours, now)
    {
      s := StatsOf(Values(order, memory), |flaggedHashes|, lastScan, scanIntervalHours, now);
    }

    /** `clear_memory()`: the flagged hashes stay. */
    method ClearMemory() returns (count: nat)
      requires Valid()
      modifies this
      ensures Valid()
      ensures count == |old(memory)| && memory == map[] && order == []
      ensures flaggedHashes == old(flaggedHashes) && lastScan == old(lastScan)
    {
      count := |memory|;
      memory := map[];
      order := [];
    }
  }

  lemma HashesAppend(hash: string -> string, keys: seq<string>, k: string, memory: map<string, Entry>)
    requires forall x :: x in keys + [k] ==> x in memory
    ensures HashesOf(hash, keys + [k], memory) == HashesOf(hash, keys, memory) + {hash(memory[k].content)}
    decreases |keys|
  {
    if |keys| > 0 {
      assert (keys + [k])[1..] == keys[1..] + [k];
      HashesAppend(hash, keys[1..], k, memory);
    }
  }

  /** The flagged entries, in order. */
  function FlaggedOf(entries: seq<Entry>): (r: seq<Entry>)
    ensures |r| <= |entries|
    ensures forall x :: x in r <==> x in entries && x.flagged
  {
    if |entries| == 0 then []
    else (if entries[0].flagged then [entries[0]] else []) + FlaggedOf(entries[1..])
  }

  function SumRisk(entries: seq<Entry>): real {
    if |entries| == 0 then 0.0 else entries[0].riskScore + SumRisk(entries[1..])
  }

  /**
   * `get_stats()` at `now`: the average risk is zero for an empty memory; the last scan is
   * absent while it is zero; a scan is due when more than the interval has passed since it.
   */
  function StatsOf(entries: seq<Entry>, hashes: nat, lastScan: real, intervalHours: int, now: real): (s: Stats)
    ensures s.totalEntries == |entries| && s.flaggedEntries <= |entries|
    ensures s.lastScan.None? <==> lastScan == 0.0
    ensures s.needsScan <==> now - lastScan > (intervalHours * 3600) as real
  {
    Stats(|entries|, |FlaggedOf(entries)|,
          if |entries| == 0 then 0.0 else SumRisk(entries) / |entries| as real,
          hashes,
          if lastScan == 0.0 then None else Some(lastScan),
          now - lastScan > (intervalHours * 3600) as real)
  }
}
