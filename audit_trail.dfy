/**
 * The hash-chained security audit log (`AuditTrail`): each entry carries the hash of the one
 * before it, `verify_integrity` walks the chain from "GENESIS", details are sanitized before
 * they are stored, and `query` filters the file in order. The file is the sequence of entries
 * it holds; SHA-256 is an uninterpreted function `hash` from an entry's data to its digest.
 */
module AuditTrail {
  import opened Wrappers
  import opened Strings

  const GENESIS := "GENESIS"
  const SEVERITIES := ["info", "warning", "critical"]
  const SENSITIVE_KEYS := ["password", "secret", "key", "token", "credential"]
  const MAX_DETAIL := 500
  const TRUNCATED := "...[truncated]"
  const REDACTED := "[REDACTED]"

  /** A JSON value held in an entry's details. */
  datatype Value = Null | Bool(b: bool) | Num(n: int) | Str(s: string)
                 | List(items: seq<Value>) | Dict(fields: map<string, Value>)

  /** An entry without its hash: what the hash is computed over. */
  datatype Data = Data(id: int, timestamp: string, eventType: string, severity: string,
                       details: map<string, Value>, previousHash: string)

  datatype Entry = Entry(data: Data, entryHash: string)

  /** `log` stores an unknown severity as "info". */
  function Severity(s: string): (r: string)
    ensures r in SEVERITIES
    ensures s in SEVERITIES ==> r == s
  {
    if s in SEVERITIES then s else "info"
  }

  /** The key names a secret: it contains one of the sensitive words, ignoring ASCII case. */
  predicate Sensitive(k: string) {
    exists w :: w in SENSITIVE_KEYS && Contains(Lower(k), w)
  }

  /** A string over 500 characters is cut to 500 and marked. */
  function Truncate(s: string): (r: string)
    ensures |s| <= MAX_DETAIL ==> r == s
    ensures |s| > MAX_DETAIL ==> r == s[..MAX_DETAIL] + TRUNCATED
  {
    if |s| > MAX_DETAIL then s[..MAX_DETAIL] + TRUNCATED else s
  }

  /** `_sanitize_details(details)`: every key kept, each value sanitized under its key. */
  function SanitizeDetails(d: map<string, Value>): (r: map<string, Value>)
    ensures r.Keys == d.Keys
    ensures forall k :: k in d ==> r[k] == SanitizeField(k, d[k])
    decreases Dict(d), 0
  {
    map k | k in d :: SanitizeField(k, d[k])
  }

  /** One detail: redacted under a sensitive key, truncated if a long string, sanitized if a dict. */
  function SanitizeField(k: string, v: Value): (r: Value)
    ensures Sensitive(k) ==> r == Str(REDACTED)
    ensures !Sensitive(k) && v.Str? ==> r == Str(Truncate(v.s))
    ensures !Sensitive(k) && v.Dict? ==> r.Dict? && r.fields.Keys == v.fields.Keys
    ensures !Sensitive(k) && v.Dict? ==> r == Dict(SanitizeDetails(v.fields))
    ensures !Sensitive(k) && !v.Str? && !v.Dict? ==> r == v
    decreases v, 1
  {
    if Sensitive(k) then Str(REDACTED)
    else if v.Str? && |v.s| > MAX_DETAIL then Str(v.s[..MAX_DETAIL] + TRUNCATED)
    else if v.Dict? then Dict(SanitizeDetails(v.fields))
    else v
  }

  /** Cutting a marked string again gives it back. */
  lemma TruncateIdempotent(s: string)
    ensures Truncate(Truncate(s)) == Truncate(s)
  {
    if |s| > MAX_DETAIL {
      var t := s[..MAX_DETAIL] + TRUNCATED;
      assert t[..MAX_DETAIL] == s[..MAX_DETAIL];
    }
  }

  /** Sanitizing sanitized details changes nothing. */
  lemma {:induction false} SanitizeDetailsIdempotent(d: map<string, Value>)
    ensures SanitizeDetails(SanitizeDetails(d)) == SanitizeDetails(d)
    decreases Dict(d), 0
  {
    var once := SanitizeDetails(d);
    forall k | k in d ensures SanitizeField(k, once[k]) == once[k] {
      SanitizeFieldIdempotent(k, d[k]);
    }
  }

  lemma {:induction false} SanitizeFieldIdempotent(k: string, v: Value)
    ensures SanitizeField(k, SanitizeField(k, v)) == SanitizeField(k, v)
    decreases v, 1
  {
    if !Sensitive(k) {
      if v.Str? {
        TruncateIdempotent(v.s);
      } else if v.Dict? {
        SanitizeDetailsIdempotent(v.fields);
      }
    }
  }

  /** No sanitized string is longer than 500 characters plus the mark, at any depth. */
  predicate Bounded(v: Value)
    decreases v
  {
    match v
    case Str(s) => |s| <= MAX_DETAIL + |TRUNCATED|
    case Dict(fields) => forall k :: k in fields ==> Bounded(fields[k])
    case _ => true
  }

  lemma {:induction false} SanitizedBounded(k: string, v: Value)
    ensures Bounded(SanitizeField(k, v))
    decreases v
  {
    if !Sensitive(k) && v.Dict? {
      var r := SanitizeDetails(v.fields);
      forall j | j in r ensures Bounded(r[j]) {
        SanitizedBounded(j, v.fields[j]);
      }
    }
  }

  // ---------------------------------------------------------------------------------------
  // The chain
  // ---------------------------------------------------------------------------------------

  /** The entries link, starting from `prev`: each names its predecessor's hash and hashes to its own. */
  predicate ChainFrom(es: seq<Entry>, prev: string, hash: Data -> string)
    decreases |es|
  {
    |es| == 0 ||
    (es[0].data.previousHash == prev && hash(es[0].data) == es[0].entryHash
     && ChainFrom(es[1..], es[0].entryHash, hash))
  }

  /** The hash the next entry must name: the last entry's, or `prev` for none. */
  function LastLink(es: seq<Entry>, prev: string): string {
    if |es| == 0 then prev else es[|es| - 1].entryHash
  }

  /** An entry that names the last hash and hashes correctly extends a valid chain. */
  lemma {:induction false} ChainAppend(es: seq<Entry>, prev: string, hash: Data -> string, e: Entry)
    requires ChainFrom(es, prev, hash)
    requires e.data.previousHash == LastLink(es, prev) && hash(e.data) == e.entryHash
    ensures ChainFrom(es + [e], prev, hash)
    decreases |es|
  {
    if |es| > 0 {
      ChainAppend(es[1..], es[0].entryHash, hash, e);
      assert (es + [e])[1..] == es[1..] + [e];
    }
  }

  /**
   * The verdict `verify_integrity` reaches from line `line` on, with `prev` as the running hash:
   * the first entry that names the wrong predecessor or whose data no longer hashes to its
   * stored hash is reported.
   */
  function Verdict(es: seq<Entry>, prev: string, hash: Data -> string, line: nat): (r: Option<string>)
    ensures r.None? <==> ChainFrom(es, prev, hash)
    decreases |es|
  {
    if |es| == 0 then None
    else if es[0].data.previousHash != prev then
      Some("Hash chain broken at entry " + NatToString(line))
    else if hash(es[0].data) != es[0].entryHash then
      Some("Entry " + NatToString(line) + " has been modified")
    else Verdict(es[1..], es[0].entryHash, hash, line + 1)
  }

  /** The entries, in file order, that pass the `event_type` and `severity` filters. */
  function Matching(es: seq<Entry>, eventType: Option<string>, severity: Option<string>)
    : (r: seq<Entry>)
    ensures |r| <= |es|
    ensures forall e :: e in r ==> e in es && Passes(e, eventType, severity)
    ensures forall e :: e in es && Passes(e, eventType, severity) ==> e in r
  {
    if |es| == 0 then []
    else (if Passes(es[0], eventType, severity) then [es[0]] else [])
         + Matching(es[1..], eventType, severity)
  }

  /** A filter left out, or given as "", lets every entry through. */
  predicate Passes(e: Entry, eventType: Option<string>, severity: Option<string>) {
    && (eventType.None? || eventType.value == "" || e.data.eventType == eventType.value)
    && (severity.None? || severity.value == "" || e.data.severity == severity.value)
  }

  /** Filtering distributes over concatenation. */
  lemma {:induction false} MatchingAppend(a: seq<Entry>, b: seq<Entry>, eventType: Option<string>,
                                          severity: Option<string>)
    ensures Matching(a + b, eventType, severity)
            == Matching(a, eventType, severity) + Matching(b, eventType, severity)
    decreases |a|
  {
    if |a| > 0 {
      var head := if Passes(a[0], eventType, severity) then [a[0]] else [];
      assert (a + b)[0] == a[0];
      assert (a + b)[1..] == a[1..] + b;
      assert Matching(a + b, eventType, severity) == head + Matching(a[1..] + b, eventType, severity);
      MatchingAppend(a[1..], b, eventType, severity);
      ConcatAssoc(head, Matching(a[1..], eventType, severity), Matching(b, eventType, severity));
    } else {
      assert a + b == b;
    }
  }

  lemma ConcatAssoc<T>(x: seq<T>, y: seq<T>, z: seq<T>)
    ensures x + (y + z) == (x + y) + z
  {
  }

  /** `query` stops once it holds `limit` entries, and it checks only after adding one. */
  function QueryCap(limit: int): nat {
    if limit < 1 then 1 else limit
  }

  class Trail {
    const maxEntries: int
    const hash: Data -> string
    var entryCount: int
    var lastHash: string
    var file: seq<Entry>
    var archives: seq<seq<Entry>>

    /**
     * The current file is a chain from "GENESIS" whose last hash is the one the next entry will
     * name, and the counter counts its entries.
     */
    predicate Valid()
      reads this
    {
      && ChainFrom(file, GENESIS, hash)
      && lastHash == LastLink(file, GENESIS)
      && entryCount == |file|
    }

    /** `AuditTrail(log_file, max_entries)` on a log file that does not exist yet. */
    constructor (maxEntries: int, hash: Data -> string)
      ensures Valid()
      ensures this.maxEntries == maxEntries && this.hash == hash
      ensures file == [] && archives == [] && entryCount == 0 && lastHash == GENESIS
    {
      this.maxEntries := maxEntries;
      this.hash := hash;
      entryCount := 0;
      lastHash := GENESIS;
      file := [];
      archives := [];
    }

    /**
     * `log(event_type, details, severity)` at `timestamp`: the entry is numbered after the last,
     * names the last hash and is appended; once the counter reaches `max_entries` the file is
     * archived and a new one begins, from "GENESIS" again.
     */
    method Log(eventType: string, details: map<string, Value>, severity: string, timestamp: string)
      returns (entry: Entry)
      requires Valid()
      modifies this
      ensures Valid()
      ensures entry.data == Data(old(entryCount) + 1, timestamp, eventType, Severity(severity),
                                 SanitizeDetails(details), old(lastHash))
      ensures entry.entryHash == hash(entry.data)
      ensures old(entryCount) + 1 < maxEntries ==> file == old(file) + [entry] && archives == old(archives)
      ensures old(entryCount) + 1 >= maxEntries ==>
        file == [] && archives == old(archives) + [old(file) + [entry]] && lastHash == GENESIS
    {
      var data := Data(entryCount + 1, timestamp, eventType, Severity(severity),
                       SanitizeDetails(details), lastHash);
      entry := Entry(data, hash(data));
      ChainAppend(file, GENESIS, hash, entry);
      entryCount := entryCount + 1;
      file := file + [entry];
      lastHash := entry.entryHash;
      if entryCount >= maxEntries {
        archives := archives + [file];
        file := [];
        entryCount := 0;
        lastHash := GENESIS;
      }
    }

    /**
     * `log` as written: the rotation archives the file and resets the counter, but the next
     * entry still names the hash of the last entry written before it.
     */
    method LogAsWritten(eventType: string, details: map<string, Value>, severity: string,
                        timestamp: string) returns (entry: Entry)
      modifies this
      ensures entry.data == Data(old(entryCount) + 1, timestamp, eventType, Severity(severity),
                                 SanitizeDetails(details), old(lastHash))
      ensures entry.entryHash == hash(entry.data) && lastHash == entry.entryHash
      ensures old(entryCount) + 1 < maxEntries ==>
        file == old(file) + [entry] && archives == old(archives) && entryCount == old(entryCount) + 1
      ensures old(entryCount) + 1 >= maxEntries ==>
        file == [] && archives == old(archives) + [old(file) + [entry]] && entryCount == 0
    {
      var data := Data(entryCount + 1, timestamp, eventType, Severity(severity),
                       SanitizeDetails(details), lastHash);
      entry := Entry(data, hash(data));
      entryCount := entryCount + 1;
      file := file + [entry];
      lastHash := entry.entryHash;
      if entryCount >= maxEntries {
        archives := archives + [file];
        file := [];
        entryCount := 0;
      }
    }

    /** `verify_integrity()`: walks the file with a running hash that starts at "GENESIS". */
    method VerifyIntegrity() returns (ok: bool, error: Option<string>)
      ensures ok <==> ChainFrom(file, GENESIS, hash)
      ensures error == Verdict(file, GENESIS, hash, 1)
      ensures ok <==> error.None?
    {
      var prev := GENESIS;
      var i := 0;
      while i < |file|
        invariant 0 <= i <= |file|
        invariant Verdict(file, GENESIS, hash, 1) == Verdict(file[i..], prev, hash, i + 1)
      {
        var e := file[i];
        assert file[i..][1..] == file[i + 1..];
        if e.data.previousHash != prev {
          return false, Some("Hash chain broken at entry " + NatToString(i + 1));
        }
        if hash(e.data) != e.entryHash {
          return false, Some("Entry " + NatToString(i + 1) + " has been modified");
        }
        prev := e.entryHash;
        i := i + 1;
      }
      return true, None;
    }

    /**
     * `query(event_type, severity, limit=limit)` without the time filters: the matching
     * entries in file order, stopping once `limit` of them (at least one) are held.
     */
    method Query(eventType: Option<string>, severity: Option<string>, limit: int)
      returns (results: seq<Entry>)
      ensures results == Take(Matching(file, eventType, severity), QueryCap(limit))
    {
      results := FirstMatches(file, eventType, severity, QueryCap(limit));
    }
  }

  /** The scan of `query`: entries in order, kept when they pass, until `cap` are held. */
  method FirstMatches(es: seq<Entry>, eventType: Option<string>, severity: Option<string>, cap: nat)
    returns (results: seq<Entry>)
    ensures results == Take(Matching(es, eventType, severity), cap)
  {
    results := [];
    var i := 0;
    while i < |es| && |results| < cap
      invariant 0 <= i <= |es|
      invariant results == Matching(es[..i], eventType, severity)
      invariant |results| <= cap
    {
      MatchingStep(es, i, eventType, severity);
      if Passes(es[i], eventType, severity) {
        results := results + [es[i]];
      }
      i := i + 1;
    }
    QueryStops(es, i, eventType, severity, cap);
  }

  lemma MatchingStep(es: seq<Entry>, i: nat, eventType: Option<string>, severity: Option<string>)
    requires i < |es|
    ensures Matching(es[..i + 1], eventType, severity)
            == Matching(es[..i], eventType, severity)
               + (if Passes(es[i], eventType, severity) then [es[i]] else [])
  {
    MatchingAppend(es[..i], [es[i]], eventType, severity);
    assert es[..i + 1] == es[..i] + [es[i]];
  }

  /** Where the scan of `query` stops, it holds the first `cap` matches. */
  lemma QueryStops(es: seq<Entry>, i: nat, eventType: Option<string>, severity: Option<string>, cap: nat)
    requires i <= |es|
    requires |Matching(es[..i], eventType, severity)| <= cap
    requires i == |es| || |Matching(es[..i], eventType, severity)| == cap
    ensures Matching(es[..i], eventType, severity) == Take(Matching(es, eventType, severity), cap)
  {
    var held := Matching(es[..i], eventType, severity);
    var rest := Matching(es[i..], eventType, severity);
    SplitJoin(es, i);
    MatchingAppend(es[..i], es[i..], eventType, severity);
    TakeHeld(held, rest, cap);
  }

  lemma SplitJoin<T>(s: seq<T>, i: nat)
    requires i <= |s|
    ensures s[..i] + s[i..] == s
    ensures i == |s| ==> s[i..] == []
  {
  }

  /** Taking `cap` from `held + rest` gives `held` when `held` is full or `rest` empty. */
  lemma TakeHeld<T>(held: seq<T>, rest: seq<T>, cap: nat)
    requires |held| <= cap && (|held| == cap || rest == [])
    ensures Take(held + rest, cap) == held
  {
    if |held| == cap {
      assert (held + rest)[..cap] == held;
    } else {
      assert held + rest == held;
    }
  }

  /** The entries `query` returns all pass its filters and come from the file. */
  lemma QueryFiltered(es: seq<Entry>, eventType: Option<string>, severity: Option<string>, cap: nat)
    ensures |Take(Matching(es, eventType, severity), cap)| <= cap
    ensures forall e :: e in Take(Matching(es, eventType, severity), cap) ==>
      e in es && Passes(e, eventType, severity)
  {
    var all := Matching(es, eventType, severity);
    assert forall e :: e in Take(all, cap) ==> e in all;
  }

  /** A file written by `log` alone is accepted by `verify_integrity`. */
  lemma LoggedFileVerifies(t: Trail)
    requires t.Valid()
    ensures Verdict(t.file, GENESIS, t.hash, 1) == None
  {
  }

  /**
   * After a rotation in the code as written, the new file's first entry names the 16-digit
   * hash of the last archived entry, so `verify_integrity` rejects the new file at once.
   */
  lemma RotatedFileFailsAsWritten(hash: Data -> string, e: Entry)
    requires |e.data.previousHash| == 16
    ensures Verdict([e], GENESIS, hash, 1) == Some("Hash chain broken at entry 1")
  {
    assert e.data.previousHash != GENESIS;
    assert [e][0] == e;
    assert Verdict([e], GENESIS, hash, 1) == Some("Hash chain broken at entry " + NatToString(1));
    assert NatToString(1) == ['1'];
    assert "Hash chain broken at entry " + ['1'] == "Hash chain broken at entry 1";
  }

  /** With the counter reset as the chain is, the new file is accepted again. */
  lemma RotatedFileVerifies(hash: Data -> string, e: Entry)
    requires e.data.previousHash == GENESIS && hash(e.data) == e.entryHash
    ensures Verdict([e], GENESIS, hash, 1) == None
  {
    assert ChainFrom([e][1..], e.entryHash, hash);
  }
}
