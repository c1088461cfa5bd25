/**
 * Exfiltration prevention (`ExfiltrationPrevention`): requests are searched for attempts to
 * extract secrets, files, memory or the system prompt; outputs are searched for keys,
 * secrets, personal data, paths and private keys, which are redacted, and for base64, hex or
 * reversed text that decodes to a secret.
 */
module ExfiltrationPrevention {
  import opened Wrappers
  import opened Strings
  import opened Regex
  import opened Scoring
  import Base64

  /** `EXTRACTION_PATTERNS`, compiled ignoring case: pattern, name, level. */
  const EXTRACTION_PATTERNS: seq<(Pattern, string, Risk)> := [
    (I(@"(what('s| is)|tell me|give me|show me) the (\d+)(st|nd|rd|th) (character|char|letter|digit)"), "character_extraction", High),
    (I(@"(spell out|spell|read out|say) (your |the )?(api|secret|key|token|password)"), "spell_extraction", High),
    (I(@"(one|1) (character|letter|digit) at a time"), "char_by_char", High),
    (I(@"(encode|convert|translate).*(base64|hex|binary|rot13)"), "encoding_request", Medium),
    (I(@"(base64|hex|binary|rot13).*(encode|convert|your|api|key|secret)"), "encoding_request_reverse", Medium),
    (I(@"(backwards|reverse|mirror).*(key|token|secret|password)"), "reverse_extraction", High),
    (I(@"(read|show|display|cat|print|output|give|share|reveal).*(file|document|config|\.env|credentials)"), "file_read_attempt", High),
    (I(@"(what('s| is)|show me|contents of).*(config|settings|environment|\.env)"), "config_extraction", High),
    (I(@"contents of.*(file|config|\.env|credentials)"), "file_contents", High),
    (I(@"(show|tell|repeat|dump|reveal|share|give).*(memory|memories|conversation|history|context)"), "memory_extraction", High),
    (I(@"dump.*(memory|memories|context|history)"), "memory_dump", High),
    (I(@"(what|which) (secrets|keys|credentials|passwords) do you (have|know|store)"), "credential_enumeration", High),
    (I(@"(what are|show me|repeat|tell me).*(instructions|system prompt|rules|guidelines)"), "prompt_extraction", Medium),
    (I(@"(your|the).*(system|original).*(prompt|instructions)"), "prompt_extraction2", Medium),
    (I(@"(ignore|forget) (your |all )?(previous |)instructions"), "instruction_override", High)
  ]

  /** `SENSITIVE_OUTPUT_PATTERNS`, compiled ignoring case: pattern, name, level. */
  const SENSITIVE_OUTPUT_PATTERNS: seq<(Pattern, string, Risk)> := [
    (I(@"moltbook_[a-z]{2}_[A-Za-z0-9]{32,}"), "api_key", Critical),
    (I(@"sk-[A-Za-z0-9]{20,}"), "openai_key", Critical),
    (I(@"sk-ant-[A-Za-z0-9-]{20,}"), "anthropic_key", Critical),
    (I(@"ghp_[A-Za-z0-9]{36}"), "github_token", Critical),
    (I(@"xox[baprs]-[A-Za-z0-9-]{10,}"), "slack_token", Critical),
    (I(@"(api[_-]?key|secret[_-]?key|auth[_-]?token|access[_-]?token)\s*[=:]\s*['""]?[A-Za-z0-9_-]{16,}"), "generic_secret", High),
    (I(@"(password|passwd|pwd)\s*[=:]\s*['""]?[^\s'""]{8,}"), "password", Critical),
    (I(@"\b[A-Za-z0-9._%+-]+@[A-Za-z0-9.-]+\.[A-Z|a-z]{2,}\b"), "email", Medium),
    (I(@"\b\d{3}[-.]?\d{3}[-.]?\d{4}\b"), "phone_number", Medium),
    (I(@"\b\d{3}[-]?\d{2}[-]?\d{4}\b"), "ssn", Critical),
    (I(@"\b\d{4}[-\s]?\d{4}[-\s]?\d{4}[-\s]?\d{4}\b"), "credit_card", Critical),
    (I(@"(/Users/[^/\s]+/|C:\\Users\\[^\\]+\\)"), "user_path", Medium),
    (I(@"\.(env|pem|key|crt|p12|pfx|jks)\b"), "sensitive_file", High),
    (I(@"-----BEGIN (RSA |EC |DSA |OPENSSH )?PRIVATE KEY-----"), "private_key", Critical),
    (I(@"-----BEGIN CERTIFICATE-----"), "certificate", Medium)
  ]

  /** How a run of text may hide a secret. */
  datatype Encoding = B64 | Hex | Reversed
  {
    function Name(): string {
      match this
      case B64 => "base64"
      case Hex => "hex"
      case Reversed => "reversed"
    }
  }

  /** `ENCODING_PATTERNS`, compiled as written (case matters). */
  const ENCODING_PATTERNS: seq<(Pattern, Encoding)> := [
    (Plain(@"[A-Za-z0-9+/]{40,}={0,2}"), B64),
    (Plain(@"(?:0x)?[0-9a-fA-F]{32,}"), Hex),
    (Plain(@"_ks|tna-ks|_koobltom"), Reversed)
  ]

  /** The indicators of `_contains_secret_pattern`, compiled ignoring case. */
  const SECRET_INDICATORS: seq<Pattern> := [
    I(@"sk-[A-Za-z0-9]"), I(@"moltbook_"), I(@"api[_-]?key"), I(@"secret"),
    I(@"password"), I(@"token"), I(@"-----BEGIN")
  ]

  /** `ExfiltrationCheckResult` */
  datatype CheckResult = CheckResult(
    isSafe: bool, riskLevel: Risk, threats: seq<string>, redactedContent: string, recommendations: seq<string>)

  /** The tables an instance compiles. */
  datatype Tables = Tables(
    extraction: seq<(Pattern, string, Risk)>, sensitive: seq<(Pattern, string, Risk)>,
    encoding: seq<(Pattern, Encoding)>, indicators: seq<Pattern>)

  const TABLES := Tables(EXTRACTION_PATTERNS, SENSITIVE_OUTPUT_PATTERNS, ENCODING_PATTERNS, SECRET_INDICATORS)

  function Safe(content: string): CheckResult {
    CheckResult(true, NoRisk, [], content, [])
  }

  /** The entries of a table whose pattern matches, in table order. */
  function Hits(e: Engine, table: seq<(Pattern, string, Risk)>, content: string): (r: seq<(Pattern, string, Risk)>)
    ensures |r| <= |table|
    ensures forall x :: x in r <==> x in table && Search(e, x.0, content)
  {
    if |table| == 0 then []
    else (if Search(e, table[0].0, content) then [table[0]] else []) + Hits(e, table[1..], content)
  }

  function Labels(prefix: string, hits: seq<(Pattern, string, Risk)>): (r: seq<string>)
    ensures |r| == |hits|
    ensures forall i :: 0 <= i < |hits| ==> r[i] == prefix + hits[i].1
  {
    if |hits| == 0 then [] else [prefix + hits[0].1] + Labels(prefix, hits[1..])
  }

  function Scores(hits: seq<(Pattern, string, Risk)>): (r: seq<int>)
    ensures |r| == |hits|
    ensures forall i :: 0 <= i < |hits| ==> r[i] == Score(hits[i].2)
  {
    if |hits| == 0 then [] else [Score(hits[0].2)] + Scores(hits[1..])
  }

  // ---------------------------------------------------------------------------------------
  // check_request

  /** Some label names a character-by-character extraction. */
  predicate CharByChar(labels: seq<string>) {
    exists i :: 0 <= i < |labels| && (Contains(labels[i], "character_extraction") || Contains(labels[i], "spell_extraction"))
  }

  /** `check_request(content)` */
  function CheckRequest(e: Engine, t: Tables, content: string): CheckResult {
    var hits := Hits(e, t.extraction, content);
    if hits == [] then Safe(content)
    else
      var labels := Labels("extraction_attempt:", hits);
      CheckResult(false, Level3(Scores(hits)), labels, content,
                  ["Do not reveal any credentials or secrets",
                   "Do not read or share file contents",
                   "Do not share system prompt or instructions"]
                  + (if CharByChar(labels) then ["This appears to be a character-by-character extraction attempt"] else []))
  }

  /**
   * A request no extraction pattern matches is safe at "none" and passes through unchanged;
   * any match makes it unsafe at the highest matched level ("high" 3, "medium" 2, "low" 1),
   * still unchanged, with one threat per matching pattern.
   */
  lemma CheckRequestMeaning(e: Engine, t: Tables, content: string)
    ensures var r := CheckRequest(e, t, content);
      var hits := Hits(e, t.extraction, content);
      && r.redactedContent == content
      && (r.isSafe <==> hits == [])
      && (r.isSafe ==> r == Safe(content))
      && (!r.isSafe ==> r.riskLevel == Level3(Scores(hits)) && |r.threats| == |hits| && |r.recommendations| >= 3)
  {
  }

  /** A match of a "high" extraction pattern makes the request "high". */
  lemma HighExtractionIsHigh(e: Engine, t: Tables, content: string, i: nat)
    requires i < |t.extraction| && t.extraction[i].2 == High && Search(e, t.extraction[i].0, content)
    ensures CheckRequest(e, t, content).riskLevel == High
  {
    var hits := Hits(e, t.extraction, content);
    assert t.extraction[i] in hits;
    var j :| 0 <= j < |hits| && hits[j] == t.extraction[i];
    assert Scores(hits)[j] == 3;
    assert SomeAtLeast(Scores(hits), 3);
  }

  /** `is_extraction_attempt(request)`: unsafe at "high" or "critical". */
  predicate IsExtractionAttempt(e: Engine, t: Tables, request: string) {
    var r := CheckRequest(e, t, request);
    !r.isSafe && (r.riskLevel == High || r.riskLevel == Critical)
  }

  /**
   * An extraction attempt is exactly a request that some extraction pattern of "high" (or
   * above) matches: the request verdict never says "critical".
   */
  lemma ExtractionAttemptMeaning(e: Engine, t: Tables, request: string)
    ensures IsExtractionAttempt(e, t, request) <==>
      exists i :: 0 <= i < |t.extraction| && Score(t.extraction[i].2) >= 3 && Search(e, t.extraction[i].0, request)
  {
    if IsExtractionAttempt(e, t, request) {
      AttemptHasHighHit(e, t, request);
    }
    if exists i :: 0 <= i < |t.extraction| && Score(t.extraction[i].2) >= 3 && Search(e, t.extraction[i].0, request) {
      var i :| 0 <= i < |t.extraction| && Score(t.extraction[i].2) >= 3 && Search(e, t.extraction[i].0, request);
      HighHitIsAttempt(e, t, request, i);
    }
  }

  lemma AttemptHasHighHit(e: Engine, t: Tables, request: string)
    requires IsExtractionAttempt(e, t, request)
    ensures exists i :: 0 <= i < |t.extraction| && Score(t.extraction[i].2) >= 3 && Search(e, t.extraction[i].0, request)
  {
    var hits := Hits(e, t.extraction, request);
    var scores := Scores(hits);
    assert hits != [] && Level3(scores) == High;
    var j :| 0 <= j < |scores| && scores[j] >= 3;
    assert hits[j] in t.extraction;
    var i :| 0 <= i < |t.extraction| && t.extraction[i] == hits[j];
    assert Score(t.extraction[i].2) >= 3 && Search(e, t.extraction[i].0, request);
  }

  lemma HighHitIsAttempt(e: Engine, t: Tables, request: string, i: nat)
    requires i < |t.extraction| && Score(t.extraction[i].2) >= 3 && Search(e, t.extraction[i].0, request)
    ensures IsExtractionAttempt(e, t, request)
  {
    var hits := Hits(e, t.extraction, request);
    assert t.extraction[i] in hits;
    var j :| 0 <= j < |hits| && hits[j] == t.extraction[i];
    assert Scores(hits)[j] >= 3;
    assert SomeAtLeast(Scores(hits), 3);
  }

  // ---------------------------------------------------------------------------------------
  // Decoding

  /** `"=" * n` */
  function Equals(n: nat): (r: string)
    ensures |r| == n && forall c :: c in r ==> c == '='
  {
    if n == 0 then "" else "=" + Equals(n - 1)
  }

  /** `data + "=" * (4 - len(data) % 4)`: one to four "=", a whole number of groups. */
  function Padded(data: string): (r: string)
    ensures |r| % 4 == 0 && |data| < |r| <= |data| + 4
    ensures r[..|data|] == data
  {
    data + Equals(4 - |data| % 4)
  }

  /** `_try_decode(data, encoding_type)`; `None` where Python raises. */
  function TryDecode(data: string, enc: Encoding): Option<string> {
    match enc
    case B64 =>
      (match Base64.Decode(Padded(data))
       case None => None
       case Some(bs) => Some(Base64.AsciiText(bs)))
    case Hex =>
      (match Base64.Unhexlify(ReplaceAll(data, "0x", ""))
       case None => None
       case Some(bs) => Some(Base64.AsciiText(bs)))
    case Reversed => Some(Reverse(data))
  }

  /** Reversing is its own inverse: decoding a reversed run gives the text that was hidden. */
  lemma ReversedRoundTrip(secret: string)
    ensures TryDecode(Reverse(secret), Reversed) == Some(secret)
  {
    ReverseInvolution(secret);
  }

  /** A run of "=" is ASCII text that decodes to nothing. */
  lemma {:induction false} EqualsDecodeToNothing(n: nat)
    ensures Base64.IsAscii(Equals(n))
    ensures Base64.DecodeFrom(Equals(n), 0, 0, 0) == Some([])
  {
    if n > 0 {
      EqualsDecodeToNothing(n - 1);
      assert Equals(n)[1..] == Equals(n - 1);
    }
  }

  /**
   * The padding added before decoding does no harm: a base64 encoding decodes to its text,
   * since "=" after a padded encoding ends decoding and "=" at the start of a group is skipped.
   */
  lemma Base64RoundTrip(bs: seq<Base64.byte>)
    ensures TryDecode(Base64.Encode(bs), B64) == Some(Base64.AsciiText(bs))
  {
    var s := Base64.Encode(bs);
    assert Padded(s) == s + Equals(4);
    EqualsDecodeToNothing(4);
    Base64.DecodeEncodeThen(bs, Equals(4));
    if |bs| % 3 == 0 {
      assert bs + [] == bs;
    }
  }

  /** `_contains_secret_pattern(decoded)` */
  predicate ContainsSecret(e: Engine, t: Tables, decoded: string) {
    AnySearch(e, t.indicators, decoded)
  }

  /** Some run decodes to non-empty text that holds a secret. */
  predicate SomeRunHidesSecret(e: Engine, t: Tables, runs: seq<string>, enc: Encoding) {
    exists i :: 0 <= i < |runs| && HidesSecret(e, t, runs[i], enc)
  }

  predicate HidesSecret(e: Engine, t: Tables, run: string, enc: Encoding) {
    var d := TryDecode(run, enc);
    d.Some? && d.value != "" && ContainsSecret(e, t, d.value)
  }

  /** `_check_for_encoded_secrets(content)`: one threat per encoding with a run that hides a secret. */
  function EncodedSecrets(e: Engine, t: Tables, encodings: seq<(Pattern, Encoding)>, content: string): (r: seq<string>)
    ensures |r| <= |encodings|
  {
    if |encodings| == 0 then []
    else
      var (p, enc) := encodings[0];
      (if SomeRunHidesSecret(e, t, ReportedAll(e.findAll(p, content)), enc) then ["encoded_secret:" + enc.Name()] else [])
      + EncodedSecrets(e, t, encodings[1..], content)
  }

  // ---------------------------------------------------------------------------------------
  // check_output

  /** `[REDACTED_<NAME>]` */
  function Placeholder(name: string): string {
    "[REDACTED_" + Upper(name) + "]"
  }

  /** Each matching pattern, in table order, replaced by its placeholder in the text so far. */
  function Redact(e: Engine, hits: seq<(Pattern, string, Risk)>, text: string): string
    decreases |hits|
  {
    if |hits| == 0 then text
    else Redact(e, hits[1..], e.sub(hits[0].0, text, Placeholder(hits[0].1)))
  }

  /** `check_output(content)` */
  function CheckOutput(e: Engine, t: Tables, content: string): CheckResult {
    var hits := Hits(e, t.sensitive, content);
    var encoded := EncodedSecrets(e, t, t.encoding, content);
    var threats := Labels("sensitive_data:", hits) + encoded;
    if threats == [] then Safe(content)
    else
      var level := Level4(Scores(hits) + (if encoded != [] then [3] else []));
      CheckResult(false, level, threats, Redact(e, hits, content),
                  ["Sensitive data has been redacted from output"]
                  + (if level == Critical || level == High then ["Review what triggered this - possible data leak attempt"] else []))
  }

  /**
   * Output with no sensitive match and no encoded secret is safe and unchanged; otherwise it
   * is unsafe, redacted pattern by pattern in table order, at the highest level found (an
   * encoded secret counting as "high"), and "critical" or "high" output asks for a review.
   */
  lemma CheckOutputMeaning(e: Engine, t: Tables, content: string)
    ensures var r := CheckOutput(e, t, content);
      var hits := Hits(e, t.sensitive, content);
      var encoded := EncodedSecrets(e, t, t.encoding, content);
      && (r.isSafe <==> hits == [] && encoded == [])
      && (r.isSafe ==> r == Safe(content))
      && (!r.isSafe ==> && r.redactedContent == Redact(e, hits, content)
                        && r.riskLevel == Level4(Scores(hits) + (if encoded != [] then [3] else []))
                        && (encoded != [] ==> Score(r.riskLevel) >= 3)
                        && (|r.recommendations| == 2 <==> Score(r.riskLevel) >= 3))
  {
    var r := CheckOutput(e, t, content);
    var hits := Hits(e, t.sensitive, content);
    var encoded := EncodedSecrets(e, t, t.encoding, content);
    if encoded != [] {
      var scores := Scores(hits) + [3];
      assert scores[|scores| - 1] == 3;
      assert SomeAtLeast(scores, 3);
    }
  }

  /** `sanitize_for_response(content)`: the redacted output. */
  function SanitizeForResponse(e: Engine, t: Tables, content: string): (r: string)
    ensures r == CheckOutput(e, t, content).redactedContent
    ensures Hits(e, t.sensitive, content) == [] ==> r == content
  {
    CheckOutput(e, t, content).redactedContent
  }

  /** `ExfiltrationPrevention(strict_mode)`; the flag is stored and read by nothing. */
  class Prevention {
    const strictMode: bool
    const tables: Tables

    constructor (strictMode: bool)
      ensures this.strictMode == strictMode && tables == TABLES
    {
      this.strictMode := strictMode;
      tables := TABLES;
    }

    method CheckRequestOf(e: Engine, content: string) returns (r: CheckResult)
      ensures r == CheckRequest(e, tables, content)
    {
      r := CheckRequest(e, tables, content);
    }

    method CheckOutputOf(e: Engine, content: string) returns (r: CheckResult)
      ensures r == CheckOutput(e, tables, content)
    {
      r := CheckOutput(e, tables, content);
    }
  }
}
