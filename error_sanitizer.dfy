/**
 * Error sanitisation (`ErrorSanitizer`): error messages, arbitrary values and nested
 * dictionaries are passed through an ordered list of (pattern, replacement) pairs, the built-in
 * redaction patterns first and any additional ones after them, before they leave the agent.
 */
module ErrorSanitizer {
  import opened Wrappers
  import opened Strings
  import opened Regex

  /** `REDACTION_PATTERNS`: the pattern source and the replacement template, in list order. */
  const REDACTION_PATTERNS: seq<(string, string)> := [
    (@"moltbook_[a-z]{2}_[A-Za-z0-9]+", "[REDACTED_MOLTBOOK_KEY]"),
    (@"sk-[A-Za-z0-9\-_]{20,}", "[REDACTED_API_KEY]"),
    (@"sk-ant-[A-Za-z0-9\-_]+", "[REDACTED_ANTHROPIC_KEY]"),
    (@"sk-proj-[A-Za-z0-9\-_]+", "[REDACTED_OPENAI_KEY]"),
    (@"AKIA[0-9A-Z]{16}", "[REDACTED_AWS_KEY]"),
    (@"Bearer\s+[A-Za-z0-9\-_\.]+", "Bearer [REDACTED_TOKEN]"),
    (@"Authorization:\s*[^\s\n]+", "Authorization: [REDACTED]"),
    (@"/Users/[^/\s]+/", "/[REDACTED_USER]/"),
    (@"/home/[^/\s]+/", "/[REDACTED_USER]/"),
    (@"C:\\\\Users\\\\[^\\\\]+\\\\", @"C:\\[REDACTED_USER]\\"),
    (@"(ANTHROPIC_API_KEY|OPENAI_API_KEY|MOLTBOOK_API_KEY|SECRET_KEY|API_SECRET|AWS_SECRET_ACCESS_KEY)\s*=\s*[^\s\n]+",
     @"\1=[REDACTED]"),
    (@"(mongodb|mysql|postgres|redis|amqp)://[^\s]+", @"\1://[REDACTED]"),
    (@"""password""\s*:\s*""[^""]*""", @"""password"": ""[REDACTED]"""),
    (@"'password'\s*:\s*'[^']*'", "'password': '[REDACTED]'"),
    (@"password:\s*[^\s\n]+", "password: [REDACTED]"),
    (@"""secret""\s*:\s*""[^""]*""", @"""secret"": ""[REDACTED]"""),
    (@"""api_key""\s*:\s*""[^""]*""", @"""api_key"": ""[REDACTED]"""),
    (@"""apiKey""\s*:\s*""[^""]*""", @"""apiKey"": ""[REDACTED]"""),
    (@"""token""\s*:\s*""[^""]*""", @"""token"": ""[REDACTED]"""),
    (@"[a-zA-Z0-9._%+-]+@[a-zA-Z0-9.-]+\.[a-zA-Z]{2,}", "[REDACTED_EMAIL]"),
    (@"192\.168\.\d{1,3}\.\d{1,3}", "[REDACTED_IP]"),
    (@"10\.\d{1,3}\.\d{1,3}\.\d{1,3}", "[REDACTED_IP]"),
    (@"172\.(1[6-9]|2[0-9]|3[0-1])\.\d{1,3}\.\d{1,3}", "[REDACTED_IP]"),
    (@"https://hooks\.slack\.com/[^\s]+", "https://hooks.slack.com/[REDACTED]"),
    (@"https://discord\.com/api/webhooks/[^\s]+", "https://discord.com/api/webhooks/[REDACTED]")
  ]

  /** What `get_sanitization_stats` counts in the sanitised text. */
  const REDACTION_MARK := "[REDACTED"

  // ---------------------------------------------------------------------------------------
  // Construction and the text pass

  /** `ErrorSanitizer(additional_patterns)`: the built-in pairs, then the additional ones. */
  function PatternList(additional: seq<(string, string)>): (r: seq<(string, string)>)
    ensures |r| == |REDACTION_PATTERNS| + |additional|
    ensures r[..|REDACTION_PATTERNS|] == REDACTION_PATTERNS && r[|REDACTION_PATTERNS|..] == additional
  {
    REDACTION_PATTERNS + additional
  }

  /** The compiled pairs, each pattern compiled with IGNORECASE and MULTILINE. */
  function Compile(pairs: seq<(string, string)>): (r: seq<(Pattern, string)>)
    ensures |r| == |pairs|
    ensures forall i :: 0 <= i < |pairs| ==> r[i] == (IM(pairs[i].0), pairs[i].1)
  {
    if |pairs| == 0 then [] else [(IM(pairs[0].0), pairs[0].1)] + Compile(pairs[1..])
  }

  /** `_sanitize_text(text)`: empty text is returned as is; otherwise every pair is applied in order. */
  function SanitizeText(e: Engine, pairs: seq<(string, string)>, text: string): string {
    if text == "" then text else SubEach(e, Compile(pairs), text)
  }

  /** Applying a concatenation of pair lists is applying the first list, then the second. */
  lemma {:induction false} SubEachAppend(e: Engine, a: seq<(Pattern, string)>, b: seq<(Pattern, string)>, s: string)
    ensures SubEach(e, a + b, s) == SubEach(e, b, SubEach(e, a, s))
    decreases |a|
  {
    if |a| > 0 {
      assert (a + b)[0] == a[0];
      assert (a + b)[1..] == a[1..] + b;
      SubEachAppend(e, a[1..], b, e.sub(a[0].0, s, a[0].1));
    } else {
      assert a + b == b;
    }
  }

  /**
   * The sanitiser made with additional pairs runs the built-in pairs over the text first and
   * the additional pairs over that result; empty text comes back unchanged.
   */
  lemma SanitizeInOrder(e: Engine, additional: seq<(string, string)>, text: string)
    ensures text == "" ==> SanitizeText(e, PatternList(additional), text) == ""
    ensures text != "" ==>
      SanitizeText(e, PatternList(additional), text)
      == SubEach(e, Compile(additional), SubEach(e, Compile(REDACTION_PATTERNS), text))
  {
    SanitizeAppend(e, REDACTION_PATTERNS, additional, text);
  }

  /** Sanitising with two lists of pairs one after the other. */
  lemma SanitizeAppend(e: Engine, a: seq<(string, string)>, b: seq<(string, string)>, text: string)
    ensures text == "" ==> SanitizeText(e, a + b, text) == ""
    ensures text != "" ==> SanitizeText(e, a + b, text) == SubEach(e, Compile(b), SubEach(e, Compile(a), text))
  {
    assert Compile(a + b) == Compile(a) + Compile(b);
    SubEachAppend(e, Compile(a), Compile(b), text);
  }

  /** With a faithful engine, text that no pattern matches comes back unchanged. */
  lemma SanitizeKeepsCleanText(e: Engine, pairs: seq<(string, string)>, text: string)
    requires SubFaithful(e)
    requires forall i :: 0 <= i < |pairs| ==> !Search(e, IM(pairs[i].0), text)
    ensures SanitizeText(e, pairs, text) == text
  {
    if text != "" {
      SubEachNoMatch(e, Compile(pairs), text);
    }
  }

  /** `sanitize(error)`: the message, then a newline and the formatted traceback when there is one. */
  function SanitizeError(e: Engine, pairs: seq<(string, string)>, message: string, traceback: Option<string>): (r: string)
    ensures traceback.None? ==> r == SanitizeText(e, pairs, message)
    ensures traceback.Some? ==> r == SanitizeText(e, pairs, message + "\n" + traceback.value)
  {
    var full := match traceback case Some(tb) => message + "\n" + tb case None => message;
    SanitizeText(e, pairs, full)
  }

  /** `safe_str(obj)`: `str(obj)` when it succeeds (`Some`), `repr(obj)` otherwise, sanitised. */
  function SafeStr(e: Engine, pairs: seq<(string, string)>, str: Option<string>, repr: string): (r: string)
    ensures str.Some? ==> r == SanitizeText(e, pairs, str.value)
    ensures str.None? ==> r == SanitizeText(e, pairs, repr)
  {
    SanitizeText(e, pairs, match str case Some(t) => t case None => repr)
  }

  // ---------------------------------------------------------------------------------------
  // Dictionaries

  /** The values a dictionary passed to `sanitize_dict` may hold; keys are kept in insertion order. */
  datatype Value =
    | Str(text: string)
    | Dict(entries: seq<Entry>)
    | List(items: seq<Value>)
    | Other(repr: string)

  /** One key of a dictionary and its value. */
  datatype Entry = Entry(key: string, value: Value)

  /** The keys of a dictionary, in order. */
  function Keys(d: seq<Entry>): (r: seq<string>)
    ensures |r| == |d| && forall i :: 0 <= i < |d| ==> r[i] == d[i].key
  {
    if |d| == 0 then [] else [d[0].key] + Keys(d[1..])
  }

  /** `sanitize_dict(data)`: the same keys in the same order, each value sanitised. */
  function SanitizeDict(e: Engine, pairs: seq<(string, string)>, d: seq<Entry>): (r: seq<Entry>)
    ensures Keys(r) == Keys(d)
    ensures forall i :: 0 <= i < |d| ==> r[i].value == SanitizeValue(e, pairs, d[i].value)
    decreases d, 0
  {
    if |d| == 0 then []
    else
      [Entry(d[0].key, SanitizeValue(e, pairs, d[0].value))] + SanitizeDict(e, pairs, d[1..])
  }

  /** A dictionary value: strings sanitised, dictionaries recursed into, lists element by element. */
  function SanitizeValue(e: Engine, pairs: seq<(string, string)>, v: Value): (r: Value)
    ensures v.Str? ==> r == Str(SanitizeText(e, pairs, v.text))
    ensures v.Other? ==> r == v
    ensures v.Dict? ==> r.Dict? && Keys(r.entries) == Keys(v.entries)
    ensures v.Dict? ==> r == Dict(SanitizeDict(e, pairs, v.entries))
    ensures v.List? ==> r.List? && |r.items| == |v.items|
    ensures v.List? ==> r == List(SanitizeItems(e, pairs, v.items))
    decreases v, 2
  {
    match v
    case Str(t) => Str(SanitizeText(e, pairs, t))
    case Dict(entries) => Dict(SanitizeDict(e, pairs, entries))
    case List(items) => List(SanitizeItems(e, pairs, items))
    case Other(_) => v
  }

  /** The elements of a list value: strings and dictionaries sanitised, anything else kept as is. */
  function SanitizeItems(e: Engine, pairs: seq<(string, string)>, items: seq<Value>): (r: seq<Value>)
    ensures |r| == |items|
    ensures forall i :: 0 <= i < |items| && items[i].Str? ==> r[i] == Str(SanitizeText(e, pairs, items[i].text))
    ensures forall i :: 0 <= i < |items| && (items[i].List? || items[i].Other?) ==> r[i] == items[i]
    ensures forall i :: 0 <= i < |items| && items[i].Dict? ==>
      r[i].Dict? && Keys(r[i].entries) == Keys(items[i].entries)
    ensures forall i :: 0 <= i < |items| && items[i].Dict? ==> r[i] == Dict(SanitizeDict(e, pairs, items[i].entries))
    decreases items, 1
  {
    if |items| == 0 then []
    else
      var v := items[0];
      var x := match v
        case Str(t) => Str(SanitizeText(e, pairs, t))
        case Dict(entries) => Dict(SanitizeDict(e, pairs, entries))
        case _ => v;
      [x] + SanitizeItems(e, pairs, items[1..])
  }

  /** A value all of whose texts that the sanitiser would look at are unmatched by every pattern. */
  ghost predicate CleanValue(e: Engine, pairs: seq<(string, string)>, v: Value)
    decreases v
  {
    match v
    case Str(t) => forall i :: 0 <= i < |pairs| ==> !Search(e, IM(pairs[i].0), t)
    case Dict(entries) => forall k :: 0 <= k < |entries| ==> CleanValue(e, pairs, entries[k].value)
    case List(items) => forall k :: 0 <= k < |items| ==> items[k].List? || CleanValue(e, pairs, items[k])
    case Other(_) => true
  }

  /** With a faithful engine, a dictionary holding no matching text comes back unchanged. */
  lemma {:induction false} SanitizeDictKeepsClean(e: Engine, pairs: seq<(string, string)>, d: seq<Entry>)
    requires SubFaithful(e)
    requires forall k :: 0 <= k < |d| ==> CleanValue(e, pairs, d[k].value)
    ensures SanitizeDict(e, pairs, d) == d
    decreases d, 0
  {
    if |d| > 0 {
      SanitizeValueKeepsClean(e, pairs, d[0].value);
      assert forall k :: 0 <= k < |d[1..]| ==> d[1..][k] == d[k + 1];
      SanitizeDictKeepsClean(e, pairs, d[1..]);
      assert [d[0]] + d[1..] == d;
    }
  }

  lemma {:induction false} SanitizeValueKeepsClean(e: Engine, pairs: seq<(string, string)>, v: Value)
    requires SubFaithful(e) && CleanValue(e, pairs, v)
    ensures SanitizeValue(e, pairs, v) == v
    decreases v, 2
  {
    match v
    case Str(t) => SanitizeKeepsCleanText(e, pairs, t);
    case Dict(entries) => SanitizeDictKeepsClean(e, pairs, entries);
    case List(items) => SanitizeItemsKeepsClean(e, pairs, items);
    case Other(_) =>
  }

  lemma {:induction false} SanitizeItemsKeepsClean(e: Engine, pairs: seq<(string, string)>, items: seq<Value>)
    requires SubFaithful(e)
    requires forall k :: 0 <= k < |items| ==> items[k].List? || CleanValue(e, pairs, items[k])
    ensures SanitizeItems(e, pairs, items) == items
    decreases items, 1
  {
    if |items| > 0 {
      var v := items[0];
      match v {
        case Str(t) => SanitizeKeepsCleanText(e, pairs, t);
        case Dict(entries) => SanitizeDictKeepsClean(e, pairs, entries);
        case _ =>
      }
      assert forall k :: 0 <= k < |items[1..]| ==> items[1..][k] == items[k + 1];
      SanitizeItemsKeepsClean(e, pairs, items[1..]);
      assert [items[0]] + items[1..] == items;
    }
  }

  /** A list nested directly inside a list is not looked into: its strings stay as they are. */
  lemma NestedListUntouched(e: Engine, pairs: seq<(string, string)>, inner: seq<Value>)
    ensures SanitizeValue(e, pairs, List([List(inner)])) == List([List(inner)])
  {
    assert SanitizeItems(e, pairs, [List(inner)])[0] == List(inner);
  }

  // ---------------------------------------------------------------------------------------
  // Statistics

  /** The result of `get_sanitization_stats`. */
  datatype SanitizationResult = SanitizationResult(
    originalLength: nat, sanitizedLength: nat, redactionCount: nat, sanitizedText: string)

  /** `get_sanitization_stats(text)` */
  function Stats(e: Engine, pairs: seq<(string, string)>, text: string): SanitizationResult {
    var sanitized := SanitizeText(e, pairs, text);
    SanitizationResult(|text|, |sanitized|, Count(sanitized, REDACTION_MARK), sanitized)
  }

  /**
   * The statistics describe the sanitised text: its length, and how many non-overlapping
   * "[REDACTED" marks it holds, which is none exactly when the mark does not occur and never
   * more than fit in the text.
   */
  lemma StatsMeaning(e: Engine, pairs: seq<(string, string)>, text: string)
    ensures var r := Stats(e, pairs, text);
      && r.originalLength == |text|
      && r.sanitizedText == SanitizeText(e, pairs, text)
      && r.sanitizedLength == |r.sanitizedText|
      && r.redactionCount * 9 <= r.sanitizedLength
      && (r.redactionCount == 0 <==> !Contains(r.sanitizedText, REDACTION_MARK))
  {
    var s := SanitizeText(e, pairs, text);
    CountBound(s, REDACTION_MARK);
    CountZero(s, REDACTION_MARK);
  }

  // ---------------------------------------------------------------------------------------
  // The sanitiser object and the module-level helpers

  /** `ErrorSanitizer`: its pair list is fixed when it is made. */
  datatype Sanitizer = Sanitizer(patterns: seq<(string, string)>)

  /** `ErrorSanitizer(additional_patterns)`; a missing list and an empty one are alike. */
  function NewSanitizer(additional: seq<(string, string)>): (r: Sanitizer)
    ensures r.patterns == REDACTION_PATTERNS + additional
  {
    Sanitizer(PatternList(additional))
  }

  /** `sanitize_message(message)` on the shared default sanitiser: the built-in pairs only. */
  function SanitizeMessage(e: Engine, message: string): (r: string)
    ensures r == SanitizeText(e, REDACTION_PATTERNS, message)
  {
    var p := NewSanitizer([]).patterns;
    assert p == REDACTION_PATTERNS;
    SanitizeText(e, p, message)
  }
}
