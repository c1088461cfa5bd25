/**
 * Skill verification (`SkillVerifier`): before a skill (a plugin directory) runs, its SKILL.md
 * manifest is parsed and checked for the required fields, its Python files are searched line by
 * line for dangerous calls and their imports for blocked modules, the findings are weighted into
 * a risk score, and the skill is verified only when manifest, signature, score and the absence of
 * critical findings all allow it.
 */
module SkillVerifier {
  import opened Wrappers
  import opened Strings
  import opened Regex

  datatype Severity = Low | Medium | High | Critical

  /** The weight of a finding in the risk score. */
  function Weight(s: Severity): real {
    match s
    case Low => 0.5
    case Medium => 1.0
    case High => 2.0
    case Critical => 5.0
  }

  /** One entry of `DANGEROUS_PATTERNS`: its name, severity, patterns (compiled without flags) and description. */
  datatype Category = Category(name: string, severity: Severity, patterns: seq<Pattern>, description: string)

  /** `DANGEROUS_PATTERNS`, in dictionary order. */
  const DANGEROUS_PATTERNS: seq<Category> := [
    Category("code_execution", Critical, [
      Plain(@"\beval\s*\("),
      Plain(@"\bexec\s*\("),
      Plain(@"\bcompile\s*\("),
      Plain(@"__import__\s*\(")],
      "Arbitrary code execution"),
    Category("shell_command", Critical, [
      Plain(@"\bos\.system\s*\("),
      Plain(@"\bos\.popen\s*\("),
      Plain(@"\bsubprocess\.(?:run|call|Popen|check_output)\s*\("),
      Plain(@"\bcommands\.getoutput\s*\(")],
      "Shell command execution"),
    Category("file_operations", High, [
      Plain(@"\bopen\s*\([^)]*['\""]w['\""]"),
      Plain(@"\bos\.remove\s*\("),
      Plain(@"\bos\.unlink\s*\("),
      Plain(@"\bshutil\.rmtree\s*\("),
      Plain(@"\bos\.rmdir\s*\(")],
      "Dangerous file operations"),
    Category("network_access", High, [
      Plain(@"\brequests\.(get|post|put|delete|patch)\s*\("),
      Plain(@"\burllib\.request\.urlopen\s*\("),
      Plain(@"\bhttpx\.(get|post|put|delete)\s*\("),
      Plain(@"socket\.socket\s*\(")],
      "Network access"),
    Category("credential_access", Critical, [
      Plain(@"os\.environ\.get\s*\(\s*['\""].*(?:KEY|SECRET|TOKEN|PASSWORD)"),
      Plain(@"os\.environ\s*\[\s*['\""].*(?:KEY|SECRET|TOKEN|PASSWORD)"),
      Plain(@"getenv\s*\(\s*['\""].*(?:KEY|SECRET|TOKEN|PASSWORD)")],
      "Credential access"),
    Category("hardcoded_urls", Medium, [
      Plain(@"https?://(?:webhook|hooks|ngrok|pipedream)"),
      Plain(@"https?://[^/]+\.(?:ngrok|pipedream|requestbin)\.")],
      "Hardcoded external URLs"),
    Category("pickle_deserialization", Critical, [
      Plain(@"\bpickle\.loads?\s*\("),
      Plain(@"\bcPickle\.loads?\s*\("),
      Plain(@"\byaml\.load\s*\([^)]*Loader\s*=\s*yaml\.(?:Unsafe)?Loader")],
      "Unsafe deserialization")
  ]

  /** `BLOCKED_IMPORTS` */
  const BLOCKED_IMPORTS: set<string> := {"ctypes", "multiprocessing", "threading", "pickle", "cPickle", "marshal"}

  /** `REQUIRED_MANIFEST_FIELDS` */
  const REQUIRED_MANIFEST_FIELDS: seq<string> := ["name", "version", "description"]

  // ---------------------------------------------------------------------------------------------
  // Escaping and the shared pattern table

  /** The characters `re.escape` puts a backslash before. */
  predicate IsReSpecial(c: char) {
    c in "()[]{}?*+-|^$\\.&~# \t\n\r\U{000B}\U{000C}"
  }

  /** `re.escape(s)` */
  function EscapeRe(s: string): (r: string)
    ensures |r| >= |s|
  {
    if |s| == 0 then ""
    else (if IsReSpecial(s[0]) then ['\\', s[0]] else [s[0]]) + EscapeRe(s[1..])
  }

  /** Reading an escaped text back: a backslash takes the next character literally. */
  function Unescape(s: string): string
    decreases |s|
  {
    if |s| == 0 then ""
    else if s[0] == '\\' && |s| > 1 then [s[1]] + Unescape(s[2..])
    else [s[0]] + Unescape(s[1..])
  }

  /** Escaping loses nothing: the escaped name reads back as the name. */
  lemma {:induction false} UnescapeEscape(s: string)
    ensures Unescape(EscapeRe(s)) == s
  {
    if |s| > 0 {
      UnescapeEscape(s[1..]);
      var rest := EscapeRe(s[1..]);
      if IsReSpecial(s[0]) {
        assert EscapeRe(s) == ['\\', s[0]] + rest;
        assert (['\\', s[0]] + rest)[2..] == rest;
      } else {
        assert EscapeRe(s) == [s[0]] + rest;
        assert ([s[0]] + rest)[1..] == rest;
        assert s[0] != '\\' by { assert IsReSpecial('\\'); }
      }
      assert s == [s[0]] + s[1..];
    }
  }

  /** The category `__init__` adds for a blocked function name. */
  function CustomCategory(func: string): Category {
    Category("custom_" + func, High, [Plain(@"\b" + EscapeRe(func) + @"\s*\(")], "Blocked function: " + func)
  }

  /** The index of the category named `n`, or `|cats|` when there is none. */
  function IndexOf(cats: seq<Category>, n: string): (i: nat)
    ensures i <= |cats|
    ensures i < |cats| ==> cats[i].name == n
    ensures i == |cats| ==> forall d :: d in cats ==> d.name != n
  {
    if |cats| == 0 then 0
    else if cats[0].name == n then 0
    else
      assert forall d :: d in cats ==> d == cats[0] || d in cats[1..];
      1 + IndexOf(cats[1..], n)
  }

  /** `table[c.name] = c` on an insertion-ordered dictionary: replaced in place, or added at the end. */
  function Put(cats: seq<Category>, c: Category): (r: seq<Category>)
    ensures c in r
    ensures forall d :: d in cats && d.name != c.name ==> d in r
    ensures forall d :: d in r ==> d == c || d in cats
  {
    var i := IndexOf(cats, c.name);
    if i < |cats| then
      var r := cats[i := c];
      assert r[i] == c;
      assert forall j :: 0 <= j < |cats| && j != i ==> r[j] == cats[j];
      assert forall d :: d in r ==> d == c || d in cats by {
        forall d | d in r ensures d == c || d in cats {
          var j :| 0 <= j < |r| && r[j] == d;
          if j != i {
            assert cats[j] == d;
          }
        }
      }
      r
    else cats + [c]
  }

  /** The table after the custom categories of `funcs` are added, one after another. */
  function WithCustom(cats: seq<Category>, funcs: seq<string>): (r: seq<Category>)
    decreases |funcs|
  {
    if |funcs| == 0 then cats else Put(WithCustom(cats, funcs[..|funcs| - 1]), CustomCategory(funcs[|funcs| - 1]))
  }

  /** Every blocked function gets its category, and nothing else is added. */
  lemma {:induction false} WithCustomCovers(cats: seq<Category>, funcs: seq<string>)
    ensures forall f :: f in funcs ==> CustomCategory(f) in WithCustom(cats, funcs)
    ensures forall d :: d in WithCustom(cats, funcs) ==> d in cats || exists f :: f in funcs && d == CustomCategory(f)
    decreases |funcs|
  {
    if |funcs| > 0 {
      var init := funcs[..|funcs| - 1];
      var last := funcs[|funcs| - 1];
      WithCustomCovers(cats, init);
      assert funcs == init + [last];
      forall f | f in init ensures CustomCategory(f) in WithCustom(cats, funcs) {
        assert ("custom_" + f)[7..] == f && ("custom_" + last)[7..] == last;
      }
    }
  }

  /**
   * The class-level `DANGEROUS_PATTERNS` dictionary, shared by every verifier: `__init__` writes
   * the custom categories into it, and every later verifier compiles what it holds.
   */
  class SharedPatterns {
    var table: seq<Category>

    constructor()
      ensures table == DANGEROUS_PATTERNS
    {
      table := DANGEROUS_PATTERNS;
    }
  }

  /** A verifier's settings and the patterns it compiled (`_compiled_patterns`). */
  datatype Verifier = Verifier(requireManifest: bool, requireSignature: bool, maxRiskScore: real, compiled: seq<Category>)

  /** The default of `max_risk_score`. */
  const DEFAULT_MAX_RISK_SCORE: real := 5.0

  function Blocked(blockedFunctions: Option<seq<string>>): seq<string> {
    if blockedFunctions.Some? then blockedFunctions.value else []
  }

  /**
   * `SkillVerifier(require_manifest, require_signature, blocked_functions, max_risk_score)` as
   * written: the blocked functions go into the shared table, and the verifier compiles the whole
   * shared table, including what earlier verifiers put there.
   */
  method NewVerifier(shared: SharedPatterns, requireManifest: bool, requireSignature: bool,
                     blockedFunctions: Option<seq<string>>, maxRiskScore: real) returns (v: Verifier)
    modifies shared
    ensures shared.table == WithCustom(old(shared.table), Blocked(blockedFunctions))
    ensures v == Verifier(requireManifest, requireSignature, maxRiskScore, shared.table)
  {
    if blockedFunctions.Some? && |blockedFunctions.value| > 0 {
      var funcs := blockedFunctions.value;
      var i := 0;
      while i < |funcs|
        invariant 0 <= i <= |funcs|
        invariant shared.table == WithCustom(old(shared.table), funcs[..i])
      {
        assert funcs[..i + 1][..i] == funcs[..i];
        shared.table := Put(shared.table, CustomCategory(funcs[i]));
        i := i + 1;
      }
      assert funcs[..i] == funcs;
    }
    v := Verifier(requireManifest, requireSignature, maxRiskScore, shared.table);
  }

  /**
   * The constructor as evidently intended: the verifier compiles the shared table with its own
   * custom categories added, and the shared table is left as it was.
   */
  method NewVerifierIsolated(shared: SharedPatterns, requireManifest: bool, requireSignature: bool,
                             blockedFunctions: Option<seq<string>>, maxRiskScore: real) returns (v: Verifier)
    ensures v == Verifier(requireManifest, requireSignature, maxRiskScore, WithCustom(shared.table, Blocked(blockedFunctions)))
  {
    var funcs := Blocked(blockedFunctions);
    var table := shared.table;
    var i := 0;
    while i < |funcs|
      invariant 0 <= i <= |funcs|
      invariant table == WithCustom(shared.table, funcs[..i])
    {
      assert funcs[..i + 1][..i] == funcs[..i];
      table := Put(table, CustomCategory(funcs[i]));
      i := i + 1;
    }
    assert funcs[..i] == funcs;
    v := Verifier(requireManifest, requireSignature, maxRiskScore, table);
  }

  /** As written: after a verifier blocking `f`, a verifier given no blocked function still blocks `f`. */
  method LeakScenario(f: string) returns (second: Verifier)
    ensures CustomCategory(f) in second.compiled
  {
    var shared := new SharedPatterns();
    var first := NewVerifier(shared, true, false, Some([f]), DEFAULT_MAX_RISK_SCORE);
    second := NewVerifier(shared, true, false, None, DEFAULT_MAX_RISK_SCORE);
    WithCustomCovers(DANGEROUS_PATTERNS, [f]);
  }

  /** Corrected: the second verifier compiles exactly the class table, whatever the first one blocked. */
  method IsolatedScenario(f: string) returns (second: Verifier)
    ensures second.compiled == DANGEROUS_PATTERNS
  {
    var shared := new SharedPatterns();
    var first := NewVerifierIsolated(shared, true, false, Some([f]), DEFAULT_MAX_RISK_SCORE);
    second := NewVerifierIsolated(shared, true, false, None, DEFAULT_MAX_RISK_SCORE);
  }

  // ---------------------------------------------------------------------------------------------
  // The manifest

  /** The key and value a manifest line contributes, if any. */
  function LineEntry(line: string): Option<(string, string)> {
    var l := Strip(line);
    if l == "---" || ':' !in l then None
    else
      var (key, value, _) := SplitOnce(l, ':');
      Some((Lower(Strip(key)), Strip(value)))
  }

  /** A line contributes exactly when it holds a colon; the key is the text before the first colon, stripped and lowered, and the value the stripped rest. */
  lemma LineEntryMeaning(line: string)
    ensures LineEntry(line).Some? <==> ':' in Strip(line)
    ensures LineEntry(line).Some? ==>
      exists a, b :: Strip(line) == a + ":" + b && ':' !in a && LineEntry(line).value == (Lower(Strip(a)), Strip(b))
  {
    var l := Strip(line);
    if l == "---" {
      assert l[0] != ':' && l[1] != ':' && l[2] != ':';
    }
    if ':' in l {
      var (a, b, _) := SplitOnce(l, ':');
      assert l == a + ":" + b;
    }
  }

  /** The entry of each line. */
  function Entries(lines: seq<string>): (r: seq<Option<(string, string)>>)
    ensures |r| == |lines| && forall i :: 0 <= i < |lines| ==> r[i] == LineEntry(lines[i])
  {
    seq(|lines|, i requires 0 <= i < |lines| => LineEntry(lines[i]))
  }

  /** The dictionary the entries build, later ones overwriting earlier ones. */
  function Fold(entries: seq<Option<(string, string)>>): map<string, string>
    decreases |entries|
  {
    if |entries| == 0 then map[]
    else
      var m := Fold(entries[..|entries| - 1]);
      match entries[|entries| - 1]
      case None => m
      case Some((k, v)) => m[k := v]
  }

  /** The manifest dictionary of SKILL.md's text. */
  function ManifestData(content: string): map<string, string> {
    Fold(Entries(SplitOn(content, '\n')))
  }

  /** The parsing loop of `verify_manifest`. */
  method ParseManifest(content: string) returns (data: map<string, string>)
    ensures data == ManifestData(content)
  {
    var lines := SplitOn(content, '\n');
    ghost var entries := Entries(lines);
    var inFrontmatter := false;
    data := map[];
    var i := 0;
    while i < |lines|
      invariant 0 <= i <= |lines|
      invariant data == Fold(entries[..i])
    {
      FoldStep(entries, i);
      assert entries[i] == LineEntry(lines[i]);
      var line := Strip(lines[i]);
      if line == "---" {
        inFrontmatter := !inFrontmatter;
      } else if ':' in line {
        var (key, value, _) := SplitOnce(line, ':');
        data := data[Lower(Strip(key)) := Strip(value)];
      }
      i := i + 1;
    }
    assert entries[..i] == entries;
  }

  /** One more entry overwrites, or leaves, the dictionary of those before it. */
  lemma FoldStep(entries: seq<Option<(string, string)>>, i: nat)
    requires i < |entries|
    ensures entries[i].None? ==> Fold(entries[..i + 1]) == Fold(entries[..i])
    ensures entries[i].Some? ==>
      Fold(entries[..i + 1]) == Fold(entries[..i])[entries[i].value.0 := entries[i].value.1]
  {
    assert entries[..i + 1][..i] == entries[..i];
  }

  /** A key is in the dictionary exactly when some entry has that key. */
  lemma {:induction false} FoldKeys(entries: seq<Option<(string, string)>>, k: string)
    ensures k in Fold(entries) <==> exists i :: 0 <= i < |entries| && entries[i].Some? && entries[i].value.0 == k
    decreases |entries|
  {
    if |entries| > 0 {
      var init := entries[..|entries| - 1];
      FoldKeys(init, k);
      assert forall i :: 0 <= i < |init| ==> init[i] == entries[i];
    }
  }

  /** The value of a key is the one of the last entry with that key. */
  lemma {:induction false} FoldLastWins(entries: seq<Option<(string, string)>>, i: int, k: string, v: string)
    requires 0 <= i < |entries| && entries[i] == Some((k, v))
    requires forall j :: i < j < |entries| ==> entries[j].None? || entries[j].value.0 != k
    ensures k in Fold(entries) && Fold(entries)[k] == v
    decreases |entries|
  {
    var init := entries[..|entries| - 1];
    if i < |init| {
      assert forall j :: i < j < |init| ==> init[j] == entries[j];
      FoldLastWins(init, i, k, v);
    }
  }

  /** Some line has the key `k`. */
  predicate HasKey(lines: seq<string>, k: string) {
    exists i :: 0 <= i < |lines| && LineEntry(lines[i]).Some? && LineEntry(lines[i]).value.0 == k
  }

  /** A key is in the dictionary of some lines exactly when one of them has that key. */
  lemma LinesKeys(lines: seq<string>, k: string)
    ensures k in Fold(Entries(lines)) <==> HasKey(lines, k)
  {
    var es := Entries(lines);
    FoldKeys(es, k);
    if exists i :: 0 <= i < |lines| && LineEntry(lines[i]).Some? && LineEntry(lines[i]).value.0 == k {
      var i :| 0 <= i < |lines| && LineEntry(lines[i]).Some? && LineEntry(lines[i]).value.0 == k;
      assert es[i].Some? && es[i].value.0 == k;
    }
    if exists i :: 0 <= i < |es| && es[i].Some? && es[i].value.0 == k {
      var i :| 0 <= i < |es| && es[i].Some? && es[i].value.0 == k;
      assert LineEntry(lines[i]).Some? && LineEntry(lines[i]).value.0 == k;
    }
  }

  /** A key is in the manifest exactly when some line of SKILL.md has that key. */
  lemma ManifestKeys(content: string, lines: seq<string>, k: string)
    requires lines == SplitOn(content, '\n')
    ensures k in ManifestData(content) <==> HasKey(lines, k)
  {
    LinesKeys(lines, k);
  }

  /** The value of a key in the manifest is that of the last line of SKILL.md with that key. */
  lemma ManifestLastWins(content: string, lines: seq<string>, i: int, k: string, v: string)
    requires lines == SplitOn(content, '\n')
    requires 0 <= i < |lines| && LineEntry(lines[i]) == Some((k, v))
    requires forall j :: i < j < |lines| ==> LineEntry(lines[j]).None? || LineEntry(lines[j]).value.0 != k
    ensures k in ManifestData(content) && ManifestData(content)[k] == v
  {
    FoldLastWins(Entries(lines), i, k, v);
  }

  /** Whether SKILL.md exists, cannot be read (with the error's text), or what it holds. */
  datatype ManifestFile = NoManifest | Unreadable(reason: string) | ManifestText(content: string)

  /** The errors for required fields the manifest lacks, in field order. */
  function MissingFields(data: map<string, string>): (errors: seq<string>)
    ensures errors == [] <==> forall f :: f in REQUIRED_MANIFEST_FIELDS ==> f in data
  {
    var fs := REQUIRED_MANIFEST_FIELDS;
    (if fs[0] in data then [] else ["Missing required field: " + fs[0]])
      + (if fs[1] in data then [] else ["Missing required field: " + fs[1]])
      + (if fs[2] in data then [] else ["Missing required field: " + fs[2]])
  }

  /** `verify_manifest(skill_path)`: whether the manifest is valid, its errors and its data. */
  function VerifyManifest(v: Verifier, file: ManifestFile): (r: (bool, seq<string>, map<string, string>))
    ensures r.0 <==> r.1 == []
    ensures file.NoManifest? ==> (r.0 <==> !v.requireManifest) && r.2 == map[]
    ensures file.Unreadable? ==> !r.0 && r.2 == map[]
    ensures file.ManifestText? ==>
      r.2 == ManifestData(file.content) && (r.0 <==> "name" in r.2 && "version" in r.2 && "description" in r.2)
  {
    match file
    case NoManifest =>
      if v.requireManifest then (false, ["SKILL.md manifest not found"], map[]) else (true, [], map[])
    case Unreadable(reason) =>
      (false, ["Failed to parse manifest: " + reason], map[])
    case ManifestText(content) =>
      var data := ManifestData(content);
      var errors := MissingFields(data);
      (errors == [], errors, data)
  }

  /** A manifest naming the three fields on lines of its own is valid, and one missing any of them is not. */
  lemma ManifestFieldsMeaning(v: Verifier, content: string, lines: seq<string>)
    requires lines == SplitOn(content, '\n')
    ensures VerifyManifest(v, ManifestText(content)).0 <==>
      HasKey(lines, "name") && HasKey(lines, "version") && HasKey(lines, "description")
  {
    ManifestKeys(content, lines, "name");
    ManifestKeys(content, lines, "version");
    ManifestKeys(content, lines, "description");
  }

  // ---------------------------------------------------------------------------------------------
  // Scanning

  /** `Vulnerability`; the line number and snippet are absent for a syntax error. */
  datatype Vulnerability = Vulnerability(
    severity: Severity, category: string, description: string, filePath: string,
    lineNumber: Option<nat>, codeSnippet: Option<string>)

  /** An import statement as `ast.walk` visits it: `import a, b` or `from m import ...`. */
  datatype ImportNode = ImportNames(names: seq<string>, line: nat) | ImportFrom(fromModule: Option<string>, line: nat)

  /** What `ast.parse` gives: the import statements in walk order, a syntax error, or another error. */
  datatype ParseOutcome = Parsed(imports: seq<ImportNode>) | SyntaxErr | OtherError

  /** A Python file under the skill directory: its relative path, its text unless unreadable, and its parse. */
  datatype SourceFile = SourceFile(relPath: string, content: Option<string>, parse: ParseOutcome)

  /** The findings of one pattern on the lines, numbered from `first`. */
  function LineHits(c: Category, e: Engine, p: Pattern, relPath: string, lines: seq<string>, first: nat): (r: seq<Vulnerability>)
    ensures forall x :: x in r ==> x.severity == c.severity && x.category == c.name
    decreases |lines|
  {
    if |lines| == 0 then []
    else
      (if Search(e, p, lines[0])
       then [Vulnerability(c.severity, c.name, c.description, relPath, Some(first), Some(Take(Strip(lines[0]), 100)))]
       else [])
      + LineHits(c, e, p, relPath, lines[1..], first + 1)
  }

  /** The findings of a category's patterns, pattern by pattern. */
  function CategoryHits(c: Category, e: Engine, ps: seq<Pattern>, relPath: string, lines: seq<string>): (r: seq<Vulnerability>)
    ensures forall x :: x in r ==> x.severity == c.severity && x.category == c.name
    decreases |ps|
  {
    if |ps| == 0 then [] else LineHits(c, e, ps[0], relPath, lines, 1) + CategoryHits(c, e, ps[1..], relPath, lines)
  }

  /** The findings of every compiled category, in table order. */
  function TableHits(cats: seq<Category>, e: Engine, relPath: string, lines: seq<string>): seq<Vulnerability>
    decreases |cats|
  {
    if |cats| == 0 then []
    else CategoryHits(cats[0], e, cats[0].patterns, relPath, lines) + TableHits(cats[1..], e, relPath, lines)
  }

  /** The blocked-import findings of the import statements. */
  function ImportHits(nodes: seq<ImportNode>, relPath: string): (r: seq<Vulnerability>)
    ensures forall x :: x in r ==> x.severity == High && x.category == "blocked_import"
  {
    if |nodes| == 0 then []
    else
      var here := match nodes[0]
        case ImportNames(names, line) => NameHits(names, line, relPath)
        case ImportFrom(fromModule, line) =>
          if fromModule.Some? && fromModule.value != "" && SplitOn(fromModule.value, '.')[0] in BLOCKED_IMPORTS
          then [Vulnerability(High, "blocked_import", "Blocked import from: " + fromModule.value, relPath, Some(line), None)]
          else [];
      here + ImportHits(nodes[1..], relPath)
  }

  function NameHits(names: seq<string>, line: nat, relPath: string): (r: seq<Vulnerability>)
    ensures forall x :: x in r ==> x.severity == High && x.category == "blocked_import"
  {
    if |names| == 0 then []
    else
      (if names[0] in BLOCKED_IMPORTS
       then [Vulnerability(High, "blocked_import", "Blocked import: " + names[0], relPath, Some(line), None)]
       else [])
      + NameHits(names[1..], line, relPath)
  }

  /** The findings of one file: the pattern findings, then those of its parse. */
  function FileHits(cats: seq<Category>, e: Engine, f: SourceFile): seq<Vulnerability> {
    match f.content
    case None => []
    case Some(text) =>
      TableHits(cats, e, f.relPath, SplitOn(text, '\n'))
        + match f.parse
          case Parsed(nodes) => ImportHits(nodes, f.relPath)
          case SyntaxErr => [Vulnerability(Low, "syntax_error", "Python syntax error in file", f.relPath, None, None)]
          case OtherError => []
  }

  /** `scan_for_vulnerabilities(skill_path)`, over the Python files in the order they are found. */
  function Scan(v: Verifier, e: Engine, files: seq<SourceFile>): seq<Vulnerability>
    decreases |files|
  {
    if |files| == 0 then [] else FileHits(v.compiled, e, files[0]) + Scan(v, e, files[1..])
  }

  predicate HasCritical(vs: seq<Vulnerability>) {
    exists x :: x in vs && x.severity == Critical
  }

  /** A dangerous line is reported: a pattern found on a line of a readable file yields a finding with its category's severity. */
  lemma LineFound(v: Verifier, e: Engine, files: seq<SourceFile>, fi: int, ci: int, pi: int, li: int)
    requires 0 <= fi < |files| && files[fi].content.Some?
    requires 0 <= ci < |v.compiled| && 0 <= pi < |v.compiled[ci].patterns|
    requires var lines := SplitOn(files[fi].content.value, '\n');
      0 <= li < |lines| && Search(e, v.compiled[ci].patterns[pi], lines[li])
    ensures exists x :: x in Scan(v, e, files) && x.severity == v.compiled[ci].severity && x.category == v.compiled[ci].name
  {
    var f := files[fi];
    var c := v.compiled[ci];
    var lines := SplitOn(f.content.value, '\n');
    var x := LineHitsFinds(c, e, c.patterns[pi], f.relPath, lines, 1, li);
    CategoryHitsHas(c, e, c.patterns, f.relPath, lines, pi, x);
    TableHitsHas(v.compiled, e, f.relPath, lines, ci, x);
    assert x in FileHits(v.compiled, e, f);
    ScanHas(v, e, files, fi, x);
  }

  lemma {:induction false} LineHitsFinds(c: Category, e: Engine, p: Pattern, relPath: string, lines: seq<string>, first: nat, li: int)
    returns (x: Vulnerability)
    requires 0 <= li < |lines| && Search(e, p, lines[li])
    ensures x in LineHits(c, e, p, relPath, lines, first) && x.severity == c.severity && x.category == c.name
    decreases |lines|
  {
    if li == 0 {
      x := Vulnerability(c.severity, c.name, c.description, relPath, Some(first), Some(Take(Strip(lines[0]), 100)));
    } else {
      x := LineHitsFinds(c, e, p, relPath, lines[1..], first + 1, li - 1);
    }
  }

  lemma {:induction false} CategoryHitsHas(c: Category, e: Engine, ps: seq<Pattern>, relPath: string, lines: seq<string>, pi: int, x: Vulnerability)
    requires 0 <= pi < |ps| && x in LineHits(c, e, ps[pi], relPath, lines, 1)
    ensures x in CategoryHits(c, e, ps, relPath, lines)
    decreases |ps|
  {
    if pi > 0 {
      CategoryHitsHas(c, e, ps[1..], relPath, lines, pi - 1, x);
    }
  }

  lemma {:induction false} TableHitsHas(cats: seq<Category>, e: Engine, relPath: string, lines: seq<string>, ci: int, x: Vulnerability)
    requires 0 <= ci < |cats| && x in CategoryHits(cats[ci], e, cats[ci].patterns, relPath, lines)
    ensures x in TableHits(cats, e, relPath, lines)
    decreases |cats|
  {
    if ci > 0 {
      TableHitsHas(cats[1..], e, relPath, lines, ci - 1, x);
    }
  }

  lemma {:induction false} ScanHas(v: Verifier, e: Engine, files: seq<SourceFile>, fi: int, x: Vulnerability)
    requires 0 <= fi < |files| && x in FileHits(v.compiled, e, files[fi])
    ensures x in Scan(v, e, files)
    decreases |files|
  {
    if fi > 0 {
      ScanHas(v, e, files[1..], fi - 1, x);
    }
  }

  // ---------------------------------------------------------------------------------------------
  // Scoring and the verdict

  /** `sum(severity_scores.get(v.severity, 1.0) for v in vulnerabilities)` */
  function RiskScore(vs: seq<Vulnerability>): (r: real)
    ensures r >= 0.0
  {
    if |vs| == 0 then 0.0 else Weight(vs[0].severity) + RiskScore(vs[1..])
  }

  /** The critical findings, in order. */
  function Criticals(vs: seq<Vulnerability>): (r: seq<Vulnerability>)
    ensures |r| <= |vs|
    ensures forall x :: x in r <==> x in vs && x.severity == Critical
  {
    if |vs| == 0 then []
    else
      assert forall x :: x in vs <==> x == vs[0] || x in vs[1..];
      (if vs[0].severity == Critical then [vs[0]] else []) + Criticals(vs[1..])
  }

  /** Each critical finding alone weighs 5, so the score is at least five times their number. */
  lemma {:induction false} RiskScoreCounts(vs: seq<Vulnerability>)
    ensures RiskScore(vs) >= 5.0 * |Criticals(vs)| as real
    ensures RiskScore(vs) >= 0.5 * |vs| as real
  {
    if |vs| > 0 {
      RiskScoreCounts(vs[1..]);
    }
  }

  /** The score of two lists of findings together is the sum of their scores. */
  lemma {:induction false} RiskScoreAppend(a: seq<Vulnerability>, b: seq<Vulnerability>)
    ensures RiskScore(a + b) == RiskScore(a) + RiskScore(b)
  {
    if |a| > 0 {
      assert (a + b)[0] == a[0] && (a + b)[1..] == a[1..] + b;
      RiskScoreAppend(a[1..], b);
      assert RiskScore(a + b) == Weight(a[0].severity) + RiskScore(a[1..] + b);
    } else {
      assert a + b == b;
    }
  }

  /** `verify_signature(skill_path)`, given whether SKILL.sig exists; its content is not checked. */
  function VerifySignature(v: Verifier, signed: bool): (r: (bool, string))
    ensures !r.0 <==> !signed && v.requireSignature
  {
    if !signed then
      if v.requireSignature then (false, "Signature required but not found") else (true, "No signature (not required)")
    else (true, "Signature present (verification not implemented)")
  }

  /** A skill directory: its path, its manifest, its Python files and whether SKILL.sig exists. */
  datatype Skill = Skill(path: string, manifest: ManifestFile, files: seq<SourceFile>, signed: bool)

  /** `Path(path).name`: the last component, ignoring empty and `.` components. */
  function PathName(path: string): string {
    var parts := Components(SplitOn(path, '/'));
    if |parts| == 0 then "" else parts[|parts| - 1]
  }

  function Components(parts: seq<string>): seq<string> {
    if |parts| == 0 then []
    else (if parts[0] == "" || parts[0] == "." then [] else [parts[0]]) + Components(parts[1..])
  }

  /** `VerificationResult` */
  datatype VerificationResult = VerificationResult(
    isVerified: bool, skillName: string, skillPath: string, manifestValid: bool, manifestErrors: seq<string>,
    vulnerabilities: seq<Vulnerability>, permissionsDeclared: seq<string>, riskScore: real, recommendations: seq<string>)

  /** The declared permissions: the "permissions" value split at commas, each part stripped. */
  function Permissions(data: map<string, string>): (r: seq<string>)
    ensures "permissions" !in data ==> r == []
    ensures "permissions" in data ==>
      |r| == |SplitOn(data["permissions"], ',')| >= 1 && forall i :: 0 <= i < |r| ==> r[i] == Strip(SplitOn(data["permissions"], ',')[i])
  {
    if "permissions" in data then
      var parts := SplitOn(data["permissions"], ',');
      seq(|parts|, i requires 0 <= i < |parts| => Strip(parts[i]))
    else []
  }

  function Recommendations(manifestValid: bool, vs: seq<Vulnerability>, risk: real, maxRisk: real): seq<string> {
    (if manifestValid then [] else ["Add a valid SKILL.md manifest"])
      + (if |Criticals(vs)| > 0 then ["Fix " + NatToString(|Criticals(vs)|) + " critical vulnerabilities before use"] else [])
      + (if risk > maxRisk then ["Risk score too high - review and fix issues"] else [])
  }

  /** `verify(skill_path)` */
  function Verify(v: Verifier, e: Engine, skill: Skill): (r: VerificationResult)
    ensures r.isVerified <==>
      && (VerifyManifest(v, skill.manifest).0 || !v.requireManifest)
      && (skill.signed || !v.requireSignature)
      && r.riskScore <= v.maxRiskScore
      && !HasCritical(r.vulnerabilities)
    ensures r.vulnerabilities == Scan(v, e, skill.files)
    ensures r.manifestValid == VerifyManifest(v, skill.manifest).0
  {
    var (manifestValid, manifestErrors, data) := VerifyManifest(v, skill.manifest);
    var vs := Scan(v, e, skill.files);
    var risk := RiskScore(vs);
    var (sigValid, _) := VerifySignature(v, skill.signed);
    var verified :=
      (manifestValid || !v.requireManifest)
      && (sigValid || !v.requireSignature)
      && risk <= v.maxRiskScore
      && !(exists x :: x in vs && x.severity == Critical);
    VerificationResult(verified, PathName(skill.path), skill.path, manifestValid, manifestErrors, vs,
      Permissions(data), risk, Recommendations(manifestValid, vs, risk, v.maxRiskScore))
  }

  /** A critical finding, or a score over the limit, earns its recommendation. */
  lemma RecommendationsMeaning(v: Verifier, e: Engine, skill: Skill)
    ensures var r := Verify(v, e, skill);
      && ("Add a valid SKILL.md manifest" in r.recommendations <==> !r.manifestValid)
      && ("Risk score too high - review and fix issues" in r.recommendations <==> r.riskScore > v.maxRiskScore)
  {
    var r := Verify(v, e, skill);
    var a := if r.manifestValid then [] else ["Add a valid SKILL.md manifest"];
    var b := if |Criticals(r.vulnerabilities)| > 0
      then ["Fix " + NatToString(|Criticals(r.vulnerabilities)|) + " critical vulnerabilities before use"] else [];
    var c := if r.riskScore > v.maxRiskScore then ["Risk score too high - review and fix issues"] else [];
    assert r.recommendations == a + b + c;
    if |b| > 0 {
      assert b[0][0] == 'F';
    }
    assert "Add a valid SKILL.md manifest"[0] == 'A' && "Risk score too high - review and fix issues"[0] == 'R';
  }

  /** `quick_scan(skill_path)`: safe exactly when nothing critical is found; one issue per critical finding. */
  function QuickScan(v: Verifier, e: Engine, files: seq<SourceFile>): (r: (bool, seq<string>))
    ensures r.0 <==> !HasCritical(Scan(v, e, files))
    ensures |r.1| == |Criticals(Scan(v, e, files))|
  {
    var critical := Criticals(Scan(v, e, files));
    var issues := seq(|critical|, i requires 0 <= i < |critical| =>
      critical[i].category + ": " + critical[i].description + " (" + critical[i].filePath + ":"
        + (match critical[i].lineNumber case Some(n) => NatToString(n) case None => "None") + ")");
    assert |critical| == 0 <==> !HasCritical(Scan(v, e, files)) by {
      if |critical| > 0 {
        assert critical[0] in critical;
      }
    }
    (|critical| == 0, issues)
  }

  /** A verified skill passes the quick scan. */
  lemma VerifiedPassesQuickScan(v: Verifier, e: Engine, skill: Skill)
    ensures Verify(v, e, skill).isVerified ==> QuickScan(v, e, skill.files).0
  {
  }

  /** A dangerous line of a critical category blocks the skill, and the quick scan flags it, whatever else holds. */
  lemma CriticalLineBlocks(v: Verifier, e: Engine, skill: Skill, fi: int, ci: int, pi: int, li: int)
    requires 0 <= fi < |skill.files| && skill.files[fi].content.Some?
    requires 0 <= ci < |v.compiled| && v.compiled[ci].severity == Critical && 0 <= pi < |v.compiled[ci].patterns|
    requires var lines := SplitOn(skill.files[fi].content.value, '\n');
      0 <= li < |lines| && Search(e, v.compiled[ci].patterns[pi], lines[li])
    ensures !Verify(v, e, skill).isVerified && !QuickScan(v, e, skill.files).0
  {
    LineFound(v, e, skill.files, fi, ci, pi, li);
  }

  /** Under the default limit, two critical findings already exceed the score, as do eleven low ones. */
  lemma ScoreLimitMeaning(vs: seq<Vulnerability>)
    requires |Criticals(vs)| >= 2 || |vs| >= 11
    ensures RiskScore(vs) > DEFAULT_MAX_RISK_SCORE
  {
    RiskScoreCounts(vs);
  }
}
