/**
 * Security configuration (`SecurityConfig`): a security level, twelve feature toggles and five
 * sub-configurations. Making a configuration reapplies the defaults of a known level over
 * whatever toggles were passed; `from_dict` and `from_yaml` build one from loaded data, and
 * `get_enabled_features` and `validate` report on it.
 */
module Config {
  import opened Wrappers
  import opened Strings

  // ---------------------------------------------------------------------------------------
  // Sub-configurations (each a record whose attributes `from_dict` may set)

  datatype AIFirewallConfig = AIFirewallConfig(
    enabled: bool, provider: string, scanInputs: bool, scanOutputs: bool, blockUnsafe: bool,
    llamaGuardProvider: string, groqApiKey: Option<string>)

  datatype SecretsConfig = SecretsConfig(
    provider: string, vaultUrl: Option<string>, vaultToken: Option<string>, awsRegion: Option<string>)

  datatype RateLimitConfig = RateLimitConfig(
    postsPerDay: int, commentsPerDay: int, postCooldownSeconds: int, commentCooldownSeconds: int,
    stateFile: string)

  datatype EgressConfig = EgressConfig(
    enabled: bool, mode: string, allowedDomains: seq<string>, blockedPatterns: seq<string>,
    maxRequestsPerHour: int)

  datatype SkillConfig = SkillConfig(
    requireManifest: bool, requireSignature: bool, autoScan: bool, blockedFunctions: seq<string>,
    maxRiskScore: real)

  const DEFAULT_AI_FIREWALL := AIFirewallConfig(true, "pattern", true, true, true, "local", None)
  const DEFAULT_SECRETS := SecretsConfig("local_encrypted", None, None, None)
  const DEFAULT_RATE_LIMITS := RateLimitConfig(5, 50, 1800, 20, ".moltbook/rate_state.json")
  const DEFAULT_EGRESS := EgressConfig(true, "allowlist", [], [], 1000)
  const DEFAULT_SKILLS := SkillConfig(true, false, true, ["eval", "exec", "os.system"], 5.0)

  // ---------------------------------------------------------------------------------------
  // The configuration as a value

  /** The twelve feature toggles held directly by the configuration. */
  datatype Toggles = Toggles(
    outputScanning: bool, errorSanitization: bool, logRedaction: bool, webhookSanitization: bool,
    contextIsolation: bool, secretsEncryption: bool, persistentRateLimits: bool, auditTrail: bool,
    memorySanitizer: bool, egressFirewall: bool, skillVerifier: bool, credentialMonitor: bool)

  /** Every attribute of a configuration. */
  datatype State = State(
    level: string, toggles: Toggles, aiFirewall: AIFirewallConfig, secrets: SecretsConfig,
    rateLimits: RateLimitConfig, egress: EgressConfig, skills: SkillConfig)

  /** The field defaults, before `__post_init__` applies the level. */
  const DEFAULT_TOGGLES := Toggles(true, true, true, true, false, false, false, false, false, false, false, false)
  const INITIAL := State("enhanced", DEFAULT_TOGGLES, DEFAULT_AI_FIREWALL, DEFAULT_SECRETS,
                         DEFAULT_RATE_LIMITS, DEFAULT_EGRESS, DEFAULT_SKILLS)

  const BASIC_TOGGLES := Toggles(true, true, true, true, false, false, false, false, false, false, false, false)
  const ENHANCED_TOGGLES := Toggles(true, true, true, true, true, true, true, true, true, true, false, true)
  const PARANOID_TOGGLES := Toggles(true, true, true, true, true, true, true, true, true, true, true, true)

  const LEVELS := ["basic", "enhanced", "paranoid"]

  /** `_apply_level_defaults()`: a known level overwrites the toggles; any other level changes nothing. */
  function LevelDefaults(st: State): State {
    if st.level == "basic" then
      st.(toggles := BASIC_TOGGLES, aiFirewall := st.aiFirewall.(enabled := false))
    else if st.level == "enhanced" then
      st.(toggles := ENHANCED_TOGGLES, aiFirewall := st.aiFirewall.(enabled := true))
    else if st.level == "paranoid" then
      st.(toggles := PARANOID_TOGGLES, aiFirewall := st.aiFirewall.(enabled := true),
          skills := st.skills.(requireManifest := true), egress := st.egress.(mode := "allowlist"))
    else st
  }

  /** `SecurityConfig()` with no arguments. */
  const DEFAULT := LevelDefaults(INITIAL)

  // ---------------------------------------------------------------------------------------
  // Enabled features

  const OUTPUT_SCANNING := "output_scanning"
  const ERROR_SANITIZATION := "error_sanitization"
  const LOG_REDACTION := "log_redaction"
  const WEBHOOK_SANITIZATION := "webhook_sanitization"
  const CONTEXT_ISOLATION := "context_isolation"
  const SECRETS_ENCRYPTION := "secrets_encryption"
  const PERSISTENT_RATE_LIMITS := "persistent_rate_limits"
  const AUDIT_TRAIL := "audit_trail"
  const MEMORY_SANITIZER := "memory_sanitizer"
  const EGRESS_FIREWALL := "egress_firewall"
  const SKILL_VERIFIER := "skill_verifier"
  const CREDENTIAL_MONITOR := "credential_monitor"

  /** The AI firewall's entry names its provider. */
  function AIFirewallFeature(provider: string): string {
    "ai_firewall (" + provider + ")"
  }

  /** The feature names in the order `get_enabled_features` checks them. */
  function FeatureNames(provider: string): (r: seq<string>)
    ensures |r| == 13
  {
    [OUTPUT_SCANNING, ERROR_SANITIZATION, LOG_REDACTION, WEBHOOK_SANITIZATION, CONTEXT_ISOLATION,
     SECRETS_ENCRYPTION, PERSISTENT_RATE_LIMITS, AUDIT_TRAIL, AIFirewallFeature(provider),
     MEMORY_SANITIZER, EGRESS_FIREWALL, SKILL_VERIFIER, CREDENTIAL_MONITOR]
  }

  /** Whether each feature is on, in the same order. */
  function Flags(st: State): (r: seq<bool>)
    ensures |r| == 13
  {
    var t := st.toggles;
    [t.outputScanning, t.errorSanitization, t.logRedaction, t.webhookSanitization, t.contextIsolation,
     t.secretsEncryption, t.persistentRateLimits, t.auditTrail, st.aiFirewall.enabled,
     t.memorySanitizer, t.egressFirewall, t.skillVerifier, t.credentialMonitor]
  }

  /** `get_enabled_features()` */
  function Features(st: State): seq<string> {
    Selected(Flags(st), FeatureNames(st.aiFirewall.provider))
  }

  /** No two feature names are the same, whatever the AI firewall's provider. */
  lemma FeatureNamesDistinct(provider: string)
    ensures forall j, k :: 0 <= j < k < 13 ==> FeatureNames(provider)[j] != FeatureNames(provider)[k]
  {
    var ns := FeatureNames(provider);
    assert ns[8][1] == 'i';
    assert forall j :: 0 <= j < 13 && j != 8 ==> ns[j][1] != 'i';
    assert forall j, k :: 0 <= j < k < 13 && j != 8 && k != 8 ==> ns[j] != ns[k];
  }

  /** A feature is listed exactly when it is on. */
  lemma FeaturesMeaning(st: State, i: int)
    requires 0 <= i < 13
    ensures FeatureNames(st.aiFirewall.provider)[i] in Features(st) <==> Flags(st)[i]
  {
    FeatureNamesDistinct(st.aiFirewall.provider);
    SelectedMeaning(Flags(st), FeatureNames(st.aiFirewall.provider), i);
  }

  /** "basic" lists exactly the four sanitisation features; the AI firewall is off. */
  lemma BasicFeatures(st: State)
    requires st.level == "basic"
    ensures Features(LevelDefaults(st)) == [OUTPUT_SCANNING, ERROR_SANITIZATION, LOG_REDACTION, WEBHOOK_SANITIZATION]
    ensures !LevelDefaults(st).aiFirewall.enabled
  {
    var on, off := [true, true, true, true], [false, false, false, false, false, false, false, false, false];
    var ns := FeatureNames(st.aiFirewall.provider);
    assert Flags(LevelDefaults(st)) == on + off;
    assert ns == ns[..4] + ns[4..];
    SelectedAppend(on, ns[..4], off, ns[4..]);
    SelectedUniform(on, ns[..4], true);
    SelectedUniform(off, ns[4..], false);
  }

  /** "enhanced" lists every feature except the skill verifier. */
  lemma EnhancedFeatures(st: State)
    requires st.level == "enhanced"
    ensures Features(LevelDefaults(st)) == FeatureNames(st.aiFirewall.provider)[..11] + [CREDENTIAL_MONITOR]
  {
    var on := [true, true, true, true, true, true, true, true, true, true, true];
    var ns := FeatureNames(st.aiFirewall.provider);
    assert Flags(LevelDefaults(st)) == on + ([false] + [true]);
    assert ns == ns[..11] + ([SKILL_VERIFIER] + [CREDENTIAL_MONITOR]);
    SelectedAppend(on, ns[..11], [false] + [true], [SKILL_VERIFIER] + [CREDENTIAL_MONITOR]);
    SelectedAppend([false], [SKILL_VERIFIER], [true], [CREDENTIAL_MONITOR]);
    SelectedUniform(on, ns[..11], true);
  }

  /** "paranoid" lists every feature, requires a manifest and puts egress in allowlist mode. */
  lemma ParanoidFeatures(st: State)
    requires st.level == "paranoid"
    ensures Features(LevelDefaults(st)) == FeatureNames(st.aiFirewall.provider)
    ensures LevelDefaults(st).skills.requireManifest && LevelDefaults(st).egress.mode == "allowlist"
  {
    SelectedUniform(Flags(LevelDefaults(st)), FeatureNames(st.aiFirewall.provider), true);
  }

  /** Applying the level defaults a second time changes nothing. */
  lemma LevelDefaultsIdempotent(st: State)
    ensures LevelDefaults(LevelDefaults(st)) == LevelDefaults(st)
  {
  }

  /** For a known level the toggles are the level's, whatever they were before. */
  lemma KnownLevelFixesToggles(st: State, other: Toggles)
    requires st.level in LEVELS
    ensures LevelDefaults(st.(toggles := other)) == LevelDefaults(st)
  {
  }

  // ---------------------------------------------------------------------------------------
  // Validation

  // The longer messages are written in two parts so that the verifier can read their first letters.
  const ERROR_SANITIZATION_WARNING := "Error sanitization disabled" + " - credentials may leak in errors"
  const LOG_REDACTION_WARNING := "Log redaction disabled" + " - credentials may appear in logs"
  const USER_LLM_WARNING := "AI firewall using user_llm" + " - requires LLM client"
  const GROQ_WARNING := "Llama Guard groq provider" + " requires GROQ_API_KEY"
  const EGRESS_WARNING :=
    "Egress firewall enabled" + " with no allowed domains - all external requests will be blocked"

  function UnknownLevelWarning(level: string): string {
    "Unknown security level: " + level
  }

  /** The possible warnings of `validate`, in the order it checks for them. */
  function Warnings(level: string): (r: seq<string>)
    ensures |r| == 6
  {
    [UnknownLevelWarning(level), ERROR_SANITIZATION_WARNING, LOG_REDACTION_WARNING, USER_LLM_WARNING,
     GROQ_WARNING, EGRESS_WARNING]
  }

  /** Which warnings apply; an unset or empty groq key counts as missing. */
  function Issues(st: State): (r: seq<bool>)
    ensures |r| == 6
  {
    var ai := st.aiFirewall;
    [st.level !in LEVELS,
     !st.toggles.errorSanitization,
     !st.toggles.logRedaction,
     ai.enabled && ai.provider == "user_llm",
     ai.enabled && ai.provider == "llama_guard" && ai.llamaGuardProvider == "groq"
       && (ai.groqApiKey.None? || ai.groqApiKey.value == ""),
     st.toggles.egressFirewall && |st.egress.allowedDomains| == 0]
  }

  /** `validate()` */
  function Validate(st: State): seq<string> {
    Selected(Issues(st), Warnings(st.level))
  }

  lemma WarningsDistinct(level: string)
    ensures forall j, k :: 0 <= j < k < 6 ==> Warnings(level)[j] != Warnings(level)[k]
  {
    var ws := Warnings(level);
    assert ws[0][0] == 'U';
    assert ws[2][1] == 'o' && ws[4][1] == 'l' && ws[1][1] == 'r' && ws[5][1] == 'g';
    assert forall k :: 1 <= k < 6 ==> ws[k][0] != 'U';
    assert forall j, k :: 1 <= j < k < 6 ==> ws[j] != ws[k];
  }

  /** Each warning is reported exactly when its condition holds. */
  lemma ValidateMeaning(st: State, i: int)
    requires 0 <= i < 6
    ensures Warnings(st.level)[i] in Validate(st) <==> Issues(st)[i]
  {
    WarningsDistinct(st.level);
    SelectedMeaning(Issues(st), Warnings(st.level), i);
  }

  /** An unknown level is left alone by the defaults and is reported by `validate`. */
  lemma UnknownLevel(st: State)
    requires st.level !in LEVELS
    ensures LevelDefaults(st) == st
    ensures UnknownLevelWarning(st.level) in Validate(LevelDefaults(st))
  {
    ValidateMeaning(st, 0);
  }

  /** After the defaults of a known level, sanitisation and redaction are on, so none of the first three warnings appear. */
  lemma KnownLevelWarnings(st: State)
    requires st.level in LEVELS
    ensures var w := Validate(LevelDefaults(st));
      UnknownLevelWarning(st.level) !in w && ERROR_SANITIZATION_WARNING !in w && LOG_REDACTION_WARNING !in w
  {
    var d := LevelDefaults(st);
    ValidateMeaning(d, 0);
    ValidateMeaning(d, 1);
    ValidateMeaning(d, 2);
  }

  // ---------------------------------------------------------------------------------------
  // Building a configuration from loaded data

  /** A value read from configuration data; `Null` is YAML's `null`. */
  datatype Setting = Flag(b: bool) | Text(s: string) | Number(n: int) | Decimal(x: real) | Texts(ss: seq<string>) | Null

  function FlagAt(m: map<string, Setting>, k: string, dflt: bool): bool {
    if k in m && m[k].Flag? then m[k].b else dflt
  }

  function TextAt(m: map<string, Setting>, k: string, dflt: string): string {
    if k in m && m[k].Text? then m[k].s else dflt
  }

  function NumberAt(m: map<string, Setting>, k: string, dflt: int): int {
    if k in m && m[k].Number? then m[k].n else dflt
  }

  function DecimalAt(m: map<string, Setting>, k: string, dflt: real): real {
    if k in m && m[k].Decimal? then m[k].x else dflt
  }

  function TextsAt(m: map<string, Setting>, k: string, dflt: seq<string>): seq<string> {
    if k in m && m[k].Texts? then m[k].ss else dflt
  }

  function OptionalTextAt(m: map<string, Setting>, k: string, dflt: Option<string>): Option<string> {
    if k in m && m[k].Text? then Some(m[k].s) else if k in m && m[k].Null? then None else dflt
  }

  /** The keyword arguments of the dataclass: the level and the twelve toggles. */
  const FIELD_NAMES := {"level", "output_scanning", "error_sanitization", "log_redaction",
    "webhook_sanitization", "context_isolation", "secrets_encryption", "persistent_rate_limits",
    "audit_trail", "memory_sanitizer", "egress_firewall", "skill_verifier", "credential_monitor"}

  /**
   * A class attribute that is not a keyword argument: passing one raises `TypeError`. These are
   * the class's methods, what `@dataclass` adds, and what CPython 3.11 gives every class through
   * `object` and `type`.
   */
  predicate ClassMember(k: string) {
    k in METHODS || IsSpecialAttribute(k)
  }

  const METHODS: set<string> := {"from_dict", "from_yaml", "to_dict", "get_enabled_features", "validate", "mro"}

  /** The attributes whose names begin with an underscore. */
  predicate IsSpecialAttribute(k: string) {
    |k| > 0 && k[0] == '_' &&
    (k == "_apply_level_defaults" ||
     (|k| >= 4 && k[..2] == "__" && k[|k| - 2..] == "__" && k[2..|k| - 2] in DUNDER_NAMES))
  }

  /** The names of the class's "__" attributes, without the underscores. */
  const DUNDER_NAMES: seq<string> := ["post_init",
    "init", "repr", "eq", "hash", "match_args", "dataclass_fields", "dataclass_params",
    "annotations", "doc", "module", "dict", "weakref",
    "class", "delattr", "dir", "format", "ge", "getattribute", "getstate", "gt", "init_subclass",
    "le", "lt", "ne", "new", "reduce", "reduce_ex", "setattr", "sizeof", "str", "subclasshook",
    "name", "qualname", "bases", "base", "mro", "subclasses", "basicsize", "itemsize", "flags",
    "weakrefoffset", "dictoffset", "instancecheck", "subclasscheck", "prepare", "call",
    "text_signature", "or", "ror"]

  /** `{k: v for k, v in data.items() if hasattr(cls, k)}`: the top-level keys that name an attribute of the class. */
  function ClassAttributes(top: map<string, Setting>): (r: map<string, Setting>)
    ensures forall k :: k in r <==> k in top && (k in FIELD_NAMES || ClassMember(k))
  {
    map k | k in top && (k in FIELD_NAMES || ClassMember(k)) :: top[k]
  }

  lemma FieldsAreNotMembers()
    ensures forall k :: k in FIELD_NAMES ==> !ClassMember(k)
  {
    forall k | k in FIELD_NAMES
      ensures !ClassMember(k)
    {
      assert k !in METHODS;
      assert k[0] != '_';
    }
  }

  /** Some keyword argument is a class member. */
  predicate PassesMember(kwargs: map<string, Setting>) {
    exists k :: k in kwargs && ClassMember(k)
  }

  /** Setting a key that is not a class member leaves the members passed as they were. */
  lemma MemberPassedUnchanged(top: map<string, Setting>, k: string, v: Setting)
    requires !ClassMember(k)
    ensures PassesMember(ClassAttributes(top[k := v])) == PassesMember(ClassAttributes(top))
  {
    var a, b := ClassAttributes(top[k := v]), ClassAttributes(top);
    if PassesMember(a) {
      var j :| j in a && ClassMember(j);
      assert j in b;
    }
    if PassesMember(b) {
      var j :| j in b && ClassMember(j);
      assert j in a;
    }
  }

  /** The configuration made from keyword arguments. */
  function Kwargs(top: map<string, Setting>): State {
    State(TextAt(top, "level", INITIAL.level), KwargToggles(top),
      DEFAULT_AI_FIREWALL, DEFAULT_SECRETS, DEFAULT_RATE_LIMITS, DEFAULT_EGRESS, DEFAULT_SKILLS)
  }

  /** The toggles passed as keyword arguments, the field defaults elsewhere. */
  function KwargToggles(top: map<string, Setting>): Toggles {
    var t := DEFAULT_TOGGLES;
    Toggles(
      FlagAt(top, "output_scanning", t.outputScanning),
      FlagAt(top, "error_sanitization", t.errorSanitization),
      FlagAt(top, "log_redaction", t.logRedaction),
      FlagAt(top, "webhook_sanitization", t.webhookSanitization),
      FlagAt(top, "context_isolation", t.contextIsolation),
      FlagAt(top, "secrets_encryption", t.secretsEncryption),
      FlagAt(top, "persistent_rate_limits", t.persistentRateLimits),
      FlagAt(top, "audit_trail", t.auditTrail),
      FlagAt(top, "memory_sanitizer", t.memorySanitizer),
      FlagAt(top, "egress_firewall", t.egressFirewall),
      FlagAt(top, "skill_verifier", t.skillVerifier),
      FlagAt(top, "credential_monitor", t.credentialMonitor))
  }

  function SetAIFirewall(c: AIFirewallConfig, m: map<string, Setting>): AIFirewallConfig {
    AIFirewallConfig(
      FlagAt(m, "enabled", c.enabled), TextAt(m, "provider", c.provider),
      FlagAt(m, "scan_inputs", c.scanInputs), FlagAt(m, "scan_outputs", c.scanOutputs),
      FlagAt(m, "block_unsafe", c.blockUnsafe), TextAt(m, "llama_guard_provider", c.llamaGuardProvider),
      OptionalTextAt(m, "groq_api_key", c.groqApiKey))
  }

  function SetSecrets(c: SecretsConfig, m: map<string, Setting>): SecretsConfig {
    SecretsConfig(
      TextAt(m, "provider", c.provider), OptionalTextAt(m, "vault_url", c.vaultUrl),
      OptionalTextAt(m, "vault_token", c.vaultToken), OptionalTextAt(m, "aws_region", c.awsRegion))
  }

  function SetRateLimits(c: RateLimitConfig, m: map<string, Setting>): RateLimitConfig {
    RateLimitConfig(
      NumberAt(m, "posts_per_day", c.postsPerDay), NumberAt(m, "comments_per_day", c.commentsPerDay),
      NumberAt(m, "post_cooldown_seconds", c.postCooldownSeconds),
      NumberAt(m, "comment_cooldown_seconds", c.commentCooldownSeconds),
      TextAt(m, "state_file", c.stateFile))
  }

  function SetEgress(c: EgressConfig, m: map<string, Setting>): EgressConfig {
    EgressConfig(
      FlagAt(m, "enabled", c.enabled), TextAt(m, "mode", c.mode),
      TextsAt(m, "allowed_domains", c.allowedDomains), TextsAt(m, "blocked_patterns", c.blockedPatterns),
      NumberAt(m, "max_requests_per_hour", c.maxRequestsPerHour))
  }

  function SetSkills(c: SkillConfig, m: map<string, Setting>): SkillConfig {
    SkillConfig(
      FlagAt(m, "require_manifest", c.requireManifest), FlagAt(m, "require_signature", c.requireSignature),
      FlagAt(m, "auto_scan", c.autoScan), TextsAt(m, "blocked_functions", c.blockedFunctions),
      DecimalAt(m, "max_risk_score", c.maxRiskScore))
  }

  /** A configuration dictionary: its plain keys and its five sub-dictionaries (absent ones empty). */
  datatype ConfigData = ConfigData(
    top: map<string, Setting>, aiFirewall: map<string, Setting>, secrets: map<string, Setting>,
    rateLimits: map<string, Setting>, egress: map<string, Setting>, skills: map<string, Setting>)

  const EMPTY_DATA := ConfigData(map[], map[], map[], map[], map[], map[])

  /** The sub-dictionaries' attributes set over a constructed configuration. */
  function Sections(st: State, data: ConfigData): State {
    st.(aiFirewall := SetAIFirewall(st.aiFirewall, data.aiFirewall),
        secrets := SetSecrets(st.secrets, data.secrets),
        rateLimits := SetRateLimits(st.rateLimits, data.rateLimits),
        egress := SetEgress(st.egress, data.egress),
        skills := SetSkills(st.skills, data.skills))
  }

  /** `from_dict(data)`: construction (level defaults included) first, then the sub-dictionaries. */
  function FromDictSpec(data: ConfigData): Result<State> {
    var kwargs := ClassAttributes(data.top);
    if PassesMember(kwargs) then Failure("TypeError: unexpected keyword argument")
    else Success(Sections(LevelDefaults(Kwargs(kwargs)), data))
  }

  /** Empty data gives the default configuration. */
  lemma FromDictEmpty()
    ensures FromDictSpec(EMPTY_DATA) == Success(DEFAULT)
  {
    assert SetAIFirewall(DEFAULT.aiFirewall, map[]) == DEFAULT.aiFirewall;
  }

  /** A top-level key that is neither a field nor a class member makes no difference. */
  lemma FromDictIgnoresUnknownKey(data: ConfigData, k: string, v: Setting)
    requires k !in FIELD_NAMES && !ClassMember(k)
    ensures FromDictSpec(data.(top := data.top[k := v])) == FromDictSpec(data)
  {
    assert ClassAttributes(data.top[k := v]) == ClassAttributes(data.top);
  }

  /** Passing a class member as a key raises. */
  lemma FromDictRejectsMember(data: ConfigData, k: string)
    requires k in data.top && ClassMember(k)
    ensures FromDictSpec(data).Failure?
  {
    assert k in ClassAttributes(data.top);
  }

  /** A "__doc__" key, like any special attribute the class has, makes `from_dict` raise. */
  lemma FromDictRejectsDoc(data: ConfigData)
    requires "__doc__" in data.top
    ensures FromDictSpec(data).Failure?
  {
    var k := "__doc__";
    assert k[..2] == "__" && k[|k| - 2..] == "__" && k[2..|k| - 2] == "doc";
    assert DUNDER_NAMES[9] == "doc";
    FromDictRejectsMember(data, k);
  }

  /** With a known level, a toggle passed at the top level makes no difference: the level's defaults overwrite it. */
  lemma FromDictLevelWins(data: ConfigData, k: string, v: Setting)
    requires k in FIELD_NAMES && k != "level"
    requires TextAt(data.top, "level", INITIAL.level) in LEVELS
    ensures FromDictSpec(data.(top := data.top[k := v])) == FromDictSpec(data)
  {
    var a, b := ClassAttributes(data.top[k := v]), ClassAttributes(data.top);
    FieldsAreNotMembers();
    MemberPassedUnchanged(data.top, k, v);
    assert TextAt(a, "level", INITIAL.level) == TextAt(b, "level", INITIAL.level);
    assert Kwargs(a) == Kwargs(b).(toggles := KwargToggles(a));
    KnownLevelFixesToggles(Kwargs(b), KwargToggles(a));
  }

  /** What `from_yaml` finds at the path. */
  datatype YamlFile =
    | Missing                                   // the path does not exist
    | Unreadable                                // opening or parsing raised
    | NotMapping                                // the document is not a dictionary
    | Mapping(security: Option<ConfigData>)     // the document, and its "security" section if any

  /** `from_yaml(path)`: any failure, including one raised by `from_dict`, gives the default configuration. */
  function FromYamlSpec(file: YamlFile): State {
    match file
    case Mapping(sec) =>
      var data := match sec case Some(d) => d case None => EMPTY_DATA;
      (match FromDictSpec(data) case Success(st) => st case Failure(_) => DEFAULT)
    case _ => DEFAULT
  }

  /** A missing, unreadable or malformed file, or a document without a security section, gives the default. */
  lemma FromYamlFallback(file: YamlFile)
    requires !file.Mapping? || file.security.None?
    ensures FromYamlSpec(file) == DEFAULT
  {
    if file.Mapping? {
      FromDictEmpty();
    }
  }

  /** A security section that `from_dict` refuses also falls back to the default. */
  lemma FromYamlRefused(data: ConfigData)
    requires FromDictSpec(data).Failure?
    ensures FromYamlSpec(Mapping(Some(data))) == DEFAULT
  {
  }

  // ---------------------------------------------------------------------------------------
  // The configuration object

  /**
   * `SecurityConfig`: its attributes are assigned by `_apply_level_defaults` and `from_dict`.
   * The twelve toggle attributes are held together as one `Toggles` value.
   */
  class SecurityConfig {
    var level: string
    var toggles: Toggles
    var aiFirewall: AIFirewallConfig
    var secrets: SecretsConfig
    var rateLimits: RateLimitConfig
    var egress: EgressConfig
    var skills: SkillConfig

    /** Every attribute, as a value. */
    function Snapshot(): State
      reads this
    {
      State(level, toggles, aiFirewall, secrets, rateLimits, egress, skills)
    }

    /** `SecurityConfig(**kwargs)`: the given attributes, then `__post_init__`. */
    constructor (init: State)
      ensures Snapshot() == LevelDefaults(init)
    {
      level, toggles := init.level, init.toggles;
      aiFirewall, secrets, rateLimits, egress, skills := init.aiFirewall, init.secrets, init.rateLimits, init.egress, init.skills;
      new;
      ApplyLevelDefaults();
    }

    /** `_apply_level_defaults()` */
    method ApplyLevelDefaults()
      modifies this
      ensures Snapshot() == LevelDefaults(old(Snapshot()))
    {
      if level == "basic" {
        toggles := BASIC_TOGGLES;
        aiFirewall := aiFirewall.(enabled := false);
      } else if level == "enhanced" {
        toggles := ENHANCED_TOGGLES;
        aiFirewall := aiFirewall.(enabled := true);
      } else if level == "paranoid" {
        toggles := PARANOID_TOGGLES;
        aiFirewall := aiFirewall.(enabled := true);
        skills := skills.(requireManifest := true);
        egress := egress.(mode := "allowlist");
      }
    }

    /** The `setattr` passes of `from_dict` over the sub-configurations. */
    method ApplySections(data: ConfigData)
      modifies this
      ensures Snapshot() == Sections(old(Snapshot()), data)
    {
      var st := Sections(Snapshot(), data);
      aiFirewall, secrets, rateLimits, egress, skills := st.aiFirewall, st.secrets, st.rateLimits, st.egress, st.skills;
    }

    /** `get_enabled_features()` */
    method GetEnabledFeatures() returns (r: seq<string>)
      ensures r == Features(Snapshot())
    {
      r := Features(Snapshot());
    }

    /** `validate()` */
    method ValidateConfig() returns (r: seq<string>)
      ensures r == Validate(Snapshot())
    {
      r := Validate(Snapshot());
    }
  }

  /** `SecurityConfig.from_dict(data)` */
  method FromDict(data: ConfigData) returns (r: Result<SecurityConfig>)
    ensures r.Success? <==> FromDictSpec(data).Success?
    ensures r.Success? ==> fresh(r.value) && r.value.Snapshot() == FromDictSpec(data).value
  {
    var kwargs := ClassAttributes(data.top);
    if PassesMember(kwargs) {
      return Failure("TypeError: unexpected keyword argument");
    }
    var c := new SecurityConfig(Kwargs(kwargs));
    c.ApplySections(data);
    return Success(c);
  }

  /** `SecurityConfig.from_yaml(path)`, given what was found at the path. */
  method FromYaml(file: YamlFile) returns (c: SecurityConfig)
    ensures fresh(c) && c.Snapshot() == FromYamlSpec(file)
  {
    if file.Mapping? {
      var data := match file.security case Some(d) => d case None => EMPTY_DATA;
      var r := FromDict(data);
      if r.Success? {
        return r.value;
      }
    }
    c := new SecurityConfig(INITIAL);
  }
}
