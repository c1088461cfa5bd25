# moltbook-agent-guard, modelled in Dafny

moltbook-agent-guard is a set of security gates for an AI agent that posts on Moltbook, a social
network for agents, together with the agent client it protects. This project models, in Dafny,
the deterministic core of those gates and of the client's bookkeeping, and proves what each one
promises.

- **Pattern-table classifiers.** The injection scanner's `scan` and `defend`
  (`scanner.dfy`); the output, exfiltration, financial, reputation and credential scanners; the
  social-engineering analyser; the pattern firewall. Each folds a table of
  (category, patterns, risk) entries over a text, counts each category at most once, and turns
  the highest score into a level (`scoring.dfy`).
- **Stateful governors.** The persistent rate limiter, the API client's request, post and comment
  limits, the egress firewall's hourly allowance, the cost calculator's budget, daily spending,
  the credential-alert cap and the runtime's daily counters. Each is a class over timestamp lists
  and counters. Time is an explicit argument.
- **Ledgers and registries.** The hash-chained audit trail, the action-approval queue, trust
  scores, submolt risk profiles, content provenance chains, the memory store and its purge, the
  secrets manager's cache over its provider chain, and the observatory's event counts.
- **String and URL transforms.** Context isolation, redaction, URL parsing as `urlparse` does it
  (`url.dfy`, section 3 of RFC 3986), allowlist suffix matching and manifest parsing.

Three things are parameters rather than models:
- Python's regular-expression engine (`regex.dfy`): every table holds its patterns verbatim.
- Hash functions.
- The LLM and the network: only what the code does with their answers is modelled.

Python floats are exact `real`s. Python's `round` is modelled (`rounding.dfy`) only for the LLM
client's usage total; the other rounded reports are listed under "## Left out". Classes the source mutates are Dafny classes with `modifies`
clauses. Pure helpers are functions with lemmas beside them.

Where the code has an evident bug, the model keeps the code as written and proves the
discrepancy, then proves the intended property of a corrected definition (see "## Findings").
Unless a row says "corrected", the members in the table model the code as written.

## Model

| member | source | states |
|---|---|---|
| ActionAuthorization.FirstAction | tools/security/action_authorization.py:335-336 | the index found is the first action pattern that matches, or the end of the table when none does |
| ActionAuthorization.Detect | tools/security/action_authorization.py:333-342 | detection classifies nothing exactly when no action pattern matches; otherwise it takes the category of a matching pattern, with the table risk of its action or "medium" |
| ActionAuthorization.Classify | tools/security/action_authorization.py:256-261 | a listed action takes its table category and risk; any other action is classified by detection on the description |
| ActionAuthorization.ContentClass | tools/security/action_authorization.py:320-322 | a content in which an action phrase was found is always classified (corrected form) |
| ActionAuthorization.PhrasePastCutPassesAsWritten | tools/security/action_authorization.py:320-322 | as written, an unlisted action whose phrase lies only past character 200 is unclassified and needs no approval |
| ActionAuthorization.DetectedPhraseNeedsApproval | tools/security/action_authorization.py:320-322 | with the classification of the whole content, a detected phrase of a protected category needs approval unless low risk is auto-approved |
| ActionAuthorization.UnknownActionPasses | tools/security/action_authorization.py:298-308 | an unlisted action whose description matches no pattern passes with "Action does not require approval" |
| ActionAuthorization.KnownActionUsesTable | tools/security/action_authorization.py:90-137 | "payment" is financial and critical, and "post_public" communication and low, whatever the description |
| ActionAuthorization.Decide | tools/security/action_authorization.py:263-308 | approval is needed exactly for a classified action of a protected category that is not auto-approved as low risk; then the result is unapproved with the new id, otherwise approved and auto-approved with no id; the category is reported either way |
| ActionAuthorization.NewRequest | tools/security/action_authorization.py:276-285 | a new request carries the action id, is undecided, and has a non-empty risk level ("medium" when none) |
| ActionAuthorization.ApprovedAfterAppend | tools/security/action_authorization.py:398-408 | once a decided request is appended for a new id, `is_approved` reports its verdict |
| ActionAuthorization.UnknownNotApproved | tools/security/action_authorization.py:398-408 | an id the history does not hold is not approved |
| ActionAuthorization.CountDecided | tools/security/action_authorization.py:426-427 | the approved (or denied) count is at most the history length |
| ActionAuthorization.CountDecidedAppend | tools/security/action_authorization.py:426-427 | appending a request raises the count by one exactly when it carries that verdict |
| ActionAuthorization.CountsBounded | tools/security/action_authorization.py:426-427 | approved plus denied never exceeds the history length |
| ActionAuthorization.Authorization.constructor | tools/security/action_authorization.py:158-182 | a new authorization protects the given categories, or all seven when none are given, with nothing pending and no history |
| ActionAuthorization.Authorization.CheckAction | tools/security/action_authorization.py:242-308 | `check_action` returns the decision for the classification, files a new pending request under the id exactly when approval is needed, and leaves the history alone |
| ActionAuthorization.Authorization.CheckContent | tools/security/action_authorization.py:310-331 | with no action phrase the content passes with "No sensitive action detected"; otherwise the first phrase's action is decided by the classification of the content cut to 200 characters, as written, and filed with that cut as description |
| ActionAuthorization.Authorization.Approve | tools/security/action_authorization.py:344-369 | approving succeeds exactly for a pending id, moves the request to the history as approved by the approver, makes `is_approved` true for a fresh id, and raises the approved count by one |
| ActionAuthorization.Authorization.Deny | tools/security/action_authorization.py:371-396 | denying succeeds exactly for a pending id, moves the request to the history as denied, leaves it unapproved, and raises the denied count by one |
| ActionAuthorization.Authorization.Settle | tools/security/action_authorization.py:344-396 | the shared step of approve and deny: the pending request is stamped with the verdict, approver and time and moved to the end of the history |
| ActionAuthorization.Authorization.CancelPending | tools/security/action_authorization.py:414-420 | cancelling removes the id from the pending requests, succeeds exactly when it was there, and leaves the history alone |
| ActionAuthorization.Authorization.GetStats | tools/security/action_authorization.py:422-430 | the statistics count the pending requests and the approved and denied ones in the history, whose sum is at most its length |
| AgentRuntime.WithinBudgetIsBudgetOk | tools/agent/runtime.py:209-218 | the runtime's budget gate (no daily and no monthly remaining at or below zero) agrees with the cost tracker's own within-budget rule |
| AgentRuntime.ScanGate | tools/agent/runtime.py:220-245 | without `scan_all_content` the content is safe with an empty result; otherwise the scanner's result is reported |
| AgentRuntime.ScanGateOfScan | tools/agent/runtime.py:220-245 | content is refused exactly when scanning everything in strict mode and the scan is high risk; empty content is never refused |
| AgentRuntime.ParseTitle | tools/agent/runtime.py:358 | the title has at most 100 characters, all taken from the first line |
| AgentRuntime.ParsePost | tools/agent/runtime.py:357-359 | the title holds no newline and at most 100 characters; a one-line reply is kept whole as the content; otherwise the content is shorter than the reply |
| AgentRuntime.StripOfTrimmed | tools/agent/runtime.py:357-359 | a text that starts and ends with non-space characters is its own `strip()` |
| AgentRuntime.ParseTitleOfTagged | tools/agent/runtime.py:358 | "Title:" followed by a trimmed title of at most 100 characters gives that title |
| AgentRuntime.ParsePostOfLines | tools/agent/runtime.py:357-359 | a first line and a trimmed body give the parsed first line and the body |
| AgentRuntime.ParsePostOfTitled | tools/agent/runtime.py:357-359 | "Title: t" on the first line and a body on the next give back t and the body |
| AgentRuntime.Generated | tools/agent/runtime.py:267-294 | `_generate_response` yields a reply exactly when within budget and the model answered, and then it is that answer |
| AgentRuntime.Agent.constructor | tools/agent/runtime.py:80-132 | a new agent keeps its configuration, has answered nothing, and its daily counters start at zero for today |
| AgentRuntime.Agent.ResetDailyCounters | tools/agent/runtime.py:200-207 | on a new day both daily counters return to zero and the day is recorded; on the same day nothing changes |
| AgentRuntime.Agent.ShouldRespond | tools/agent/runtime.py:247-265 | the agent answers only others' posts it has not answered, below the daily comment cap, and never for a draw above 0.7 |
| AgentRuntime.Agent.ProcessPost | tools/agent/runtime.py:296-339 | a comment is made exactly when the scan lets the post through, the agent chooses to answer, a non-empty reply is generated within budget and the server accepts it; only then is the post marked answered and the day's comments raised by one |
| AgentRuntime.Agent.CreatePost | tools/agent/runtime.py:341-376 | a post is made exactly when under the daily post cap, a non-empty reply is generated within budget and the server accepts it; it is the parsed reply and raises the day's posts by one |
| AiFirewall.UnsafeNamesDistinct | tools/security/ai_firewall.py:542-557 | the three unsafe categories have distinct names |
| AiFirewall.MatchedUpToMeaning | tools/security/ai_firewall.py:568-574 | the scan lists a category exactly when one of its patterns matches, only table categories, each at most once, and nothing exactly when no pattern matches |
| AiFirewall.PatternResultMeaning | tools/security/ai_firewall.py:566-584 | the pattern firewall's categories are distinct, hold exactly the categories that match, are drawn from violence, credential_leak and injection, the result is safe exactly when none matches, and its confidence is 0.7 from provider "pattern" |
| AiFirewall.PatternScan | tools/security/ai_firewall.py:566-584 | the scanning loop, which stops at a category's first matching pattern, computes the pattern firewall's result |
| AiFirewall.FencedText | tools/security/ai_firewall.py:134-137 | for a reply fenced in "```" with no backtick inside, the text between the fences is kept, less a leading "json" |
| AiFirewall.FenceUnwrapped | tools/security/ai_firewall.py:134-137 | a "```json ... ```" reply unwraps to its body |
| AiFirewall.UserLlmFailsOpen | tools/security/ai_firewall.py:117-146 | with no client, a failed call or an unparsable answer, the user-LLM firewall reports safe with confidence 0.0: no issues without a client, one "Analysis failed: " issue otherwise |
| AiFirewall.UserLlmSeesPrefix | tools/security/ai_firewall.py:148-174 | the user-LLM firewall's answer depends only on the first 2000 characters of the content |
| AiFirewall.Scan | tools/security/ai_firewall.py:69-73 | `scan` dispatches input to `scan_input` and anything else to `scan_output`; the firewalls other than the classifier report the direction they scanned; the pattern firewall never fails |
| AiFirewall.NewManager | tools/security/ai_firewall.py:601-630 | the manager's four switches are read from the configuration, each defaulting to on |
| AiFirewall.Check | tools/security/ai_firewall.py:632-657 | a disabled firewall returns the unscanned "Firewall disabled" result; a skipped direction returns a safe result with no provider and no categories |
| AiFirewall.CheckChain | tools/security/ai_firewall.py:659-680 | a primary answer with positive confidence is returned; otherwise a fallback that differs from the primary and succeeds is returned; otherwise, or when fallback and primary are the same, the pattern firewall answers |
| AiFirewall.CheckAnswerSource | tools/security/ai_firewall.py:632-680 | every answer of `check` is a skipped-direction safe result or the successful answer of one of the four firewalls |
| AiFirewall.OtherDirectionScannedAsOutput | tools/security/ai_firewall.py:651-659 | a direction other than "input" and "output" is never skipped and is scanned as output |
| AiFirewall.NoClientFallsThroughToPatterns | tools/security/ai_firewall.py:601-680 | the default manager without an LLM client answers with the pattern firewall |
| AuditTrail.Severity | tools/security/audit_trail.py:133-134 | the logged severity is always one of "info", "warning", "critical": a listed one is kept, anything else becomes "info" |
| AuditTrail.Truncate | tools/security/audit_trail.py:183-184 | a string of at most 500 characters is kept; a longer one becomes its first 500 characters followed by "...[truncated]" |
| AuditTrail.SanitizeDetails | tools/security/audit_trail.py:175-190 | sanitising keeps exactly the keys of the details, and each value becomes the sanitised value under its own key, so a secret at any depth is redacted |
| AuditTrail.SanitizeField | tools/security/audit_trail.py:181-188 | a value under a key containing password, secret, key, token or credential (any case) becomes "[REDACTED]"; otherwise a string is truncated, a dictionary becomes its own sanitised details, and anything else is kept |
| AuditTrail.TruncateIdempotent | tools/security/audit_trail.py:183-184 | truncating twice is truncating once |
| AuditTrail.SanitizeDetailsIdempotent | tools/security/audit_trail.py:175-190 | sanitising sanitised details changes nothing |
| AuditTrail.SanitizeFieldIdempotent | tools/security/audit_trail.py:181-188 | sanitising a sanitised value under the same key changes nothing |
| AuditTrail.SanitizedBounded | tools/security/audit_trail.py:175-190 | after sanitising, every string at any depth has at most 514 characters |
| AuditTrail.ChainAppend | tools/security/audit_trail.py:139-159 | an entry that names the last hash and carries its own data's hash extends a valid chain |
| AuditTrail.Verdict | tools/security/audit_trail.py:224-248 | `verify_integrity` reports no error exactly when every entry names its predecessor's hash (GENESIS first) and its stored hash is its data's hash |
| AuditTrail.Matching | tools/security/audit_trail.py:273-283 | the matching entries are exactly the file's entries that pass the event-type and severity filters, an absent or empty filter passing all |
| AuditTrail.MatchingAppend | tools/security/audit_trail.py:273-283 | filtering two parts of a file one after the other gives the filtered whole |
| AuditTrail.Trail.constructor | tools/security/audit_trail.py:80-96 | a trail over a missing log file starts empty, at count 0 with last hash "GENESIS" |
| AuditTrail.Trail.Log | tools/security/audit_trail.py:120-173 | `log` (corrected) appends an entry numbered one past the count, with the sanitised details, the normalised severity, the previous last hash and its own hash, keeping the file a valid chain; at `max_entries` the file is archived and the chain restarts from "GENESIS" |
| AuditTrail.Trail.LogAsWritten | tools/security/audit_trail.py:120-173 | `log` as written: the same entry, but after a rotation the last hash is left at the archived entry's hash |
| AuditTrail.Trail.VerifyIntegrity | tools/security/audit_trail.py:211-254 | the walk with a running hash accepts exactly a valid chain and reports the first broken link or modified entry by its line number |
| AuditTrail.Trail.Query | tools/security/audit_trail.py:256-309 | `query` returns the first `limit` matching entries in file order (at least one is collected before the limit is tested) |
| AuditTrail.FirstMatches | tools/security/audit_trail.py:266-305 | the scanning loop with its early stop returns the first `cap` matching entries |
| AuditTrail.QueryStops | tools/security/audit_trail.py:304-305 | where the scan stops, full or at the end of the file, it holds the first `cap` matches |
| AuditTrail.QueryFiltered | tools/security/audit_trail.py:256-309 | every entry returned comes from the file, passes both filters, and there are at most `cap` of them |
| AuditTrail.LoggedFileVerifies | tools/security/audit_trail.py:211-254 | a file written by `log` alone passes `verify_integrity` |
| AuditTrail.RotatedFileFailsAsWritten | tools/security/audit_trail.py:200-209 | as written, the first entry after a rotation names a 16-digit hash instead of "GENESIS", so the new file is reported broken at entry 1 |
| AuditTrail.RotatedFileVerifies | tools/security/audit_trail.py:200-209 | with the chain restarted at rotation, the new file's first entry passes |
| Config.FeaturesMeaning | tools/security/config.py:297-328 | each of the 13 feature names is listed by `get_enabled_features` exactly when its toggle is on, the firewall named with its provider |
| Config.FeatureNamesDistinct | tools/security/config.py:297-328 | the 13 feature names are distinct whatever the firewall provider |
| Config.BasicFeatures | tools/security/config.py:128-141 | at level "basic" only output scanning, error sanitisation, log redaction and webhook sanitisation are on, and the AI firewall is off |
| Config.EnhancedFeatures | tools/security/config.py:143-157 | at level "enhanced" every feature but the skill verifier is on |
| Config.ParanoidFeatures | tools/security/config.py:159-177 | at level "paranoid" all 13 features are on, skills require a manifest and egress runs in allowlist mode |
| Config.LevelDefaultsIdempotent | tools/security/config.py:126-177 | applying the level defaults twice is applying them once |
| Config.KnownLevelFixesToggles | tools/security/config.py:126-177 | at a known level the toggles given beforehand do not matter |
| Config.WarningsDistinct | tools/security/config.py:330-363 | the six warnings `validate` can give are distinct |
| Config.ValidateMeaning | tools/security/config.py:330-363 | each of the six warnings is given exactly when its condition holds: unknown level, error sanitisation off, log redaction off, firewall on user_llm, Llama Guard on groq without key, egress on with no allowed domain |
| Config.UnknownLevel | tools/security/config.py:126-177 | an unknown level leaves every setting as given and is reported by `validate` |
| Config.KnownLevelWarnings | tools/security/config.py:330-363 | after the defaults of a known level, `validate` never reports the level, error sanitisation or log redaction |
| Config.ClassAttributes | tools/security/config.py:198 | the keys `from_dict` passes on are exactly the top-level keys that are fields or other class attributes, the inherited special attributes such as `__doc__` included |
| Config.FromDictEmpty | tools/security/config.py:180-227 | an empty dictionary gives the default configuration |
| Config.FromDictIgnoresUnknownKey | tools/security/config.py:198 | a top-level key that is no attribute of the class is ignored |
| Config.FromDictRejectsMember | tools/security/config.py:198 | a top-level key naming a method of the class makes the construction fail |
| Config.FromDictRejectsDoc | tools/security/config.py:198 | a top-level key "__doc__", an attribute every class has, makes the construction fail |
| Config.FieldsAreNotMembers | tools/security/config.py:198 | no field of the configuration is a method or special attribute |
| Config.MemberPassedUnchanged | tools/security/config.py:198 | adding a key that is no method or special attribute does not change whether some such key is passed on |
| Config.FromDictLevelWins | tools/security/config.py:198 | at a known level, a top-level feature toggle other than the level is overwritten by the level's defaults |
| Config.FromYamlFallback | tools/security/config.py:229-255 | a missing or unreadable file, or one without a "security" section, gives the default configuration |
| Config.FromYamlRefused | tools/security/config.py:245-255 | a "security" section that `from_dict` refuses gives the default configuration |
| Config.SecurityConfig.constructor | tools/security/config.py:122-124 | a new configuration has the level defaults applied to the given settings |
| Config.SecurityConfig.ApplyLevelDefaults | tools/security/config.py:126-177 | the method sets the toggles as the level requires and changes nothing at an unknown level |
| Config.SecurityConfig.ApplySections | tools/security/config.py:197-225 | each sub-configuration takes the known keys of its section, unknown keys ignored |
| Config.SecurityConfig.GetEnabledFeatures | tools/security/config.py:297-328 | the method lists the enabled features in the fixed order |
| Config.SecurityConfig.ValidateConfig | tools/security/config.py:330-363 | the method returns the warnings of `validate` in order |
| Config.FromDict | tools/security/config.py:180-227 | `from_dict` succeeds exactly when the specification does, with a new configuration holding its settings |
| Config.FromYaml | tools/security/config.py:229-255 | `from_yaml` always returns a new configuration: the section's, or the default |
| CostCalculator.ModelsAreTheTable | tools/cost_calculator/__init__.py:41-48 | the listed models are exactly the priced ones |
| CostCalculator.EstimateFor | tools/cost_calculator/__init__.py:96-146 | the monthly cost is 30 daily costs, the daily cost is the sum of the post, comment and read costs, and a day uses 2500 tokens per post, 1800 per comment and 550 per read |
| CostCalculator.NoActivityIsFree | tools/cost_calculator/__init__.py:96-146 | no activity costs nothing |
| CostCalculator.ClaudeModelsOrdered | tools/cost_calculator/__init__.py:41-48 | for any activity, haiku is cheaper than sonnet, which is cheaper than opus |
| CostCalculator.Warnings | tools/cost_calculator/__init__.py:168-181 | at most three warnings; "Daily budget exceeded" exactly when a daily limit is set and reached, likewise for the month; within budget only the approach warning can appear |
| CostCalculator.Remaining | tools/cost_calculator/__init__.py:198-199 | a remaining amount is reported exactly for a set limit, and it is the limit less the usage |
| CostCalculator.ReachedDailyLimit | tools/cost_calculator/__init__.py:173-175 | a reached daily limit leaves nothing remaining and puts the budget out |
| CostCalculator.BudgetOkIffRemaining | tools/cost_calculator/__init__.py:168-199 | the budget is fine exactly when each set limit has something remaining |
| CostCalculator.CheckModel | tools/cost_calculator/__init__.py:68-83 | a calculator can be made exactly for a priced model, with that model's prices |
| CostCalculator.Calculator.constructor | tools/cost_calculator/__init__.py:68-83 | a new calculator has no limits and no usage |
| CostCalculator.Calculator.SetBudget | tools/cost_calculator/__init__.py:85-94 | both limits are replaced, including by none, and the usage is kept |
| CostCalculator.Calculator.TrackUsage | tools/cost_calculator/__init__.py:148-183 | the cost of the tokens at the model's prices per thousand is added to today's and the month's usage, and the report gives the totals, the budget verdict and the warnings |
| CostCalculator.Calculator.CheckBudget | tools/cost_calculator/__init__.py:185-199 | the status gives today's and the month's usage, the limits and what remains of each set limit |
| CostCalculator.CompareModels | tools/cost_calculator/__init__.py:221-229 | every model appears once with its monthly estimate for 50 reads a day, ordered by cost |
| CostCalculator.CompareModelsListsAll | tools/cost_calculator/__init__.py:221-229 | every priced model is in the comparison |
| CostCalculator.ZeroLimitUnsetAsWritten | tools/cost_calculator/__init__.py:172-179 | as written, limits of 0 are read as unset: any spending keeps the budget fine with no warnings |
| CostCalculator.ZeroLimitBlocksIntended | tools/cost_calculator/__init__.py:85-179 | with every given limit counted, a daily limit of 0 is broken by any spending |
| CostCalculator.BudgetOkReadings | tools/cost_calculator/__init__.py:172-179 | the intended reading only ever refuses more, and agrees with the written one except on a limit of 0 |
| CostCalculator.TodayAsWritten | tools/cost_calculator/__init__.py:82-161 | as written, the day's total is the cost of every tracked call; for calls all on one day it is that day's spending |
| CostCalculator.YesterdayCountsAsWritten | tools/cost_calculator/__init__.py:161-177 | as written, a whole daily limit spent on one day still breaks the budget on the next, before anything is spent |
| CostCalculator.TodayIsLastDaySpend | tools/cost_calculator/__init__.py:82-161 | the total reset at each new day is, for calls in day order, exactly the spending on the last call's day |
| CostCalculator.NewDayResetsIntended | tools/cost_calculator/__init__.py:161-177 | with the reset, the day after spending the whole limit starts again within budget |
| CostEstimate.PricedModel | tools/moltbook_cli/commands/cost.py:54-55 | a priced model is kept and any other becomes "claude-3-5-sonnet" |
| CostEstimate.EstimateCosts | tools/moltbook_cli/commands/cost.py:52-91 | a day uses 1500 input and 300 output tokens per post and 1200 input and 150 output tokens per reply; the daily total is the input and output costs; every monthly figure is 30 daily ones |
| CostEstimate.NoActivityIsFree | tools/moltbook_cli/commands/cost.py:52-91 | no activity costs nothing |
| CostEstimate.DailyTotalPriced | tools/moltbook_cli/commands/cost.py:69-72 | the daily total is the tokens at the model's prices per million |
| CostEstimate.EstimateMonotone | tools/moltbook_cli/commands/cost.py:52-91 | more posts and replies never cost less |
| CostEstimate.ClaudeModelsOrdered | tools/moltbook_cli/commands/cost.py:18-25 | for any activity, haiku is cheaper than sonnet, which is cheaper than opus |
| CredentialMonitor.Hits | tools/security/credential_monitor.py:194-196 | a pattern is hit exactly when it is in the table and finds at least one match |
| CredentialMonitor.Highest | tools/security/credential_monitor.py:190-204 | the reported level is at least every hit's severity and is one of them, or none when nothing hit |
| CredentialMonitor.Shown | tools/security/credential_monitor.py:223 | a shown match is at most 20 characters of the match followed by "..." |
| CredentialMonitor.ShownMatches | tools/security/credential_monitor.py:200-223 | at most three matches per hit pattern are shown, each truncated |
| CredentialMonitor.EmptyOutputIsSafe | tools/security/credential_monitor.py:185-186 | empty output is safe, with no alerts |
| CredentialMonitor.OutputMeaning | tools/security/credential_monitor.py:174-225 | the level is the highest hit severity, safe exactly at none or low, one alert and one log request per hit, and the shown matches are bounded and truncated |
| CredentialMonitor.OutputSafeIffNoHit | tools/security/credential_monitor.py:174-225 | when every pattern is at least high, output is safe exactly when no pattern matches |
| CredentialMonitor.TableSeverities | tools/security/credential_monitor.py:64-131 | every credential pattern is of high or critical severity |
| CredentialMonitor.OutputSafeIffNoCredential | tools/security/credential_monitor.py:64-225 | output is safe exactly when no credential pattern matches |
| CredentialMonitor.SensitiveKeys | tools/security/credential_monitor.py:241-244 | the sensitive keys are exactly the accessed keys whose upper-case form is a sensitive variable |
| CredentialMonitor.CountedMeaning | tools/security/credential_monitor.py:241-245 | each access to a sensitive key adds one to its count and other keys keep theirs |
| CredentialMonitor.Unusual | tools/security/credential_monitor.py:249 | the unusual keys are exactly the accessed keys counted more than 10 times |
| CredentialMonitor.MemoryAccessMeaning | tools/security/credential_monitor.py:228-271 | unsafe exactly when some sensitive key is counted more than 10 times, which is high and logged; otherwise low exactly when alerting on access and a sensitive key was read |
| CredentialMonitor.SensitiveIgnoresCase | tools/security/credential_monitor.py:243 | the key check ignores case |
| CredentialMonitor.ExfiltrationMeaning | tools/security/credential_monitor.py:273-321 | critical exactly for a critical credential with a network call or a destination; high for other high or critical credentials; low for network activity to a destination with no high credential; unsafe exactly when a high or critical credential is present |
| CredentialMonitor.WithinHour | tools/security/credential_monitor.py:327-329 | only alert times within the last hour are kept |
| CredentialMonitor.Capped | tools/security/credential_monitor.py:346-348 | only the last 1000 alerts are kept |
| CredentialMonitor.LoggedMeaning | tools/security/credential_monitor.py:323-348 | logging keeps at most 1000 alerts and at most the hourly cap of times; a rate-limited alert is dropped and otherwise it is the newest alert |
| CredentialMonitor.LoggedAllBounded | tools/security/credential_monitor.py:323-348 | any run of logging keeps the bounds |
| CredentialMonitor.NoCapNoAlerts | tools/security/credential_monitor.py:331-332 | with a cap of zero nothing is ever logged |
| CredentialMonitor.AtLeast | tools/security/credential_monitor.py:372-376 | the filter keeps exactly the alerts of at least the given severity |
| CredentialMonitor.LastN | tools/security/credential_monitor.py:378 | Python's slice from minus the limit: the last n for positive n, all for zero, and all but the first n for negative n |
| CredentialMonitor.RecentAlerts | tools/security/credential_monitor.py:358-378 | an unknown minimum severity is an error; otherwise at most limit alerts of at least that severity, all taken from the log |
| CredentialMonitor.ZeroLimitReturnsAll | tools/security/credential_monitor.py:378 | a limit of zero returns every matching alert |
| CredentialMonitor.TallyBound | tools/security/credential_monitor.py:384-386 | a count is at most the number of alerts and is zero exactly for an absent value |
| CredentialMonitor.StatsOf | tools/security/credential_monitor.py:380-395 | the totals are the alert count and the number of alert times this hour, and each severity count is positive and at most the total |
| CredentialMonitor.Monitor.constructor | tools/security/credential_monitor.py:142-172 | a new monitor has the given settings, the built-in tables and no alerts, counts or times |
| CredentialMonitor.Monitor.LogAlert | tools/security/credential_monitor.py:323-348 | the alerts and times become the logged ones and the access counts are unchanged |
| CredentialMonitor.Monitor.MonitorOutput | tools/security/credential_monitor.py:174-225 | the result is the output check and every hit is logged in turn |
| CredentialMonitor.Monitor.MonitorMemoryAccess | tools/security/credential_monitor.py:228-271 | the counts are updated, the result is the access check, and only excessive access is logged |
| CredentialMonitor.Monitor.DetectExfiltration | tools/security/credential_monitor.py:273-321 | the result is the exfiltration check, and the credential hits and then a critical attempt are logged |
| CredentialMonitor.Monitor.GetRecentAlerts | tools/security/credential_monitor.py:358-378 | returns the filtered recent alerts of the current log |
| CredentialMonitor.Monitor.GetStats | tools/security/credential_monitor.py:380-395 | returns the statistics of the current log and counts |
| CredentialMonitor.Monitor.ResetStats | tools/security/credential_monitor.py:397-401 | the alerts, counts and times are emptied |
| ContextIsolator.ReplaceCharsKeepsOut | tools/security/context_isolator.py:166-179 | replacing characters by texts free of a character never introduces it |
| ContextIsolator.ReplaceCharsRemoves | tools/security/context_isolator.py:166-179 | a replaced character that no replacement text contains is gone afterwards |
| ContextIsolator.ReplaceCharsAbsent | tools/security/context_isolator.py:166-179 | a text holding none of the replaced characters is unchanged |
| ContextIsolator.EscapeRemovesControl | tools/security/context_isolator.py:56-64 | after `escape_control_chars` none of the seven control characters remains |
| ContextIsolator.EscapeIdempotent | tools/security/context_isolator.py:166-179 | escaping control characters twice is escaping them once |
| ContextIsolator.MakeSettings | tools/security/context_isolator.py:77-94 | custom markers replace the default "<<<USER_CONTENT_START>>>"/"<<<USER_CONTENT_END>>>" pair, and the instruction switch is kept |
| ContextIsolator.WrapShape | tools/security/context_isolator.py:101-135 | empty content wraps to ""; otherwise the wrapped text is the optional instruction and label lines, then the start marker, the escaped content and the end marker, one per line |
| ContextIsolator.Sections | tools/security/context_isolator.py:153-161 | `wrap_multiple` adds at most four parts per entry and none when every content is empty |
| ContextIsolator.SectionsAppend | tools/security/context_isolator.py:155-162 | the parts for a dictionary are the parts for its entries, in order: those for a + b are those for a followed by those for b |
| ContextIsolator.SectionsOfEntry | tools/security/context_isolator.py:156-162 | a non-empty entry contributes exactly its upper-cased label line, the start marker, its escaped text and the end marker; an empty entry contributes nothing |
| ContextIsolator.IsolateMeaning | tools/security/context_isolator.py:188-208 | `isolate` keeps the original, wraps it without label, and counts at most one per escape pattern, zero exactly when none matches the content |
| ContextIsolator.CountPatterns | tools/security/context_isolator.py:198-199 | the escape count is at most the number of patterns and zero exactly when none matches |
| ContextIsolator.BetweenMeaning | tools/security/context_isolator.py:210-227 | nothing is found when either marker is missing or the first start marker does not come before the first end marker; otherwise the text between the first occurrences is taken |
| ContextIsolator.UnwrapMeaning | tools/security/context_isolator.py:210-227 | `unwrap_content` returns the stripped text between the first start marker and the first end marker, and nothing when they are missing or out of order |
| ContextIsolator.BetweenBare | tools/security/context_isolator.py:210-227 | between a start marker and an end marker on their own lines lies the content with its newlines |
| ContextIsolator.BetweenLabelled | tools/security/context_isolator.py:210-227 | a label line before the markers does not change what lies between them |
| ContextIsolator.UnwrapWrap | tools/security/context_isolator.py:101-135 | without the instruction, unwrapping wrapped content gives back the stripped escaped content, when neither marker occurs in it |
| ContextIsolator.UnwrapQuoted | tools/security/context_isolator.py:210-227 | a text quoting "start and end" before any real marker unwraps to "and" |
| ContextIsolator.UnwrapWithInstruction | tools/security/context_isolator.py:48-53 | with the instruction included, unwrapping any wrapped content returns "and", the word between the markers quoted in the instruction |
| ContextIsolator.DefaultMarkersFit | tools/security/context_isolator.py:40-41 | the default markers are single lines that the instruction quotes in the order that makes `unwrap_content` stop inside it |
| ContextIsolator.Isolator.constructor | tools/security/context_isolator.py:77-99 | the isolator keeps the instruction switch and the chosen markers |
| ContextIsolator.Isolator.WrapContent | tools/security/context_isolator.py:101-135 | the method returns the wrapped content |
| ContextIsolator.Isolator.UnwrapContent | tools/security/context_isolator.py:210-227 | the method returns the unwrapped text |
| ContextIsolator.Isolator.IsolateContent | tools/security/context_isolator.py:188-208 | the method returns the isolation result |
| EgressFirewall.FirstBlocked | tools/security/egress_firewall.py:168-173 | the blocked pattern reported is a configured pattern found in the URL or the domain, and none is reported exactly when no pattern is found in either |
| EgressFirewall.Evaluate | tools/security/egress_firewall.py:185-270 | a URL is allowed exactly when its domain is non-empty, not private, matches no blocked pattern, the hourly count is under the limit and, in allowlist mode, the domain is under an allowed domain; a private address is refused with the "private_ip" rule |
| EgressFirewall.PrivateAlwaysRefused | tools/security/egress_firewall.py:209-218 | a private address is refused whatever domains are added to the allowlist |
| EgressFirewall.KeepLast | tools/security/egress_firewall.py:288-290 | only the last 1000 log entries are kept |
| EgressFirewall.Firewall.constructor | tools/security/egress_firewall.py:117-151 | an empty or missing list falls back to the defaults; the settings are kept and there are no times or log entries |
| EgressFirewall.Firewall.LogRequest | tools/security/egress_firewall.py:272-290 | when logging is on the entry, with the URL cut to 200 characters, is appended and the log capped; nothing else changes |
| EgressFirewall.Firewall.CheckUrl | tools/security/egress_firewall.py:175-270 | the result is the evaluation against the requests of the last hour; a request that reaches the rate check drops older times and is counted if allowed; every check is logged; the blocked patterns and allowed domains are unchanged |
| EgressFirewall.Firewall.AddBlockedPattern | tools/security/egress_firewall.py:304-306 | the pattern is appended and nothing else changes |
| EgressFirewall.Firewall.GetRequestLog | tools/security/egress_firewall.py:308-323 | the last entries up to the limit, of only refused requests when asked |
| EgressFirewall.Firewall.GetStats | tools/security/egress_firewall.py:325-342 | the statistics of the current times and log |
| EgressFirewall.Firewall.ResetStats | tools/security/egress_firewall.py:344-347 | the times and the log are emptied and the rules kept |
| EgressFirewall.Firewall.AddAllowedDomain | tools/security/egress_firewall.py:296-298 | the lower-cased domain is added; the blocked patterns, request times and log are unchanged |
| EgressFirewall.Firewall.RemoveAllowedDomain | tools/security/egress_firewall.py:300-302 | the lower-cased domain is removed, and removing an absent domain changes nothing; the blocked patterns, request times and log are unchanged |
| EgressFirewall.PyTail | tools/security/egress_firewall.py:323 | Python's slice from minus the limit |
| EgressFirewall.Refused | tools/security/egress_firewall.py:321-322 | exactly the refused entries |
| EgressFirewall.StatsOf | tools/security/egress_firewall.py:325-342 | the blocked count is at most the logged count, which is the log's length, and the hourly count is at most the recorded times |
| ErrorSanitizer.PatternList | tools/security/error_sanitizer.py:98-100 | the built-in redaction patterns come first, then the extra ones in order |
| ErrorSanitizer.Compile | tools/security/error_sanitizer.py:103-106 | each pattern is compiled case-insensitive and multi-line, keeping its replacement |
| ErrorSanitizer.SubEachAppend | tools/security/error_sanitizer.py:190-191 | substituting with a list of patterns is substituting with its first part and then with the rest |
| ErrorSanitizer.SanitizeInOrder | tools/security/error_sanitizer.py:98-194 | empty text is returned as is; otherwise the built-in patterns are applied before the extra ones |
| ErrorSanitizer.SanitizeAppend | tools/security/error_sanitizer.py:185-194 | sanitizing with two pattern lists joined is sanitizing with the first and then the second |
| ErrorSanitizer.SanitizeKeepsCleanText | tools/security/error_sanitizer.py:185-194 | text that no pattern matches comes back unchanged |
| ErrorSanitizer.SanitizeError | tools/security/error_sanitizer.py:107-127 | the message is sanitized together with the traceback after a newline when there is one, and alone otherwise |
| ErrorSanitizer.SafeStr | tools/security/error_sanitizer.py:141-156 | the string form, or the repr when the string form fails, is sanitized |
| ErrorSanitizer.SanitizeDict | tools/security/error_sanitizer.py:158-183 | the result has the same keys in the same order, and each value is the sanitized value of the same key: strings sanitized, dictionaries recursed into, lists item by item (string and dictionary elements sanitized, nested lists and other elements kept), anything else kept |
| ErrorSanitizer.SanitizeValue | tools/security/error_sanitizer.py:167-182 | strings are sanitized, a dictionary becomes the sanitized dictionary with the same keys, a list becomes its sanitized items (string and dictionary elements sanitized), and other values are kept |
| ErrorSanitizer.SanitizeItems | tools/security/error_sanitizer.py:174-179 | list items that are strings are sanitized, a dictionary item becomes the sanitized dictionary, and nested lists and other values are kept |
| ErrorSanitizer.SanitizeDictKeepsClean | tools/security/error_sanitizer.py:158-183 | a dictionary with no value any pattern matches comes back unchanged |
| ErrorSanitizer.SanitizeValueKeepsClean | tools/security/error_sanitizer.py:167-182 | a value with nothing any pattern matches comes back unchanged |
| ErrorSanitizer.SanitizeItemsKeepsClean | tools/security/error_sanitizer.py:174-179 | a list with nothing any pattern matches comes back unchanged |
| ErrorSanitizer.NestedListUntouched | tools/security/error_sanitizer.py:174-179 | a list nested inside a list is not sanitized |
| ErrorSanitizer.StatsMeaning | tools/security/error_sanitizer.py:196-219 | the lengths before and after, the sanitized text, and a redaction count that is zero exactly when no redaction marker appears |
| ErrorSanitizer.NewSanitizer | tools/security/error_sanitizer.py:90-106 | the sanitizer's patterns are the built-in ones followed by the extra ones |
| ErrorSanitizer.SanitizeMessage | tools/security/error_sanitizer.py:129-139 | a message is sanitized with the built-in patterns |
| ExfiltrationPrevention.Hits | tools/security/exfiltration_prevention.py:171-174 | the hits are exactly the table entries whose pattern matches, in table order |
| ExfiltrationPrevention.Labels | tools/security/exfiltration_prevention.py:172-173 | one threat label per hit: the prefix followed by the pattern's name |
| ExfiltrationPrevention.Scores | tools/security/exfiltration_prevention.py:174 | one score per hit: 4, 3, 2 or 1 for critical, high, medium, low |
| ExfiltrationPrevention.CheckRequestMeaning | tools/security/exfiltration_prevention.py:158-204 | `check_request` never changes the content; it is safe exactly when no extraction pattern matches (and then the clean "none" result); otherwise its level is the three-level rule over the hit scores, with one threat per hit and at least the three fixed recommendations |
| ExfiltrationPrevention.HighExtractionIsHigh | tools/security/exfiltration_prevention.py:171-186 | any matching high-risk extraction pattern makes the request high risk |
| ExfiltrationPrevention.ExtractionAttemptMeaning | tools/security/exfiltration_prevention.py:328-331 | `is_extraction_attempt` holds exactly when some extraction pattern of score at least 3 matches |
| ExfiltrationPrevention.AttemptHasHighHit | tools/security/exfiltration_prevention.py:328-331 | an extraction attempt has a matching high-risk pattern |
| ExfiltrationPrevention.HighHitIsAttempt | tools/security/exfiltration_prevention.py:328-331 | a matching high-risk pattern makes the request an extraction attempt |
| ExfiltrationPrevention.Equals | tools/security/exfiltration_prevention.py:285 | `"=" * n` has length n and holds only '=' |
| ExfiltrationPrevention.Padded | tools/security/exfiltration_prevention.py:285 | the padded text starts with the data, has a length divisible by 4, and adds between 1 and 4 characters (a whole group of "=" when the length is already a multiple of 4) |
| ExfiltrationPrevention.ReversedRoundTrip | tools/security/exfiltration_prevention.py:293-294 | the "reversed" decoding of a reversed secret gives the secret back |
| ExfiltrationPrevention.Base64RoundTrip | tools/security/exfiltration_prevention.py:283-287 | the padded base64 decoding of any encoding gives the ASCII text of the encoded bytes back |
| ExfiltrationPrevention.EqualsDecodeToNothing | tools/security/exfiltration_prevention.py:285-286 | the padding alone decodes, leniently, to nothing |
| ExfiltrationPrevention.EncodedSecrets | tools/security/exfiltration_prevention.py:267-279 | at most one report per encoding pattern |
| ExfiltrationPrevention.CheckOutputMeaning | tools/security/exfiltration_prevention.py:206-265 | `check_output` is safe exactly when no sensitive pattern and no encoded secret is found (and then the clean result); otherwise the content is redacted by every matching pattern, the level is the four-level rule over the hit scores plus 3 for encoded secrets, an encoded secret means at least high, and there are two recommendations exactly at high or critical |
| ExfiltrationPrevention.SanitizeForResponse | tools/security/exfiltration_prevention.py:315-326 | the response is the redacted content of `check_output`, and content no sensitive pattern matches comes back unchanged |
| ExfiltrationPrevention.Prevention.constructor | tools/security/exfiltration_prevention.py:141-156 | the prevention keeps the mode and the three pattern tables |
| ExfiltrationPrevention.Prevention.CheckRequestOf | tools/security/exfiltration_prevention.py:158-204 | the method returns the `check_request` result over its tables |
| ExfiltrationPrevention.Prevention.CheckOutputOf | tools/security/exfiltration_prevention.py:206-265 | the method returns the `check_output` result over its tables |
| FinancialSafety.Matched | tools/security/financial_safety.py:229-237 | at most one threat per pattern |
| FinancialSafety.MatchedMeaning | tools/security/financial_safety.py:229-237 | a threat is reported exactly when a pattern with that name and risk is found in the content |
| FinancialSafety.ParseAmountMeaning | tools/security/financial_safety.py:340-342 | a written number reads back as its value, and a bare comma is no amount |
| FinancialSafety.ParseDecimalNonNegative | tools/security/financial_safety.py:340-342 | a parsed amount is never negative |
| FinancialSafety.ExtractAmount | tools/security/financial_safety.py:328-344 | an amount is found only where an amount pattern matches, and it is never negative |
| FinancialSafety.NothingFoundIsSafe | tools/security/financial_safety.py:248-256 | content with no financial pattern and no payment site is safe, with nothing reported |
| FinancialSafety.CheckMeaning | tools/security/financial_safety.py:213-295 | the reported threats are the matched names and "financial_url"; the level is the highest score; approval is needed exactly for a threat that needs it or an amount above the approval threshold; when everything is blocked any threat is unsafe, otherwise a threat is safe exactly without approval and below high; every threat brings a recommendation |
| FinancialSafety.PaymentSiteIsHigh | tools/security/financial_safety.py:239-244 | content naming a payment site is at least high and unsafe |
| FinancialSafety.DefaultGateRefusesAll | tools/security/financial_safety.py:146-377 | with the default settings any threat is unsafe and no spending is ever allowed |
| FinancialSafety.CheckUrl | tools/security/financial_safety.py:297-326 | a URL is unsafe exactly when it names a payment site, and then it is high, needs approval and reports "financial_url" |
| FinancialSafety.DailySpentOnlyApprovedToday | tools/security/financial_safety.py:346-352 | refused spending and spending on other days do not count toward today's total |
| FinancialSafety.DailySpentRecord | tools/security/financial_safety.py:346-352 | a new record adds its cost to today's total exactly when it is approved and from today |
| FinancialSafety.CanSpend | tools/security/financial_safety.py:371-377 | spending is allowed exactly when not everything is blocked, the daily limit is positive and today's total plus the amount stays within it |
| FinancialSafety.AllowedSpendStaysWithinLimit | tools/security/financial_safety.py:354-377 | recording an allowed amount as approved keeps today's total within the daily limit |
| FinancialSafety.StatsOf | tools/security/financial_safety.py:379-396 | the remaining amount is never negative and, within the limit, the spent and remaining amounts add up to it |
| FinancialSafety.Gate.constructor | tools/security/financial_safety.py:146-173 | a new gate has the given settings, the built-in tables and no spending |
| FinancialSafety.Gate.CheckRequest | tools/security/financial_safety.py:213-295 | returns the request check under the gate's settings |
| FinancialSafety.Gate.CheckUrlOf | tools/security/financial_safety.py:297-326 | returns the URL check |
| FinancialSafety.Gate.RecordSpending | tools/security/financial_safety.py:354-369 | the record is appended, and today's total grows by its cost exactly when approved |
| FinancialSafety.Gate.GetDailySpending | tools/security/financial_safety.py:346-352 | returns today's approved total |
| FinancialSafety.Gate.CanSpendNow | tools/security/financial_safety.py:371-377 | allowed exactly when not blocked, the limit is positive and the amount fits within today's remaining limit |
| FinancialSafety.Gate.GetStats | tools/security/financial_safety.py:379-396 | returns the statistics of the current records |
| InteractionAnalyzer.Jaccard | tools/security/interaction_analyzer.py:135-145 | the Jaccard index is between 0 and 1, and 0 when either word set is empty |
| InteractionAnalyzer.JaccardMeaning | tools/security/interaction_analyzer.py:135-145 | the index is symmetric and is 1 exactly for two equal non-empty sets |
| InteractionAnalyzer.ContentSimilarityMeaning | tools/security/interaction_analyzer.py:135-145 | content similarity is symmetric, between 0 and 1, 0 for content without words, and 1 exactly when both have the same non-empty word set |
| InteractionAnalyzer.Common | tools/security/interaction_analyzer.py:160 | the number of agreeing aligned positions is at most either length |
| InteractionAnalyzer.CommonSymmetric | tools/security/interaction_analyzer.py:160 | agreeing positions do not depend on the order of the names |
| InteractionAnalyzer.CommonSelf | tools/security/interaction_analyzer.py:160 | a name agrees with itself at every position |
| InteractionAnalyzer.NameSimilarity | tools/security/interaction_analyzer.py:157-162 | the similarity of stripped names is between 0 and 1, and 0 when either is empty |
| InteractionAnalyzer.UsernameSimilarityMeaning | tools/security/interaction_analyzer.py:147-162 | username similarity is between 0 and 1 and symmetric, 0 when either name strips to nothing and 1 when both strip to the same name |
| InteractionAnalyzer.NameSimilarityMeaning | tools/security/interaction_analyzer.py:157-162 | the similarity is symmetric and a non-empty name is fully similar to itself |
| InteractionAnalyzer.Last | tools/security/interaction_analyzer.py:204 | at most the last n elements, ending with the newest |
| InteractionAnalyzer.WithinHour | tools/security/interaction_analyzer.py:206-208 | exactly the mention times less than an hour old are kept |
| InteractionAnalyzer.UpdatedMeaning | tools/security/interaction_analyzer.py:196-208 | recording adds one interaction, keeps the first-seen time, sets the last-seen time, keeps at most 50 fingerprints ending with the new one, and for a mention keeps the new time and only times within the hour |
| InteractionAnalyzer.Filter | tools/security/interaction_analyzer.py:229-230 | the kept interactions are exactly those that pass the test |
| InteractionAnalyzer.Authors | tools/security/interaction_analyzer.py:282-284 | one author per interaction, and exactly the authors of the interactions |
| InteractionAnalyzer.SpamFromMeaning | tools/security/interaction_analyzer.py:285-296 | exactly the authors with at least five mentions are reported, each with its count and the confidence min(count/10, 1) |
| InteractionAnalyzer.MentionSpamMeaning | tools/security/interaction_analyzer.py:276-296 | mention spam is reported about an author exactly when they sent at least five mentions in the window |
| InteractionAnalyzer.Minutes | tools/security/interaction_analyzer.py:303-306 | one clock minute per interaction |
| InteractionAnalyzer.BurstsInMeaning | tools/security/interaction_analyzer.py:308-319 | exactly the listed minutes that are bursts are reported, each by its own finding |
| InteractionAnalyzer.CoordinatedTimingMeaning | tools/security/interaction_analyzer.py:298-321 | coordinated timing is reported for exactly the minutes holding at least three messages from at least two agents; such a finding names exactly the agents who wrote in that minute, counts the messages and has a confidence in (0, 1] |
| InteractionAnalyzer.Hashes | tools/security/interaction_analyzer.py:328-330 | one fingerprint per interaction |
| InteractionAnalyzer.DuplicatesInMeaning | tools/security/interaction_analyzer.py:332-343 | exactly the listed fingerprints that are duplicated are reported, each by its own finding |
| InteractionAnalyzer.DuplicatesMeaning | tools/security/interaction_analyzer.py:323-345 | duplicate content is reported for exactly the fingerprints posted at least twice by at least two agents; such a finding names exactly those agents, counts the posts and has a confidence in (0, 1] |
| InteractionAnalyzer.SimilarTo | tools/security/interaction_analyzer.py:353-357 | the look-alikes are exactly the other agents at least 0.7 similar |
| InteractionAnalyzer.SockPuppetsSound | tools/security/interaction_analyzer.py:347-369 | each look-alike finding has confidence 0.6, starts with an agent and lists after it only agents at least 0.7 similar to it, its count being the number listed |
| InteractionAnalyzer.SockPuppetsComplete | tools/security/interaction_analyzer.py:347-369 | every pair of agents at least 0.7 similar is reported by the finding about the earlier one |
| InteractionAnalyzer.FirstAgentReported | tools/security/interaction_analyzer.py:353-369 | a later look-alike of the first agent is listed in the finding about the first agent |
| InteractionAnalyzer.NewAgents | tools/security/interaction_analyzer.py:378-382 | the new agents are exactly those first seen less than an hour ago |
| InteractionAnalyzer.RiskRule | tools/security/interaction_analyzer.py:241-253 | nothing found is "none"; a finding more than 0.8 confident makes it "high" and more than 0.5 "medium", both suspicious; anything else is "low" and not suspicious |
| InteractionAnalyzer.Recommendations | tools/security/interaction_analyzer.py:395-419 | there is always a recommendation, and "No suspicious patterns detected" exactly when nothing was found |
| InteractionAnalyzer.RecommendationsPerKind | tools/security/interaction_analyzer.py:395-419 | each kind of finding is answered by its own advice exactly when some finding has that kind |
| InteractionAnalyzer.AnalysisMeaning | tools/security/interaction_analyzer.py:215-274 | the analysis runs the five detectors over the interactions within the window, and its verdict and advice follow from the findings |
| InteractionAnalyzer.SockPuppetsAloneAreMedium | tools/security/interaction_analyzer.py:241-361 | findings all of look-alike confidence make the analysis "medium" and suspicious |
| InteractionAnalyzer.ReplyChain | tools/security/interaction_analyzer.py:421-438 | a reply chain is safe exactly when it is not blocked and is less than ten deep |
| InteractionAnalyzer.StatsUpdate | tools/security/interaction_analyzer.py:196-204 | recording keeps every author's statistics within 50 fingerprints and lists each author once |
| InteractionAnalyzer.MultisetCountBound | tools/security/interaction_analyzer.py:450 | a count is at most the number of interactions and zero exactly for an absent author |
| InteractionAnalyzer.AgentSummary | tools/security/interaction_analyzer.py:446-459 | the summary gives the agent's counters and times when it has statistics and zeros otherwise, and counts its recorded interactions, zero exactly when it wrote none |
| InteractionAnalyzer.Analyzer.constructor | tools/security/interaction_analyzer.py:81-102 | a new analyzer has no interactions, statistics, findings or blocked chains |
| InteractionAnalyzer.Analyzer.RecordInteraction | tools/security/interaction_analyzer.py:165-213 | the interaction is appended with its fingerprint and a 100-character preview, and the author's statistics are updated |
| InteractionAnalyzer.Analyzer.AnalyzePatterns | tools/security/interaction_analyzer.py:215-274 | returns the analysis and keeps its findings as the detected patterns |
| InteractionAnalyzer.Analyzer.CheckReplyChain | tools/security/interaction_analyzer.py:421-438 | a safe answer means the chain is not blocked and is less than ten deep |
| InteractionAnalyzer.Analyzer.BlockChain | tools/security/interaction_analyzer.py:440-444 | the chain is added to the blocked ones and is refused at any depth afterwards |
| InteractionAnalyzer.Analyzer.GetAgentSummary | tools/security/interaction_analyzer.py:446-459 | returns the agent's summary |
| InteractionAnalyzer.Analyzer.GetStats | tools/security/interaction_analyzer.py:461-468 | the counts of interactions, agents, blocked chains and detected patterns |
| LinkSafety.WithScheme | tools/security/link_safety.py:221-222 | the URL checked always starts with http:// or https://, and one that already does is kept |
| LinkSafety.WithSchemeIdempotent | tools/security/link_safety.py:221-222 | adding the scheme twice is adding it once |
| LinkSafety.MaliciousWarnings | tools/security/link_safety.py:233-237 | at most one malicious-pattern warning, given exactly when some malicious pattern is found in the URL |
| LinkSafety.TyposquatIn | tools/security/link_safety.py:145-151 | a reported brand has a pattern found in the domain and does not occur in it; none is reported exactly when every brand either has no pattern found or occurs in the domain |
| LinkSafety.Typosquat | tools/security/link_safety.py:108-151 | a reported brand never occurs in the domain |
| LinkSafety.TyposquatNeedsMissingBrand | tools/security/link_safety.py:145-151 | a domain containing every brand name is never reported as typosquatting |
| LinkSafety.LoweredParams | tools/security/link_safety.py:94-106 | the lower-cased forms of the suspicious parameter names, in order |
| LinkSafety.ReturnToNeverMatchesAsWritten | tools/security/link_safety.py:94-160 | as written, no lower-cased name equals "returnTo", so that parameter is never flagged |
| LinkSafety.ReturnToMatches | tools/security/link_safety.py:94-160 | compared with lower-cased names, "returnTo" in any case is flagged |
| LinkSafety.SuspiciousNameWidens | tools/security/link_safety.py:160 | every name flagged as written is still flagged by the corrected check |
| LinkSafety.ParamWarningsOf | tools/security/link_safety.py:159-164 | one warning per parameter that passes the name test (the list as written, or lowered when corrected) and whose first value starts with http:// or https:// |
| LinkSafety.ParamWarnings | tools/security/link_safety.py:153-170 | a URL that does not parse gives no parameter warnings |
| LinkSafety.ParamWarningsMeaning | tools/security/link_safety.py:153-170 | a parameter warning is given exactly for each name passing the name test whose first value is a redirect URL |
| LinkSafety.ReturnToNeverWarnedAsWritten | tools/security/link_safety.py:94-164 | as written, `check_url` never warns about a "returnTo" parameter in any spelling |
| LinkSafety.ReturnToNotListed | tools/security/link_safety.py:94-161 | as written, no spelling of "returnTo" passes the name test |
| LinkSafety.ReturnToWarnedIntended | tools/security/link_safety.py:94-164 | corrected, a "returnTo" parameter in any spelling whose first value is a redirect URL is warned about |
| LinkSafety.ParamWarningNames | tools/security/link_safety.py:164 | different parameter names give different warnings |
| LinkSafety.ParamWarningNamesFlagged | tools/security/link_safety.py:153-170 | every parameter warning names a flagged suspicious parameter |
| LinkSafety.FlaggedNameWarned | tools/security/link_safety.py:153-170 | every flagged suspicious parameter is warned about |
| LinkSafety.WarnedPairFlagged | tools/security/link_safety.py:159-164 | a warning over the parsed pairs names a suspicious parameter whose first value is a redirect URL |
| LinkSafety.FlaggedPairWarned | tools/security/link_safety.py:159-164 | a suspicious parameter whose first value is a redirect URL is warned about |
| LinkSafety.FirstValueIn | tools/security/link_safety.py:162 | a parameter's first value is one of its query pairs |
| LinkSafety.PathTricks | tools/security/link_safety.py:172-198 | four independent path checks |
| LinkSafety.PathWarnings | tools/security/link_safety.py:172-198 | a URL that does not parse gives no path warnings, and there are at most four |
| LinkSafety.PathWarningsDistinct | tools/security/link_safety.py:181-194 | the four path warnings differ from each other |
| LinkSafety.PathWarningsMeaning | tools/security/link_safety.py:172-198 | each path warning is given exactly when its trick is present: an @ in the decoded path, "%25" in the URL, "../" or "..\\" in the decoded path, an executable extension |
| LinkSafety.PortWarnings | tools/security/link_safety.py:256-262 | a port warning is given exactly for an explicit port other than 0, 80 and 443 |
| LinkSafety.Check | tools/security/link_safety.py:200-298 | an empty URL is unsafe and high; otherwise the URL gets its scheme and its warnings, with the parameter name test as written; it is safe exactly without warnings; high exactly with a malicious or impersonating warning, medium with only other warnings, and without warnings none for a trusted domain and low otherwise |
| LinkSafety.SevereAround | tools/security/link_safety.py:270 | a warning containing "malicious" or "impersonating" is severe |
| LinkSafety.MaliciousWarningSevere | tools/security/link_safety.py:235-270 | the malicious-pattern warning is severe |
| LinkSafety.ImpersonatingSevere | tools/security/link_safety.py:241-270 | the impersonation warning is severe |
| LinkSafety.MaliciousIsHighRisk | tools/security/link_safety.py:233-273 | a URL matching a malicious pattern is high risk and unsafe |
| LinkSafety.TyposquatIsHighRisk | tools/security/link_safety.py:239-273 | a typosquatting domain is high risk |
| LinkSafety.TrustedSubdomainIsSafe | tools/security/link_safety.py:227-268 | a subdomain of a trusted domain with no warnings is safe with no risk |
| LinkSafety.Checker.constructor | tools/security/link_safety.py:119-135 | the trusted set is the built-in domains plus the extra ones |
| LinkSafety.Checker.CheckUrl | tools/security/link_safety.py:200-298 | returns the check under the current trusted set, safe exactly for a non-empty URL without warnings |
| LinkSafety.Checker.AddTrustedDomain | tools/security/link_safety.py:327-329 | the lower-cased domain is added |
| LinkSafety.Checker.RemoveTrustedDomain | tools/security/link_safety.py:331-333 | the lower-cased domain is removed, and removing an absent domain changes nothing |
| LlmClient.ResolveKey | tools/agent/llm.py:76-96 | a client can be made exactly for "anthropic" or "openai" in any case with a key given or in that provider's environment variable; a given key is used as is |
| LlmClient.MissingKeyFirst | tools/agent/llm.py:87-96 | an unknown provider without a key fails with the missing-key message, which is checked first |
| LlmClient.PricingOf | tools/agent/llm.py:26-120 | an unlisted model is priced at 0.01 and 0.03 per thousand tokens |
| LlmClient.CostAdditive | tools/agent/llm.py:117-124 | the cost of two calls is the cost of their summed tokens |
| LlmClient.CostNonNegative | tools/agent/llm.py:117-124 | a call never costs less than nothing |
| LlmClient.Client.constructor | tools/agent/llm.py:66-103 | a new client has the lower-cased provider, the model, the resolved key and zero totals |
| LlmClient.Client.RecordCall | tools/agent/llm.py:160-196 | the call's cost is its price, and its tokens and cost are added to the totals |
| LlmClient.Client.GetUsage | tools/agent/llm.py:207-215 | the usage reports the token totals, the model and the provider, and the total cost rounded to four places: a whole number of ten-thousandths within half of one of the unrounded total |
| LlmClient.Totals | tools/agent/llm.py:160-196 | the running cost total equals the price of the summed tokens |
| MemorySanitizer.FragmentRiskNonNegative | tools/security/memory_sanitizer.py:206-211 | weights that are never negative give a fragment score that is never negative |
| MemorySanitizer.FragmentRiskNone | tools/security/memory_sanitizer.py:206-211 | content no fragment pattern matches scores nothing and gets no notes |
| MemorySanitizer.SanitizeMeaning | tools/security/memory_sanitizer.py:189-245 | empty content is accepted and nothing kept; other content is refused exactly when its score reaches the threshold; accepted content comes back unchanged and is kept under "<source>:<hash>", cut to 500 characters, flagged exactly when its score is above half the threshold |
| MemorySanitizer.FlaggedHashRaisesRisk | tools/security/memory_sanitizer.py:220-224 | previously flagged content scores 0.5 more and is always refused |
| MemorySanitizer.FragmentWeightsPositive | tools/security/memory_sanitizer.py:72-109 | every fragment pattern has a positive weight |
| MemorySanitizer.NonPositiveThresholdRefusesAll | tools/security/memory_sanitizer.py:126-228 | with a threshold of zero or less all non-empty content is refused |
| MemorySanitizer.Values | tools/security/memory_sanitizer.py:276 | the entries in the order they were first stored |
| MemorySanitizer.Recent | tools/security/memory_sanitizer.py:272-283 | exactly the entries stored within the last day |
| MemorySanitizer.Contents | tools/security/memory_sanitizer.py:286 | one stored text per entry |
| MemorySanitizer.AttackMatches | tools/security/memory_sanitizer.py:289-292 | at most three matches per attack pattern, and some only when an attack pattern is found |
| MemorySanitizer.AttackMatchesMeaning | tools/security/memory_sanitizer.py:289-292 | the joined text yields attack matches exactly when some attack pattern is found in it |
| MemorySanitizer.Fragments | tools/security/memory_sanitizer.py:294-299 | at most one note per fragment pattern; the fragment count is zero without notes and more than three with them |
| MemorySanitizer.Hidden | tools/security/memory_sanitizer.py:301-315 | at most one hidden-attack note per decoded run, and some exactly when a run decodes as base64 to text an attack pattern matches |
| MemorySanitizer.ScanMeaning | tools/security/memory_sanitizer.py:317-337 | any assembled attack is "high" and unsafe; otherwise suspicious fragments with more than ten in all are "medium" and unsafe, fewer are "low" and safe, and none is "none" and safe; an unsafe scan recommends at least a review and a purge |
| MemorySanitizer.AssembledAttackIsHigh | tools/security/memory_sanitizer.py:288-320 | an attack pattern found in the joined text makes the scan high and unsafe |
| MemorySanitizer.HiddenAttackIsHigh | tools/security/memory_sanitizer.py:301-320 | an attack hidden in one of the first five base64 runs makes the scan high and unsafe |
| MemorySanitizer.EncodedAttackHidden | tools/security/memory_sanitizer.py:301-315 | the base64 encoding of an attack text, with or without a surplus "=", is reported as hiding an attack |
| MemorySanitizer.SurplusPadSkipped | tools/security/memory_sanitizer.py:309 | the lenient decoder ignores a surplus "=" after an encoding |
| MemorySanitizer.PaddedAttackHidden | tools/security/memory_sanitizer.py:301-315 | a padded encoding of an attack text is reported as hiding an attack whatever ASCII text follows it in the run |
| MemorySanitizer.DoomedKeys | tools/security/memory_sanitizer.py:363-366 | the purged keys are exactly those whose entries reach the threshold or are flagged |
| MemorySanitizer.Survivors | tools/security/memory_sanitizer.py:363-370 | the kept keys are exactly those whose entries stay below the threshold and are not flagged |
| MemorySanitizer.HashesOf | tools/security/memory_sanitizer.py:366 | the hash of every purged entry's stored text is recorded |
| MemorySanitizer.HeadNotInTail | tools/security/memory_sanitizer.py:368-370 | the first key of a list without repeats does not come again |
| MemorySanitizer.FilteredUnique | tools/security/memory_sanitizer.py:363-370 | the purged keys and the kept keys each list every key once |
| MemorySanitizer.Members | tools/security/memory_sanitizer.py:368-370 | exactly the keys of the list |
| MemorySanitizer.UniqueCard | tools/security/memory_sanitizer.py:368-371 | a list without repeats has as many keys as its set |
| MemorySanitizer.PurgeKeepsOrder | tools/security/memory_sanitizer.py:350-377 | after a purge the order still lists exactly the kept entries, each once |
| MemorySanitizer.PurgeLeavesNoSuspect | tools/security/memory_sanitizer.py:350-377 | after a purge no kept entry is flagged or reaches the threshold |
| MemorySanitizer.PurgeCount | tools/security/memory_sanitizer.py:350-377 | the entries kept and the entries purged add up to the entries before |
| MemorySanitizer.Sanitizer.constructor | tools/security/memory_sanitizer.py:124-143 | a new sanitizer has the settings, the built-in tables, no entries, no flagged hashes and no scan yet |
| MemorySanitizer.Sanitizer.SanitizeBeforeStore | tools/security/memory_sanitizer.py:189-245 | returns the verdict and text of the check; accepted non-empty content is stored under its key, a new key going to the end of the order; nothing else changes |
| MemorySanitizer.Sanitizer.IsSafeToStore | tools/security/memory_sanitizer.py:247-259 | the verdict of the full check; accepted non-empty content is stored under its key, a new key going to the end of the order; the flagged hashes and the last scan time are unchanged |
| MemorySanitizer.Sanitizer.ScanAssembledMemory | tools/security/memory_sanitizer.py:261-348 | returns the scan of the last day's entries and records the scan time; the entries are unchanged |
| MemorySanitizer.Sanitizer.PurgeSuspicious | tools/security/memory_sanitizer.py:350-377 | a missing or zero threshold means the configured one; the flagged and over-threshold entries are removed, their hashes recorded, and their number returned |
| MemorySanitizer.Sanitizer.RecordHashes | tools/security/memory_sanitizer.py:363-366 | the hashes of the given entries are added to the flagged hashes |
| MemorySanitizer.Sanitizer.RemoveKeys | tools/security/memory_sanitizer.py:368-370 | the given keys are removed and counted |
| MemorySanitizer.Sanitizer.GetFlaggedEntries | tools/security/memory_sanitizer.py:379-381 | exactly the flagged entries |
| MemorySanitizer.Sanitizer.GetStats | tools/security/memory_sanitizer.py:383-399 | returns the statistics of the current entries |
| MemorySanitizer.Sanitizer.ClearMemory | tools/security/memory_sanitizer.py:401-406 | every entry is removed and their number returned; the flagged hashes are kept |
| MemorySanitizer.HashesAppend | tools/security/memory_sanitizer.py:363-366 | one more purged entry adds its hash |
| MemorySanitizer.FlaggedOf | tools/security/memory_sanitizer.py:379-381 | exactly the flagged entries |
| MemorySanitizer.StatsOf | tools/security/memory_sanitizer.py:383-399 | the totals count the entries, no last scan is reported before the first, and a scan is due once the interval has passed |
| MoltbookApi.ExtractName | tools/agent/moltbook_api.py:60-64 | a dictionary gives its name, else its slug, else the fallback; any other value is kept when truthy and replaced by the fallback otherwise |
| MoltbookApi.ExtractNameOfText | tools/agent/moltbook_api.py:60-64 | a non-empty string is its own name, and an empty string or none gives the fallback |
| MoltbookApi.KeyValidPrefix | tools/agent/moltbook_api.py:113-114 | a key is accepted exactly when it starts with "moltbook_", which also rules out the empty key |
| MoltbookApi.LastMinute | tools/agent/moltbook_api.py:142 | exactly the request times less than a minute old are kept |
| MoltbookApi.PostVerdict | tools/agent/moltbook_api.py:148-152 | a post is refused exactly within 1800 seconds of the last one, with a wait of at most 1800 seconds and no daily count |
| MoltbookApi.CommentVerdict | tools/agent/moltbook_api.py:154-168 | at the daily cap of 50 a comment is refused for 86400 seconds with none remaining; otherwise it is refused exactly within 20 seconds of the last one, with a wait of at most 20 seconds and the day's remaining count |
| MoltbookApi.PostsParams | tools/agent/moltbook_api.py:276-278 | the limit is capped at 100 and a submolt, when given, has "m/" removed |
| MoltbookApi.SearchParams | tools/agent/moltbook_api.py:512-516 | the query is cut to its first 500 characters and the limit capped at 50 |
| MoltbookApi.Api.constructor | tools/agent/moltbook_api.py:105-129 | a new client keeps the key and has no request times, no post or comment times and no comments today |
| MoltbookApi.Api.CheckRateLimit | tools/agent/moltbook_api.py:131-168 | a new day resets the comment count; a request is refused when a minute already holds 100 requests and is otherwise recorded; posts and comments get their verdicts; nothing else changes |
| MoltbookApi.Api.CreatePost | tools/agent/moltbook_api.py:312-341 | only a post that passes the post check and the request check (fewer than 100 requests in the last minute) and that the server accepts moves the last post time, to the clock's reading after the answer; then the request log is the last minute's times plus `now`; a post refused by the interval leaves the request log alone; a post that passes it leaves the last minute's times, plus `now` when fewer than 100, whether the request check or the server then fails; the day's comment count is reset on a new day and the day recorded; the API key is unchanged |
| MoltbookApi.Api.CreateComment | tools/agent/moltbook_api.py:398-419 | only a comment that passes the comment check (daily cap of 50, then 20 s interval, after the day reset) and the request check and that the server accepts moves the last comment time, to the clock's reading after the answer, adds exactly one to the day's count and logs `now` as a request; a comment the comment check refuses leaves the request log alone; the API key is unchanged; one that passes it leaves the last minute's times, plus `now` when fewer than 100, whether the request check or the server then fails |
| MoltbookApi.CapHoldsAllDay | tools/agent/moltbook_api.py:154-160 | a comment refused by the daily cap is refused at any time that day |
| Observatory.TodayStart | tools/observatory/__init__.py:103-104 | the start of today is a midnight no later than now and less than a day before it |
| Observatory.CountType | tools/observatory/__init__.py:107-113 | a type's count never exceeds the number of events |
| Observatory.CountMeaning | tools/observatory/__init__.py:107-113 | the count of a type is the number of events of that type |
| Observatory.TodayAtMostTotal | tools/observatory/__init__.py:107-113 | today's count of a type is at most its total count, and equal when every event is from today |
| Observatory.CountAppend | tools/observatory/__init__.py:56-113 | one more event raises the total and today's count of its own type by one and leaves the others alone |
| Observatory.Of | tools/observatory/__init__.py:148 | filtering by type never gives more events than there are |
| Observatory.OfAppend | tools/observatory/__init__.py:148 | filtering the concatenation of two event lists filters each in turn |
| Observatory.OfMeaning | tools/observatory/__init__.py:148 | the filter keeps every event of the type as often as it occurs, and nothing else |
| Observatory.SortDesc | tools/observatory/__init__.py:116-155 | sorting keeps the number of events |
| Observatory.SortDescAppend | tools/observatory/__init__.py:116-155 | sorting one more event inserts it into the sorted earlier events |
| Observatory.SortDescPermutes | tools/observatory/__init__.py:116-155 | the sort only reorders the events |
| Observatory.SortDescSorted | tools/observatory/__init__.py:116-155 | the sorted events run from newest to oldest |
| Observatory.SortDescStable | tools/observatory/__init__.py:116-155 | events with equal timestamps keep their recording order, as Python's stable sort does |
| Observatory.SortDescSameEvents | tools/observatory/__init__.py:116-155 | the sort neither loses nor invents an event |
| Observatory.RecentMeaning | tools/observatory/__init__.py:116 | the summary lists ten events, or all of them when there are fewer, newest first, all recorded |
| Observatory.RecentAreNewest | tools/observatory/__init__.py:116 | no event left out of the summary is newer than one listed |
| Observatory.Threats | tools/observatory/__init__.py:146-156 | one threat per blocked-attack event |
| Observatory.ThreatsAreBlockedAttacks | tools/observatory/__init__.py:146-156 | the threats are exactly the blocked attacks, each as often as recorded, and their number is the blocked-attack count |
| Observatory.ThreatsNewestFirst | tools/observatory/__init__.py:146-156 | threats run from newest to oldest and carry the attack type as recorded |
| Observatory.SummaryBounds | tools/observatory/__init__.py:101-144 | in the summary, each day's count is at most its total, and at most ten recent events are listed, newest first |
| Observatory.CountEvents | tools/observatory/__init__.py:106-113 | the counting loop yields, for every type, its total count and its count since the start of the day |
| Observatory.AgentMetrics.constructor | tools/observatory/__init__.py:52-54 | new metrics have no events, zero karma, and the creation time as start |
| Observatory.AgentMetrics.RecordPost | tools/observatory/__init__.py:56-62 | one post event stamped now is appended, karma unchanged |
| Observatory.AgentMetrics.RecordComment | tools/observatory/__init__.py:64-70 | one comment event stamped now is appended, karma unchanged |
| Observatory.AgentMetrics.RecordUpvote | tools/observatory/__init__.py:72-78 | one upvote event stamped now is appended, karma unchanged |
| Observatory.AgentMetrics.RecordBlockedAttack | tools/observatory/__init__.py:80-87 | one blocked-attack event is appended, with the attack type as details and the risk level |
| Observatory.AgentMetrics.RecordApiCall | tools/observatory/__init__.py:89-95 | one API-call event is appended, its details giving the tokens and the cost text |
| Observatory.AgentMetrics.UpdateKarma | tools/observatory/__init__.py:97-99 | the karma is replaced and the events kept |
| Observatory.AgentMetrics.GetSummary | tools/observatory/__init__.py:101-144 | the summary of the recorded events at now, with each day's count within its total and at most ten recent events, newest first |
| Observatory.AgentMetrics.GetThreats | tools/observatory/__init__.py:146-156 | the threats of the recorded events, one per blocked attack, newest first |
| Observatory.RecordPostCounts | tools/observatory/__init__.py:56-124 | recording a post raises the post counts by one and changes no other count |
| Observatory.RecordBlockedAttackThreats | tools/observatory/__init__.py:80-156 | recording a blocked attack adds exactly one threat, listed first when every earlier event is older |
| OutputScanner.Hits | tools/security/output_scanner.py:190-197 | the categories reported are exactly the table's categories with a matching pattern, each once, in table order |
| OutputScanner.Violations | tools/security/output_scanner.py:194 | one violation text per matching category: its message followed by its name in parentheses |
| OutputScanner.Scores | tools/security/output_scanner.py:195 | one score per matching category: 3, 2 or 1 for high, medium and low |
| OutputScanner.LevelAdvice | tools/security/output_scanner.py:267-278 | two lines of advice at "high" and "medium", one at "low" and "none" |
| OutputScanner.Recommendations | tools/security/output_scanner.py:263-289 | there is always advice, and credential, system-prompt and injection violations each add their own line |
| OutputScanner.EmptyContentIsSafe | tools/security/output_scanner.py:178-184 | empty content is safe at "none", with nothing reported and one recommendation |
| OutputScanner.ScanViolations | tools/security/output_scanner.py:186-204 | a non-empty scan reports one violation per matching category, in table order, plus a last one for two or more suspicious phrases |
| OutputScanner.ScanSafety | tools/security/output_scanner.py:206-218 | "high" is unsafe, "medium" is unsafe in strict mode only, "low" and "none" are safe, and the level is "none" exactly when nothing is reported |
| OutputScanner.ScanHighIffHighCategory | tools/security/output_scanner.py:206-212 | content is "high" exactly when a high-risk category matched |
| OutputScanner.SuspiciousContextIsMedium | tools/security/output_scanner.py:200-215 | two or more suspicious phrases make non-empty content at least "medium", and unsafe in strict mode |
| OutputScanner.HitsUnique | tools/security/output_scanner.py:190-197 | no category is reported twice when the table's names are distinct |
| OutputScanner.BlockedNamesDistinct | tools/security/output_scanner.py:41-132 | the stock categories have distinct names |
| OutputScanner.RedactPairs | tools/security/output_scanner.py:242-244 | every substitution replaces a pattern of the credential or path category by "[REDACTED]" |
| OutputScanner.Pairs | tools/security/output_scanner.py:243-244 | each pattern of a category is substituted in its order |
| OutputScanner.RedactKeepsCleanContent | tools/security/output_scanner.py:227-248 | content where no credential or path pattern matches comes back unchanged |
| OutputScanner.RedactIgnoresOtherCategories | tools/security/output_scanner.py:241-244 | only the credential and path categories take part in redaction |
| OutputScanner.Redactable | tools/security/output_scanner.py:242 | the redacted categories are a selection of the table |
| OutputScanner.Scanner.constructor | tools/security/output_scanner.py:141-166 | a scanner keeps the strictness and uses the stock categories and suspicious phrases |
| OutputScanner.Scanner.ScanOf | tools/security/output_scanner.py:168-225 | the method returns the scan of the content over its tables and strictness |
| OutputScanner.Scanner.RedactOf | tools/security/output_scanner.py:227-248 | the method returns the redaction of the content |
| OutputScanner.Scanner.IsSafe | tools/security/output_scanner.py:250-261 | the verdict of a full scan |
| OutputScanner.IsSafeToPost | tools/security/output_scanner.py:325-336 | content is safe to post exactly when a strict scan rates it "none" or "low" |
| ContentProvenance.TotalAppend | tools/security/content_provenance.py:186-248 | the risk of two lists of warnings is the sum of their risks, each warning carrying the weight added with it |
| ContentProvenance.Hash | tools/security/content_provenance.py:145-149 | a content hash has at most 16 characters |
| ContentProvenance.HashOfNormalized | tools/security/content_provenance.py:145-149 | content with its whitespace collapsed hashes like the content itself |
| ContentProvenance.HashIgnoresCase | tools/security/content_provenance.py:145-149 | lowercased content hashes like the content itself |
| ContentProvenance.ChainLength | tools/security/content_provenance.py:26-36 | a well-formed origin's chain (original author, then intermediaries) has `chain_length` distinct names and the original author is no intermediary |
| ContentProvenance.NewOrigin | tools/security/content_provenance.py:220-231 | a first sighting's origin is well formed with the poster alone in its chain |
| ContentProvenance.RepostedChain | tools/security/content_provenance.py:208-218 | a repost adds its author at the end of the chain unless already in it, and changes nothing else of the origin |
| ContentProvenance.RepostedWellFormed | tools/security/content_provenance.py:208-218 | a repost keeps the origin well formed, and a second repost by the same author changes nothing |
| ContentProvenance.RepostedAllGrows | tools/security/content_provenance.py:208-218 | reposts by new distinct authors extend the chain by exactly those authors, in order |
| ContentProvenance.FlaggedResult | tools/security/content_provenance.py:189-197 | flagged content is unsafe, high risk, with the single "flagged as malicious" warning, and carries its origin when one is known |
| ContentProvenance.Checked | tools/security/content_provenance.py:199-278 | a check of unflagged content always reports an origin |
| ContentProvenance.TotalNonNegative | tools/security/content_provenance.py:186-248 | a list of warnings with non-negative chain lengths has a non-negative risk |
| ContentProvenance.ConcernsNonNegative | tools/security/content_provenance.py:186-248 | the accumulated risk of a check is never negative |
| ContentProvenance.CheckedVerdict | tools/security/content_provenance.py:250-268 | the level bands the accumulated risk at 0.7, 0.4 and 0.2, the content is safe exactly below 0.4, and the recommendation follows the level |
| ContentProvenance.CheckedWellFormed | tools/security/content_provenance.py:199-278 | the origin a check reports is well formed and carries the content's hash |
| ContentProvenance.CheckedFirstSighting | tools/security/content_provenance.py:220-250 | unseen content gets a fresh origin by the poster, chain length 1, no flags, risk equal to the check's risk, and neither an originality nor a chain-length warning |
| ContentProvenance.CheckedSeen | tools/security/content_provenance.py:206-248 | seen content's origin is reposted by the poster and its risk becomes the larger of its old risk and the check's risk |
| ContentProvenance.ConcernsMeaning | tools/security/content_provenance.py:199-246 | originality is questioned exactly for seen content of another author claimed original without a quote; a chain warning names the new chain length, past the safe maximum, after a new author's repost |
| ContentProvenance.ConcernsOfSource | tools/security/content_provenance.py:199-241 | a flagged author is warned about exactly when flagged, campaign wording exactly when a campaign pattern matches, and the flagged-content warning never appears here |
| ContentProvenance.ContentConcernsMeaning | tools/security/content_provenance.py:236-246 | the text's own warnings are campaign wording, exactly when a campaign pattern matches, and nested quotes |
| ContentProvenance.RepostConcernsMeaning | tools/security/content_provenance.py:206-218 | the repost warnings are only the originality and chain-length warnings, under the conditions above |
| ContentProvenance.Recorded | tools/security/content_provenance.py:280-298 | `record_origin` makes a well-formed origin with the author alone in its chain and the flag "original" |
| ContentProvenance.FlaggedOrigin | tools/security/content_provenance.py:304-306 | flagging adds the reason to the origin's flags and sets its risk to 1.0, leaving its chain alone |
| ContentProvenance.OriginsUpdate | tools/security/content_provenance.py:103-104 | storing a well-formed origin under its own hash keeps every stored origin well formed |
| ContentProvenance.Provenance.constructor | tools/security/content_provenance.py:85-103 | a new tracker keeps the hash and maximum chain length and tracks nothing |
| ContentProvenance.Provenance.CheckContent | tools/security/content_provenance.py:169-278 | flagged content gets the flagged result and changes nothing; otherwise the check's origin is stored under the content's hash; the flag sets never change |
| ContentProvenance.Provenance.RecordOrigin | tools/security/content_provenance.py:280-298 | the recorded origin replaces whatever was stored under the content's hash |
| ContentProvenance.Provenance.FlagContent | tools/security/content_provenance.py:300-310 | the hash is added to the flagged content and a known origin is flagged |
| ContentProvenance.Provenance.FlagSource | tools/security/content_provenance.py:312-316 | the author is added to the flagged sources and nothing else changes |
| ContentProvenance.Provenance.GetChain | tools/security/content_provenance.py:318-326 | the chain is given exactly for tracked content: distinct names, `chain_length` of them, led by the original author |
| ContentProvenance.Provenance.GetStats | tools/security/content_provenance.py:328-336 | the statistics count the origins, the flagged content and sources, and the origins whose chain is longer than the safe maximum |
| RateLimiter.Trunc | tools/security/rate_limiter.py:183 | `int(x)` truncates toward zero: the floor for non-negative reals, minus the floor of the negation otherwise |
| RateLimiter.After | tools/security/rate_limiter.py:177-178 | the window filter keeps exactly the times strictly after the window start, and never more times than it was given |
| RateLimiter.AfterAppend | tools/security/rate_limiter.py:177-178 | filtering a history with an appended part filters each part on its own |
| RateLimiter.AfterAfter | tools/security/rate_limiter.py:177-178 | filtering at a later start after an earlier one is the same as filtering at the later start |
| RateLimiter.MinOf | tools/security/rate_limiter.py:182 | `min(recent)` is an element no larger than any other |
| RateLimiter.MaxOf | tools/security/rate_limiter.py:198 | `max(recent)` is an element no smaller than any other |
| RateLimiter.Decide | tools/security/rate_limiter.py:151-223 | an unknown action is allowed with count, limit and window 0; a known one reports the count of times in its window; reaching the limit refuses; a result names a retry delay exactly when refused, at least one second when the window is full (its exact value is stated by `RateLimiter.WindowRefusal`) |
| RateLimiter.CooldownRule | tools/security/rate_limiter.py:196-210 | inside the limit, a call is refused exactly when a cooldown is set, the window holds a time, and less than the cooldown has passed since the latest |
| RateLimiter.WindowRefusal | tools/security/rate_limiter.py:183-187 | a full window refuses and asks to wait `int(oldest + window - now) + 1` seconds, the oldest time in the window, or `now` when it is empty |
| RateLimiter.CooldownRefusal | tools/security/rate_limiter.py:199-201 | a cooldown refusal asks to wait the truncated remaining cooldown plus one second |
| RateLimiter.CooldownRetry | tools/security/rate_limiter.py:199-201 | with no recorded time in the future, a cooldown refusal's wait lies between one second and the cooldown plus one |
| RateLimiter.TruncWithin | tools/security/rate_limiter.py:201 | a positive wait of at most `bound` seconds truncates into 0 .. bound |
| RateLimiter.MaxWindowUnique | tools/security/rate_limiter.py:139 | the longest window of a set of limits is one number |
| RateLimiter.Fresh | tools/security/rate_limiter.py:143-146 | cleanup keeps exactly the times younger than the longest window |
| RateLimiter.FreshIsAfter | tools/security/rate_limiter.py:143-146 | cleanup's filter is the window filter at `now` minus the longest window |
| RateLimiter.Cleaned | tools/security/rate_limiter.py:136-149 | after cleanup an action keeps its entry exactly when some time of it is fresh, and then holds exactly its fresh times |
| RateLimiter.CleanupKeepsRecent | tools/security/rate_limiter.py:136-149 | cleanup never changes the times a window no longer than the longest one sees, so it never changes a decision |
| RateLimiter.UpdatedLimit | tools/security/rate_limiter.py:310-337 | for a configured action each given field replaces and each missing one keeps; a new action takes 100, 3600 s and 0 for a missing or zero field |
| RateLimiter.Limiter.constructor | tools/security/rate_limiter.py:93-110 | the limits are the defaults overridden by the custom ones, with no recorded actions |
| RateLimiter.Limiter.Check | tools/security/rate_limiter.py:151-223 | `check` decides from the action's configuration and recorded history as `Decide` does |
| RateLimiter.Limiter.MaxWindow | tools/security/rate_limiter.py:139 | the method returns the longest window among the limits |
| RateLimiter.Limiter.CleanupState | tools/security/rate_limiter.py:136-149 | the recorded actions become their cleanup at `now`; limits and last save are unchanged |
| RateLimiter.Limiter.Record | tools/security/rate_limiter.py:225-244 | `now` is appended to the action's history; more than 60 s after the last save the state is also cleaned up and saved |
| RateLimiter.Limiter.CheckAndRecord | tools/security/rate_limiter.py:246-259 | the result is the check before the call, and the action is recorded exactly when it is allowed; an allowed call more than 60 s after the last save cleans up and moves the save time to `now`, otherwise the save time is kept |
| RateLimiter.Limiter.Reset | tools/security/rate_limiter.py:296-308 | a named action loses its history, no name (or an empty one) clears every history; the save time becomes `now` |
| RateLimiter.Limiter.SetLimit | tools/security/rate_limiter.py:310-337 | the action's configuration becomes its updated limit; nothing else changes |
| RateLimiter.AllowedStaysWithinLimit | tools/security/rate_limiter.py:246-259 | an allowed call leaves at most `limit` times in the window ending at that call |
| RateLimiter.RecordedWithinLimit | tools/security/rate_limiter.py:225-259 | the bound survives the cleanup that recording may trigger |
| ReputationProtection.Hits | tools/security/reputation_protection.py:229-254 | a table yields at most one finding per category |
| ReputationProtection.HitsMembers | tools/security/reputation_protection.py:229-254 | a table's findings are exactly those of its categories with a pattern found in the content |
| ReputationProtection.IssuesOf | tools/security/reputation_protection.py:233 | the issues are the findings' issues, position by position |
| ReputationProtection.SuggestionsOf | tools/security/reputation_protection.py:234 | the suggestions are the findings' suggestions, position by position |
| ReputationProtection.ScoresOf | tools/security/reputation_protection.py:235 | the risk scores are the findings' scores, position by position |
| ReputationProtection.IssuesOfAppend | tools/security/reputation_protection.py:229-268 | the issue list of later checks is appended after that of earlier ones |
| ReputationProtection.Verdict | tools/security/reputation_protection.py:280-292 | content is unsafe exactly at high risk, or at medium risk in strict mode |
| ReputationProtection.Check | tools/security/reputation_protection.py:214-301 | empty content is safe with no risk, issues or suggestions; the risk is none exactly when there is no issue; the verdict follows `Verdict`; suggestions are deduplicated; no modified content |
| ReputationProtection.RulesWellFormed | tools/security/reputation_protection.py:54-163 | the three rule tables have distinct category names and every controversial topic is high risk |
| ReputationProtection.TopicsWellFormed | tools/security/reputation_protection.py:54-91 | the controversial topics have distinct names and are all high risk |
| ReputationProtection.TosNamesDistinct | tools/security/reputation_protection.py:94-132 | the terms-of-service categories have distinct names |
| ReputationProtection.ClaimNamesDistinct | tools/security/reputation_protection.py:135-163 | the risky-claim categories have distinct names |
| ReputationProtection.HitsDistinct | tools/security/reputation_protection.py:229-254 | thanks to the `break` after the first matching pattern, a table with distinct names reports each category at most once |
| ReputationProtection.HitsNone | tools/security/reputation_protection.py:229-254 | a table none of whose categories matches reports nothing |
| ReputationProtection.DistinctAppend | tools/security/reputation_protection.py:229-268 | joining two duplicate-free finding lists with no issue in common keeps them duplicate-free |
| ReputationProtection.IssuesDistinct | tools/security/reputation_protection.py:214-268 | with well-formed tables no issue is reported twice |
| ReputationProtection.SameNameSameCategory | tools/security/reputation_protection.py:54-163 | in a table with distinct names a name identifies its category |
| ReputationProtection.IssuesSplit | tools/security/reputation_protection.py:227-268 | the issues of non-empty content are those of the three tables, then spam, then length, in that order |
| ReputationProtection.HitsGroup | tools/security/reputation_protection.py:233 | each issue a table yields is labelled with that table's kind |
| ReputationProtection.HitsFlag | tools/security/reputation_protection.py:229-236 | in a table with distinct names, a category's issue is yielded exactly when one of its patterns is found |
| ReputationProtection.TableIssues | tools/security/reputation_protection.py:229-254 | a labelled issue comes from the table its label names and from no other |
| ReputationProtection.FlaggedMeaning | tools/security/reputation_protection.py:214-254 | a category's issue is reported exactly when the content is non-empty and one of its patterns is found |
| ReputationProtection.SpamIssueMeaning | tools/security/reputation_protection.py:264-269 | the spam issue is reported exactly when non-empty content matches at least two spam indicators |
| ReputationProtection.LengthIssuesMeaning | tools/security/reputation_protection.py:271-279 | "too short" exactly for 1 to 9 characters, "very long" exactly above 2000 |
| ReputationProtection.Unflagged | tools/security/reputation_protection.py:227-271 | an unlabelled issue comes from the spam or length checks, not from a table |
| ReputationProtection.HitsAreFlagged | tools/security/reputation_protection.py:229-254 | every table issue carries a label |
| ReputationProtection.SuggestionsMeaning | tools/security/reputation_protection.py:227-298 | a suggestion is reported exactly when some finding for the content carries it |
| ReputationProtection.ControversialIsUnsafe | tools/security/reputation_protection.py:229-284 | a matching controversial topic makes content high risk and unsafe in either mode |
| ReputationProtection.QuietContent | tools/security/reputation_protection.py:274-292 | content with no category matched and fewer than two spam indicators is safe, with no risk exactly at ordinary length |
| ReputationProtection.StrictModeOnlyTightens | tools/security/reputation_protection.py:173-292 | strict mode reports the same issues and risk and only refuses more, exactly at medium risk |
| ReputationProtection.Numbered | tools/security/reputation_protection.py:318-320 | `zip` stops at the shorter list, and each pair gives two lines |
| ReputationProtection.Improvements | tools/security/reputation_protection.py:312-324 | the safe message exactly for a safe result; otherwise the text starts with the header |
| ReputationProtection.SuggestImprovements | tools/security/reputation_protection.py:303-324 | the safe message exactly when the check passes, and otherwise the numbered improvements under the header |
| ReputationProtection.JoinStartsWithFirst | tools/security/reputation_protection.py:324 | a non-empty join starts with its first part |
| Scanner.CategoryHits | tools/moltbook_cli/scanner.py:240-247 | the hits of one category all carry its name and score, and there is one exactly when some pattern of the category matches |
| Scanner.PatternHits | tools/moltbook_cli/scanner.py:239-247 | every hit comes from a table category that matched, with that category's score (3/2/1) |
| Scanner.PatternHitsComplete | tools/moltbook_cli/scanner.py:239-247 | every category that matched contributes a hit with its name and score |
| Scanner.KnownAttacks | tools/moltbook_cli/scanner.py:209-215 | an attack is reported exactly when it is listed and occurs in the text, ignoring ASCII case |
| Scanner.CheckRuns | tools/moltbook_cli/scanner.py:191-207 | a base64 report is given exactly when some long run decodes to a text a table pattern matches |
| Scanner.Advice | tools/moltbook_cli/scanner.py:295-308 | per-category advice is empty exactly when none of the advised categories was detected |
| Scanner.Recommendations | tools/moltbook_cli/scanner.py:288-314 | recommendations are never empty, lead with "DO NOT process this content" at high risk, and are the single "appears safe" line when nothing advised was detected below high risk |
| Scanner.ScanWith | tools/moltbook_cli/scanner.py:217-286 | empty text gives the clean result; attack types are distinct; at most 10 matched patterns; never critical; suspicious exactly at high or medium, or at low in strict mode; level none exactly when no attack type; non-empty text always gets recommendations |
| Scanner.HitsHigh | tools/moltbook_cli/scanner.py:239-247 | with no critical category, some pattern hit scores 3 exactly when a high-risk category matched |
| Scanner.ScanHigh | tools/moltbook_cli/scanner.py:239-270 | a non-empty text is "high" exactly when a high-risk category matched, a known attack occurs, or a base64 run hides a pattern |
| Scanner.PatternRisks | tools/moltbook_cli/scanner.py:39-159 | the pattern table uses only the high, medium and low risks |
| Scanner.KnownAttackIsHigh | tools/moltbook_cli/scanner.py:249-254 | any known attack, in any letter case, makes a non-empty text high risk, suspicious and tagged "known_attack" |
| Scanner.HiddenBase64IsHigh | tools/moltbook_cli/scanner.py:256-261 | a base64 run hiding a table pattern makes a non-empty text high risk and tagged "encoded_payload" |
| Scanner.EncodedPatternHidden | tools/moltbook_cli/scanner.py:194-205 | an encoding followed by more text in one run still hides a table pattern when the lenient decoding holds one: the encoded text for a padded encoding, the encoded text with what the rest decodes to otherwise |
| Scanner.LowOnlyFollowsStrictMode | tools/moltbook_cli/scanner.py:273-278 | with only low-risk findings the level is low in both modes and the text is suspicious only in strict mode |
| Scanner.DeleteZeroWidth | tools/moltbook_cli/scanner.py:327 | the result keeps only characters of the text and none of U+200B, U+200C, U+200D, U+FEFF; a text without them is unchanged |
| Scanner.StripComments | tools/moltbook_cli/scanner.py:330 | comment removal only deletes characters |
| Scanner.MatchStarter | tools/moltbook_cli/scanner.py:333-334 | a match of the injection-starter pattern has positive length within the text, and its replacement is built from the matched text and the "[BLOCKED: ]" characters |
| Scanner.DefendRemovesZeroWidth | tools/moltbook_cli/scanner.py:316-341 | `defend` output contains no zero-width character |
| Scanner.StripCommentsUnchanged | tools/moltbook_cli/scanner.py:330 | a text without "<!--" passes the comment removal unchanged |
| Scanner.BlockStartersPrefix | tools/moltbook_cli/scanner.py:333-334 | the starter substitution copies a prefix in which no match begins |
| Scanner.DefendUnchanged | tools/moltbook_cli/scanner.py:316-341 | a text with no zero-width character, no "<!--", no starter and no known attack comes back unchanged |
| Scanner.CommentDeleted | tools/moltbook_cli/scanner.py:330 | a comment is deleted whole, up to the first "-->" after its opener (non-greedy, across lines) |
| Scanner.IgnorePreviousMatches | tools/moltbook_cli/scanner.py:333-334 | "ignore previous" at the front is one 15-character match replaced by "[BLOCKED: ignore previous]" |
| Scanner.DefendOnce | tools/moltbook_cli/scanner.py:316-341 | `defend("ignore previous")` is "[BLOCKED: ignore previous]" |
| Scanner.DefendTwice | tools/moltbook_cli/scanner.py:316-341 | the blocked text is blocked again, wrapped in a second "[BLOCKED: ...]" |
| Scanner.DefendNotIdempotent | tools/moltbook_cli/scanner.py:316-341 | `defend` is not idempotent |
| Scanner.LowerInstInert | tools/moltbook_cli/scanner.py:316-341 | "[inst]" holds nothing any pass of `defend` matches |
| Scanner.DefendIsCaseSensitive | tools/moltbook_cli/scanner.py:209-215 | "[inst]" is reported as the known attack "[INST]" but passes through `defend` untouched, since detection ignores case and replacement does not |
| Secrets.EnvironmentKeysMeaning | tools/security/secrets_manager.py:96-100 | the environment lists exactly its variables whose upper-cased name contains KEY, SECRET, TOKEN, PASSWORD or CREDENTIAL |
| Secrets.LocalDeleteMeaning | tools/security/secrets_manager.py:254-259 | the local provider deletes only a key it holds, and reports success exactly when saving succeeds |
| Secrets.StoreSetThenGet | tools/security/secrets_manager.py:82-433 | a provider that took a `set` answers `get` with the new value, and one that reported success always does |
| Secrets.StoreDeleteThenGet | tools/security/secrets_manager.py:82-447 | after `delete(key)` no provider answers `get(key)` with a value |
| Secrets.Provider.constructor | tools/security/secrets_manager.py:115-128 | a provider starts with its kind and its secrets |
| Secrets.Provider.Get | tools/security/secrets_manager.py:82-408 | the method answers as the provider's `get` does: the value, `None`, or the client error |
| Secrets.Provider.Set | tools/security/secrets_manager.py:85-433 | the provider's secrets and answer become those of its `set`, including the local save failure after the assignment |
| Secrets.Provider.Delete | tools/security/secrets_manager.py:90-447 | the provider's secrets and answer become those of its `delete` |
| Secrets.Provider.ListKeys | tools/security/secrets_manager.py:96-464 | the method lists the names its provider's `list_keys` does |
| Secrets.LookupFirst | tools/security/secrets_manager.py:529-539 | the provider loop returns the value of the first provider that answers with one |
| Secrets.LookupNone | tools/security/secrets_manager.py:529-539 | the loop finds nothing exactly when no provider answers with a value |
| Secrets.SetFromAdvance | tools/security/secrets_manager.py:569-578 | a provider whose `set` does not return true (or raises) is passed over, keeping what it did |
| Secrets.SetFromStop | tools/security/secrets_manager.py:569-578 | the loop stops at the first provider whose `set` returns true, leaving later providers alone |
| Secrets.SetSplice | tools/security/secrets_manager.py:569-578 | updating one provider in the list is the list with that provider replaced |
| Secrets.SetFromMeaning | tools/security/secrets_manager.py:569-580 | an unnamed `set` succeeds exactly when some provider's `set` returns true |
| Secrets.SetFromStopsAtFirst | tools/security/secrets_manager.py:569-578 | only the providers up to the first successful one are written |
| Secrets.SetFromThenLookup | tools/security/secrets_manager.py:569-578 | after a successful unnamed `set`, the provider loop of `get` finds the new value |
| Secrets.DeletedUpTo | tools/security/secrets_manager.py:592-598 | deleting from the first providers keeps the number of providers |
| Secrets.DeletedAll | tools/security/secrets_manager.py:592-598 | `delete` asks every provider and keeps the number of providers |
| Secrets.AnyDeletedUpToMeaning | tools/security/secrets_manager.py:592-598 | `deleted` is set after the first providers exactly when one of them returned true |
| Secrets.AnyDeletedMeaning | tools/security/secrets_manager.py:582-603 | `delete` reports success exactly when some provider's `delete` returned true |
| Secrets.DeleteStep | tools/security/secrets_manager.py:592-598 | one turn of the delete loop extends the state and the flag by one provider |
| Secrets.DeletedAllThenLookup | tools/security/secrets_manager.py:582-603 | after `delete` no provider answers with a value for the key |
| Secrets.AllKeysMeaning | tools/security/secrets_manager.py:605-613 | the key set is exactly the union of the lists of the providers that do not raise |
| Secrets.FirstNamed | tools/security/secrets_manager.py:562-565 | the search finds the first provider with the given name, or reports that none has it |
| Secrets.CachedGetIgnoresProviders | tools/security/secrets_manager.py:526-527 | with caching on, a cached key is answered from the cache whatever the providers hold |
| Secrets.GetFindsFirst | tools/security/secrets_manager.py:529-539 | an uncached `get` returns the first provider's value and caches it when caching is on |
| Secrets.GetMissing | tools/security/secrets_manager.py:541-546 | when nothing is cached or found, `get` raises if required and otherwise returns the default, changing nothing |
| Secrets.SetCachesFirst | tools/security/secrets_manager.py:558-560 | with caching on, `set` caches the value first, even when it then raises |
| Secrets.UnknownProviderRaises | tools/security/secrets_manager.py:562-566 | a provider name that no provider has raises "Provider not found" and leaves every provider as it was |
| Secrets.NamedSetTouchesOne | tools/security/secrets_manager.py:562-565 | a named `set` writes to the first provider of that name only and returns its answer |
| Secrets.UnnamedSetMeaning | tools/security/secrets_manager.py:568-580 | an unnamed `set` never raises and succeeds exactly when some provider's `set` returns true |
| Secrets.SetThenGet | tools/security/secrets_manager.py:515-580 | after an unnamed `set` that succeeded, or any `set` with caching on, `get` returns the new value |
| Secrets.NamedSetShadowed | tools/security/secrets_manager.py:515-566 | a successful named `set` to a later provider is hidden from an uncached `get` by an earlier provider holding the key |
| Secrets.DeleteThenGet | tools/security/secrets_manager.py:515-603 | after `delete`, `get` finds nothing: it raises if required and otherwise gives the default |
| Secrets.DefaultChain | tools/security/secrets_manager.py:496-508 | the default chain is local, then AWS and Vault when available (AWS first), then the environment |
| Secrets.SecretsManager.constructor | tools/security/secrets_manager.py:487-513 | given providers are used, an empty list means the default chain; the cache starts empty |
| Secrets.SecretsManager.Get | tools/security/secrets_manager.py:515-546 | the method's result and new state are those of `GetSpec` |
| Secrets.SecretsManager.Find | tools/security/secrets_manager.py:529-539 | the provider loop returns the first value any provider answers with |
| Secrets.SecretsManager.Set | tools/security/secrets_manager.py:548-580 | the method's result and new state are those of `SetSpec` |
| Secrets.SecretsManager.SetNamed | tools/security/secrets_manager.py:562-566 | the named branch writes the first provider of that name, or raises |
| Secrets.SecretsManager.SetAt | tools/security/secrets_manager.py:564-572 | one provider's `set`, with every other provider unchanged |
| Secrets.SecretsManager.SetFirstWritable | tools/security/secrets_manager.py:568-580 | the unnamed loop's new providers and answer are those of `SetFrom` |
| Secrets.SecretsManager.Delete | tools/security/secrets_manager.py:582-603 | the method's result and new state are those of `DeleteSpec` |
| Secrets.SecretsManager.DeleteAt | tools/security/secrets_manager.py:596 | one provider's `delete`, with every other provider unchanged |
| Secrets.SecretsManager.DeleteEverywhere | tools/security/secrets_manager.py:592-603 | every provider is asked to delete, and the flag says whether one returned true |
| Secrets.SecretsManager.ListKeys | tools/security/secrets_manager.py:605-613 | the list holds each key of the union exactly once, in sorted order |
| Secrets.SecretsManager.CollectKeys | tools/security/secrets_manager.py:607-612 | the loop collects exactly the union of the providers' lists |
| Secrets.SecretsManager.ClearCache | tools/security/secrets_manager.py:615-617 | the cache becomes empty |
| Secrets.SortedKeys | tools/security/secrets_manager.py:613 | `sorted(keys)` lists each key exactly once, in order |
| Base64.ValueOf | tools/security/exfiltration_prevention.py:287 | every alphabet character has a 6-bit value, and anything else gives -1 |
| Base64.ValueOfCharOf | tools/security/exfiltration_prevention.py:287 | the alphabet character for a 6-bit value reads back as that value and is never "=" |
| Base64.Encode | tools/security/exfiltration_prevention.py:287 | an encoding comes in groups of four characters |
| Base64.FirstStep | tools/security/exfiltration_prevention.py:287 | the decoder holds back the first character of a group |
| Base64.SecondStep | tools/security/exfiltration_prevention.py:287 | the second character of a group completes its first byte |
| Base64.ThirdStep | tools/security/exfiltration_prevention.py:287 | the third character of a group completes its second byte |
| Base64.FourthStep | tools/security/exfiltration_prevention.py:287 | the fourth character of a group completes its third byte |
| Base64.PadStep | tools/security/exfiltration_prevention.py:287 | an "=" after two or three characters of a group ends the decoding or is counted, and elsewhere is skipped |
| Base64.QuadThen | tools/security/exfiltration_prevention.py:287 | four data characters decode to their three bytes and leave the decoder at a group start |
| Base64.PrependThree | tools/security/exfiltration_prevention.py:287 | three bytes put in front one at a time are the three put in front at once |
| Base64.BlockValues | tools/security/exfiltration_prevention.py:287 | the values of the four characters encoding three bytes give those bytes back |
| Base64.GroupThen | tools/security/exfiltration_prevention.py:287 | an encoded group of three bytes decodes to them and leaves the decoder at a group start |
| Base64.OneByteThen | tools/security/exfiltration_prevention.py:287 | a final group holding one byte decodes to it, ending at its second "=" |
| Base64.TwoBytesTail | tools/security/exfiltration_prevention.py:287 | the last two characters of a group ending in one "=" complete its second byte |
| Base64.TwoBytesThen | tools/security/exfiltration_prevention.py:287 | a final group holding two bytes decodes to them, ending at its "=" |
| Base64.TwoByteValues | tools/security/exfiltration_prevention.py:287 | the values of the three characters encoding two bytes give those bytes back |
| Base64.EncodeThen | tools/security/exfiltration_prevention.py:287 | a padded encoding decodes to its bytes whatever follows, and an unpadded one to its bytes followed by the decoding of what follows |
| Base64.ThenNothing | tools/security/exfiltration_prevention.py:287 | adding no bytes changes nothing |
| Base64.EncodeGroupThen | tools/security/exfiltration_prevention.py:287 | the step of `EncodeThen` over a leading group of three bytes |
| Base64.ModThree | tools/security/exfiltration_prevention.py:287 | three more bytes leave the remainder modulo 3 unchanged |
| Base64.ThenThen | tools/security/exfiltration_prevention.py:287 | adding bytes in two steps is adding them at once |
| Base64.EncodeAscii | tools/security/exfiltration_prevention.py:287 | every character of an encoding is ASCII |
| Base64.DecodeEncode | tools/security/exfiltration_prevention.py:287 | decoding what was encoded gives the bytes back |
| Base64.DecodeEncodeThen | tools/security/exfiltration_prevention.py:287 | trailing text does not hide an encoding: it is ignored after a padded one, and after an unpadded one its groups add their bytes |
| Base64.AsciiConcat | tools/security/exfiltration_prevention.py:287 | two ASCII texts together are ASCII |
| Base64.LonePad | tools/security/exfiltration_prevention.py:287 | a lone "=" and the empty text decode to nothing |
| Base64.AsciiText | tools/security/exfiltration_prevention.py:287 | the text of some bytes is never longer than they are |
| Base64.HexValue | tools/security/exfiltration_prevention.py:291 | a hexadecimal digit's value lies in 0..15, and anything else gives -1 |
| Base64.Unhexlify | tools/security/exfiltration_prevention.py:291 | a decoded hex string gives one byte per two digits |
| Rounding.Scale | tools/agent/llm.py:212 | the scale of a number of digits is at least one |
| Rounding.NearestMeaning | tools/agent/llm.py:212 | the nearest integer is at most one half away, and no integer is nearer |
| Rounding.NearestTieEven | tools/agent/llm.py:212 | of two equally near integers the even one is taken |
| Rounding.NearestWhole | tools/agent/llm.py:212 | an integer is its own nearest integer |
| Rounding.DivMul | tools/agent/llm.py:212 | dividing and multiplying by the same non-zero number cancel |
| Rounding.RoundMeaning | tools/agent/llm.py:212 | `round(x, 4)` is a whole number of units of 10^-4, at most half a unit from `x`, and no whole number of units is nearer |
| Rounding.RoundIdempotent | tools/agent/llm.py:212 | rounding twice is rounding once |
| Scoring.ParseRisk | tools/security/credential_monitor.py:191-203 | a parsed level is the one its name names |
| Scoring.ParseName | tools/security/credential_monitor.py:191-203 | every level's name parses back to it |
| Scoring.MaxRisk | tools/security/credential_monitor.py:191-203 | the higher level is one of the two and no lower than either |
| Scoring.Banded | tools/security/submolt_safety.py:245-266 | high from 0.7, medium from 0.4, low from 0.2 and none below, never critical |
| Scoring.BandedMonotone | tools/security/submolt_safety.py:245-266 | a higher score never gives a lower band |
| Scoring.Max | tools/security/output_scanner.py:208-211 | `max(xs)` is an element no smaller than any other |
| Scoring.SomeAtLeastAppend | tools/security/output_scanner.py:206-218 | two lists together hold a score reaching a threshold exactly when one of them does |
| Scoring.Level3 | tools/security/output_scanner.py:206-218 | none exactly without scores; high exactly when a score reaches 3, medium when one reaches 2 but none 3, low otherwise |
| Scoring.Level4 | tools/security/exfiltration_prevention.py:245-254 | as the three-level rule, with critical exactly when a score reaches 4 |
| Sorting.Insert | tools/cost_calculator/__init__.py:231 | inserting into a sorted list keeps it sorted and adds exactly the one element |
| Sorting.Sort | tools/cost_calculator/__init__.py:231 | the result is sorted and a permutation of the input |
| Sorting.LexLeTotal | tools/security/secrets_manager.py:613 | any two strings are ordered one way or the other |
| Sorting.LexLeTransitive | tools/security/secrets_manager.py:613 | string order is transitive |
| Sorting.LexLeAntisymmetric | tools/security/secrets_manager.py:613 | two strings ordered both ways are equal |
| Sorting.LexOrder | tools/security/secrets_manager.py:613 | string order is a total preorder |
| Sorting.SortStrings | tools/security/secrets_manager.py:613 | `sorted(names)` is an ordered permutation of the names |
| Regex.ReportedAll | tools/security/output_scanner.py:190-197 | one reported text per match |
| Regex.CountSearch | tools/security/reputation_protection.py:257 | at most one count per pattern, and none exactly when no pattern matches |
| Regex.FirstSearch | tools/security/submolt_safety.py:182-186 | the first pattern that matches, or none exactly when no pattern matches |
| Regex.SubEachNoMatch | tools/security/error_sanitizer.py:190-193 | a text no pattern matches passes through the substitutions unchanged |
| Strings.FindIsFirst | tools/security/context_isolator.py:220-221 | `find` gives the first occurrence, or -1 exactly when there is none |
| Strings.CountZero | tools/security/error_sanitizer.py:209 | `count` is zero exactly when the text does not occur |
| Strings.CountBound | tools/security/error_sanitizer.py:209 | non-overlapping occurrences fit in the text |
| Strings.StripLeft | tools/security/submolt_safety.py:163 | stripping the left keeps a suffix that starts with no whitespace |
| Strings.StripRight | tools/security/submolt_safety.py:163 | stripping the right keeps a prefix that ends with no whitespace |
| Strings.DeleteShortens | tools/security/submolt_safety.py:163 | deleting a non-empty pattern never lengthens the text, and shortens it when the pattern occurs |
| Strings.ReplaceAllAbsent | tools/security/submolt_safety.py:163 | replacing a pattern that does not occur changes nothing |
| Strings.NormalizeIdempotent | tools/security/content_provenance.py:148 | lowering and collapsing whitespace twice is doing it once |
| Strings.WordsOfJoin | tools/security/content_provenance.py:148 | splitting words joined by single spaces gives the words back |
| Strings.DigitsValueOfNatToString | tools/security/financial_safety.py:340 | the decimal text of a number reads back as that number |
| Strings.Dedup | tools/security/reputation_protection.py:298 | the deduplicated list holds exactly the same elements, each once |
| Strings.ReverseInvolution | tools/security/exfiltration_prevention.py:294 | reversing twice gives the text back |
| Strings.SplitOnce | tools/security/link_safety.py:141 | splitting once at a separator gives the text before its first occurrence and the rest |
| Strings.JoinSplitOn | tools/security/skill_verifier.py:233 | joining the pieces of a split with the separator gives the text back |
| SkillVerifier.EscapeRe | tools/security/skill_verifier.py:192 | escaping never shortens a function name |
| SkillVerifier.UnescapeEscape | tools/security/skill_verifier.py:192 | the escaped pattern text reads back as exactly the function name, so the custom pattern matches the name literally |
| SkillVerifier.IndexOf | tools/security/skill_verifier.py:190 | the position of the category with a given name, or the end when there is none |
| SkillVerifier.Put | tools/security/skill_verifier.py:190-194 | a dictionary assignment holds the new category, keeps every category of another name, and adds nothing else |
| SkillVerifier.WithCustomCovers | tools/security/skill_verifier.py:188-195 | every blocked function gets its `custom_` category, and nothing else is added |
| SkillVerifier.SharedPatterns.constructor | tools/security/skill_verifier.py:86-155 | the class-level table starts as the built-in dangerous patterns |
| SkillVerifier.NewVerifier | tools/security/skill_verifier.py:166-195 | as written: the blocked functions are added to the table shared by every verifier, and the verifier compiles the whole shared table |
| SkillVerifier.NewVerifierIsolated | tools/security/skill_verifier.py:166-195 | corrected: the verifier compiles the shared table with its own custom categories added, and the shared table is left alone |
| SkillVerifier.LeakScenario | tools/security/skill_verifier.py:166-195 | as written, a verifier built with no blocked function after one that blocked `f` still blocks `f` |
| SkillVerifier.IsolatedScenario | tools/security/skill_verifier.py:166-195 | corrected, the second verifier compiles exactly the built-in table |
| SkillVerifier.LineEntryMeaning | tools/security/skill_verifier.py:233-243 | a stripped line contributes exactly when it holds a colon; the key is the lowered, stripped text before the first colon and the value the stripped rest |
| SkillVerifier.Entries | tools/security/skill_verifier.py:233-243 | one possible entry per line, in order |
| SkillVerifier.ParseManifest | tools/security/skill_verifier.py:228-243 | the parsing loop builds the manifest dictionary the fold of the line entries describes |
| SkillVerifier.FoldStep | tools/security/skill_verifier.py:239-243 | one more entry overwrites its key, and a line without a colon changes nothing |
| SkillVerifier.FoldKeys | tools/security/skill_verifier.py:239-243 | a key is in the dictionary exactly when some entry has that key |
| SkillVerifier.FoldLastWins | tools/security/skill_verifier.py:239-243 | a key's value is the one of its last entry |
| SkillVerifier.LinesKeys | tools/security/skill_verifier.py:233-243 | a key is in the dictionary of some lines exactly when one of them has that key |
| SkillVerifier.ManifestKeys | tools/security/skill_verifier.py:228-243 | a key is in the manifest exactly when some line of SKILL.md has that key |
| SkillVerifier.ManifestLastWins | tools/security/skill_verifier.py:228-243 | the value of a key in the manifest is that of the last line of SKILL.md with that key |
| SkillVerifier.MissingFields | tools/security/skill_verifier.py:248-251 | no error exactly when name, version and description are all present |
| SkillVerifier.VerifyManifest | tools/security/skill_verifier.py:207-261 | valid exactly when there is no error; a missing manifest is valid exactly when none is required; an unreadable one is invalid with no data; a readable one holds its parsed data and the missing-field errors |
| SkillVerifier.ManifestFieldsMeaning | tools/security/skill_verifier.py:207-261 | a readable manifest is valid exactly when each of the three required fields is the key of some line |
| SkillVerifier.LineHits | tools/security/skill_verifier.py:281-290 | every finding of a pattern carries its category's name and severity |
| SkillVerifier.CategoryHits | tools/security/skill_verifier.py:279-290 | every finding of a category carries its name and severity |
| SkillVerifier.ImportHits | tools/security/skill_verifier.py:293-317 | every import finding is high severity and named `blocked_import` |
| SkillVerifier.NameHits | tools/security/skill_verifier.py:299-308 | every finding of an `import` statement is high severity and named `blocked_import` |
| SkillVerifier.LineFound | tools/security/skill_verifier.py:263-330 | a pattern found on a line of a readable file yields a finding with its category's name and severity |
| SkillVerifier.LineHitsFinds | tools/security/skill_verifier.py:281-290 | a line where the pattern is found yields a finding |
| SkillVerifier.CategoryHitsHas | tools/security/skill_verifier.py:280 | the findings of each pattern are among the category's |
| SkillVerifier.TableHitsHas | tools/security/skill_verifier.py:279 | the findings of each category are among the table's |
| SkillVerifier.ScanHas | tools/security/skill_verifier.py:274 | the findings of each file are among the scan's |
| SkillVerifier.RiskScore | tools/security/skill_verifier.py:374-375 | the risk score is never negative |
| SkillVerifier.Criticals | tools/security/skill_verifier.py:428 | exactly the critical findings |
| SkillVerifier.RiskScoreCounts | tools/security/skill_verifier.py:374-375 | the score is at least 5 per critical finding and 0.5 per finding |
| SkillVerifier.RiskScoreAppend | tools/security/skill_verifier.py:375 | the score of two lists of findings together is the sum of their scores |
| SkillVerifier.VerifySignature | tools/security/skill_verifier.py:332-352 | the signature check fails exactly when SKILL.sig is missing and a signature is required |
| SkillVerifier.Permissions | tools/security/skill_verifier.py:380-383 | no permissions without a "permissions" key; otherwise its value split at commas, each part stripped |
| SkillVerifier.Verify | tools/security/skill_verifier.py:354-414 | verified exactly when the manifest passes or is optional, the signature passes or is optional, the score is within the limit and nothing critical is found; the findings are the scan's |
| SkillVerifier.RecommendationsMeaning | tools/security/skill_verifier.py:385-394 | the manifest recommendation appears exactly for an invalid manifest, the score one exactly for a score over the limit |
| SkillVerifier.QuickScan | tools/security/skill_verifier.py:416-437 | safe exactly when nothing critical is found, with one issue per critical finding |
| SkillVerifier.VerifiedPassesQuickScan | tools/security/skill_verifier.py:396-437 | a verified skill passes the quick scan |
| SkillVerifier.CriticalLineBlocks | tools/security/skill_verifier.py:263-437 | a line matching a critical category blocks the skill and fails the quick scan, whatever else holds |
| SkillVerifier.ScoreLimitMeaning | tools/security/skill_verifier.py:170-375 | under the default limit of 5.0, two critical findings or eleven of any kind exceed the score |
| SocialEngineering.Detected | tools/security/social_engineering.py:289-297 | the techniques found are listed in table order, each once, and a technique is listed exactly when one of its patterns is found in the message |
| SocialEngineering.NamesOf | tools/security/social_engineering.py:294 | one technique name per detected technique |
| SocialEngineering.WeightsOf | tools/security/social_engineering.py:295-297 | one risk weight per detected technique |
| SocialEngineering.RecentOf | tools/security/social_engineering.py:349-350 | the recent messages are messages of the author less than a day old |
| SocialEngineering.CountFlattery | tools/security/social_engineering.py:353 | no more flattering messages than messages |
| SocialEngineering.CountDeclines | tools/security/social_engineering.py:358-362 | no more declines than messages, and none when no message carries a reply |
| SocialEngineering.CountQuestions | tools/security/social_engineering.py:367 | no more questions than messages |
| SocialEngineering.LastFive | tools/security/social_engineering.py:360 | `recent[-5:]` is the last at most five messages |
| SocialEngineering.Behavior | tools/security/social_engineering.py:341-370 | at most three behavioural flags, and none for an author with no history |
| SocialEngineering.FlagList | tools/security/social_engineering.py:353-368 | at most three flags, and "persistence" only after at least two declines followed by more messages |
| SocialEngineering.PersistenceNeverRaised | tools/security/social_engineering.py:358-379 | as written: no recorded message carries a reply, so "persistence" is never raised |
| SocialEngineering.MemoWithResponse | tools/security/social_engineering.py:372-379 | corrected: the recorded entry of `Memo`, with the agent's reply kept |
| SocialEngineering.PersistenceRaisedWithResponses | tools/security/social_engineering.py:357-363 | corrected: with replies kept, two declined requests and a third message within the day raise "persistence" |
| SocialEngineering.RecentNow | tools/security/social_engineering.py:349-350 | messages stamped `now` are all recent at `now` |
| SocialEngineering.DeclinedNo | tools/security/social_engineering.py:358-361 | the reply "no" counts as a decline |
| SocialEngineering.MaxOf | tools/security/social_engineering.py:309 | `max(risk_scores)` is an element no smaller than any other |
| SocialEngineering.Verdict | tools/security/social_engineering.py:302-322 | no risk exactly when nothing was found; manipulation exactly at high or medium risk, or at low risk with more than one technique |
| SocialEngineering.HighRiskFromDistrustedIsHigh | tools/security/social_engineering.py:302-314 | with trust at most 0.5, one high-risk finding makes the verdict high manipulation |
| SocialEngineering.ScaleUp | tools/security/social_engineering.py:309-310 | a weight of at least 3 scaled by a modifier of at least 1 stays at least 3 |
| SocialEngineering.TrustedSingleFindingIsLow | tools/security/social_engineering.py:302-322 | a fully trusted author's single finding, even a high-risk one, is low risk and not manipulation |
| SocialEngineering.VerdictAntitone | tools/security/social_engineering.py:302-322 | raising the trust never raises the risk level |
| SocialEngineering.Advise | tools/security/social_engineering.py:430-456 | without the fallback, "appears normal" is never advised |
| SocialEngineering.Recommendations | tools/security/social_engineering.py:430-459 | the recommendations are never empty |
| SocialEngineering.RecommendationsNormal | tools/security/social_engineering.py:430-459 | "appears normal" is advised, alone, exactly at none or low risk with no authority, secrecy or urgency technique and trust at least 0.3 |
| SocialEngineering.RecommendationsForRisk | tools/security/social_engineering.py:435-446 | high risk advises extreme caution first, and an authority claim always asks for verification |
| SocialEngineering.AddFlags | tools/security/social_engineering.py:406-408 | the merged flags are the old ones and the new ones, without repeats |
| SocialEngineering.Rewarded | tools/security/social_engineering.py:396-399 | a positive interaction counts once more, never lowers a valid score, and caps it at 1.0 |
| SocialEngineering.Penalized | tools/security/social_engineering.py:400-403 | a negative interaction counts once more, never raises a valid score, and floors it at 0.0 |
| SocialEngineering.RewardedTimesScore | tools/security/social_engineering.py:396-399 | `n` positive interactions add 0.02 each, up to the cap |
| SocialEngineering.FiveToRecover | tools/security/social_engineering.py:396-403 | one negative interaction takes five positive ones to undo, when no bound is hit |
| SocialEngineering.Flagged | tools/security/social_engineering.py:414-420 | the reason is appended and the score drops by 0.2, floored at 0.0 |
| SocialEngineering.Blocked | tools/security/social_engineering.py:422-428 | the score becomes 0.0 and "BLOCKED: reason" is appended |
| SocialEngineering.BlockedIsBlocked | tools/security/social_engineering.py:422-464 | a blocked agent is listed as blocked |
| SocialEngineering.BlockedNames | tools/security/social_engineering.py:461-464 | exactly the agents with a zero score or a "BLOCKED" flag |
| SocialEngineering.Remember | tools/security/social_engineering.py:374-383 | the new entry is last, nothing else is added, and at most the last 100 entries are kept |
| SocialEngineering.UpdatesKeepTrustValid | tools/security/social_engineering.py:385-428 | each positive or negative interaction, flag and block keeps the score within 0.0 .. 1.0 and the counts consistent |
| SocialEngineering.RecordsUpdate | tools/security/social_engineering.py:257-428 | replacing a known agent's record by a valid one keeps the records valid |
| SocialEngineering.RecordsAdd | tools/security/social_engineering.py:257-271 | adding a new agent's valid record keeps the records valid |
| SocialEngineering.Known | tools/security/social_engineering.py:257-271 | a known agent's record, or a new one at the default trust with no interactions or flags |
| SocialEngineering.Memo | tools/security/social_engineering.py:372-379 | the recorded content is a prefix of the message of at most 200 characters, with the techniques and no reply |
| SocialEngineering.Interacted | tools/security/social_engineering.py:385-412 | one more interaction, counted as positive or negative; new flags merged without repeats; a valid score stays valid |
| SocialEngineering.Analysis | tools/security/social_engineering.py:273-339 | the techniques are the table's detected ones, then the behavioural flags; no risk exactly when none; the manipulation verdict and recommendations follow the level and trust |
| SocialEngineering.AnalysisWithoutPersistence | tools/security/social_engineering.py:273-379 | as written, "persistence" is never among the findings over a history the defense recorded |
| SocialEngineering.CountWhere | tools/security/social_engineering.py:470-471 | no more low- or high-trust agents than agents |
| SocialEngineering.Defense.constructor | tools/security/social_engineering.py:187-207 | a defense with the given default trust, the built-in techniques, and no records or history |
| SocialEngineering.Defense.GetTrustScore | tools/security/social_engineering.py:257-271 | the record of `Known`; a new agent is added at the end of the order |
| SocialEngineering.Defense.RecordInternal | tools/security/social_engineering.py:372-383 | the author's history gains the memo of the message, keeping the last 100 |
| SocialEngineering.Defense.AnalyzeInteraction | tools/security/social_engineering.py:273-339 | the result is the analysis under the author's trust, after which the message and its findings are recorded; a new author is added at the end of the order |
| SocialEngineering.Defense.RecordInteraction | tools/security/social_engineering.py:385-412 | the author's record becomes its `Interacted` update; a new author is added at the end of the order |
| SocialEngineering.Defense.FlagAgent | tools/security/social_engineering.py:414-420 | the agent's record becomes its `Flagged` update; a new agent is added at the end of the order |
| SocialEngineering.Defense.BlockAgent | tools/security/social_engineering.py:422-428 | the agent's record becomes its `Blocked` update and it is listed as blocked; a new agent is added at the end of the order |
| SocialEngineering.Defense.GetBlockedAgents | tools/security/social_engineering.py:461-464 | exactly the agents with a zero score or a "BLOCKED" flag, in the order first seen |
| SocialEngineering.Defense.GetStats | tools/security/social_engineering.py:466-475 | the counts of tracked, blocked, low-trust and high-trust agents and of all flags |
| SubmoltSafety.LoweredByChars | tools/security/submolt_safety.py:161-163 | a string drawn from the characters of a lowered string is lowered |
| SubmoltSafety.NormalizeNameShape | tools/security/submolt_safety.py:161-163 | a normalized name is lowered and has no whitespace at either end |
| SubmoltSafety.StripKeepsLowered | tools/security/submolt_safety.py:163 | stripping keeps a string lowered and leaves no whitespace at either end |
| SubmoltSafety.NormalizeNameFixed | tools/security/submolt_safety.py:161-163 | a lowered, stripped name without "m/" is its own normal form |
| SubmoltSafety.NormalizeNameNotIdempotent | tools/security/submolt_safety.py:161-308 | as written: "mm//" normalizes to "m/" and then to "", so normalizing twice files a name under another key |
| SubmoltSafety.NormalizeOnce | tools/security/submolt_safety.py:163 | one pass over "mm//" deletes the inner "m/" and leaves "m/" |
| SubmoltSafety.NormalizeTwice | tools/security/submolt_safety.py:163 | normalizing "m/" gives the empty name |
| SubmoltSafety.DeleteMarkers | tools/security/submolt_safety.py:163 | corrected: deleting "m/" until none is left leaves no "m/" and adds no character |
| SubmoltSafety.NormalizeNameIntendedIdempotent | tools/security/submolt_safety.py:161-163 | corrected: the intended normalization is idempotent, so normalizing twice files a name once |
| SubmoltSafety.NormalizeNameIntendedShape | tools/security/submolt_safety.py:161-163 | corrected: an intended normal form is lowered, free of "m/" and stripped |
| SubmoltSafety.StripKeepsOut | tools/security/submolt_safety.py:163 | stripping cannot create an occurrence of a pattern |
| SubmoltSafety.NormalizeNameIntendedOfDoubleMarker | tools/security/submolt_safety.py:161-163 | corrected: "mm//" is filed under "" whether normalized once or twice |
| SubmoltSafety.DeleteOnce | tools/security/submolt_safety.py:163 | one deletion pass over "mm//" leaves "m/" |
| SubmoltSafety.DeleteMarkersOfMarker | tools/security/submolt_safety.py:163 | repeated deletion turns "m/" into "" |
| SubmoltSafety.StripFixed | tools/security/submolt_safety.py:163 | a string whose ends are not whitespace is its own strip |
| SubmoltSafety.PatternBonus | tools/security/submolt_safety.py:181-186 | 0.2 exactly when some risky name pattern matches, ignoring case, and otherwise 0 |
| SubmoltSafety.FirstPattern | tools/security/submolt_safety.py:182-186 | the first risky pattern found in the name, or none |
| SubmoltSafety.TopicBonus | tools/security/submolt_safety.py:188-192 | 0.1 exactly when some risky topic occurs in the name, and otherwise 0 |
| SubmoltSafety.InitialRisk | tools/security/submolt_safety.py:173-198 | the initial risk never exceeds 1.0 and is not negative for a non-negative base |
| SubmoltSafety.InitialRiskMeaning | tools/security/submolt_safety.py:173-198 | a known-safe name starts at 0.1; any other at the base plus the bonuses it earns, each at most once, capped at 1.0 |
| SubmoltSafety.InitialRiskBounds | tools/security/submolt_safety.py:176-198 | an unknown name starts between the base risk and the base plus 0.3, within the cap |
| SubmoltSafety.NewProfile | tools/security/submolt_safety.py:194-201 | a fresh profile at the initial risk, first seen now, with no attacks, safe interactions or flags |
| SubmoltSafety.NewProfileInBounds | tools/security/submolt_safety.py:194-201 | a new profile's risk is in bounds for a non-negative base |
| SubmoltSafety.Warnings | tools/security/submolt_safety.py:227-243 | a warning for an age under 7 days, for an attack rate over 0.3, and for flags, each exactly in its case |
| SubmoltSafety.Assess | tools/security/submolt_safety.py:245-270 | safe exactly below a risk of 0.4, that is at level none or low; the level is the risk's band |
| SubmoltSafety.BlockedResult | tools/security/submolt_safety.py:217-225 | a blocked submolt is high risk and unsafe with the one "blocked" warning, and carries a profile only if it has one |
| SubmoltSafety.PinnedIsHigh | tools/security/submolt_safety.py:245-307 | a profile pinned at 1.0 is always high and unsafe |
| SubmoltSafety.FreshProfileLevels | tools/security/submolt_safety.py:173-266 | a known-safe submolt starts at level none; a plain unknown name at 0.3 starts low, and one with both bonuses medium |
| SubmoltSafety.LastFlags | tools/security/submolt_safety.py:283 | `flags[-10:]` is the last at most ten flags |
| SubmoltSafety.Attacked | tools/security/submolt_safety.py:272-288 | one more attack, the risk raised by the increment up to 1.0, and the attack flag added to the last ten |
| SubmoltSafety.AttackedFlags | tools/security/submolt_safety.py:282-283 | after an attack there are at most ten flags, the new one last |
| SubmoltSafety.AttackedTimesRisk | tools/security/submolt_safety.py:272-288 | `n` attacks add `n` increments to the risk, up to 1.0 |
| SubmoltSafety.Calmed | tools/security/submolt_safety.py:290-300 | one more safe interaction and the risk lowered by 0.01, floored at 0 |
| SubmoltSafety.AttackedInBounds | tools/security/submolt_safety.py:272-288 | an attack keeps the risk in bounds |
| SubmoltSafety.CalmedInBounds | tools/security/submolt_safety.py:290-300 | a safe interaction keeps the risk in bounds |
| SubmoltSafety.CalmedTimesRisk | tools/security/submolt_safety.py:290-300 | `n` safe interactions take `n` times 0.01 off the risk, down to 0 |
| SubmoltSafety.UnblockedNeedsSixtyOne | tools/security/submolt_safety.py:245-318 | an unblocked submolt keeps its risk of 1.0 and needs 61 safe interactions, not 60, before it is safe again |
| SubmoltSafety.Pinned | tools/security/submolt_safety.py:305-307 | blocking pins the risk at 1.0 and adds a "BLOCKED" flag, changing nothing else |
| SubmoltSafety.WithProfile | tools/security/submolt_safety.py:165-201 | after the lookup the name has a profile |
| SubmoltSafety.WithName | tools/security/submolt_safety.py:194 | a new name goes last in the dictionary order, a known one leaves it alone |
| SubmoltSafety.SafeNames | tools/security/submolt_safety.py:320-326 | no more safe names than profiled names |
| SubmoltSafety.SafeNamesMeaning | tools/security/submolt_safety.py:320-326 | exactly the unblocked names whose risk is at most the bound |
| SubmoltSafety.RiskyNames | tools/security/submolt_safety.py:328-333 | exactly the names whose risk is at least the bound |
| SubmoltSafety.CountHigh | tools/security/submolt_safety.py:341 | no more high-risk names than names |
| SubmoltSafety.DistinctCard | tools/security/submolt_safety.py:338 | a list without repeats has as many elements as its set |
| SubmoltSafety.ConsistentAdd | tools/security/submolt_safety.py:194-201 | filing a fresh in-bounds profile under a new name keeps every profile under its own name |
| SubmoltSafety.ConsistentUpdate | tools/security/submolt_safety.py:272-312 | replacing a profile by one with the same name and an in-bounds risk keeps the invariant |
| SubmoltSafety.InvariantAt | tools/security/submolt_safety.py:165-201 | every profile is filed under its own name with an in-bounds risk |
| SubmoltSafety.Tracker.constructor | tools/security/submolt_safety.py:101-120 | a tracker with the given base risk and increment, no profiles and nothing blocked |
| SubmoltSafety.Tracker.Replace | tools/security/submolt_safety.py:272-312 | the profile under the name is replaced, nothing else changes |
| SubmoltSafety.Tracker.GetOrCreate | tools/security/submolt_safety.py:165-201 | the normalized name now has a profile, new ones created at the initial risk and added last |
| SubmoltSafety.Tracker.Add | tools/security/submolt_safety.py:194-201 | a new profile is filed after every name already profiled |
| SubmoltSafety.Tracker.CheckSubmolt | tools/security/submolt_safety.py:203-270 | a blocked name is refused without creating a profile; otherwise its profile, found by normalizing once more, is assessed; a safe verdict is never given to a blocked name |
| SubmoltSafety.Tracker.RecordAttack | tools/security/submolt_safety.py:272-288 | the submolt's profile becomes its `Attacked` update |
| SubmoltSafety.Tracker.RecordSafeInteraction | tools/security/submolt_safety.py:290-300 | the submolt's profile becomes its `Calmed` update |
| SubmoltSafety.Tracker.BlockSubmolt | tools/security/submolt_safety.py:302-312 | the normalized name is blocked and the profile found by normalizing once more is pinned at 1.0 |
| SubmoltSafety.Tracker.UnblockSubmolt | tools/security/submolt_safety.py:314-318 | only the block goes; the profiles are unchanged |
| SubmoltSafety.Tracker.GetSafeSubmolts | tools/security/submolt_safety.py:320-326 | the unblocked names at most `maxRisk` risky, in insertion order |
| SubmoltSafety.Tracker.GetRiskySubmolts | tools/security/submolt_safety.py:328-334 | the risky names in insertion order, then each blocked name exactly once |
| SubmoltSafety.Tracker.GetStats | tools/security/submolt_safety.py:336-345 | the counts of tracked, blocked and high-risk submolts, of attacks and of safe submolts, each bounded by the tracked count |
| Url.AfterScheme | tools/security/link_safety.py:140 | removing the scheme never lengthens the URL |
| Url.AuthorityLength | tools/security/link_safety.py:140 | the authority runs up to, and not including, the first '/', '?' or '#' |
| Url.Netloc | tools/security/link_safety.py:140-141 | the netloc holds no '/', '?' or '#' |
| Url.ExtractDomain | tools/security/link_safety.py:137-143 | the domain is lowered and holds no ':' and no '/', '?' or '#' |
| Url.LowerKeepsOut | tools/security/link_safety.py:141 | lowering introduces no delimiter |
| Url.ExtractDomainOfUrl | tools/security/link_safety.py:137-143 | for `scheme://host/path` the domain is the host, lowered |
| Url.ExtractDomainDropsPort | tools/security/link_safety.py:141 | a port after the host is dropped |
| Url.HostOfHostPort | tools/security/link_safety.py:141 | splitting a lowered `host:port` at its first ':' gives the lowered host |
| Url.ExtractDomainOfAuthority | tools/security/link_safety.py:137-143 | the domain of `scheme://auth/path` is the lowered authority up to its first ':' |
| Url.LowerHostPort | tools/security/link_safety.py:141 | lowering `host:port` lowers each side of the ':' |
| Url.HostPortAuthority | tools/security/link_safety.py:140 | a plain host and port hold no delimiter or bracket |
| Url.ExtractDomainOfNetloc | tools/security/link_safety.py:137-143 | a URL whose netloc is `auth` has the lowered `auth` up to its first ':' as domain |
| Url.LowerKeepsColonOut | tools/security/link_safety.py:141 | lowering adds no ':' or bracket |
| Url.SplitAtColon | tools/security/link_safety.py:141 | `split(':')[0]` of `a:b` is `a` when `a` holds no ':' |
| Url.NetlocOf | tools/security/link_safety.py:140 | the netloc of `scheme://` + `rest` is the part of `rest` before its path |
| Url.AfterSchemeOf | tools/security/link_safety.py:140 | a scheme and its colon are removed and the rest kept |
| Url.AuthorityOf | tools/security/link_safety.py:140 | an authority free of delimiters followed by '/' is measured exactly |
| Url.AfterNetloc | tools/security/link_safety.py:157-176 | what follows the netloc is never longer than the URL |
| Url.BeforeFragment | tools/security/link_safety.py:157 | the part before the fragment holds no '#' |
| Url.Query | tools/security/link_safety.py:157-158 | the query holds no '#' |
| Url.LastIndex | tools/security/link_safety.py:176-177 | the position of the last occurrence of a character |
| Url.StripParams | tools/security/link_safety.py:176-177 | removing ";params" keeps a prefix of the path, and a path without ';' whole |
| Url.Path | tools/security/link_safety.py:176-177 | the path holds no '?' or '#' |
| Url.PortOf | tools/security/link_safety.py:258-260 | a port is a number in 0..65535, and there is none exactly when a parsable URL's netloc names none |
| Url.SubdomainUnder | tools/security/link_safety.py:228-230 | a listed domain covers itself and every subdomain of it |
| Url.PathAndQueryOf | tools/security/link_safety.py:157-177 | `scheme://auth/path?query` comes apart into its path and its query |
| Url.NoFragment | tools/security/link_safety.py:157 | text without '#' has no fragment to cut |
| Url.AfterNetlocOf | tools/security/link_safety.py:157-176 | what follows an authority ended by a delimiter is the path, query and fragment |
| Url.AuthorityOfDelimited | tools/security/link_safety.py:140 | an authority ended by any delimiter is measured exactly |
| Url.SplitAtChar | tools/security/link_safety.py:141 | splitting `a + [c] + b` at its first `c` when `a` holds none |
| Url.PortOfHostPort | tools/security/link_safety.py:258-260 | `scheme://host:n/path` has port `n` for `n` in 0..65535 |
| Url.Escaped | tools/security/link_safety.py:177 | an escape is "%" and two digits naming an ASCII character |
| Url.Unquote | tools/security/link_safety.py:177 | decoding never lengthens the text and leaves text without '%' alone |
| Url.HexDigit | tools/security/link_safety.py:177 | the digit for `k` has value `k` |
| Url.PercentEncode | tools/security/link_safety.py:177 | encoding triples the length |
| Url.UnquotePercentEncode | tools/security/link_safety.py:177 | decoding undoes encoding, for ASCII text |
| Url.QueryPairs | tools/security/link_safety.py:158 | no more pairs than '&'-separated pieces |
| Url.PiecePairs | tools/security/link_safety.py:158 | no more pairs than pieces |
| Url.Without | tools/security/link_safety.py:158 | exactly the pairs whose name is not the given one |
| Url.FirstValues | tools/security/link_safety.py:158-162 | no more entries than pairs |
| Url.FirstValuesAreFirst | tools/security/link_safety.py:158-162 | each name appears once, with the first value the query gives it |
| Url.FirstValuesFromPairs | tools/security/link_safety.py:158-162 | every entry is a pair of the query |
| Url.FirstValuesNames | tools/security/link_safety.py:158-160 | every name of the query is listed |
| Url.FirstValueWithout | tools/security/link_safety.py:158-162 | dropping one name leaves the first values of the others as they were |

## Left out

- Regular expressions: `re` is a parameter (`Regex.Engine`). What a pattern matches is not modelled, so any property that depends on a particular pattern matching is stated over that parameter.
- SubmoltSafety.UnblockedNeedsSixtyOne: exact real arithmetic. In IEEE doubles, sixty steps of 0.01 down from 1.0 already fall below 0.4, so the source needs sixty safe interactions, not sixty-one.
- SocialEngineering.FiveToRecover: exact real arithmetic. In IEEE doubles, from trust 0.5 (and from 0.4, 0.6, 0.7, 0.8 or 0.9) five positive steps can leave the modifier just under 1.0, and the source then rates the authority claim "medium" where the lemma proves "high".
- LlmClient.CalculateCost: costs, totals and every price are exact reals. IEEE double rounding of the source's sums is not modelled (LlmClient.CostAdditive, LlmClient.Client.GetUsage).
- CostEstimate.EstimateCosts: exact reals, as above (CostEstimate.EstimateMonotone, CostEstimate.ClaudeModelsOrdered).
- FinancialSafety.CanSpend: amounts and limits are exact reals, as above (FinancialSafety.AllowedSpendStaysWithinLimit, FinancialSafety.Gate.RecordSpending).
- CostCalculator.EstimateFor: exact reals. The daily, monthly and per-activity figures are not passed through `round(…, 4)` and `round(…, 2)` (CostCalculator.ClaudeModelsOrdered compares the unrounded costs).
- CostCalculator.Calculator.TrackUsage: the reported cost, today total and month total are the unrounded values.
- CostCalculator.Warnings: the approach warning is the bare "Approaching daily limit". The source appends today's usage and the daily limit, formatted `: ${today:.2f} of ${limit:.2f}` (cost_calculator/__init__.py:173). Formatting a double to two places is not modelled. The same holds for the warnings of CostCalculator.Calculator.TrackUsage.
- CostCalculator.Calculator.CheckBudget: the usage and the remaining amounts are unrounded. AgentRuntime.WithinBudget reads them, so it compares the unrounded remainder with 0.
- EgressFirewall.StatsOf: the rounded `block_rate` is not reported.
- MemorySanitizer.StatsOf: the average risk score is not rounded to three places.
- Strings.Lower: ASCII-only case mapping. `str.lower`/`str.upper` and `re.IGNORECASE` are Unicode-aware in the source ("ſecret_key".upper() is "SECRET_KEY"). The same holds for Strings.Upper.
- FinancialSafety.AllDigits: ASCII digits only. The source's `\d` and `float()` also accept other Unicode decimal digits, such as "٥٠٠". The same holds for FinancialSafety.ParseDecimal.
- Url.ExtractDomain: `urlsplit`'s removal of leading C0 control characters and spaces, and of every tab, CR and LF, is not modelled. The model reads "\thttps://api.moltbook.com/" as having no host.
- Base64.AsciiText: `bytes.decode('utf-8', errors='ignore')` is modelled on ASCII only. Multi-byte UTF-8 sequences (and U+FEFF) are dropped where Python keeps them.
- ReputationProtection.SuggestionsOf: one fixed order where the source returns `list(set(...))`, whose order CPython leaves to string hashing.
- SocialEngineering.AddFlags: a fixed order where the source builds the flag list from a set.
- SubmoltSafety.Tracker.GetRiskySubmolts: a fixed order where the source builds the list from a set.
- MoltbookApi.Api.CreatePost: the post check and the request check share one reading `now`/`today`. The source calls `time.time()` and `time.strftime` afresh in each `_check_rate_limit` call (moltbook_api.py:133-134), once for "post" and again for "request" inside `_request`. The same holds for MoltbookApi.Api.CreateComment and its comment check.
- AgentRuntime.Agent.ProcessPost: the observatory calls (`record_blocked_attack`, `record_comment`) are not modelled. Those operations are modelled on their own in `observatory.dfy`. The same holds for AgentRuntime.Agent.CreatePost (`record_post`) and for `update_karma`.
- AgentRuntime.Generated: the cost tracker's `track_usage` after each LLM call is not modelled. The budget enters the runtime as the `check_budget` reading it is given.
- Config.FromDict: a top-level value whose type the field does not declare (a number or `null` for a toggle, an integer for a float, `null` for the level) is replaced by the field's default. Python's `cls(**…)` stores it as given, and its truthiness then decides `get_enabled_features` and `validate`. With `{"level": "custom", "output_scanning": 0}`, for example, Python leaves output scanning out of `get_enabled_features`, while the model keeps it on. A known level overwrites the toggles either way.
- Config.FromYaml: inherits the same replacement of mistyped values from Config.FromDict.
- Config.SecurityConfig.ApplySections: a section value of an unexpected type is left at its default, where `setattr` stores whatever the data holds (`{"skills": {"max_risk_score": 7}}` keeps 5.0 in the model).
- Url.Unquote: only percent-escapes below 0x80 are decoded. Python's `unquote` decodes UTF-8 sequences such as "%C3%A9" to "é" and replaces invalid ones with U+FFFD.
- LinkSafety.PathTricks: inherits the ASCII-only decoding of Url.Unquote. For "https://x.com/a.exe%C3%A9", the source decodes the path to "/a.exeé", where `\b` no longer matches after "exe". The model keeps "%C3%A9" and warns about an executable.
- LinkSafety.Check: the IP-address test (`IsIpAddress`) accepts ASCII digits only, where `\d` matches every Unicode decimal digit ("١.١.١.١" is an IP address to the source). It also inherits LinkSafety.PathTricks' decoding.
- AuditTrail.Trail.Query: the `since` and `until` filters are not modelled. They parse each stored timestamp with `datetime.fromisoformat`, and a timestamp it cannot parse ends the query early through the surrounding `except`. The model filters by event type and severity only.
- Secrets.SecretsManager.constructor: the providers must be distinct objects, where the source accepts a list holding one provider twice. Each environment provider also has its own dictionary, where every `EnvironmentProvider` shares the one `os.environ`, so a write through one is not seen through another.
- Scanner.ScanWith: `attack_types` lists the categories in first-seen order, where the source returns `list(set(attack_types))`, whose order CPython leaves to string hashing. Its distinctness and membership are what the model promises.
- InteractionAnalyzer.BurstFinding: the agents of a burst are listed in first-seen order (`Dedup`), where the source uses `list(set(...))`. The same holds for InteractionAnalyzer.DuplicateFinding and so for the agent lists that InteractionAnalyzer.CoordinatedTimingMeaning and InteractionAnalyzer.DuplicatesMeaning describe.
- MemorySanitizer.AttackMatches: a match of a pattern with two or more groups is reported as its first group. Python's `findall` reports the tuple of all groups, as it does for the first two assembled-attack patterns.
- `PersistentRateLimiter.get_status` and `SecretsManager.get_provider_status`: reporting only; not modelled.
- Persistence: the JSON and YAML state files, the encrypted secrets file, the audit log file, the memory file and every `save`/`load` are not modelled. State lives in the class fields, and the audit "file" is the field holding its entries.
- I/O, the network, logging, threading locks, `random` draws and the system clock: the HTTP calls, LLM calls and remote vault providers are represented by their answers, and the clock by an explicit `now`.

## Findings

| source | as written | input that shows it | evidently intended | confidence | as-written member | corrected member |
|---|---|---|---|---|---|---|
| tools/security/audit_trail.py:200-209 | rotation archives the log but keeps `_last_hash`, so the new file's first entry names the archived entry's hash | log until the entry count reaches the rotation size, then log once more and verify the new file | the chain restarts at "GENESIS" with each new file, so a file written only by `log` verifies | not executed | AuditTrail.RotatedFileFailsAsWritten | AuditTrail.RotatedFileVerifies |
| tools/security/link_safety.py:161 | `param.lower() in SUSPICIOUS_PARAMS` is never true for the camel-case entry "returnTo" | `https://x.com/?returnTo=https://evil.com` gives no parameter warning | a "returnTo" parameter carrying a URL is warned about like "redirect" | not executed | LinkSafety.ReturnToNeverWarnedAsWritten | LinkSafety.ReturnToWarnedIntended |
| tools/security/action_authorization.py:320-322 | `check_content` looks for an action phrase only in `content[:200]` | 200 characters of filler followed by "delete my account": no action type is found, so no approval is asked | a sensitive action phrase anywhere in the content is classified | not executed | ActionAuthorization.PhrasePastCutPassesAsWritten | ActionAuthorization.DetectedPhraseNeedsApproval |
| tools/security/skill_verifier.py:166-195 | custom blocked functions are appended to the module-level table, so they leak into every later verifier | `SkillVerifier(blocked_functions=["f"])`, then `SkillVerifier()`: the second still blocks `f` | each verifier adds its custom entries to its own copy of the table | not executed | SkillVerifier.LeakScenario | SkillVerifier.IsolatedScenario |
| tools/security/submolt_safety.py:161-163 | `block_submolt` and `check_submolt` normalize a name, then normalize it again to look up its profile, and normalization is not idempotent | `block_submolt("mm//")` blocks "m/" but pins the risk of the profile "" | normalizing twice gives the same key as normalizing once | not executed | SubmoltSafety.NormalizeNameNotIdempotent | SubmoltSafety.NormalizeNameIntendedIdempotent |
| tools/security/social_engineering.py:357-363 | the persistence check reads a reply that `_record_internal` never stores | any history: "persistence" is never raised | two declined requests followed by a third message within a day raise "persistence" | not executed | SocialEngineering.PersistenceNeverRaised | SocialEngineering.PersistenceRaisedWithResponses |
| tools/cost_calculator/__init__.py:172-179 | a limit of 0 is falsy and read as "no limit" | `set_budget(daily_limit=0)` followed by any spending: the budget stays fine | a given limit of 0 forbids any spending | not executed | CostCalculator.ZeroLimitUnsetAsWritten | CostCalculator.ZeroLimitBlocksIntended |
| tools/cost_calculator/__init__.py:161-177 | `_usage_today` is never reset, so yesterday's spending counts against today's limit | spend the whole daily limit on one day: the next day the budget is already broken | today's total starts again from 0 each day | not executed | CostCalculator.YesterdayCountsAsWritten | CostCalculator.NewDayResetsIntended |
