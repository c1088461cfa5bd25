/**
 * Action authorization (`ActionAuthorization`): sensitive actions wait for the user's approval.
 * An action is classified by name from the table of sensitive actions, or else by the first
 * action pattern its description matches; a protected category either auto-approves a low-risk
 * action or files one pending request, which `approve`, `deny` or `cancel_pending` later settles.
 */
module ActionAuthorization {
  import opened Wrappers
  import opened Strings
  import opened Regex

  datatype Category = Financial | Account | Communication | Data | System | External | Commitment

  const ALL_CATEGORIES := [Financial, Account, Communication, Data, System, External, Commitment]

  /** The actions that always need approval, with their category and risk level. */
  const SENSITIVE_ACTIONS: map<string, (Category, string)> := map[
    "purchase" := (Financial, "high"), "subscribe" := (Financial, "high"),
    "payment" := (Financial, "critical"), "transfer" := (Financial, "critical"),
    "change_password" := (Account, "critical"), "change_email" := (Account, "critical"),
    "delete_account" := (Account, "critical"), "update_profile" := (Account, "medium"),
    "change_settings" := (Account, "medium"), "connect_service" := (Account, "high"),
    "send_dm" := (Communication, "medium"), "send_email" := (Communication, "high"),
    "post_public" := (Communication, "low"), "reply_public" := (Communication, "low"),
    "mention_user" := (Communication, "medium"),
    "share_file" := (Data, "high"), "export_data" := (Data, "high"),
    "delete_data" := (Data, "critical"), "share_contact" := (Data, "high"),
    "share_location" := (Data, "critical"),
    "install_skill" := (System, "high"), "execute_code" := (System, "critical"),
    "modify_config" := (System, "high"), "grant_permission" := (System, "critical"),
    "api_call" := (External, "low"), "webhook_send" := (External, "medium"),
    "oauth_authorize" := (External, "high"), "download_file" := (External, "medium"),
    "schedule_meeting" := (Commitment, "medium"), "make_promise" := (Commitment, "medium"),
    "agree_terms" := (Commitment, "high"), "sign_document" := (Commitment, "critical")
  ]

  /** The phrases that reveal an action in free text: pattern, action name, category. */
  const ACTION_PATTERNS: seq<(string, string, Category)> := [
    (@"\b(send|post|share|publish)\b.*\b(message|dm|email|tweet)\b", "send_message", Communication),
    (@"\b(change|update|modify|edit)\b.*\b(password|email|profile|settings)\b", "account_change", Account),
    (@"\b(delete|remove|erase)\b.*\b(account|data|file|message)\b", "delete_action", Data),
    (@"\b(agree|accept|sign|confirm)\b.*\b(terms|contract|agreement)\b", "agreement", Commitment),
    (@"\b(install|add|enable)\b.*\b(plugin|skill|extension|app)\b", "install_action", System),
    (@"\b(connect|link|authorize)\b.*\b(account|service|app)\b", "connect_service", External),
    (@"\b(schedule|book|reserve)\b.*\b(meeting|appointment|call)\b", "schedule_action", Commitment),
    (@"\b(share|send|give)\b.*\b(location|address|phone|email)\b", "share_pii", Data)
  ]

  /** How many characters of checked content are kept as the request's description. */
  const DESCRIPTION_LIMIT := 200

  /** The category and risk level of an action, when it has one. */
  datatype Class = Unclassified | Classified(category: Category, risk: string)

  /** The index of the first action pattern found in `text`, or `|patterns|`. */
  function FirstAction(e: Engine, patterns: seq<(string, string, Category)>, text: string): (i: nat)
    ensures i <= |patterns|
    ensures i < |patterns| ==> Search(e, I(patterns[i].0), text)
    ensures forall j :: 0 <= j < i ==> !Search(e, I(patterns[j].0), text)
  {
    if |patterns| == 0 then 0
    else if Search(e, I(patterns[0].0), text) then 0
    else 1 + FirstAction(e, patterns[1..], text)
  }

  /** The risk of a detected action: its table entry's, or "medium". */
  function DetectedRisk(action: string): string {
    if action in SENSITIVE_ACTIONS then SENSITIVE_ACTIONS[action].1 else "medium"
  }

  /** `_detect_action_type(description)`: the first matching pattern's category. */
  function Detect(e: Engine, description: string): (c: Class)
    ensures c.Unclassified? <==> forall j :: 0 <= j < |ACTION_PATTERNS| ==> !Search(e, I(ACTION_PATTERNS[j].0), description)
    ensures c.Classified? ==> exists j :: (0 <= j < |ACTION_PATTERNS| && Search(e, I(ACTION_PATTERNS[j].0), description)
      && c.category == ACTION_PATTERNS[j].2 && c.risk == DetectedRisk(ACTION_PATTERNS[j].1))
  {
    var i := FirstAction(e, ACTION_PATTERNS, description);
    if i < |ACTION_PATTERNS| then Classified(ACTION_PATTERNS[i].2, DetectedRisk(ACTION_PATTERNS[i].1))
    else Unclassified
  }

  /** The classification `check_action` uses: the table for a known name, detection otherwise. */
  function Classify(e: Engine, action: string, description: string): (c: Class)
    ensures action in SENSITIVE_ACTIONS ==>
      c == Classified(SENSITIVE_ACTIONS[action].0, SENSITIVE_ACTIONS[action].1)
    ensures action !in SENSITIVE_ACTIONS ==> c == Detect(e, description)
  {
    if action in SENSITIVE_ACTIONS then Classified(SENSITIVE_ACTIONS[action].0, SENSITIVE_ACTIONS[action].1)
    else Detect(e, description)
  }

  /**
   * The classification `check_content` obtains for the first action phrase in `content`, as
   * written: the action name is classified against the content cut to 200 characters, so a
   * phrase found only past the cut loses its category.
   */
  function ContentClassAsWritten(e: Engine, content: string): Class
    requires FirstAction(e, ACTION_PATTERNS, content) < |ACTION_PATTERNS|
  {
    Classify(e, ACTION_PATTERNS[FirstAction(e, ACTION_PATTERNS, content)].1, Take(content, DESCRIPTION_LIMIT))
  }

  /** The classification with detection run on the whole content that was found to hold the phrase. */
  function ContentClass(e: Engine, content: string): (c: Class)
    requires FirstAction(e, ACTION_PATTERNS, content) < |ACTION_PATTERNS|
    ensures c.Classified?
  {
    Classify(e, ACTION_PATTERNS[FirstAction(e, ACTION_PATTERNS, content)].1, content)
  }

  /**
   * As written, a detected phrase whose action is not in the table passes without approval when
   * no action pattern matches the first 200 characters.
   */
  lemma PhrasePastCutPassesAsWritten(e: Engine, content: string, requireFor: seq<Category>,
                                     autoLow: bool, id: string)
    requires FirstAction(e, ACTION_PATTERNS, content) < |ACTION_PATTERNS|
    requires ACTION_PATTERNS[FirstAction(e, ACTION_PATTERNS, content)].1 !in SENSITIVE_ACTIONS
    requires forall j :: 0 <= j < |ACTION_PATTERNS| ==> !Search(e, I(ACTION_PATTERNS[j].0), Take(content, DESCRIPTION_LIMIT))
    ensures ContentClassAsWritten(e, content) == Unclassified
    ensures !Decide(ContentClassAsWritten(e, content), requireFor, autoLow,
                    ACTION_PATTERNS[FirstAction(e, ACTION_PATTERNS, content)].1, id).requiresApproval
  {
  }

  /**
   * With detection on the whole content, a detected phrase in a requireFor category always needs
   * approval unless it is low risk and low risk is auto-approved.
   */
  lemma DetectedPhraseNeedsApproval(e: Engine, content: string, requireFor: seq<Category>,
                                    autoLow: bool, id: string)
    requires FirstAction(e, ACTION_PATTERNS, content) < |ACTION_PATTERNS|
    requires ContentClass(e, content).category in requireFor && !(autoLow && ContentClass(e, content).risk == "low")
    ensures Decide(ContentClass(e, content), requireFor, autoLow,
                   ACTION_PATTERNS[FirstAction(e, ACTION_PATTERNS, content)].1, id).requiresApproval
  {
  }

  /** An unknown action whose description matches no pattern passes, with no category. */
  lemma UnknownActionPasses(e: Engine, action: string, description: string, requireFor: seq<Category>,
                            autoLow: bool, id: string)
    requires action !in SENSITIVE_ACTIONS
    requires forall j :: 0 <= j < |ACTION_PATTERNS| ==> !Search(e, I(ACTION_PATTERNS[j].0), description)
    ensures Decide(Classify(e, action, description), requireFor, autoLow, action, id)
      == AuthResult(false, true, None, None, "Action does not require approval", true)
  {
  }

  /** A known action keeps its table category and risk, whatever the description says. */
  lemma KnownActionUsesTable(e: Engine, description: string)
    ensures Classify(e, "payment", description) == Classified(Financial, "critical")
    ensures Classify(e, "post_public", description) == Classified(Communication, "low")
  {
  }

  /** A pending or settled request: `approved` is unset until the user decides. */
  datatype Request = Request(actionId: string, category: Category, action: string,
                             description: string, riskLevel: string, timestamp: string,
                             approved: Option<bool>, approvedBy: Option<string>,
                             approvedAt: Option<string>)

  datatype AuthResult = AuthResult(requiresApproval: bool, isApproved: bool,
                                   actionId: Option<string>, category: Option<Category>,
                                   reason: string, autoApproved: bool)

  /**
   * The decision of `check_action` for a classification: no requireFor category passes, a
   * low-risk one is auto-approved when allowed, and every other one waits under `id`.
   */
  function Decide(c: Class, requireFor: seq<Category>, autoLow: bool, action: string, id: string)
    : (r: AuthResult)
    ensures r.requiresApproval <==> c.Classified? && c.category in requireFor && !(autoLow && c.risk == "low")
    ensures r.requiresApproval ==> !r.isApproved && r.actionId == Some(id) && !r.autoApproved
    ensures !r.requiresApproval ==> r.isApproved && r.actionId.None? && r.autoApproved
    ensures r.category == (if c.Classified? then Some(c.category) else None)
  {
    if c.Classified? && c.category in requireFor then
      if autoLow && c.risk == "low" then
        AuthResult(false, true, None, Some(c.category), "Auto-approved (low risk)", true)
      else
        AuthResult(true, false, Some(id), Some(c.category),
                   "Action '" + action + "' requires user approval", false)
    else AuthResult(false, true, None, if c.Classified? then Some(c.category) else None,
                    "Action does not require approval", true)
  }

  /** The request a requireFor action files; an empty risk becomes "medium". */
  function NewRequest(c: Class, action: string, description: string, id: string, now: string): (q: Request)
    requires c.Classified?
    ensures q.actionId == id && q.approved.None? && q.riskLevel != ""
  {
    Request(id, c.category, action, description, if c.risk != "" then c.risk else "medium", now,
            None, None, None)
  }

  /** `is_approved(id)` over the history: the first request with this id decides. */
  function ApprovedInHistory(history: seq<Request>, id: string): bool {
    if |history| == 0 then false
    else if history[0].actionId == id then history[0].approved == Some(true)
    else ApprovedInHistory(history[1..], id)
  }

  predicate HasId(history: seq<Request>, id: string) {
    exists i :: 0 <= i < |history| && history[i].actionId == id
  }

  /** A request appended after the last one with its id is the one that decides. */
  lemma {:induction false} ApprovedAfterAppend(history: seq<Request>, q: Request)
    requires !HasId(history, q.actionId)
    ensures ApprovedInHistory(history + [q], q.actionId) == (q.approved == Some(true))
  {
    if |history| > 0 {
      assert (history + [q])[1..] == history[1..] + [q];
      assert history[0].actionId != q.actionId;
      assert !HasId(history[1..], q.actionId) by {
        forall i | 0 <= i < |history[1..]| ensures history[1..][i].actionId != q.actionId {
          assert history[1..][i] == history[i + 1];
        }
      }
      ApprovedAfterAppend(history[1..], q);
    } else {
      assert history + [q] == [q];
    }
  }

  /** An id nowhere in the history is not approved by it. */
  lemma {:induction false} UnknownNotApproved(history: seq<Request>, id: string)
    requires !HasId(history, id)
    ensures !ApprovedInHistory(history, id)
  {
    if |history| > 0 {
      assert history[0].actionId != id;
      assert !HasId(history[1..], id) by {
        forall i | 0 <= i < |history[1..]| ensures history[1..][i].actionId != id {
          assert history[1..][i] == history[i + 1];
        }
      }
      UnknownNotApproved(history[1..], id);
    }
  }

  /** The history's approved and explicitly denied requests. */
  function CountDecided(history: seq<Request>, verdict: bool): (n: nat)
    ensures n <= |history|
  {
    if |history| == 0 then 0
    else (if history[0].approved == Some(verdict) then 1 else 0) + CountDecided(history[1..], verdict)
  }

  lemma {:induction false} CountDecidedAppend(history: seq<Request>, q: Request, verdict: bool)
    ensures CountDecided(history + [q], verdict) ==
      CountDecided(history, verdict) + (if q.approved == Some(verdict) then 1 else 0)
  {
    if |history| == 0 {
      assert history + [q] == [q];
    } else {
      assert (history + [q])[1..] == history[1..] + [q];
      CountDecidedAppend(history[1..], q, verdict);
    }
  }

  /** No request counts as both approved and denied. */
  lemma {:induction false} CountsBounded(history: seq<Request>)
    ensures CountDecided(history, true) + CountDecided(history, false) <= |history|
  {
    if |history| > 0 {
      CountsBounded(history[1..]);
    }
  }

  datatype Stats = Stats(pendingRequests: nat, totalApproved: nat, totalDenied: nat,
                         categoriesProtected: seq<Category>, autoApproveLowRisk: bool)

  class Authorization {
    const autoApproveLowRisk: bool
    const requireFor: seq<Category>
    var pending: map<string, Request>
    var history: seq<Request>

    /** Every pending request is filed under its own id and is still undecided; every settled one is decided. */
    predicate Valid()
      reads this
    {
      && (forall id :: id in pending ==> pending[id].actionId == id && pending[id].approved.None?)
      && (forall i :: 0 <= i < |history| ==> history[i].approved.Some?)
    }

    /** `ActionAuthorization(auto_approve_low_risk, require_approval_for)`: an empty list protects every category. */
    constructor (autoApproveLowRisk: bool, requireApprovalFor: seq<Category>)
      ensures Valid()
      ensures this.autoApproveLowRisk == autoApproveLowRisk
      ensures requireFor == (if requireApprovalFor == [] then ALL_CATEGORIES else requireApprovalFor)
      ensures pending == map[] && history == []
    {
      this.autoApproveLowRisk := autoApproveLowRisk;
      requireFor := if requireApprovalFor == [] then ALL_CATEGORIES else requireApprovalFor;
      pending := map[];
      history := [];
    }

    /**
     * `check_action(action, description)`, with `id` the freshly generated action id and `now`
     * the time: the decision of `Decide`, and exactly one new pending request when approval is
     * needed (an older request under the same id is replaced).
     */
    method CheckAction(e: Engine, action: string, description: string, id: string, now: string)
      returns (r: AuthResult)
      requires Valid()
      modifies this
      ensures Valid()
      ensures r == Decide(Classify(e, action, description), requireFor, autoApproveLowRisk, action, id)
      ensures r.requiresApproval ==>
        pending == old(pending)[id := NewRequest(Classify(e, action, description), action, description, id, now)]
      ensures !r.requiresApproval ==> pending == old(pending)
      ensures history == old(history)
    {
      var c := Classify(e, action, description);
      r := Decide(c, requireFor, autoApproveLowRisk, action, id);
      if r.requiresApproval {
        pending := pending[id := NewRequest(c, action, description, id, now)];
      }
    }

    /**
     * `check_content(content)`: the first action phrase found in the whole content names the
     * action, which `check_action` then classifies against the content's first 200 characters
     * (`ContentClassAsWritten`).
     */
    method CheckContent(e: Engine, content: string, id: string, now: string) returns (r: AuthResult)
      requires Valid()
      modifies this
      ensures Valid()
      ensures FirstAction(e, ACTION_PATTERNS, content) == |ACTION_PATTERNS| ==>
        (r == AuthResult(false, true, None, None, "No sensitive action detected", true) && pending == old(pending))
      ensures FirstAction(e, ACTION_PATTERNS, content) < |ACTION_PATTERNS| ==>
        (var action := ACTION_PATTERNS[FirstAction(e, ACTION_PATTERNS, content)].1;
         && r == Decide(ContentClassAsWritten(e, content), requireFor, autoApproveLowRisk, action, id)
         && (r.requiresApproval ==> pending == old(pending)[id :=
               NewRequest(ContentClassAsWritten(e, content), action, Take(content, DESCRIPTION_LIMIT), id, now)])
         && (!r.requiresApproval ==> pending == old(pending)))
      ensures history == old(history)
    {
      var i := FirstAction(e, ACTION_PATTERNS, content);
      if i == |ACTION_PATTERNS| {
        return AuthResult(false, true, None, None, "No sensitive action detected", true);
      }
      var action := ACTION_PATTERNS[i].1;
      var description := Take(content, DESCRIPTION_LIMIT);
      var c := ContentClassAsWritten(e, content);
      r := Decide(c, requireFor, autoApproveLowRisk, action, id);
      if r.requiresApproval {
        pending := pending[id := NewRequest(c, action, description, id, now)];
      }
    }

    /** Settles a pending request with `verdict`, moving it to the history. */
    method Settle(id: string, verdict: bool, approver: string, now: string) returns (ok: bool)
      requires Valid()
      modifies this
      ensures Valid()
      ensures ok <==> id in old(pending)
      ensures !ok ==> pending == old(pending) && history == old(history)
      ensures ok ==> pending == old(pending) - {id}
      ensures ok ==> (history == old(history) +
        [old(pending)[id].(approved := Some(verdict), approvedBy := Some(approver), approvedAt := Some(now))])
    {
      if id !in pending {
        return false;
      }
      var q := pending[id];
      history := history + [q.(approved := Some(verdict), approvedBy := Some(approver), approvedAt := Some(now))];
      pending := pending - {id};
      ok := true;
    }

    /** `approve(action_id, approved_by)` */
    method Approve(id: string, approver: string, now: string) returns (ok: bool)
      requires Valid()
      modifies this
      ensures Valid()
      ensures ok <==> id in old(pending)
      ensures !ok ==> pending == old(pending) && history == old(history)
      ensures ok ==> pending == old(pending) - {id} && |history| == |old(history)| + 1
      ensures ok ==> (history[|history| - 1] ==
        old(pending)[id].(approved := Some(true), approvedBy := Some(approver), approvedAt := Some(now)))
      ensures ok && !HasId(old(history), id) ==> IsApproved(id)
      ensures ok ==> CountDecided(history, true) == CountDecided(old(history), true) + 1
    {
      ok := Settle(id, true, approver, now);
      if ok {
        if !HasId(old(history), id) {
          ApprovedAfterAppend(old(history), history[|history| - 1]);
        }
        CountDecidedAppend(old(history), history[|history| - 1], true);
      }
    }

    /** `deny(action_id, denied_by)` */
    method Deny(id: string, approver: string, now: string) returns (ok: bool)
      requires Valid()
      modifies this
      ensures Valid()
      ensures ok <==> id in old(pending)
      ensures !ok ==> pending == old(pending) && history == old(history)
      ensures ok ==> pending == old(pending) - {id} && |history| == |old(history)| + 1
      ensures ok ==> (history[|history| - 1] ==
        old(pending)[id].(approved := Some(false), approvedBy := Some(approver), approvedAt := Some(now)))
      ensures ok && !HasId(old(history), id) ==> !IsApproved(id)
      ensures ok ==> CountDecided(history, false) == CountDecided(old(history), false) + 1
    {
      ok := Settle(id, false, approver, now);
      if ok {
        if !HasId(old(history), id) {
          ApprovedAfterAppend(old(history), history[|history| - 1]);
        }
        CountDecidedAppend(old(history), history[|history| - 1], false);
      }
    }

    /** `is_approved(action_id)`: a pending request first, then the first settled one with the id. */
    predicate IsApproved(id: string)
      reads this
    {
      if id in pending then pending[id].approved == Some(true) else ApprovedInHistory(history, id)
    }

    /** `cancel_pending(action_id)`: forgets a pending request without settling it. */
    method CancelPending(id: string) returns (ok: bool)
      requires Valid()
      modifies this
      ensures Valid()
      ensures ok <==> id in old(pending)
      ensures pending == old(pending) - {id} && history == old(history)
    {
      ok := id in pending;
      pending := pending - {id};
    }

    /** `get_stats()` */
    method GetStats() returns (s: Stats)
      ensures s == Stats(|pending|, CountDecided(history, true), CountDecided(history, false),
                         requireFor, autoApproveLowRisk)
      ensures s.totalApproved + s.totalDenied <= |history|
    {
      CountsBounded(history);
      s := Stats(|pending|, CountDecided(history, true), CountDecided(history, false),
                 requireFor, autoApproveLowRisk);
    }
  }
}
