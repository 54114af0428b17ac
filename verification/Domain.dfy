/** The records of internal/domain/models.go and the normalization of messages. Timestamps are left
    out; marshalled JSON bodies are values of the datatype `Content`. */
module Domain {
  import opened Strings

  /** An identifier: text supplied by a caller, or the n-th value handed out by `newID`, which differs
      from every other draw and from every supplied text. */
  datatype ID = Text(s: string) | Drawn(n: nat)

  const NO_ID := Text("")

  datatype Option<+T> = None | Some(value: T)

  datatype IOC = IOC(kind: string, value: string, role: string)

  datatype Event = Event(id: nat, eventID: ID, name: string, title: string, message: string, context: string,
                         source: string, severity: string, category: string, status: string, round: int,
                         observables: seq<IOC>)

  const ZERO_EVENT := Event(0, NO_ID, "", "", "", "", "", "", "", "", 0, [])

  datatype Content =
    | NoContent
    | Plain(text: string)
    | Playbook(number: nat, playbook: string)
    | Person(userID: string, userName: string)
    | Params(key: string, value: string)
    | Requirement(about: ID, requirement: string)
    | Verdict(eventID: ID, commandID: ID, verdict: string)
    | Report(responseType: string, rows: seq<ID>)
    | Conclusion(name: string, event: ID, round: int)

  datatype Message = Message(id: nat, messageID: ID, eventID: ID, from: string, kind: string, content: Content,
                             round: int, category: string, senderType: string)

  datatype Task = Task(id: nat, taskID: ID, eventID: ID, name: string, kind: string, description: string,
                       status: string, priority: string, assignedTo: string, assignee: string, round: int)

  datatype Action = Action(id: nat, actionID: ID, taskID: ID, eventID: ID, round: int, name: string, kind: string,
                           assignee: string, status: string, result: Content)

  datatype Command = Command(id: nat, commandID: ID, actionID: ID, taskID: ID, eventID: ID, round: int, name: string,
                             kind: string, assignee: string, entity: Content, params: Content, status: string,
                             result: Content)

  datatype Execution = Execution(id: nat, executionID: ID, eventID: ID, taskID: ID, actionID: ID, round: int,
                                 commandID: ID, status: string, result: Content, commandName: string,
                                 commandKind: string, commandEntity: Content, commandParams: Content)

  datatype Summary = Summary(id: nat, eventID: ID, round: int, content: Content)

  datatype EventMap = EventMap(fingerprint: string, lyID: string, deepID: ID)

  datatype PushedEvent = PushedEvent(recordID: string, key: string, deepID: ID, status: string, attempts: nat,
                                     failed: bool)

  const SYSTEM := "system"
  const USER := "user"
  const ASSISTANT := "assistant"
  const CAPTAIN := "_captain"
  const MANAGER := "_manager"
  const OPERATOR := "_operator"
  const EXECUTOR := "_executor"
  const EXPERT := "_expert"

  /** The role a lower-case name stands for, or "" for any other name. */
  function RoleNamed(low: string): string {
    match low
    case "" | "system" => SYSTEM
    case "user" | "engineer" | "human" => USER
    case "assistant" | "ai" | "ai_assistant" | "engineer_ai" => ASSISTANT
    case "captain" | "role_soc_captain" | "soc_captain" | "_captain" => CAPTAIN
    case "manager" | "role_soc_manager" | "soc_manager" | "_manager" => MANAGER
    case "operator" | "role_soc_operator" | "soc_operator" | "_operator" => OPERATOR
    case "executor" | "role_soc_executor" | "soc_executor" | "_executor" | "autopilot" | "queue-worker" => EXECUTOR
    case "expert" | "role_soc_expert" | "soc_expert" | "_expert" => EXPERT
    case _ => ""
  }

  function NormalizeMessageFrom(v: string): string {
    var role := RoleNamed(ToLower(TrimSpace(v)));
    if role != "" then role else TrimSpace(v)
  }

  function SenderType(from: string): string {
    var n := NormalizeMessageFrom(from);
    if n == USER then "user" else if n == ASSISTANT then "ai" else if n == SYSTEM then "system" else "agent"
  }

  function NormalizeMessage(m: Message): Message {
    var from := NormalizeMessageFrom(m.from);
    var senderType := if m.senderType == "" || m.senderType == "unknown" then SenderType(from) else m.senderType;
    var category := if m.category != "" then m.category
                    else if senderType == "user" || senderType == "ai" then "engineer_chat" else "agent";
    m.(from := from, senderType := senderType, category := category)
  }

  predicate IsInternalMessage(m: Message) {
    var t := ToLower(TrimSpace(m.kind));
    t == "llm_request" || HasSuffix(t, "_llm_request")
  }

  predicate IsPlainName(s: string) {
    forall i :: 0 <= i < |s| ==> s[i] == '_' || 'a' <= s[i] <= 'z'
  }

  lemma PlainCharIsLower(c: char)
    requires c == '_' || 'a' <= c <= 'z'
    ensures !IsSpace(c) && Lower(c) == c
  {
  }

  lemma PlainNameIsLower(s: string)
    requires IsPlainName(s)
    ensures ToLower(TrimSpace(s)) == s && TrimSpace(s) == s
  {
    hide IsSpace, Lower, TrimSpace;
    if s != "" {
      PlainCharIsLower(s[0]);
      PlainCharIsLower(s[|s| - 1]);
    }
    TrimSpaceTrims(s);
    forall i | 0 <= i < |s| ensures Lower(s[i]) == s[i] { PlainCharIsLower(s[i]); }
    assert ToLower(s) == s;
  }

  predicate IsAgent(role: string) {
    role == CAPTAIN || role == MANAGER || role == OPERATOR || role == EXECUTOR || role == EXPERT
  }

  predicate IsRole(role: string) { role == SYSTEM || role == USER || role == ASSISTANT || IsAgent(role) }

  lemma RoleNamesItself(role: string)
    requires IsRole(role)
    ensures RoleNamed(role) == role && IsPlainName(role)
  {
    assert RoleNamed(SYSTEM) == SYSTEM && RoleNamed(USER) == USER && RoleNamed(ASSISTANT) == ASSISTANT;
    assert RoleNamed(CAPTAIN) == CAPTAIN && RoleNamed(MANAGER) == MANAGER && RoleNamed(OPERATOR) == OPERATOR;
    assert RoleNamed(EXECUTOR) == EXECUTOR && RoleNamed(EXPERT) == EXPERT;
  }

  lemma RoleNamedIsRole(low: string)
    ensures RoleNamed(low) != "" ==> IsRole(RoleNamed(low))
  {
  }

  /** The names the services use for themselves are already normal. */
  lemma RolesAreNormal(role: string)
    requires IsRole(role)
    ensures NormalizeMessageFrom(role) == role
  {
    RoleNamesItself(role);
    PlainNameIsLower(role);
  }

  /** Normalizing a sender twice changes nothing, for any sender text. */
  lemma NormalizeFromIdempotent(v: string)
    ensures NormalizeMessageFrom(NormalizeMessageFrom(v)) == NormalizeMessageFrom(v)
  {
    var role := RoleNamed(ToLower(TrimSpace(v)));
    RoleNamedIsRole(ToLower(TrimSpace(v)));
    if role != "" {
      RolesAreNormal(role);
    } else {
      TrimSpaceTrims(v);
      TrimSpaceTrims(TrimSpace(v));
    }
  }

  /** Stored messages are normal, so listing them hands them out unchanged. */
  lemma NormalizeIdempotent(m: Message)
    ensures NormalizeMessage(NormalizeMessage(m)) == NormalizeMessage(m)
    ensures IsInternalMessage(NormalizeMessage(m)) == IsInternalMessage(m)
  {
    NormalizeFromIdempotent(m.from);
  }

  predicate NamesPeople(low: string) {
    low in ["", "system", "user", "engineer", "human", "assistant", "ai", "ai_assistant", "engineer_ai"]
  }

  predicate NamesAgent(low: string) {
    low in ["captain", "role_soc_captain", "soc_captain", "_captain", "manager", "role_soc_manager", "soc_manager", "_manager",
            "operator", "role_soc_operator", "soc_operator", "_operator", "executor", "role_soc_executor", "soc_executor", "_executor",
            "autopilot", "queue-worker", "expert", "role_soc_expert", "soc_expert", "_expert"]
  }

  lemma PeopleNamed(low: string)
    ensures low in ["", "system"] ==> RoleNamed(low) == "system"
    ensures low in ["user", "engineer", "human"] ==> RoleNamed(low) == "user"
    ensures low in ["assistant", "ai", "ai_assistant", "engineer_ai"] ==> RoleNamed(low) == "assistant"
  {
  }

  lemma AgentsNamed(low: string)
    ensures low in ["captain", "role_soc_captain", "soc_captain", "_captain"] ==> RoleNamed(low) == "_captain"
    ensures low in ["manager", "role_soc_manager", "soc_manager", "_manager"] ==> RoleNamed(low) == "_manager"
    ensures low in ["operator", "role_soc_operator", "soc_operator", "_operator"] ==> RoleNamed(low) == "_operator"
  {
  }

  lemma LastAgentsNamed(low: string)
    ensures low in ["executor", "role_soc_executor", "soc_executor", "_executor", "autopilot", "queue-worker"] ==> RoleNamed(low) == "_executor"
    ensures low in ["expert", "role_soc_expert", "soc_expert", "_expert"] ==> RoleNamed(low) == "_expert"
  {
  }

  lemma NobodyElseNamed(low: string)
    requires !NamesPeople(low) && !NamesAgent(low)
    ensures RoleNamed(low) == ""
  {
  }

  /** Which texts name which sender, for any sender text; all others stay as they are, trimmed. */
  lemma SenderExact(v: string)
    ensures var (low, n) := (ToLower(TrimSpace(v)), NormalizeMessageFrom(v));
            && (low in ["", "system"] ==> n == "system")
            && (low in ["user", "engineer", "human"] ==> n == "user")
            && (low in ["assistant", "ai", "ai_assistant", "engineer_ai"] ==> n == "assistant")
            && (low in ["captain", "role_soc_captain", "soc_captain", "_captain"] ==> n == "_captain")
            && (low in ["manager", "role_soc_manager", "soc_manager", "_manager"] ==> n == "_manager")
            && (low in ["operator", "role_soc_operator", "soc_operator", "_operator"] ==> n == "_operator")
            && (low in ["executor", "role_soc_executor", "soc_executor", "_executor", "autopilot", "queue-worker"] ==> n == "_executor")
            && (low in ["expert", "role_soc_expert", "soc_expert", "_expert"] ==> n == "_expert")
            && (!NamesPeople(low) && !NamesAgent(low) ==> n == TrimSpace(v))
  {
    hide ToLower, TrimSpace, RoleNamed, NamesPeople, NamesAgent;
    var low := ToLower(TrimSpace(v));
    PeopleNamed(low);
    AgentsNamed(low);
    LastAgentsNamed(low);
    if !NamesPeople(low) && !NamesAgent(low) { NobodyElseNamed(low); }
  }

  /** Which texts name an agent: the five roles under all their names, and no other text. */
  lemma AgentsExact(v: string)
    ensures IsAgent(NormalizeMessageFrom(v)) <==> NamesAgent(ToLower(TrimSpace(v)))
  {
    var (low, n) := (ToLower(TrimSpace(v)), NormalizeMessageFrom(v));
    SenderExact(v);
    hide ToLower, TrimSpace, NormalizeMessageFrom, IsPlainName;
    if IsAgent(TrimSpace(v)) {
      RoleNamesItself(TrimSpace(v));
      PlainNameIsLower(TrimSpace(v));
    }
    assert "system"[0] == 's' && "user"[0] == 'u' && "assistant"[0] == 'a' && "_captain"[0] == '_' && "_manager"[0] == '_'
           && "_operator"[0] == '_' && "_executor"[0] == '_' && "_expert"[0] == '_';
  }

  /** The kinds of messages meant for the model and not for readers. */
  ghost predicate ForTheModel(kind: string) {
    var low := ToLower(TrimSpace(kind));
    low == "llm_request" || exists front: string :: low == front + "_llm_request"
  }

  lemma InternalExact(m: Message)
    ensures IsInternalMessage(m) <==> ForTheModel(m.kind)
  {
    hide ToLower, TrimSpace;
    var low := ToLower(TrimSpace(m.kind));
    if HasSuffix(low, "_llm_request") { assert low == low[..|low| - |"_llm_request"|] + "_llm_request"; }
  }
}
