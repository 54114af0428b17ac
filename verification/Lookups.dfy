/** What the planner and the playbooks make of an event, written out: for each query the task asked for, the
    action it becomes, the playbook run and the verdict given. Nothing here is computed by the stages of the
    text pipeline; they are proved to arrive at it. */
module Lookups {
  import opened Strings
  import opened IpText
  import opened Domain
  import opened Planning

  datatype Lookup = Lookup(task: string, description: string, action: string, playbook: string, number: nat, code: string,
                           key: string, ip: string, verdict: string)

  function ThreatLookup(ip: string): Lookup {
    Lookup("请查询IP地址" + ip + "的威胁情报", "查询标签、历史攻击记录、地理位置、情报来源和置信度，不做处置判断。",
           "使用剧本【通用IP地址威胁情报信息查询】查询IP地址" + ip + "的威胁情报",
           "通用IP地址威胁情报信息查询", 12316887511154270, "General_IP_Threat_Intelligence_Query", "src", ip, "suspicious")
  }

  function LocationLookup(ip: string): Lookup {
    Lookup("请查询IP地址" + ip + "的地理位置", "查询攻击源归属地和网络运营商，作为后续研判依据。",
           "使用剧本【通用IP地址位置查询】查询IP地址" + ip + "的地理位置",
           "通用IP地址位置查询", 12321406690537761, "General_IP_Location_Query", "src", ip, "informational")
  }

  function AssetLookup(ip: string): Lookup {
    Lookup("请查询IP地址" + ip + "的资产信息", "查询资产类型、所属部门、负责人、业务线和生产/测试环境属性。",
           "使用剧本【根据IP地址查询资产信息】查询IP地址" + ip + "的资产信息",
           "根据IP地址查询资产信息", 12321435630187042, "query_asset_info_by_ip", "dst", ip, "asset_context_required")
  }

  /** With no address to ask about, one asset query about none. */
  function BlindLookup(event: Event): Lookup {
    Lookup("请根据事件上下文查询相关攻击源和受影响资产信息",
           if event.message != "" then event.message else if event.context != "" then event.context
           else "根据事件上下文完成威胁研判、证据收集和处置建议。",
           "请根据事件上下文查询相关攻击源和受影响资产信息",
           "根据IP地址查询资产信息", 12321435630187042, "query_asset_info_by_ip", "dst", "", "asset_context_required")
  }

  function Expected(event: Event): seq<Lookup> {
    var (src, dst) := (Source(event), Destination(event));
    if src == "" then [BlindLookup(event)]
    else if dst == "" || dst == src then [ThreatLookup(src), LocationLookup(src)]
    else [ThreatLookup(src), LocationLookup(src), AssetLookup(dst)]
  }

  /** There is no address at all, or source and destination are dotted quads. */
  predicate Readable(event: Event) {
    Source(event) == "" || (IsQuad(Source(event)) && (Destination(event) == "" || IsQuad(Destination(event))))
  }

  function LookupFor(q: Query, ip: string): Lookup {
    match q
    case Threat => ThreatLookup(ip)
    case Location => LocationLookup(ip)
    case Asset => AssetLookup(ip)
  }

  lemma FrontOfTask(q: Query, ip: string)
    ensures TaskName(q, ip) == LookupFor(q, ip).task
  {
    assert ASK + SUBJECT == "请查询IP地址";
    assert OF + Keyword(Threat) == "的威胁情报";
    assert OF + Keyword(Location) == "的地理位置";
    assert OF + Keyword(Asset) == "的资产信息";
    Regroup(ASK, SUBJECT, ip, OF, Keyword(q));
  }

  lemma FrontOfAction(q: Query, ip: string)
    ensures Named(Playing(q), ip, q) == LookupFor(q, ip).action
  {
    assert Playing(Threat) + SUBJECT == "使用剧本【通用IP地址威胁情报信息查询】查询IP地址";
    assert Playing(Location) + SUBJECT == "使用剧本【通用IP地址位置查询】查询IP地址";
    assert Playing(Asset) + SUBJECT == "使用剧本【根据IP地址查询资产信息】查询IP地址";
    assert OF + Keyword(Threat) == "的威胁情报";
    assert OF + Keyword(Location) == "的地理位置";
    assert OF + Keyword(Asset) == "的资产信息";
    Regroup(Playing(q), SUBJECT, ip, OF, Keyword(q));
  }

  lemma PlanIsLookup(q: Query, ip: string)
    ensures QueryPlan(q, ip) == TaskPlan(LookupFor(q, ip).task, "query", "_analyst", LookupFor(q, ip).description)
  {
    FrontOfTask(q, ip);
    hide TaskName;
  }

  lemma BlindPlan(event: Event)
    ensures FallbackPlan(event) == TaskPlan(BlindLookup(event).task, "query", "_analyst", BlindLookup(event).description)
  {
    var last := "根据事件上下文完成威胁研判、证据收集和处置建议。";
    assert [event.message, event.context, last][1..] == [event.context, last] && [event.context, last][1..] == [last];
    assert FirstNonEmpty([last]) == last;
    assert FirstNonEmpty([event.context, last]) == if event.context != "" then event.context else last;
  }

  /** The plans of any event are the expected ones, in order. */
  lemma PlansAreExpected(event: Event)
    ensures |BuildTaskPlans(event)| == |Expected(event)|
    ensures forall k :: 0 <= k < |Expected(event)| ==>
              BuildTaskPlans(event)[k] == TaskPlan(Expected(event)[k].task, "query", "_analyst", Expected(event)[k].description)
  {
    PlanShape(event);
    hide Source, Destination, QueryPlan, FallbackPlan, ThreatLookup, LocationLookup, AssetLookup, BlindLookup, FirstIP;
    var (src, dst) := (Source(event), Destination(event));
    PlanIsLookup(Threat, src);
    PlanIsLookup(Location, src);
    PlanIsLookup(Asset, dst);
    BlindPlan(event);
  }

  lemma PlaybookIsLookup(q: Query, ip: string)
    ensures var l := LookupFor(q, ip);
            PlaybookCommand(q, ip) == CommandSpec(l.playbook, "playbook", Playbook(l.number, l.code), Params(l.key, l.ip))
  {
  }

  lemma VerdictIsLookup(q: Query, ip: string)
    ensures VerdictFor(LookupFor(q, ip).playbook) == LookupFor(q, ip).verdict
  {
    var t, l, a := PlaybookName(Threat), PlaybookName(Location), PlaybookName(Asset);
    assert t[0] == '通' && a[0] == '根' && |t| != |l|;
  }

  lemma ActionIsLookup(q: Query, ip: string)
    requires IsQuad(ip)
    ensures ActionNameForTask(LookupFor(q, ip).task) == LookupFor(q, ip).action
  {
    FrontOfTask(q, ip);
    FrontOfAction(q, ip);
    ActionOfQuery(q, ip);
    QuadHasNoKeyword(ip, Threat);
    QuadHasNoKeyword(ip, Location);
    hide TaskName, Named, ActionNameForTask, LookupFor, Contains;
  }

  lemma CommandIsLookup(event: Event, q: Query, ip: string)
    requires IsQuad(ip)
    ensures var l := LookupFor(q, ip);
            CommandSpecForAction(event, l.action) == CommandSpec(l.playbook, "playbook", Playbook(l.number, l.code), Params(l.key, l.ip))
  {
    FrontOfAction(q, ip);
    QuadHasNoKeyword(ip, Threat);
    QuadHasNoKeyword(ip, Location);
    CommandOfAction(event, q, ip);
    PlaybookIsLookup(q, ip);
    ReadsWhole(ip);
    hide Named, CommandSpecForAction, LookupFor, Contains, PlaybookCommand, IpFromText;
  }

  lemma BlindStages(event: Event)
    requires FirstIP(event) == ""
    ensures var l := BlindLookup(event);
            && ActionNameForTask(l.task) == l.action
            && CommandSpecForAction(event, l.action) == CommandSpec(l.playbook, "playbook", Playbook(l.number, l.code), Params(l.key, l.ip))
            && VerdictFor(l.playbook) == l.verdict
  {
    assert BlindLookup(event).task == FALLBACK_NAME;
    VerdictIsLookup(Asset, "");
    assert ActionNameForTask(FALLBACK_NAME) == FALLBACK_NAME by {
      StageOfFallback();
      FallbackAsksNothing();
      NothingToReplace(FALLBACK_NAME, ASK, Playing(Asset));
    }
    FallbackCommand(event);
    PlaybookIsLookup(Asset, "");
    hide ActionNameForTask, CommandSpecForAction, PlaybookCommand, VerdictFor;
  }

  /** With canonical addresses, or none, each stage of the pipeline produces the expected text. */
  lemma StagesAreExpected(event: Event, k: nat)
    requires Readable(event) && k < |Expected(event)|
    ensures var l := Expected(event)[k];
            && ActionNameForTask(l.task) == l.action
            && CommandSpecForAction(event, l.action) == CommandSpec(l.playbook, "playbook", Playbook(l.number, l.code), Params(l.key, l.ip))
            && VerdictFor(l.playbook) == l.verdict
  {
    hide ActionNameForTask, CommandSpecForAction, VerdictFor, FirstIP, Destination, IsQuad, ThreatLookup, LocationLookup, AssetLookup,
      BlindLookup;
    var (src, dst) := (Source(event), Destination(event));
    if src == "" {
      assert FirstIP(event) == "" by { PlanShape(event); }
      BlindStages(event);
    } else {
      hide Source;
      var (q, ip) := if k == 0 then (Threat, src) else if k == 1 then (Location, src) else (Asset, dst);
      assert Expected(event)[k] == LookupFor(q, ip);
      ActionIsLookup(q, ip);
      CommandIsLookup(event, q, ip);
      VerdictIsLookup(q, ip);
    }
  }

  /** The verdict that goes with a playbook, by its number. */
  ghost predicate Judged(entity: Content, verdict: string) {
    && entity.Playbook?
    && (|| (entity.number == 12316887511154270 && verdict == "suspicious")
        || (entity.number == 12321406690537761 && verdict == "informational")
        || (entity.number == 12321435630187042 && verdict == "asset_context_required"))
  }

  /** For every event and plan, whatever its texts: the command is one of the three playbooks and the verdict
      is that playbook's own. */
  lemma VerdictsFitPlaybooks(event: Event, k: nat)
    requires k < |BuildTaskPlans(event)|
    ensures var spec := Compile(event, BuildTaskPlans(event)[k]);
            spec.kind == "playbook" && Judged(spec.entity, VerdictFor(spec.name))
  {
    hide BuildTaskPlans, Compile, Intended, VerdictFor;
    PlansCompile(event, k);
    var (q, ip) := Intended(event)[k];
    var c := Claimed(q, ip);
    hide Claimed;
    PlaybookIsLookup(c, ParsedBack(event, ip));
    VerdictIsLookup(c, ParsedBack(event, ip));
    hide ParsedBack;
  }

  /** How a priority follows from a severity, letter case and surrounding space aside. */
  ghost predicate Weighs(severity: string, priority: string) {
    var low := ToLower(TrimSpace(severity));
    && (low == "critical" || low == "high" || low == "严重" || low == "高" ==> priority == "high")
    && (low == "low" || low == "低" ==> priority == "low")
    && (priority == "high" ==> low == "critical" || low == "high" || low == "严重" || low == "高")
    && (priority == "low" ==> low == "low" || low == "低")
    && (priority == "high" || priority == "medium" || priority == "low")
  }

  lemma PriorityWeighs(severity: string)
    ensures Weighs(severity, SeverityPriority(severity))
  {
    hide ToLower, TrimSpace;
    assert "high"[0] == 'h' && "medium"[0] == 'm' && "low"[0] == 'l';
  }

  /** The playbooks' own names are not among those names. */
  lemma PlaybooksHoldWords()
    ensures Contains("通用IP地址威胁情报信息查询", "威胁情报") && Contains("根据IP地址查询资产信息", "资产信息")
  {
    ContainsMiddle("通用IP地址", "威胁情报", "信息查询");
    ContainsMiddle("根据IP地址查询", "资产信息", "");
    assert "通用IP地址威胁情报信息查询" == "通用IP地址" + "威胁情报" + "信息查询";
    assert "根据IP地址查询资产信息" == "根据IP地址查询" + "资产信息" + "";
  }

  /** Names without any of the three words, which no plan has, would go to a person, and the verdict too, unless
      the name is that of the location playbook, which lacks its word. */
  lemma OthersGoToAPerson(event: Event, name: string)
    requires !Contains(name, "威胁情报") && !Contains(name, "地理位置") && !Contains(name, "资产信息")
    ensures ActionNameForTask(name) == "人工分析：" + name
    ensures CommandSpecForAction(event, name) == CommandSpec(name, "manual", Person("zhangsan", "张三"), Requirement(event.eventID, name))
    ensures name != "通用IP地址位置查询" ==> VerdictFor(name) == "manual_required"
  {
    PlaybooksHoldWords();
    hide IpFromText, FirstIP, Contains;
  }
}
