/** The planner of internal/service/agents.go: an event becomes task plans, a task name becomes an
    action name, an action name becomes a command. The address a plan is about travels through all
    three as text and is parsed back at the end. */
module Planning {
  import opened Strings
  import opened IpText
  import opened Domain

  datatype TaskPlan = TaskPlan(name: string, kind: string, assignee: string, description: string)

  datatype CommandSpec = CommandSpec(name: string, kind: string, entity: Content, params: Content)

  // -------------------------------------------------------------- observables

  predicate IsIpObservable(item: IOC) { EqualFold(item.kind, "ip") && item.value != "" }

  function FirstWithRole(items: seq<IOC>, role: string): string {
    if items == [] then ""
    else if EqualFold(items[0].role, role) && IsIpObservable(items[0]) then items[0].value
    else FirstWithRole(items[1..], role)
  }

  function FirstObservable(event: Event, roles: seq<string>): string {
    if roles == [] then ""
    else
      var v := FirstWithRole(event.observables, roles[0]);
      if v != "" then v else FirstObservable(event, roles[1..])
  }

  function FirstIpObservable(items: seq<IOC>): string {
    if items == [] then "" else if IsIpObservable(items[0]) then items[0].value else FirstIpObservable(items[1..])
  }

  function FirstIpInTexts(texts: seq<string>): string {
    if texts == [] then ""
    else
      var ip := IpFromText(texts[0]);
      if ip != "" then ip else FirstIpInTexts(texts[1..])
  }

  function FirstIP(event: Event): string {
    var v := FirstIpObservable(event.observables);
    if v != "" then v else FirstIpInTexts([event.message, event.context, event.title, event.name])
  }

  // ------------------------------------------------------------------ planning

  datatype Query = Threat | Location | Asset

  /** The word both later stages dispatch on. */
  function Keyword(q: Query): string {
    match q
    case Threat => "威胁情报"
    case Location => "地理位置"
    case Asset => "资产信息"
  }

  const ASK := "请查询"
  const SUBJECT := "IP地址"
  const OF := "的"

  function Named(front: string, ip: string, q: Query): string { front + SUBJECT + ip + OF + Keyword(q) }

  function TaskName(q: Query, ip: string): string { Named(ASK, ip, q) }

  function Description(q: Query): string {
    match q
    case Threat => "查询标签、历史攻击记录、地理位置、情报来源和置信度，不做处置判断。"
    case Location => "查询攻击源归属地和网络运营商，作为后续研判依据。"
    case Asset => "查询资产类型、所属部门、负责人、业务线和生产/测试环境属性。"
  }

  function QueryPlan(q: Query, ip: string): TaskPlan {
    TaskPlan(TaskName(q, ip), "query", "_analyst", Description(q))
  }

  const FALLBACK_NAME := "请根据事件上下文查询相关攻击源和受影响资产信息"

  function FallbackPlan(event: Event): TaskPlan {
    TaskPlan(FALLBACK_NAME, "query", "_analyst",
             FirstNonEmpty([event.message, event.context, "根据事件上下文完成威胁研判、证据收集和处置建议。"]))
  }

  function Source(event: Event): string {
    var src := FirstObservable(event, ["source"]);
    if src == "" then FirstIP(event) else src
  }

  function Destination(event: Event): string {
    FirstObservable(event, ["destination", "target", "victim", "dst"])
  }

  function BuildTaskPlans(event: Event): seq<TaskPlan> {
    var src := Source(event);
    var dst := Destination(event);
    var plans := (if src != "" then [QueryPlan(Threat, src), QueryPlan(Location, src)] else [])
               + (if dst != "" && dst != src then [QueryPlan(Asset, dst)] else []);
    if plans == [] then [FallbackPlan(event)] else plans
  }

  /** The planner's intention, stated without its text: which queries about which addresses. */
  function Intended(event: Event): seq<(Query, string)> {
    var src := Source(event);
    var dst := Destination(event);
    if src == "" then [(Asset, "")]
    else if dst == "" || dst == src then [(Threat, src), (Location, src)]
    else [(Threat, src), (Location, src), (Asset, dst)]
  }

  function PlaybookName(q: Query): string {
    match q
    case Threat => "通用IP地址威胁情报信息查询"
    case Location => "通用IP地址位置查询"
    case Asset => "根据IP地址查询资产信息"
  }

  function Playing(q: Query): string { "使用剧本【" + PlaybookName(q) + "】查询" }

  /** Both later stages look for the same keywords in the same order. */
  function Stage(name: string): Option<Query> {
    if Contains(name, Keyword(Threat)) then Some(Threat)
    else if Contains(name, Keyword(Location)) then Some(Location)
    else if Contains(name, Keyword(Asset)) then Some(Asset)
    else None
  }

  function ActionNameForTask(name: string): string {
    match Stage(name)
    case Some(q) => ReplaceFirst(name, ASK, Playing(q))
    case None => "人工分析：" + name
  }

  function PlaybookCommand(q: Query, ip: string): CommandSpec {
    match q
    case Threat => CommandSpec(PlaybookName(Threat), "playbook",
                               Playbook(12316887511154270, "General_IP_Threat_Intelligence_Query"), Params("src", ip))
    case Location => CommandSpec(PlaybookName(Location), "playbook",
                                 Playbook(12321406690537761, "General_IP_Location_Query"), Params("src", ip))
    case Asset => CommandSpec(PlaybookName(Asset), "playbook",
                              Playbook(12321435630187042, "query_asset_info_by_ip"), Params("dst", ip))
  }

  function CommandSpecForAction(event: Event, actionName: string): CommandSpec {
    var found := IpFromText(actionName);
    var ip := if found == "" then FirstIP(event) else found;
    match Stage(actionName)
    case Some(q) => PlaybookCommand(q, ip)
    case None => CommandSpec(actionName, "manual", Person("zhangsan", "张三"), Requirement(event.eventID, actionName))
  }

  /** What the whole text pipeline makes of a plan. */
  function Compile(event: Event, plan: TaskPlan): CommandSpec {
    CommandSpecForAction(event, ActionNameForTask(plan.name))
  }

  function SeverityPriority(severity: string): string {
    var s := ToLower(TrimSpace(severity));
    if s in ["critical", "high", "严重", "高"] then "high" else if s in ["low", "低"] then "low" else "medium"
  }

  function VerdictFor(commandName: string): string {
    if commandName == PlaybookName(Threat) then "suspicious"
    else if commandName == PlaybookName(Location) then "informational"
    else if commandName == PlaybookName(Asset) then "asset_context_required"
    else "manual_required"
  }

  // ------------------------------------------- which address an event is about

  /** The tests the lookups make of an observable: an address that is there, in any role or in a given one,
      letter case aside. */
  predicate HoldsAddress(item: IOC) { EqualFold(item.kind, "ip") && item.value != "" }

  function InRole(role: string): IOC -> bool { (item: IOC) => EqualFold(item.role, role) && HoldsAddress(item) }

  /** `v` is the value of the first observable that satisfies the test, or "" when none does. */
  ghost predicate FirstSuch(items: seq<IOC>, test: IOC -> bool, v: string) {
    || (v == "" && forall i :: 0 <= i < |items| ==> !test(items[i]))
    || (v != "" && exists i :: 0 <= i < |items| && test(items[i]) && items[i].value == v
                               && forall j :: 0 <= j < i ==> !test(items[j]))
  }

  lemma {:induction false} FirstSuchNext(items: seq<IOC>, test: IOC -> bool, v: string)
    requires items != [] && (test(items[0]) ==> items[0].value != "")
    requires if test(items[0]) then v == items[0].value else FirstSuch(items[1..], test, v)
    ensures FirstSuch(items, test, v)
  {
    if test(items[0]) {
      assert items[0].value == v;
    } else if v == "" {
      forall i | 0 <= i < |items| ensures !test(items[i]) { if i > 0 { assert !test(items[1..][i - 1]); } }
    } else {
      var rest := items[1..];
      var i :| 0 <= i < |rest| && test(rest[i]) && rest[i].value == v && forall j :: 0 <= j < i ==> !test(rest[j]);
      assert items[i + 1].value == v && test(items[i + 1]);
      forall j | 0 <= j < i + 1 ensures !test(items[j]) { if j > 0 { assert !test(rest[j - 1]); } }
    }
  }

  /** There is only one. */
  lemma {:induction false} FirstSuchUnique(items: seq<IOC>, test: IOC -> bool, v: string, w: string)
    requires FirstSuch(items, test, v) && FirstSuch(items, test, w)
    ensures v == w
  {
  }

  lemma {:induction false} RoleExact(items: seq<IOC>, role: string)
    ensures FirstSuch(items, InRole(role), FirstWithRole(items, role))
  {
    hide EqualFold;
    if items != [] {
      RoleExact(items[1..], role);
      FirstSuchNext(items, InRole(role), FirstWithRole(items, role));
    }
  }

  lemma {:induction false} AnyExact(items: seq<IOC>)
    ensures FirstSuch(items, HoldsAddress, FirstIpObservable(items))
  {
    hide EqualFold;
    if items != [] {
      AnyExact(items[1..]);
      FirstSuchNext(items, HoldsAddress, FirstIpObservable(items));
    }
  }

  /** The source is the first address in the role "source"; failing that the first address of all; failing
      that the first one read out of the message, the context, the title and the name, in this order. */
  lemma SourceExact(event: Event, source: string, any: string)
    requires FirstSuch(event.observables, InRole("source"), source)
    requires FirstSuch(event.observables, HoldsAddress, any)
    ensures Source(event) ==
            if source != "" then source
            else if any != "" then any
            else if IpFromText(event.message) != "" then IpFromText(event.message)
            else if IpFromText(event.context) != "" then IpFromText(event.context)
            else if IpFromText(event.title) != "" then IpFromText(event.title)
            else IpFromText(event.name)
  {
    RoleExact(event.observables, "source");
    AnyExact(event.observables);
    FirstSuchUnique(event.observables, InRole("source"), source, FirstWithRole(event.observables, "source"));
    FirstSuchUnique(event.observables, HoldsAddress, any, FirstIpObservable(event.observables));
    hide FirstSuch, IpFromText, EqualFold, FirstWithRole, FirstIpObservable;
    TextsInOrder(event.message, event.context, event.title, event.name);
    assert FirstObservable(event, ["source"]) == FirstWithRole(event.observables, "source") by { assert ["source"][1..] == []; }
  }

  lemma TextsInOrder(a: string, b: string, c: string, d: string)
    ensures FirstIpInTexts([a, b, c, d]) ==
            if IpFromText(a) != "" then IpFromText(a) else if IpFromText(b) != "" then IpFromText(b)
            else if IpFromText(c) != "" then IpFromText(c) else IpFromText(d)
  {
    hide IpFromText;
    assert [a, b, c, d][1..] == [b, c, d] && [b, c, d][1..] == [c, d] && [c, d][1..] == [d] && [d][1..] == [];
    assert FirstIpInTexts([d]) == IpFromText(d);
    assert FirstIpInTexts([c, d]) == if IpFromText(c) != "" then IpFromText(c) else IpFromText(d);
  }

  /** The destination is the first address in the first of four roles that has one. */
  lemma DestinationExact(event: Event, destination: string, target: string, victim: string, dst: string)
    requires FirstSuch(event.observables, InRole("destination"), destination)
    requires FirstSuch(event.observables, InRole("target"), target)
    requires FirstSuch(event.observables, InRole("victim"), victim)
    requires FirstSuch(event.observables, InRole("dst"), dst)
    ensures Destination(event) ==
            if destination != "" then destination else if target != "" then target else if victim != "" then victim else dst
  {
    RoleIs(event.observables, "destination", destination);
    RoleIs(event.observables, "target", target);
    RoleIs(event.observables, "victim", victim);
    RoleIs(event.observables, "dst", dst);
    hide FirstSuch, InRole, FirstWithRole;
    RolesInOrder(event, "destination", "target", "victim", "dst");
  }

  lemma RoleIs(items: seq<IOC>, role: string, v: string)
    requires FirstSuch(items, InRole(role), v)
    ensures FirstWithRole(items, role) == v
  {
    RoleExact(items, role);
    FirstSuchUnique(items, InRole(role), v, FirstWithRole(items, role));
  }

  lemma RolesInOrder(event: Event, a: string, b: string, c: string, d: string)
    ensures var (u, v, w) := (FirstWithRole(event.observables, a), FirstWithRole(event.observables, b), FirstWithRole(event.observables, c));
            FirstObservable(event, [a, b, c, d]) ==
            if u != "" then u else if v != "" then v else if w != "" then w else FirstWithRole(event.observables, d)
  {
    hide FirstWithRole;
    assert [a, b, c, d][1..] == [b, c, d] && [b, c, d][1..] == [c, d] && [c, d][1..] == [d] && [d][1..] == [];
    assert FirstObservable(event, [d]) == FirstWithRole(event.observables, d);
    assert FirstObservable(event, [c, d]) ==
           if FirstWithRole(event.observables, c) != "" then FirstWithRole(event.observables, c) else FirstWithRole(event.observables, d);
  }

  // ------------------------------------------------------- shape of the plans

  lemma {:induction false} RoleValueIsIp(items: seq<IOC>, role: string)
    ensures FirstWithRole(items, role) != "" ==> FirstIpObservable(items) != ""
  {
    if items != [] { RoleValueIsIp(items[1..], role); }
  }

  lemma {:induction false} ObservableIsIp(event: Event, roles: seq<string>)
    ensures FirstObservable(event, roles) != "" ==> FirstIP(event) != ""
  {
    if roles != [] {
      RoleValueIsIp(event.observables, roles[0]);
      ObservableIsIp(event, roles[1..]);
    }
  }

  /** One to three plans; one exactly when the event mentions no address at all; a destination never
      comes without a source; and the names are those of the intended queries. */
  lemma PlanShape(event: Event)
    ensures 1 <= |BuildTaskPlans(event)| <= 3
    ensures |BuildTaskPlans(event)| == 1 <==> FirstIP(event) == ""
    ensures Destination(event) != "" ==> Source(event) != ""
    ensures |Intended(event)| == |BuildTaskPlans(event)|
    ensures FirstIP(event) != "" ==>
              forall k :: 0 <= k < |BuildTaskPlans(event)| ==>
                BuildTaskPlans(event)[k].name == TaskName(Intended(event)[k].0, Intended(event)[k].1)
    ensures FirstIP(event) == "" ==> BuildTaskPlans(event)[0].name == FALLBACK_NAME
  {
    ObservableIsIp(event, ["source"]);
    ObservableIsIp(event, ["destination", "target", "victim", "dst"]);
  }

  // -------------------------------------------- what each stage makes of a name

  /** The first stage that claims a name carrying `q` about `ip`: an earlier keyword inside the
      address text itself takes the name away from its own stage. */
  function Claimed(q: Query, ip: string): Query {
    if q == Threat || Contains(ip, Keyword(Threat)) then Threat
    else if q == Location || Contains(ip, Keyword(Location)) then Location
    else Asset
  }

  /** The words in front of the address never decide the dispatch on an earlier keyword. */
  lemma FrontWords(front: string, q: Query, k: Query)
    requires front == ASK || (front == Playing(q) && q != Threat)
    requires k == Threat || (k == Location && q == Asset)
    ensures var a := front + SUBJECT; a != "" && a[|a| - 1] !in Keyword(k) && !Contains(a, Keyword(k))
  {
    var a := front + SUBJECT;
    assert a[|a| - 1] == SUBJECT[3] == '址';
    MissingChar(a, Keyword(k), if k == Threat then 0 else 1);
  }

  lemma BackWords(q: Query, k: Query)
    requires q != k && k != Asset
    ensures var b := OF + Keyword(q); b != "" && b[0] !in Keyword(k) && !Contains(b, Keyword(k))
  {
    MissingChar(OF + Keyword(q), Keyword(k), 0);
  }

  lemma Regroup(a: string, b: string, x: string, c: string, d: string)
    ensures a + b + x + c + d == a + (b + x + c + d)
    ensures a + b + x + c + d == (a + b) + x + (c + d)
    ensures a + b + x + c + d == (a + b + x + c) + d + ""
    ensures a + b + x + c + d == "" + a + (b + x + c + d)
  {
  }

  /** Dispatching on a name goes to the stage that claims it. */
  lemma StageOfName(front: string, ip: string, q: Query)
    requires front == ASK || (front == Playing(Claimed(q, ip)) && Claimed(q, ip) != Threat)
    ensures Stage(Named(front, ip, q)) == Some(Claimed(q, ip))
  {
    var s := Named(front, ip, q);
    Regroup(front, SUBJECT, ip, OF, Keyword(q));
    ContainsMiddle(front + SUBJECT + ip + OF, Keyword(q), "");
    if q != Threat {
      FrontWords(front, Claimed(q, ip), Threat);
      BackWords(q, Threat);
      ContainsWithinFrame(front + SUBJECT, ip, OF + Keyword(q), Keyword(Threat));
      if q == Asset && Claimed(q, ip) == Asset {
        FrontWords(front, Asset, Location);
        BackWords(q, Location);
        ContainsWithinFrame(front + SUBJECT, ip, OF + Keyword(q), Keyword(Location));
      }
      if q == Asset && Claimed(q, ip) == Location {
        ContainsKept(front + SUBJECT, ip, OF + Keyword(q), Keyword(Location));
      }
    }
  }

  /** A name that plays the reputation playbook names it. */
  lemma StageOfThreat(ip: string, q: Query)
    ensures Stage(Named(Playing(Threat), ip, q)) == Some(Threat)
  {
    var front := Playing(Threat);
    ContainsMiddle("使用剧本【通用IP地址", Keyword(Threat), "信息查询】查询");
    assert front == "使用剧本【通用IP地址" + Keyword(Threat) + "信息查询】查询";
    Regroup(front, SUBJECT, ip, OF, Keyword(q));
    ContainsKept("", front, SUBJECT + ip + OF + Keyword(q), Keyword(Threat));
  }

  lemma ReplacesPrefix(pat: string, rest: string, fill: string)
    ensures ReplaceFirst(pat + rest, pat, fill) == fill + rest
  {
    assert pat <= pat + rest;
    assert (pat + rest)[|pat|..] == rest;
  }

  lemma ActionOfQuery(q: Query, ip: string)
    ensures ActionNameForTask(TaskName(q, ip)) == Named(Playing(Claimed(q, ip)), ip, q)
  {
    var c := Claimed(q, ip);
    StageOfName(ASK, ip, q);
    Regroup(ASK, SUBJECT, ip, OF, Keyword(q));
    ReplacesPrefix(ASK, SUBJECT + ip + OF + Keyword(q), Playing(c));
    Regroup(Playing(c), SUBJECT, ip, OF, Keyword(q));
  }

  /** The parameter the text pipeline ends up with for a plan about `ip`. */
  function ParsedBack(event: Event, ip: string): string {
    if IpFromText(ip) == "" then FirstIP(event) else IpFromText(ip)
  }

  lemma NoAddressInWords(stage: Query, q: Query)
    ensures var a := Playing(stage) + SUBJECT; forall i :: 0 <= i < |a| ==> !IsIpChar(a[i])
    ensures var b := OF + Keyword(q); forall i :: 0 <= i < |b| ==> !IsIpChar(b[i])
  {
  }

  lemma ReadsActionName(stage: Query, ip: string, q: Query)
    ensures IpFromText(Named(Playing(stage), ip, q)) == IpFromText(ip)
  {
    NoAddressInWords(stage, q);
    IpFromFramedText(Playing(stage) + SUBJECT, ip, OF + Keyword(q));
    Regroup(Playing(stage), SUBJECT, ip, OF, Keyword(q));
  }

  lemma CommandOfAction(event: Event, q: Query, ip: string)
    ensures CommandSpecForAction(event, Named(Playing(Claimed(q, ip)), ip, q))
            == PlaybookCommand(Claimed(q, ip), ParsedBack(event, ip))
  {
    var c := Claimed(q, ip);
    ReadsActionName(c, ip, q);
    if c == Threat { StageOfThreat(ip, q); } else { StageOfName(Playing(c), ip, q); }
  }

  lemma StageOfFallback()
    ensures Stage(FALLBACK_NAME) == Some(Asset)
  {
    MissingChar(FALLBACK_NAME, Keyword(Threat), 0);
    MissingChar(FALLBACK_NAME, Keyword(Location), 0);
    ContainsMiddle("请根据事件上下文查询相关攻击源和受影响", Keyword(Asset), "");
    assert FALLBACK_NAME == "请根据事件上下文查询相关攻击源和受影响" + Keyword(Asset) + "";
  }

  lemma FallbackWords()
    ensures forall i :: 0 <= i < |FALLBACK_NAME| ==> !IsIpChar(FALLBACK_NAME[i])
  {
  }

  lemma FallbackAsksNothing()
    ensures !Contains(FALLBACK_NAME, ASK)
  {
    var name := FALLBACK_NAME;
    assert name[0] == ASK[0] && name[1] != ASK[1];
    assert forall i :: 1 <= i < |name| ==> name[i] != ASK[0];
    if i: nat :| i <= |name| && OccursAt(name, ASK, i) {
      OccurrenceChar(name, ASK, i, 0);
      OccurrenceChar(name, ASK, i, 1);
    }
  }

  lemma {:induction false} NothingToReplace(s: string, pat: string, fill: string)
    requires !Contains(s, pat)
    ensures ReplaceFirst(s, pat, fill) == s
  {
    assert pat <= s ==> OccursAt(s, pat, 0);
    if s != "" {
      assert [s[0]] + s[1..] + "" == s;
      if Contains(s[1..], pat) { ContainsKept([s[0]], s[1..], "", pat); }
      NothingToReplace(s[1..], pat, fill);
    }
  }

  lemma FallbackCommand(event: Event)
    requires FirstIP(event) == ""
    ensures Compile(event, FallbackPlan(event)) == PlaybookCommand(Asset, "")
  {
    StageOfFallback();
    FallbackAsksNothing();
    NothingToReplace(FALLBACK_NAME, ASK, Playing(Asset));
    FallbackWords();
    NoFields(FALLBACK_NAME);
  }

  // ------------------------------------------------------------- main results

  /** For every event and every plan, whatever text the observables hold: the pipeline ends in a
      playbook, never in the manual branch; which playbook and which parameter is given exactly. */
  lemma PlansCompile(event: Event, k: nat)
    requires k < |BuildTaskPlans(event)|
    ensures |Intended(event)| == |BuildTaskPlans(event)|
    ensures var (q, ip) := Intended(event)[k];
            Compile(event, BuildTaskPlans(event)[k]) == PlaybookCommand(Claimed(q, ip), ParsedBack(event, ip))
  {
    PlanShape(event);
    var (q, ip) := Intended(event)[k];
    if FirstIP(event) == "" {
      FallbackCommand(event);
      MissingChar("", Keyword(Threat), 0);
      MissingChar("", Keyword(Location), 0);
    } else {
      ActionOfQuery(q, ip);
      CommandOfAction(event, q, ip);
    }
  }

  /** Meaning is preserved exactly for plans whose address text holds no earlier keyword and is either
      a dotted quad, or holds no dotted quad while being the event's own first address. */
  lemma PlanKeepsMeaning(event: Event, k: nat)
    requires k < |BuildTaskPlans(event)|
    ensures |Intended(event)| == |BuildTaskPlans(event)|
    ensures var (q, ip) := Intended(event)[k];
            Compile(event, BuildTaskPlans(event)[k]) == PlaybookCommand(q, ip) <==>
              && (q != Threat ==> !Contains(ip, Keyword(Threat)))
              && (q == Asset ==> !Contains(ip, Keyword(Location)))
              && (IsQuad(ip) || (IpFromText(ip) == "" && FirstIP(event) == ip))
  {
    PlansCompile(event, k);
    var (q, ip) := Intended(event)[k];
    if ip != "" { ReadsWhole(ip); } else { assert !IsQuad("") by { assert Split("", '.') == [""]; } }
    if IsQuad(ip) { QuadChars(ip); }
  }

  lemma QuadHasNoKeyword(ip: string, q: Query)
    requires IsQuad(ip)
    ensures !Contains(ip, Keyword(q))
  {
    QuadChars(ip);
    MissingChar(ip, Keyword(q), 0);
  }

  /** In particular, when the source and the destination are canonical IPv4 texts every plan becomes
      its own playbook, asking about exactly the plan's address. */
  lemma CanonicalAddressesSurvive(event: Event, k: nat)
    requires k < |BuildTaskPlans(event)|
    requires IsQuad(Source(event))
    requires Destination(event) == "" || IsQuad(Destination(event))
    ensures |Intended(event)| == |BuildTaskPlans(event)|
    ensures Compile(event, BuildTaskPlans(event)[k]) == PlaybookCommand(Intended(event)[k].0, Intended(event)[k].1)
  {
    PlanKeepsMeaning(event, k);
    QuadChars(Source(event));
    var (q, ip) := Intended(event)[k];
    QuadHasNoKeyword(ip, Threat);
    QuadHasNoKeyword(ip, Location);
  }

  /** A source without a dotted quad, such as the IPv6 address `ff::a`, is not read back: listed after
      a destination, its reputation query is sent out about the destination. */
  lemma UnreadableSourceIsMisdirected(src: string, dst: string)
    requires src != "" && IpFromText(src) == "" && dst != ""
    ensures var event := ZERO_EVENT.(observables := [IOC("ip", dst, "destination"), IOC("ip", src, "source")]);
            && Intended(event)[0] == (Threat, src)
            && Compile(event, BuildTaskPlans(event)[0]) == PlaybookCommand(Threat, dst)
  {
    var items := [IOC("ip", dst, "destination"), IOC("ip", src, "source")];
    var event := ZERO_EVENT.(observables := items);
    assert items[1..][0] == items[1];
    assert |"destination"| != |"source"|;
    assert FirstWithRole(items, "source") == src;
    PlansCompile(event, 0);
  }

  lemma Ipv6SourceExample()
    ensures IpFromText("ff::a") == ""
  {
    NoFields("ff::a");
  }
}
