/** Taking in events: `ProcessLyEvent` and `CreateEventFromRequest` (internal/service/services.go) as
    calls that take turns on one store, one critical section a turn. */
module Ingest {
  import opened Json
  import opened Strings
  import opened Domain
  import opened IpText
  import opened Planning
  import opened StoreModel
  import Workflow

  // ------------------------------------------------------------------- records

  const DIGEST_LENGTH := 64
  const EVENT_ID_DIGITS := 16

  /** A SHA-256 sum in hexadecimal; which one a record has is left open. */
  type Digest = s: string | |s| == DIGEST_LENGTH witness seq(DIGEST_LENGTH, _ => '0')

  datatype LyRecord = LyRecord(fp: Digest, lyID: string, eventID: string, time: string, key: string, source: string,
                               target: string, rule: string, eventType: string, level: string, detection: string,
                               context: string)

  function Severity(level: string): string {
    match level
    case "极高" => "high"
    case "高" => "high"
    case "中" => "medium"
    case "低" => "low"
    case _ => "medium"
  }

  function LyEventToDeepSOC(ly: LyRecord): Event {
    var title := ly.rule + " (" + ly.eventType + ")";
    Event(0, Text(ly.eventID), title, title,
          "SIEM告警：检测到 " + ly.source + " 对 " + ly.target + " 发起 " + ly.rule + " 攻击，检测方式：" + ly.detection,
          ly.context, "FlowShadow", Severity(ly.level), "Network Threat", "pending", 0,
          [IOC("ip", ly.source, "source"), IOC("ip", ly.target, "destination")])
  }

  /** The event created here, when there is no upstream. */
  function LocalEvent(ly: LyRecord): Event {
    var payload := LyEventToDeepSOC(ly);
    if ly.eventID == "" then payload.(eventID := Text("ly-" + ly.fp[..EVENT_ID_DIGITS])) else payload
  }

  lemma LocalEventIsNamed(ly: LyRecord)
    ensures LocalEvent(ly).eventID.Text? && LocalEvent(ly).eventID != NO_ID
  {
    hide Severity;
    assert |"ly-" + ly.fp[..EVENT_ID_DIGITS]| > 0;
  }

  lemma PayloadAddresses(ly: LyRecord)
    ensures Destination(LocalEvent(ly)) == ly.target
    ensures Source(LocalEvent(ly)) == if ly.source != "" then ly.source else FirstIP(LocalEvent(ly))
  {
    hide Severity, FirstIP;
    var event := LocalEvent(ly);
    RolesDiffer();
    hide EqualFold;
    RoleOfTwo(ly.source, ly.target);
    FirstRole(event, ["source"]);
    FirstRole(event, ["destination", "target", "victim", "dst"]);
    FirstRole(event, ["target", "victim", "dst"]);
    FirstRole(event, ["victim", "dst"]);
    FirstRole(event, ["dst"]);
  }

  lemma RoleOfTwo(source: string, target: string)
    ensures var items := [IOC("ip", source, "source"), IOC("ip", target, "destination")];
            forall role :: FirstWithRole(items, role) ==
              if EqualFold("source", role) && source != "" then source
              else if EqualFold("destination", role) && target != "" then target else ""
  {
    var items := [IOC("ip", source, "source"), IOC("ip", target, "destination")];
    assert EqualFold("ip", "ip");
    hide EqualFold;
    assert items[1..] == [items[1]] && items[1..][1..] == [];
    forall role ensures FirstWithRole(items, role) ==
        if EqualFold("source", role) && source != "" then source
        else if EqualFold("destination", role) && target != "" then target else "" {
      assert FirstWithRole(items[1..], role) == if EqualFold("destination", role) && target != "" then target else "";
    }
  }

  lemma RolesDiffer()
    ensures EqualFold("source", "source") && EqualFold("destination", "destination")
    ensures !EqualFold("source", "destination") && !EqualFold("destination", "source")
    ensures forall role :: role in ["target", "victim", "dst"] ==> !EqualFold("source", role) && !EqualFold("destination", role)
  {
    assert |"source"| == 6 && |"destination"| == 11 && |"target"| == 6 && |"victim"| == 6 && |"dst"| == 3;
    assert "source"[0] == 's' && "target"[0] == 't' && "victim"[0] == 'v';
  }

  lemma FirstRole(event: Event, roles: seq<string>)
    requires roles != []
    ensures FirstObservable(event, roles) ==
            if FirstWithRole(event.observables, roles[0]) != "" then FirstWithRole(event.observables, roles[0])
            else FirstObservable(event, roles[1..])
  {
  }

  /** From the record to the playbook: canonical addresses of a record are what the playbooks planned for
      its event are run with. */
  lemma RecordAddressesReachPlaybooks(ly: LyRecord, k: nat)
    requires IsQuad(ly.source) && (ly.target == "" || IsQuad(ly.target))
    requires k < |BuildTaskPlans(LocalEvent(ly))|
    ensures var asked := [(Threat, ly.source), (Location, ly.source)]
                         + (if ly.target != "" && ly.target != ly.source then [(Asset, ly.target)] else []);
            && |asked| == |BuildTaskPlans(LocalEvent(ly))|
            && Compile(LocalEvent(ly), BuildTaskPlans(LocalEvent(ly))[k]) == PlaybookCommand(asked[k].0, asked[k].1)
  {
    hide Severity, Compile, BuildTaskPlans, PlaybookCommand, FirstObservable, FirstIP;
    PayloadAddresses(ly);
    assert ly.source != "" by { QuadChars(ly.source); }
    hide IsQuad;
    CanonicalAddressesSurvive(LocalEvent(ly), k);
  }

  // ------------------------------------------------------------------ requests

  function Observable(m: Fields): IOC { IOC(TextAt(m, "type"), TextAt(m, "value"), TextAt(m, "role")) }

  /** The objects among the items, in order. */
  function Observables(items: seq<Value>): seq<IOC> {
    if items == [] then []
    else
      var last := items[|items| - 1];
      Observables(items[..|items| - 1]) + (if last.Obj? then [Observable(last.fields)] else [])
  }

  /** The event a request body asks for; without an identifier one is drawn. */
  function RequestedEvent(body: Fields): Event {
    Event(0, Text(TextAt(body, "event_id")), FirstNonEmpty([TextAt(body, "event_name"), TextAt(body, "title")]),
          TextAt(body, "title"), TextAt(body, "message"), TextAt(body, "context"),
          FirstNonEmpty([TextAt(body, "source"), "manual"]), FirstNonEmpty([TextAt(body, "severity"), "medium"]),
          TextAt(body, "category"), "pending", 0,
          if "observables" in body && body["observables"].Arr? then Observables(body["observables"].items) else [])
  }

  lemma FirstOfTwo(a: string, b: string)
    ensures FirstNonEmpty([a, b]) == if a != "" then a else b
  {
    assert [a, b][1..] == [b] && [b][1..] == [];
    assert FirstNonEmpty([b]) == b by { assert FirstNonEmpty([]) == ""; }
  }

  /** The store has no default left to fill in but the identifier and the round. */
  lemma RequestIsComplete(st: Store, body: Fields)
    ensures var (asked, row) := (RequestedEvent(body), EventRow(st, RequestedEvent(body)));
            row == asked.(id := st.eventSeq + 1, eventID := row.eventID, round := 1)
            && row.eventID == (if TextAt(body, "event_id") == "" then Drawn(st.draws) else Text(TextAt(body, "event_id")))
            && row.source != "" && row.severity != ""
  {
    hide Observables, TextAt, FirstNonEmpty;
    FirstOfTwo(TextAt(body, "source"), "manual");
    FirstOfTwo(TextAt(body, "severity"), "medium");
    assert "manual" != "" && "medium" != "";
  }

  // --------------------------------------------------------------------- calls

  /** The identifier in an upstream reply. */
  function ExtractEventID(reply: Fields): string {
    if TextAt(reply, "event_id") != "" then TextAt(reply, "event_id")
    else if TextAt(reply, "id") != "" then TextAt(reply, "id")
    else if "data" in reply && reply["data"].Obj? then
      FirstNonEmpty([TextAt(reply["data"].fields, "event_id"), TextAt(reply["data"].fields, "id")])
    else ""
  }

  /** The upstream service: its answer to one event, or an error. */
  datatype Answer = Accepted(reply: Fields) | Refused

  /** What a call returns: an error, or an event identifier. */
  datatype Outcome = Failure | Created(id: ID) | Duplicate(id: ID)

  datatype Stage = Reserving | Rereading | Creating | Binding(id: ID) | Announcing(id: ID) | Answered(outcome: Outcome)

  /** A pushed record, or an event requested by hand; a call that is never stepped again has crashed. */
  datatype Call = Push(ly: LyRecord, at: Stage) | Manual(event: Event, at: Stage)

  function At(call: Call, stage: Stage): Call {
    if call.Push? then Push(call.ly, stage) else Manual(call.event, stage)
  }

  function Notification(e: ID): Message {
    Message(0, NO_ID, e, SYSTEM, "system_notification", Plain("系统创建了安全事件"), 1, "agent", "system")
  }

  /** One turn of a call: at most one critical section of the store. */
  function Step(upstream: bool, st: Store, call: Call, answer: Answer): (res: (Store, Stage))
  {
    match call.at
    case Reserving =>
      if call.Push? && call.ly.fp in st.eventMaps then (st, Rereading)
      else if call.Push? then (ReserveFingerprint(st, call.ly.fp), Creating)
      else (st, if call.event.message == "" then Answered(Failure) else Creating)
    case Rereading =>
      (st, Answered(if call.Push? then Duplicate(BoundID(st, call.ly.fp)) else Failure))
    case Creating =>
      if call.Push? && upstream then (st, if answer.Refused? then Answered(Failure) else Binding(Text(ExtractEventID(answer.reply))))
      else
        var e := if call.Push? then LocalEvent(call.ly) else call.event;
        var id := EventRow(st, e).eventID;
        (CreateEvent(st, e),
         if id in st.events then Answered(Failure) else if call.Push? then Binding(id) else Announcing(id))
    case Binding(id) =>
      (if call.Push? then BindEventMap(st, call.ly.fp, call.ly.lyID, id) else st,
       if call.Push? && upstream then Answered(Created(id)) else Announcing(id))
    case Announcing(id) => (AddMessage(st, Notification(id)), Answered(Created(id)))
    case Answered(_) => (st, call.at)
  }

  /** The step that creates an event, here or upstream. */
  predicate CreatesOrForwards(call: Call) { call.Push? && call.at == Creating }

  /** What the call created, once it has. */
  function Made(call: Call): ID {
    match call.at
    case Binding(id) => id
    case Announcing(id) => id
    case Answered(Created(id)) => id
    case _ => NO_ID
  }

  // -------------------------------------------------------------------- worlds

  /** The store, the calls so far, and the fingerprints for which something was created or forwarded. */
  datatype World = World(st: Store, calls: seq<Call>, tried: seq<Digest>)

  /** A call arrives, a call takes its turn, or a workflow run does something to the store. */
  datatype Label = Pushed(ly: LyRecord) | Requested(event: Event) | Turn(k: nat, answer: Answer) | Elsewhere(e: ID, op: Workflow.Op)

  function Next(upstream: bool, w: World, l: Label): World {
    match l
    case Pushed(ly) => w.(calls := w.calls + [Push(ly, Reserving)])
    case Requested(event) => w.(calls := w.calls + [Manual(event, Reserving)])
    case Turn(k, answer) =>
      if k >= |w.calls| then w
      else
        var call := w.calls[k];
        var (st', at') := Step(upstream, w.st, call, answer);
        World(st', w.calls[k := At(call, at')], if CreatesOrForwards(call) then w.tried + [call.ly.fp] else w.tried)
    case Elsewhere(e, op) => w.(st := Workflow.Apply(w.st, e, op))
  }

  function Execute(upstream: bool, w: World, labels: seq<Label>): World {
    if labels == [] then w else Next(upstream, Execute(upstream, w, labels[..|labels| - 1]), labels[|labels| - 1])
  }

  /** Nothing taken in yet; events there may be, with an identifier each. */
  predicate Initial(w: World) { w.calls == [] && w.tried == [] && w.st.eventMaps == map[] && NO_ID !in w.st.events }
}
