/** What taking in an event leaves behind, field by field: the event of a pushed record, the event of a request
    body, the identifier an upstream reply is bound to. */
module Intake {
  import opened Json
  import opened Strings
  import opened IpText
  import opened Domain
  import opened Planning
  import opened Lookups
  import opened StoreModel
  import opened Ingest
  import opened Sync

  // ------------------------------------------------------------ an upstream reply

  /** A reply without an identifier at the top may carry one in its data. */
  ghost predicate DataNames(reply: Fields, key: string, id: string) {
    "data" in reply && reply["data"].Obj? && TextAt(reply["data"].fields, key) == id
  }

  /** The event that an accepted push is bound to and answers with: the text at `event_id`, or else at `id`, or
      else at the same keys of the reply's data, in this order; empty when all of these are. */
  lemma UpstreamNamesTheEvent(up: Upstream, st: Store, asked: nat, ly: LyRecord)
    requires up.On? && up.answer(asked).Accepted? && ly.fp !in st.eventMaps
    ensures var (reply, st', outcome) := (up.answer(asked).reply, Process(up, st, asked, ly).0, Process(up, st, asked, ly).2);
            && outcome.Created? && outcome.id.Text? && BoundID(st', ly.fp) == outcome.id
            && var id := outcome.id.s;
            && (TextAt(reply, "event_id") != "" ==> id == TextAt(reply, "event_id"))
            && (TextAt(reply, "event_id") == "" && TextAt(reply, "id") != "" ==> id == TextAt(reply, "id"))
            && (TextAt(reply, "event_id") == TextAt(reply, "id") == "" ==>
                  && (id != "" ==> DataNames(reply, "event_id", id) || (DataNames(reply, "event_id", "") && DataNames(reply, "id", id)))
                  && (id == "" ==> ("data" in reply && reply["data"].Obj? ==> DataNames(reply, "event_id", "") && DataNames(reply, "id", ""))))
  {
    ProcessEnds(up, st, asked, ly);
    var reply := up.answer(asked).reply;
    if "data" in reply && reply["data"].Obj? {
      FirstOfTwo(TextAt(reply["data"].fields, "event_id"), TextAt(reply["data"].fields, "id"));
    }
    hide Process, LocalEvent, CreateEvent, AddMessage, Notification, TextAt, FirstNonEmpty;
  }

  // ------------------------------------------------------------- a pushed record

  /** How a level is graded. */
  ghost predicate Graded(level: string, severity: string) {
    && (level == "极高" || level == "高" ==> severity == "high")
    && (level == "低" ==> severity == "low")
    && (level != "极高" && level != "高" && level != "低" ==> severity == "medium")
  }

  lemma SeverityGrades(level: string)
    ensures Graded(level, Severity(level)) && Severity(level) != ""
  {
  }

  /** The one message that announces an event. */
  ghost predicate Announces(m: Message, e: ID) {
    && m.eventID == e && m.from == "system" && m.kind == "system_notification" && m.round == 1 && m.category == "agent"
    && m.senderType == "system" && m.content == Plain("系统创建了安全事件")
  }

  lemma NotificationAnnounces(st: Store, e: ID)
    ensures Announces(MessageRow(st, Notification(e)), e)
  {
    assert IsRole(SYSTEM);
    RolesAreNormal(SYSTEM);
    hide NormalizeMessageFrom;
  }

  lemma RecordFields(ly: LyRecord)
    ensures var e := LocalEvent(ly);
            && e.eventID == Text(if ly.eventID != "" then ly.eventID else "ly-" + ly.fp[..16])
            && e.name == ly.rule + " (" + ly.eventType + ")" && e.title == e.name
            && e.message == "SIEM告警：检测到 " + ly.source + " 对 " + ly.target + " 发起 " + ly.rule + " 攻击，检测方式：" + ly.detection
            && e.context == ly.context && e.source == "FlowShadow" && Graded(ly.level, e.severity) && e.category == "Network Threat"
            && e.status == "pending" && e.round == 0
            && e.observables == [IOC("ip", ly.source, "source"), IOC("ip", ly.target, "destination")]
            && e.severity != ""
  {
    SeverityGrades(ly.level);
    hide Severity, Graded;
  }

  lemma EventKept(st: Store, e: Event)
    requires e.eventID != NO_ID && e.severity != "" && e.source != "" && e.status != ""
    ensures EventRow(st, e) == e.(id := st.eventSeq + 1, round := if e.round == 0 then 1 else e.round)
  {
  }

  /** A record pushed with no upstream, under a new fingerprint and a free identifier: the event, its binding
      and its announcement, and nothing else. */
  lemma PushStores(st: Store, asked: nat, ly: LyRecord)
    requires ly.fp !in st.eventMaps && LocalEvent(ly).eventID !in st.events
    ensures var (st', asked', outcome) := Process(Off, st, asked, ly);
            var id := Text(if ly.eventID != "" then ly.eventID else "ly-" + ly.fp[..16]);
            && outcome == Created(id) && asked' == asked && id in st'.events
            && st'.events == st.events[id := st'.events[id]]
            && st'.eventMaps == st.eventMaps[ly.fp := EventMap(ly.fp, ly.lyID, id)]
            && |st'.messages| == |st.messages| + 1 && st'.messages[..|st.messages|] == st.messages
            && Announces(st'.messages[|st.messages|], id)
            && st' == st.(draws := st'.draws, eventSeq := st.eventSeq + 1, events := st'.events, eventMaps := st'.eventMaps, messages := st'.messages)
            && var e := st'.events[id];
            && e.eventID == id && e.id == st.eventSeq + 1 && e.name == ly.rule + " (" + ly.eventType + ")" && e.title == e.name
            && e.message == "SIEM告警：检测到 " + ly.source + " 对 " + ly.target + " 发起 " + ly.rule + " 攻击，检测方式：" + ly.detection
            && e.context == ly.context && e.source == "FlowShadow" && Graded(ly.level, e.severity) && e.category == "Network Threat"
            && e.status == "pending" && e.round == 1
            && e.observables == [IOC("ip", ly.source, "source"), IOC("ip", ly.target, "destination")]
  {
    ProcessEnds(Off, st, asked, ly);
    LocalEventIsNamed(ly);
    RecordFields(ly);
    hide Process, LocalEvent, Severity, Graded, NormalizeMessage, Announces, Notification;
    var e := LocalEvent(ly);
    var st1 := BindEventMap(CreateEvent(ReserveFingerprint(st, ly.fp), e), ly.fp, ly.lyID, e.eventID);
    EventKept(ReserveFingerprint(st, ly.fp), e);
    NotificationAnnounces(st1, e.eventID);
    AboutTheEvent(e.eventID);
    hide MessageRow, EventRow;
  }

  lemma AboutTheEvent(e: ID)
    ensures Notification(e).eventID == e && Notification(e).messageID == NO_ID
  {
  }

  // -------------------------------------------------------------- a request body

  /** Where the objects are among the items: nothing else is decoded. */
  ghost predicate Picks(items: seq<Value>, at: seq<nat>) {
    && (forall k :: 0 <= k < |at| ==> at[k] < |items| && items[at[k]].Obj?)
    && (forall k, l :: 0 <= k < l < |at| ==> at[k] < at[l])
    && (forall i: nat :: i < |items| && items[i].Obj? ==> i in at)
  }

  /** The observable has the texts at the keys of the object. */
  ghost predicate ReadFrom(item: Value, o: IOC) {
    && item.Obj? && o.kind == TextAt(item.fields, "type") && o.value == TextAt(item.fields, "value")
    && o.role == TextAt(item.fields, "role")
  }

  /** Each observable is read from its own object. */
  ghost predicate Decoded(items: seq<Value>, at: seq<nat>, observables: seq<IOC>) {
    Picks(items, at) && |observables| == |at| && forall k :: 0 <= k < |at| ==> at[k] < |items| && ReadFrom(items[at[k]], observables[k])
  }

  lemma {:induction false} PicksSnoc(items: seq<Value>, at: seq<nat>)
    requires items != [] && Picks(items[..|items| - 1], at)
    ensures Picks(items, if items[|items| - 1].Obj? then at + [|items| - 1] else at)
  {
    var n := |items| - 1;
    var at' := if items[n].Obj? then at + [n] else at;
    forall i: nat | i < |items| && items[i].Obj? ensures i in at' {
      if i < n { assert items[..n][i].Obj?; } else { assert at'[|at|] == n; }
    }
  }

  lemma {:induction false} ObservablesDecoded(items: seq<Value>) returns (at: seq<nat>)
    ensures Decoded(items, at, Observables(items))
  {
    if items == [] {
      at := [];
    } else {
      var n := |items| - 1;
      var before := ObservablesDecoded(items[..n]);
      assert items[..n] + [items[n]] == items;
      if items[n].Obj? {
        at := before + [n];
        DecodedMore(items[..n], before, Observables(items[..n]), items[n], Observable(items[n].fields));
      } else {
        at := before;
        DecodedSame(items[..n], before, Observables(items[..n]), items[n]);
      }
      hide Decoded, Observable;
    }
  }

  lemma {:induction false} DecodedMore(items: seq<Value>, at: seq<nat>, before: seq<IOC>, last: Value, o: IOC)
    requires Decoded(items, at, before) && ReadFrom(last, o)
    ensures Decoded(items + [last], at + [|items|], before + [o])
  {
    var items', at', after := items + [last], at + [|items|], before + [o];
    assert items'[..|items|] == items && last.Obj?;
    PicksSnoc(items', at);
    hide Picks, ReadFrom;
    forall k | 0 <= k < |at'| ensures at'[k] < |items'| && ReadFrom(items'[at'[k]], after[k]) {
      if k < |at| { assert items'[at[k]] == items[at[k]] && after[k] == before[k]; }
    }
  }

  lemma {:induction false} DecodedSame(items: seq<Value>, at: seq<nat>, before: seq<IOC>, last: Value)
    requires Decoded(items, at, before) && !last.Obj?
    ensures Decoded(items + [last], at, before)
  {
    var items' := items + [last];
    assert items'[..|items|] == items;
    PicksSnoc(items', at);
    hide Picks, ReadFrom;
    forall k | 0 <= k < |at| ensures at[k] < |items'| && ReadFrom(items'[at[k]], before[k]) {
      assert items'[at[k]] == items[at[k]];
    }
  }

  function Items(body: Fields): seq<Value> {
    if "observables" in body && body["observables"].Arr? then body["observables"].items else []
  }

  /** What is stored of a request, key by key. */
  ghost predicate Requested(body: Fields, e: Event) {
    && e.name == (if TextAt(body, "event_name") != "" then TextAt(body, "event_name") else TextAt(body, "title"))
    && e.title == TextAt(body, "title") && e.message == TextAt(body, "message") && e.context == TextAt(body, "context")
    && e.category == TextAt(body, "category")
    && e.source == (if TextAt(body, "source") != "" then TextAt(body, "source") else "manual")
    && e.severity == (if TextAt(body, "severity") != "" then TextAt(body, "severity") else "medium")
    && e.status == "pending" && e.round == 1
    && exists at: seq<nat> :: Decoded(Items(body), at, e.observables)
  }

  lemma RowIsRequested(st: Store, body: Fields)
    ensures Requested(body, EventRow(st, RequestedEvent(body)))
    ensures EventRow(st, RequestedEvent(body)).eventID ==
              (if TextAt(body, "event_id") != "" then Text(TextAt(body, "event_id")) else Drawn(st.draws))
    ensures EventRow(st, RequestedEvent(body)).observables == Observables(Items(body))
  {
    RequestIsComplete(st, body);
    FirstOfTwo(TextAt(body, "event_name"), TextAt(body, "title"));
    FirstOfTwo(TextAt(body, "source"), "manual");
    FirstOfTwo(TextAt(body, "severity"), "medium");
    var at := ObservablesDecoded(Items(body));
    assert Observables([]) == [];
    hide Observables, TextAt, FirstNonEmpty, Decoded, EventRow;
  }

  /** A request with a message and a free identifier: its event and the announcement, and nothing else; without
      a message nothing at all. */
  lemma RequestStores(st: Store, body: Fields)
    ensures var (st', outcome) := Finish(false, st, Manual(RequestedEvent(body), Reserving), Refused);
            var id := if TextAt(body, "event_id") != "" then Text(TextAt(body, "event_id")) else Drawn(st.draws);
            && (TextAt(body, "message") == "" ==> st' == st && outcome == Failure)
            && (TextAt(body, "message") != "" && id in st.events ==> st' == st.(draws := st'.draws) && outcome == Failure)
            && (TextAt(body, "message") != "" && id !in st.events ==>
                  && outcome == Created(id) && id in st'.events && st'.events == st.events[id := st'.events[id]]
                  && Requested(body, st'.events[id]) && st'.events[id].eventID == id
                  && |st'.messages| == |st.messages| + 1 && st'.messages[..|st.messages|] == st.messages
                  && Announces(st'.messages[|st.messages|], id)
                  && st' == st.(draws := st'.draws, eventSeq := st.eventSeq + 1, events := st'.events, messages := st'.messages))
  {
    var request := RequestedEvent(body);
    RequestEnds(st, request);
    RowIsRequested(st, body);
    MessageOfRequest(body);
    hide Finish, RequestedEvent, EventRow, Requested, TextAt, Announces, Notification;
    if EventRow(st, request).eventID !in st.events { CreatedAndAnnounced(st, request); } else { NothingCreated(st, request); }
    hide CreateEvent, AddMessage;
  }

  lemma MessageOfRequest(body: Fields)
    ensures RequestedEvent(body).message == TextAt(body, "message")
  {
    hide TextAt, Observables, FirstNonEmpty;
  }

  lemma NothingCreated(st: Store, request: Event)
    requires EventRow(st, request).eventID in st.events
    ensures var st' := CreateEvent(st, request); st' == st.(draws := st'.draws)
  {
    hide EventRow;
  }

  lemma CreatedAndAnnounced(st: Store, request: Event)
    requires EventRow(st, request).eventID !in st.events
    ensures var row := EventRow(st, request);
            var (id, st') := (row.eventID, AddMessage(CreateEvent(st, request), Notification(row.eventID)));
            && id in st'.events && st'.events[id] == row && st'.events == st.events[id := row]
            && |st'.messages| == |st.messages| + 1 && st'.messages[..|st.messages|] == st.messages
            && Announces(st'.messages[|st.messages|], id)
            && st' == st.(draws := st'.draws, eventSeq := st.eventSeq + 1, events := st'.events, messages := st'.messages)
  {
    var id := EventRow(st, request).eventID;
    NotificationAnnounces(CreateEvent(st, request), id);
    AboutTheEvent(id);
    hide EventRow, MessageRow, Announces, Notification;
  }

  // --------------------------------------------- from a request to its playbooks

  predicate ObjectInRole(item: Value, role: string) {
    item.Obj? && EqualFold(TextAt(item.fields, "role"), role) && EqualFold(TextAt(item.fields, "type"), "ip") && TextAt(item.fields, "value") != ""
  }

  /** `v` is the address in the first of the items that names the role, or "" when none does. */
  ghost predicate FirstNamed(items: seq<Value>, role: string, v: string) {
    || (v == "" && forall i :: 0 <= i < |items| ==> !ObjectInRole(items[i], role))
    || (v != "" && exists i: nat :: i < |items| && ObjectInRole(items[i], role) && TextAt(items[i].fields, "value") == v
                                    && forall j :: 0 <= j < i ==> !ObjectInRole(items[j], role))
  }

  lemma DecodedRole(items: seq<Value>, at: seq<nat>, observables: seq<IOC>, k: nat, role: string)
    requires Decoded(items, at, observables) && k < |at|
    ensures at[k] < |items| && (InRole(role)(observables[k]) <==> ObjectInRole(items[at[k]], role))
  {
    hide EqualFold, TextAt;
  }

  lemma {:induction false} NamedIsFirst(items: seq<Value>, at: seq<nat>, observables: seq<IOC>, role: string, v: string)
    requires Decoded(items, at, observables) && FirstNamed(items, role, v)
    ensures FirstSuch(observables, InRole(role), v)
  {
    forall k: nat | k < |at| ensures at[k] < |items| && (InRole(role)(observables[k]) <==> ObjectInRole(items[at[k]], role)) {
      DecodedRole(items, at, observables, k, role);
    }
    hide InRole, ObjectInRole, EqualFold, TextAt;
    if v != "" {
      var i: nat :| i < |items| && ObjectInRole(items[i], role) && TextAt(items[i].fields, "value") == v
                    && forall j :: 0 <= j < i ==> !ObjectInRole(items[j], role);
      RolesAreObjects(items[i], role);
      var k :| 0 <= k < |at| && at[k] == i;
      assert observables[k].value == v;
    }
  }

  lemma RolesAreObjects(item: Value, role: string)
    requires ObjectInRole(item, role)
    ensures item.Obj?
  {
  }

  /** From the request to the playbooks: when the source and destination a body names are canonical addresses,
      the lookups of its stored event are exactly those, and each of its plans compiles to its playbook. */
  lemma {:induction false} RequestAddressesReachPlaybooks(body: Fields, e: Event, src: string, destination: string, target: string,
                                                          victim: string, last: string)
    requires Requested(body, e) && FirstNamed(Items(body), "source", src)
    requires FirstNamed(Items(body), "destination", destination) && FirstNamed(Items(body), "target", target)
    requires FirstNamed(Items(body), "victim", victim) && FirstNamed(Items(body), "dst", last)
    requires IsQuad(src)
    requires var dst := FirstNonEmpty([destination, target, victim, last]); dst == "" || IsQuad(dst)
    ensures var dst := FirstNonEmpty([destination, target, victim, last]);
            && Readable(e)
            && Expected(e) == [ThreatLookup(src), LocationLookup(src)] + (if dst != "" && dst != src then [AssetLookup(dst)] else [])
            && |BuildTaskPlans(e)| == |Expected(e)|
            && forall k :: 0 <= k < |Expected(e)| ==>
                 var l := Expected(e)[k];
                 Compile(e, BuildTaskPlans(e)[k]) == CommandSpec(l.playbook, "playbook", Playbook(l.number, l.code), Params(l.key, l.ip))
  {
    hide Requested, FirstNamed, Decoded, InRole, FirstSuch, Source, Destination, Expected, Readable, BuildTaskPlans, Compile, FirstNonEmpty,
      IsQuad, Items;
    var at := ItemsDecoded(body, e);
    NamedIsFirst(Items(body), at, e.observables, "source", src);
    NamedIsFirst(Items(body), at, e.observables, "destination", destination);
    NamedIsFirst(Items(body), at, e.observables, "target", target);
    NamedIsFirst(Items(body), at, e.observables, "victim", victim);
    NamedIsFirst(Items(body), at, e.observables, "dst", last);
    AddressesOf(e, src, destination, target, victim, last);
    ReachPlaybooks(e);
  }

  lemma ItemsDecoded(body: Fields, e: Event) returns (at: seq<nat>)
    requires Requested(body, e)
    ensures Decoded(Items(body), at, e.observables)
  {
    hide TextAt, Decoded, Items;
    at :| Decoded(Items(body), at, e.observables);
  }

  lemma ReachPlaybooks(e: Event)
    requires IsQuad(Source(e)) && (Destination(e) == "" || IsQuad(Destination(e))) && Source(e) != ""
    ensures var (src, dst) := (Source(e), Destination(e));
            && Readable(e)
            && Expected(e) == [ThreatLookup(src), LocationLookup(src)] + (if dst != "" && dst != src then [AssetLookup(dst)] else [])
            && |BuildTaskPlans(e)| == |Expected(e)|
            && forall k :: 0 <= k < |Expected(e)| ==>
                 var l := Expected(e)[k];
                 Compile(e, BuildTaskPlans(e)[k]) == CommandSpec(l.playbook, "playbook", Playbook(l.number, l.code), Params(l.key, l.ip))
  {
    hide Source, Destination, ThreatLookup, LocationLookup, AssetLookup, IsQuad, BuildTaskPlans, Compile;
    PlansAreExpected(e);
    assert Readable(e);
    forall k | 0 <= k < |Expected(e)|
      ensures var l := Expected(e)[k];
              Compile(e, BuildTaskPlans(e)[k]) == CommandSpec(l.playbook, "playbook", Playbook(l.number, l.code), Params(l.key, l.ip))
    {
      CompilesAsExpected(e, k);
    }
  }

  lemma CompilesAsExpected(e: Event, k: nat)
    requires Readable(e) && k < |Expected(e)|
    ensures k < |BuildTaskPlans(e)|
    ensures var l := Expected(e)[k];
            Compile(e, BuildTaskPlans(e)[k]) == CommandSpec(l.playbook, "playbook", Playbook(l.number, l.code), Params(l.key, l.ip))
  {
    PlansAreExpected(e);
    StagesAreExpected(e, k);
    hide Expected, BuildTaskPlans, ActionNameForTask, CommandSpecForAction, VerdictFor, Readable;
  }

  lemma AddressesOf(e: Event, src: string, destination: string, target: string, victim: string, last: string)
    requires FirstSuch(e.observables, InRole("source"), src) && FirstSuch(e.observables, InRole("destination"), destination)
    requires FirstSuch(e.observables, InRole("target"), target) && FirstSuch(e.observables, InRole("victim"), victim)
    requires FirstSuch(e.observables, InRole("dst"), last) && IsQuad(src)
    ensures Source(e) == src && src != "" && Destination(e) == FirstNonEmpty([destination, target, victim, last])
  {
    AnyExact(e.observables);
    SourceExact(e, src, FirstIpObservable(e.observables));
    DestinationExact(e, destination, target, victim, last);
    QuadChars(src);
    hide FirstSuch, InRole, Source, Destination, FirstIpObservable, IpFromText, IsQuad;
    FirstOfFour(destination, target, victim, last);
  }

  lemma FirstOfFour(a: string, b: string, c: string, d: string)
    ensures FirstNonEmpty([a, b, c, d]) == if a != "" then a else if b != "" then b else if c != "" then c else d
  {
    assert [a, b, c, d][1..] == [b, c, d] && [b, c, d][1..] == [c, d];
    FirstOfTwo(c, d);
    assert FirstNonEmpty([b, c, d]) == if b != "" then b else FirstNonEmpty([c, d]);
  }
}
