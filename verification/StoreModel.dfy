/** The store as plain tables, the way the SQL back end queries them: one append-only table per kind,
    listed by `WHERE event_id = e ORDER BY id` and updated by `WHERE task_id = id`.
    Every function is one critical section of internal/store/memory.go. */
module StoreModel {
  import opened Domain

  datatype Store = Store(
    draws: nat,                         // how many identifiers newID has handed out
    events: map<ID, Event>,
    eventSeq: nat,
    messages: seq<Message>,
    tasks: seq<Task>,
    actions: seq<Action>,
    commands: seq<Command>,
    executions: seq<Execution>,
    summaries: seq<Summary>,
    eventMaps: map<string, EventMap>,
    cursors: map<string, string>,
    pushed: map<string, PushedEvent>)

  const EMPTY_STORE := Store(0, map[], 0, [], [], [], [], [], [], map[], map[], map[])

  // ----------------------------------------------------------- generic tables

  /** The rows of one event, in table order. */
  function Select<R>(rows: seq<R>, eventOf: R -> ID, e: ID): seq<R> {
    if rows == [] then []
    else
      var last := rows[|rows| - 1];
      Select(rows[..|rows| - 1], eventOf, e) + (if eventOf(last) == e then [last] else [])
  }

  lemma {:induction false} SelectSound<R>(rows: seq<R>, eventOf: R -> ID, e: ID, x: R)
    requires x in Select(rows, eventOf, e)
    ensures x in rows && eventOf(x) == e
  {
    if x in Select(rows[..|rows| - 1], eventOf, e) { SelectSound(rows[..|rows| - 1], eventOf, e, x); }
  }

  lemma {:induction false} SelectComplete<R>(rows: seq<R>, eventOf: R -> ID, e: ID, k: nat)
    requires k < |rows| && eventOf(rows[k]) == e
    ensures rows[k] in Select(rows, eventOf, e)
  {
    if k < |rows| - 1 {
      SelectComplete(rows[..|rows| - 1], eventOf, e, k);
    }
  }

  /** The first row with the given identifier; |rows| when there is none. */
  function Find<R>(rows: seq<R>, idOf: R -> ID, id: ID): (j: nat)
    ensures j <= |rows|
    ensures j < |rows| ==> idOf(rows[j]) == id
    ensures forall k :: 0 <= k < j ==> idOf(rows[k]) != id
  {
    if rows == [] then 0 else if idOf(rows[0]) == id then 0 else 1 + Find(rows[1..], idOf, id)
  }

  ghost predicate UniqueIDs<R>(rows: seq<R>, idOf: R -> ID) {
    forall i, j :: 0 <= i < j < |rows| ==> idOf(rows[i]) != idOf(rows[j])
  }

  lemma FindUnique<R>(rows: seq<R>, idOf: R -> ID, k: nat)
    requires k < |rows| && UniqueIDs(rows, idOf)
    ensures Find(rows, idOf, idOf(rows[k])) == k
  {
  }

  // --------------------------------------------------------------------- events

  /** Severity, source, status and round default; the event keeps its identifier if it has one. */
  function EventRow(st: Store, e: Event): Event {
    e.(id := st.eventSeq + 1,
       eventID := if e.eventID == NO_ID then Drawn(st.draws) else e.eventID,
       severity := if e.severity == "" then "medium" else e.severity,
       source := if e.source == "" then "manual" else e.source,
       status := if e.status == "" then "pending" else e.status,
       round := if e.round == 0 then 1 else e.round)
  }

  function Drew(st: Store, given: ID): nat { if given == NO_ID then st.draws + 1 else st.draws }

  /** Fails, apart from the identifier drawn, when the event exists. */
  function CreateEvent(st: Store, e: Event): Store {
    var row := EventRow(st, e);
    if row.eventID in st.events then st.(draws := Drew(st, e.eventID))
    else st.(draws := Drew(st, e.eventID), eventSeq := st.eventSeq + 1, events := st.events[row.eventID := row])
  }

  datatype EventPatch = EventPatch(name: Option<string>, message: Option<string>, context: Option<string>,
                                   severity: Option<string>, status: Option<string>)

  function PatchEvent(e: Event, p: EventPatch): Event {
    e.(name := OrElse(p.name, e.name), message := OrElse(p.message, e.message), context := OrElse(p.context, e.context),
       severity := OrElse(p.severity, e.severity), status := OrElse(p.status, e.status))
  }

  function UpdateEvent(st: Store, e: ID, p: EventPatch): Store {
    if e in st.events then st.(events := st.events[e := PatchEvent(st.events[e], p)]) else st
  }

  /** The only patch the workflow makes. */
  function StatusOnly(status: string): EventPatch { EventPatch(None, None, None, None, Some(status)) }

  function UpdateEventStatus(st: Store, e: ID, status: string): Store {
    if e in st.events then st.(events := st.events[e := st.events[e].(status := status)]) else st
  }

  lemma StatusPatchTouchesStatus(st: Store, e: ID, status: string)
    ensures UpdateEvent(st, e, StatusOnly(status)) == UpdateEventStatus(st, e, status)
  {
  }

  // -------------------------------------------------------------------- messages

  function DefaultRound(round: int): int { if round == 0 then 1 else round }

  function MessageRow(st: Store, m: Message): Message {
    NormalizeMessage(m.(id := |st.messages| + 1,
                        messageID := if m.messageID == NO_ID then Drawn(st.draws) else m.messageID,
                        round := DefaultRound(m.round)))
  }

  function AddMessage(st: Store, m: Message): Store {
    if m.eventID !in st.events then st
    else st.(draws := Drew(st, m.messageID), messages := st.messages + [MessageRow(st, m)])
  }

  function Visible(rows: seq<Message>): seq<Message> {
    if rows == [] then []
    else
      var m := rows[|rows| - 1];
      Visible(rows[..|rows| - 1]) + (if IsInternalMessage(m) then [] else [m])
  }

  function ListMessages(st: Store, e: ID): seq<Message> {
    Visible(Select(st.messages, MessageEvent, e))
  }

  // ------------------------------------------------ tasks, actions, commands, ...

  function MessageEvent(m: Message): ID { m.eventID }
  function TaskEvent(t: Task): ID { t.eventID }
  function ActionEvent(a: Action): ID { a.eventID }
  function CommandEvent(c: Command): ID { c.eventID }
  function ExecutionEvent(x: Execution): ID { x.eventID }
  function SummaryEvent(s: Summary): ID { s.eventID }

  function TaskIDOf(t: Task): ID { t.taskID }
  function ActionIDOf(a: Action): ID { a.actionID }
  function CommandIDOf(c: Command): ID { c.commandID }

  function ListTasks(st: Store, e: ID): seq<Task> { Select(st.tasks, TaskEvent, e) }
  function ListActions(st: Store, e: ID): seq<Action> { Select(st.actions, ActionEvent, e) }
  function ListCommands(st: Store, e: ID): seq<Command> { Select(st.commands, CommandEvent, e) }
  function ListExecutions(st: Store, e: ID): seq<Execution> { Select(st.executions, ExecutionEvent, e) }
  function ListSummaries(st: Store, e: ID): seq<Summary> { Select(st.summaries, SummaryEvent, e) }

  function TaskRow(st: Store, t: Task): Task {
    t.(id := |st.tasks| + 1,
       taskID := if t.taskID == NO_ID then Drawn(st.draws) else t.taskID,
       status := if t.status == "" then "pending" else t.status,
       round := DefaultRound(t.round))
  }

  function AddTask(st: Store, t: Task): Store {
    if t.eventID !in st.events then st
    else st.(draws := Drew(st, t.taskID), tasks := st.tasks + [TaskRow(st, t)])
  }

  function ActionRow(st: Store, a: Action): Action {
    a.(id := |st.actions| + 1,
       actionID := if a.actionID == NO_ID then Drawn(st.draws) else a.actionID,
       status := if a.status == "" then "pending" else a.status,
       round := DefaultRound(a.round))
  }

  function AddAction(st: Store, a: Action): Store {
    if a.eventID !in st.events then st
    else st.(draws := Drew(st, a.actionID), actions := st.actions + [ActionRow(st, a)])
  }

  function CommandRow(st: Store, c: Command): Command {
    c.(id := |st.commands| + 1,
       commandID := if c.commandID == NO_ID then Drawn(st.draws) else c.commandID,
       status := if c.status == "" then "pending" else c.status,
       round := DefaultRound(c.round))
  }

  function AddCommand(st: Store, c: Command): Store {
    if c.eventID !in st.events then st
    else st.(draws := Drew(st, c.commandID), commands := st.commands + [CommandRow(st, c)])
  }

  function ExecutionRow(st: Store, x: Execution): Execution {
    x.(id := |st.executions| + 1,
       executionID := if x.executionID == NO_ID then Drawn(st.draws) else x.executionID,
       status := if x.status == "" then "pending" else x.status,
       round := DefaultRound(x.round))
  }

  function AddExecution(st: Store, x: Execution): Store {
    if x.eventID !in st.events then st
    else st.(draws := Drew(st, x.executionID), executions := st.executions + [ExecutionRow(st, x)])
  }

  function SummaryRow(st: Store, s: Summary): Summary {
    s.(id := |st.summaries| + 1, round := DefaultRound(s.round))
  }

  function AddSummary(st: Store, s: Summary): Store {
    if s.eventID !in st.events then st else st.(summaries := st.summaries + [SummaryRow(st, s)])
  }

  // ------------------------------------------------------------- update by ID

  datatype TaskPatch = TaskPatch(status: Option<string>, assignedTo: Option<string>)
  datatype StatusPatch = StatusPatch(status: Option<string>, result: Option<Content>)

  function OrElse<T>(o: Option<T>, t: T): T { if o.Some? then o.value else t }

  function PatchTask(t: Task, p: TaskPatch): Task {
    t.(status := OrElse(p.status, t.status), assignedTo := OrElse(p.assignedTo, t.assignedTo))
  }

  function PatchAction(a: Action, p: StatusPatch): Action {
    a.(status := OrElse(p.status, a.status), result := OrElse(p.result, a.result))
  }

  function PatchCommand(c: Command, p: StatusPatch): Command {
    c.(status := OrElse(p.status, c.status), result := OrElse(p.result, c.result))
  }

  function UpdateTask(st: Store, id: ID, p: TaskPatch): Store {
    var j := Find(st.tasks, TaskIDOf, id);
    if j == |st.tasks| then st else st.(tasks := st.tasks[j := PatchTask(st.tasks[j], p)])
  }

  function UpdateAction(st: Store, id: ID, p: StatusPatch): Store {
    var j := Find(st.actions, ActionIDOf, id);
    if j == |st.actions| then st else st.(actions := st.actions[j := PatchAction(st.actions[j], p)])
  }

  function UpdateCommand(st: Store, id: ID, p: StatusPatch): Store {
    var j := Find(st.commands, CommandIDOf, id);
    if j == |st.commands| then st else st.(commands := st.commands[j := PatchCommand(st.commands[j], p)])
  }

  // ----------------------------------------------------- dedup, cursor, pushed

  function ReserveFingerprint(st: Store, fp: string): Store {
    if fp in st.eventMaps then st else st.(eventMaps := st.eventMaps[fp := EventMap(fp, "", NO_ID)])
  }

  function BindEventMap(st: Store, fp: string, lyID: string, deepID: ID): Store {
    st.(eventMaps := st.eventMaps[fp := EventMap(fp, lyID, deepID)])
  }

  function BoundID(st: Store, fp: string): ID { if fp in st.eventMaps then st.eventMaps[fp].deepID else NO_ID }

  function GetCursor(st: Store, name: string): string { if name in st.cursors then st.cursors[name] else "" }

  function SaveCursor(st: Store, name: string, lastTS: string): Store { st.(cursors := st.cursors[name := lastTS]) }

  function SavePushed(st: Store, pe: PushedEvent): Store { st.(pushed := st.pushed[pe.recordID := pe]) }

  // ------------------------------------------------------------ message listing

  lemma {:induction false} VisibleComplete(rows: seq<Message>, k: nat)
    requires k < |rows| && !IsInternalMessage(rows[k])
    ensures rows[k] in Visible(rows)
  {
    if k < |rows| - 1 { VisibleComplete(rows[..|rows| - 1], k); }
  }

  lemma {:induction false} VisibleSound(rows: seq<Message>, m: Message)
    requires m in Visible(rows)
    ensures m in rows && !IsInternalMessage(m)
  {
    if rows != [] && m in Visible(rows[..|rows| - 1]) { VisibleSound(rows[..|rows| - 1], m); }
  }

  // ------------------------------------------------------- what a stored row says

  lemma VisibleSnoc(rows: seq<Message>, m: Message)
    ensures Visible(rows + [m]) == Visible(rows) + (if ForTheModel(m.kind) then [] else [m])
  {
    InternalExact(m);
    hide IsInternalMessage, ForTheModel;
    assert (rows + [m])[..|rows|] == rows;
  }

  lemma SelectSnoc<R>(rows: seq<R>, eventOf: R -> ID, e: ID, x: R)
    ensures Select(rows + [x], eventOf, e) == Select(rows, eventOf, e) + (if eventOf(x) == e then [x] else [])
  {
    assert (rows + [x])[..|rows|] == rows;
  }

  /** Who is taken to have sent a message that does not say: people, the assistant and the system are told
      apart from the agents. */
  lemma SenderOf(m: Message)
    ensures var row := NormalizeMessage(m);
            && row.from == NormalizeMessageFrom(m.from)
            && row.senderType == (if m.senderType != "" && m.senderType != "unknown" then m.senderType
                                  else if row.from == "user" then "user" else if row.from == "assistant" then "ai"
                                  else if row.from == "system" then "system" else "agent")
            && row.category == (if m.category != "" then m.category
                                else if row.senderType in ["user", "ai"] then "engineer_chat" else "agent")
            && row.kind == m.kind && row.content == m.content && row.round == m.round && row.eventID == m.eventID
  {
    NormalizeFromIdempotent(m.from);
    hide NormalizeMessageFrom;
  }

  lemma RowOfMessage(st: Store, m: Message)
    ensures var row := MessageRow(st, m);
            && row.from == NormalizeMessageFrom(m.from) && row.content == m.content && row.kind == m.kind && row.eventID == m.eventID
            && row.round == if m.round == 0 then 1 else m.round
  {
    var given := m.(id := |st.messages| + 1, messageID := if m.messageID == NO_ID then Drawn(st.draws) else m.messageID,
                    round := DefaultRound(m.round));
    SenderOf(given);
    hide NormalizeMessage, NormalizeMessageFrom;
  }

  /** A message stored is a message listed for its event, as the last one, unless it is meant for the model;
      one without a round is of round 1. */
  lemma {:induction false} MessageStored(st: Store, m: Message, e: ID)
    requires m.eventID in st.events
    ensures var (st', n) := (AddMessage(st, m), |st.messages|);
            && |st'.messages| == n + 1 && st'.messages[..n] == st.messages
            && ListMessages(st', e) ==
               ListMessages(st, e) + (if m.eventID == e && !ForTheModel(m.kind) then [st'.messages[n]] else [])
            && st'.messages[n].from == NormalizeMessageFrom(m.from) && st'.messages[n].content == m.content
            && st'.messages[n].round == if m.round == 0 then 1 else m.round
  {
    hide ForTheModel, MessageRow, Visible, Select, NormalizeMessageFrom;
    var row := MessageRow(st, m);
    RowOfMessage(st, m);
    SelectSnoc(st.messages, MessageEvent, e, row);
    var listed := Select(st.messages, MessageEvent, e);
    if m.eventID == e { VisibleSnoc(listed, row); } else { assert listed + [] == listed; }
    if ForTheModel(m.kind) { assert Visible(listed) + [] == Visible(listed); }
  }

  /** Each key of a patch touches the field it names and no other. */
  lemma PatchesTouch(t: Task, a: Action, c: Command, status: string, agent: string, result: Content)
    ensures PatchTask(t, TaskPatch(Some(status), None)) == t.(status := status)
    ensures PatchTask(t, TaskPatch(None, Some(agent))) == t.(assignedTo := agent)
    ensures PatchTask(t, TaskPatch(Some(status), Some(agent))) == t.(status := status, assignedTo := agent)
    ensures PatchAction(a, StatusPatch(Some(status), None)) == a.(status := status)
    ensures PatchAction(a, StatusPatch(None, Some(result))) == a.(result := result)
    ensures PatchCommand(c, StatusPatch(Some(status), None)) == c.(status := status)
    ensures PatchCommand(c, StatusPatch(None, Some(result))) == c.(result := result)
    ensures PatchTask(t, TaskPatch(None, None)) == t && PatchAction(a, StatusPatch(None, None)) == a
    ensures PatchCommand(c, StatusPatch(None, None)) == c
  {
  }
}
