/** internal/store/memory.go: rows are kept per event, in maps of slices with global counters, and
    updated by scanning. Every method is proved against the plain tables of module StoreModel. */
module MemoryStores {
  import opened Domain
  import S = StoreModel

  // ------------------------------------------------------- slices against tables

  function Rows<R>(byEvent: map<ID, seq<R>>, e: ID): seq<R> { if e in byEvent then byEvent[e] else [] }

  /** Identifiers are exactly 1..|table|, in table order. */
  ghost predicate Numbered<R>(table: seq<R>, posOf: R -> nat) {
    forall j :: 0 <= j < |table| ==> posOf(table[j]) == j + 1
  }

  /** Each event's slice is the event's rows of the table, in order, and the counter is the table's length. */
  ghost predicate Indexed<R(!new)>(byEvent: map<ID, seq<R>>, last: nat, table: seq<R>, eventOf: R -> ID, posOf: R -> nat) {
    && last == |table| && Numbered(table, posOf)
    && forall e :: Rows(byEvent, e) == S.Select(table, eventOf, e)
  }

  lemma {:induction false} IndexedAppend<R(!new)>(byEvent: map<ID, seq<R>>, last: nat, table: seq<R>, eventOf: R -> ID,
                                                  posOf: R -> nat, x: R)
    requires Indexed(byEvent, last, table, eventOf, posOf) && posOf(x) == last + 1
    ensures Indexed(byEvent[eventOf(x) := Rows(byEvent, eventOf(x)) + [x]], last + 1, table + [x], eventOf, posOf)
  {
    assert (table + [x])[..|table|] == table;
    forall e ensures S.Select(table + [x], eventOf, e) == S.Select(table, eventOf, e) + (if eventOf(x) == e then [x] else []) {
    }
    hide S.Select;
  }

  /** Changing row i of an event's slice is changing row posOf - 1 of the table. */
  lemma {:induction false} SelectUpdate<R(!new)>(table: seq<R>, eventOf: R -> ID, posOf: R -> nat, e: ID, i: nat, x: R)
    requires Numbered(table, posOf) && i < |S.Select(table, eventOf, e)| && eventOf(x) == e
    ensures var j := posOf(S.Select(table, eventOf, e)[i]) - 1;
            && 0 <= j < |table| && table[j] == S.Select(table, eventOf, e)[i]
            && S.Select(table[j := x], eventOf, e) == S.Select(table, eventOf, e)[i := x]
  {
    var n := |table| - 1;
    var rest := S.Select(table[..n], eventOf, e);
    if i < |rest| {
      SelectUpdate(table[..n], eventOf, posOf, e, i, x);
      var j := posOf(rest[i]) - 1;
      assert table[j := x][..n] == table[..n][j := x];
    } else {
      assert table[n := x][..n] == table[..n];
    }
  }

  lemma {:induction false} SelectOther<R(!new)>(table: seq<R>, eventOf: R -> ID, j: nat, x: R, e: ID)
    requires j < |table| && eventOf(x) == eventOf(table[j]) != e
    ensures S.Select(table[j := x], eventOf, e) == S.Select(table, eventOf, e)
  {
    var n := |table| - 1;
    if j < n {
      SelectOther(table[..n], eventOf, j, x, e);
      assert table[j := x][..n] == table[..n][j := x];
    } else {
      assert table[j := x][..n] == table[..n];
    }
  }

  lemma {:induction false} IndexedUpdate<R(!new)>(byEvent: map<ID, seq<R>>, last: nat, table: seq<R>, eventOf: R -> ID,
                                                  posOf: R -> nat, e: ID, i: nat, x: R)
    requires Indexed(byEvent, last, table, eventOf, posOf)
    requires i < |Rows(byEvent, e)| && eventOf(x) == e && posOf(x) == posOf(Rows(byEvent, e)[i])
    ensures var j := posOf(x) - 1;
            && 0 <= j < |table| && table[j] == Rows(byEvent, e)[i]
            && Indexed(byEvent[e := Rows(byEvent, e)[i := x]], last, table[j := x], eventOf, posOf)
  {
    SelectUpdate(table, eventOf, posOf, e, i, x);
    var j := posOf(x) - 1;
    assert eventOf(table[j]) == e by { S.SelectSound(table, eventOf, e, table[j]); }
    var byEvent' := byEvent[e := Rows(byEvent, e)[i := x]];
    forall e' ensures Rows(byEvent', e') == S.Select(table[j := x], eventOf, e') {
      assert Rows(byEvent, e') == S.Select(table, eventOf, e');
      if e' != e { SelectOther(table, eventOf, j, x, e'); }
    }
  }

  lemma {:induction false} IndexedRow<R(!new)>(byEvent: map<ID, seq<R>>, last: nat, table: seq<R>, eventOf: R -> ID,
                                               posOf: R -> nat, e: ID, i: nat)
    requires Indexed(byEvent, last, table, eventOf, posOf) && i < |Rows(byEvent, e)|
    ensures eventOf(Rows(byEvent, e)[i]) == e
  {
    S.SelectSound(table, eventOf, e, Rows(byEvent, e)[i]);
  }

  lemma {:induction false} IndexedCovers<R(!new)>(byEvent: map<ID, seq<R>>, last: nat, table: seq<R>, eventOf: R -> ID,
                                                  posOf: R -> nat, j: nat)
    requires Indexed(byEvent, last, table, eventOf, posOf) && j < |table|
    ensures eventOf(table[j]) in byEvent && table[j] in byEvent[eventOf(table[j])]
  {
    S.SelectComplete(table, eventOf, eventOf(table[j]), j);
    assert Rows(byEvent, eventOf(table[j])) == S.Select(table, eventOf, eventOf(table[j]));
  }

  lemma IndexedRows<R(!new)>(byEvent: map<ID, seq<R>>, last: nat, table: seq<R>, eventOf: R -> ID, posOf: R -> nat, e: ID)
    requires Indexed(byEvent, last, table, eventOf, posOf)
    ensures Rows(byEvent, e) == S.Select(table, eventOf, e) && last == |table|
  {
  }

  function MessagePos(m: Message): nat { m.id }
  function TaskPos(t: Task): nat { t.id }
  function ActionPos(a: Action): nat { a.id }
  function CommandPos(c: Command): nat { c.id }
  function ExecutionPos(x: Execution): nat { x.id }
  function SummaryPos(s: Summary): nat { s.id }

  // ------------------------------------------------- sorting and in-place filtering

  ghost predicate SortedByID(rows: seq<Message>) { forall i, j :: 0 <= i < j < |rows| ==> rows[i].id <= rows[j].id }

  function InsertByID(rows: seq<Message>, m: Message): seq<Message> {
    if rows == [] then [m]
    else if rows[|rows| - 1].id <= m.id then rows + [m]
    else InsertByID(rows[..|rows| - 1], m) + [rows[|rows| - 1]]
  }

  lemma {:induction false} InsertedBelow(rows: seq<Message>, m: Message, bound: nat)
    requires m.id <= bound && forall i :: 0 <= i < |rows| ==> rows[i].id <= bound
    ensures forall i :: 0 <= i < |InsertByID(rows, m)| ==> InsertByID(rows, m)[i].id <= bound
  {
    if rows != [] && rows[|rows| - 1].id > m.id { InsertedBelow(rows[..|rows| - 1], m, bound); }
  }

  lemma {:induction false} InsertedPermutes(rows: seq<Message>, m: Message)
    ensures multiset(InsertByID(rows, m)) == multiset(rows) + multiset{m}
  {
    if rows != [] && rows[|rows| - 1].id > m.id {
      InsertedPermutes(rows[..|rows| - 1], m);
      assert rows == rows[..|rows| - 1] + [rows[|rows| - 1]];
    }
  }

  lemma {:induction false} InsertedSorted(rows: seq<Message>, m: Message)
    requires SortedByID(rows)
    ensures SortedByID(InsertByID(rows, m))
  {
    if rows != [] && rows[|rows| - 1].id > m.id {
      InsertedSorted(rows[..|rows| - 1], m);
      InsertedBelow(rows[..|rows| - 1], m, rows[|rows| - 1].id);
    }
  }

  /** What `sort.Slice` by ID promises, by insertion. */
  method SortByID(a: array<Message>)
    modifies a
    ensures SortedByID(a[..]) && multiset(a[..]) == multiset(old(a[..]))
  {
    var rows: seq<Message> := [];
    var i := 0;
    while i < a.Length
      invariant 0 <= i <= a.Length && a[..] == old(a[..])
      invariant SortedByID(rows) && multiset(rows) == multiset(a[..i])
    {
      InsertedSorted(rows, a[i]);
      InsertedPermutes(rows, a[i]);
      assert a[..i + 1] == a[..i] + [a[i]];
      rows := InsertByID(rows, a[i]);
      i := i + 1;
    }
    assert a[..i] == a[..];
    SameSize(rows, a[..]);
    forall k | 0 <= k < a.Length { a[k] := rows[k]; }
    assert a[..] == rows;
  }

  lemma SameSize<T>(s: seq<T>, t: seq<T>)
    requires multiset(s) == multiset(t)
    ensures |s| == |t|
  {
    assert |multiset(s)| == |s| && |multiset(t)| == |t|;
  }

  lemma {:induction false} GreatestIsLast(rows: seq<Message>, sorted: seq<Message>)
    requires rows != [] && forall i, j :: 0 <= i < j < |rows| ==> rows[i].id < rows[j].id
    requires SortedByID(sorted) && multiset(sorted) == multiset(rows)
    ensures |sorted| == |rows| && sorted[|rows| - 1] == rows[|rows| - 1]
  {
    SameSize(rows, sorted);
    var n := |rows| - 1;
    assert rows[n] in multiset(rows) && sorted[n] in multiset(sorted);
    assert rows[n] in sorted && sorted[n] in rows;
    var k :| 0 <= k <= n && rows[k] == sorted[n];
    var l :| 0 <= l <= n && sorted[l] == rows[n];
    assert rows[n].id <= sorted[n].id;
  }

  lemma SamePrefix<T>(a: multiset<T>, b: multiset<T>, x: T)
    requires a + multiset{x} == b + multiset{x}
    ensures a == b
  {
    assert a == (a + multiset{x}) - multiset{x} && b == (b + multiset{x}) - multiset{x};
  }

  /** Sorting rows that already have increasing identifiers gives them back. */
  lemma {:induction false} SortedOnce(rows: seq<Message>, sorted: seq<Message>)
    requires forall i, j :: 0 <= i < j < |rows| ==> rows[i].id < rows[j].id
    requires SortedByID(sorted) && multiset(sorted) == multiset(rows)
    ensures sorted == rows
  {
    SameSize(rows, sorted);
    if rows != [] {
      GreatestIsLast(rows, sorted);
      var n, x := |rows| - 1, rows[|rows| - 1];
      assert rows == rows[..n] + [x] && sorted == sorted[..n] + [x];
      assert multiset(rows) == multiset(rows[..n]) + multiset{x} && multiset(sorted) == multiset(sorted[..n]) + multiset{x};
      SamePrefix(multiset(rows[..n]), multiset(sorted[..n]), x);
      assert SortedByID(sorted[..n]);
      SortedOnce(rows[..n], sorted[..n]);
    }
  }

  ghost predicate IncreasingTo(rows: seq<Message>, bound: nat) {
    && (forall i :: 0 <= i < |rows| ==> rows[i].id <= bound)
    && (forall i, j :: 0 <= i < j < |rows| ==> rows[i].id < rows[j].id)
  }

  lemma IncreasingSnoc(rows: seq<Message>, bound: nat, m: Message)
    requires IncreasingTo(rows, bound) && m.id == bound + 1
    ensures IncreasingTo(rows, bound + 1) && IncreasingTo(rows + [m], bound + 1)
  {
  }

  lemma {:induction false} SelectIncreasing(table: seq<Message>, e: ID)
    requires Numbered(table, MessagePos)
    ensures IncreasingTo(S.Select(table, S.MessageEvent, e), |table|)
  {
    if table != [] {
      var n := |table| - 1;
      SelectIncreasing(table[..n], e);
      assert MessagePos(table[n]) == n + 1;
      IncreasingSnoc(S.Select(table[..n], S.MessageEvent, e), n, table[n]);
      hide IncreasingTo;
    }
  }

  lemma {:induction false} IndexedIncreasing(byEvent: map<ID, seq<Message>>, last: nat, table: seq<Message>, e: ID)
    requires Indexed(byEvent, last, table, S.MessageEvent, MessagePos)
    ensures forall i, j :: 0 <= i < j < |Rows(byEvent, e)| ==> Rows(byEvent, e)[i].id < Rows(byEvent, e)[j].id
  {
    SelectIncreasing(table, e);
    IndexedRows(byEvent, last, table, S.MessageEvent, MessagePos, e);
    hide Indexed, S.Select;
  }

  lemma {:induction false} SelectNormal(table: seq<Message>, e: ID)
    requires Normal(table)
    ensures Normal(S.Select(table, S.MessageEvent, e))
  {
    hide NormalizeMessage;
    if table != [] { SelectNormal(table[..|table| - 1], e); }
  }

  /** Normalized, without the internal messages. */
  function Shown(rows: seq<Message>): seq<Message> {
    if rows == [] then []
    else
      var m := NormalizeMessage(rows[|rows| - 1]);
      Shown(rows[..|rows| - 1]) + (if IsInternalMessage(m) then [] else [m])
  }

  ghost predicate Normal(rows: seq<Message>) { forall j :: 0 <= j < |rows| ==> NormalizeMessage(rows[j]) == rows[j] }

  lemma {:induction false} ShownIsVisible(rows: seq<Message>)
    requires Normal(rows)
    ensures Shown(rows) == S.Visible(rows)
  {
    hide NormalizeMessage, IsInternalMessage;
    if rows != [] { ShownIsVisible(rows[..|rows| - 1]); }
  }

  /** The filter writes into the slice it reads from: the write position never overtakes the read. */
  method FilterInPlace(out: array<Message>) returns (n: nat)
    modifies out
    ensures n <= out.Length && out[..n] == Shown(old(out[..]))
  {
    hide NormalizeMessage, IsInternalMessage;
    n := 0;
    var i := 0;
    while i < out.Length
      invariant 0 <= n <= i <= out.Length
      invariant out[i..] == old(out[i..])
      invariant out[..n] == Shown(old(out[..])[..i])
    {
      assert out[i] == out[i..][0];
      var m := NormalizeMessage(out[i]);
      assert old(out[..])[..i + 1][..i] == old(out[..])[..i];
      if !IsInternalMessage(m) {
        out[n] := m;
        n := n + 1;
      }
      i := i + 1;
    }
    assert old(out[..])[..i] == old(out[..]);
  }

  const ZERO_TASK := Task(0, NO_ID, NO_ID, "", "", "", "", "", "", "", 0)
  const ZERO_ACTION := Action(0, NO_ID, NO_ID, NO_ID, 0, "", "", "", "", NoContent)
  const ZERO_COMMAND := Command(0, NO_ID, NO_ID, NO_ID, NO_ID, 0, "", "", "", NoContent, NoContent, "", NoContent)

  class MemoryStore {
    var draws: nat
    var events: map<ID, Event>
    var eventSeq: nat
    var messagesByEvent: map<ID, seq<Message>>
    var messageSeq: nat
    var tasksByEvent: map<ID, seq<Task>>
    var taskSeq: nat
    var actionsByEvent: map<ID, seq<Action>>
    var actionSeq: nat
    var commandsByEvent: map<ID, seq<Command>>
    var commandSeq: nat
    var execByEvent: map<ID, seq<Execution>>
    var execSeq: nat
    var summariesByEvent: map<ID, seq<Summary>>
    var summarySeq: nat
    var eventMaps: map<string, EventMap>
    var cursors: map<string, string>
    var pushed: map<string, PushedEvent>

    // The tables the slices stand for.
    ghost var messages: seq<Message>
    ghost var tasks: seq<Task>
    ghost var actions: seq<Action>
    ghost var commands: seq<Command>
    ghost var executions: seq<Execution>
    ghost var summaries: seq<Summary>

    ghost predicate Valid()
      reads this
    {
      && Indexed(messagesByEvent, messageSeq, messages, S.MessageEvent, MessagePos)
      && Indexed(tasksByEvent, taskSeq, tasks, S.TaskEvent, TaskPos)
      && Indexed(actionsByEvent, actionSeq, actions, S.ActionEvent, ActionPos)
      && Indexed(commandsByEvent, commandSeq, commands, S.CommandEvent, CommandPos)
      && Indexed(execByEvent, execSeq, executions, S.ExecutionEvent, ExecutionPos)
      && Indexed(summariesByEvent, summarySeq, summaries, S.SummaryEvent, SummaryPos)
      && Normal(messages)
    }

    ghost function Model(): S.Store
      reads this
    {
      S.Store(draws, events, eventSeq, messages, tasks, actions, commands, executions, summaries, eventMaps, cursors, pushed)
    }

    constructor ()
      ensures Valid() && Model() == S.EMPTY_STORE
    {
      draws, eventSeq, messageSeq, taskSeq, actionSeq, commandSeq, execSeq, summarySeq := 0, 0, 0, 0, 0, 0, 0, 0;
      events, eventMaps, cursors, pushed := map[], map[], map[], map[];
      messagesByEvent, tasksByEvent, actionsByEvent := map[], map[], map[];
      commandsByEvent, execByEvent, summariesByEvent := map[], map[], map[];
      messages, tasks, actions, commands, executions, summaries := [], [], [], [], [], [];
    }

    method GetEvent(e: ID) returns (event: Event, ok: bool)
      ensures ok <==> e in Model().events
      ensures ok ==> event == Model().events[e]
    {
      ok := e in events;
      event := if ok then events[e] else ZERO_EVENT;
    }

    /** newID: the next draw when the caller supplied no identifier. */
    method IdentifierFor(given: ID) returns (id: ID)
      modifies this`draws
      ensures draws == S.Drew(old(Model()), given) && id == (if given == NO_ID then Drawn(old(draws)) else given)
    {
      id := given;
      if given == NO_ID {
        id := Drawn(draws);
        draws := draws + 1;
      }
    }

    method CreateEvent(given: Event) returns (row: Event, ok: bool)
      requires Valid()
      modifies this`draws, this`events, this`eventSeq
      ensures Valid() && Model() == S.CreateEvent(old(Model()), given)
      ensures ok <==> S.EventRow(old(Model()), given).eventID !in old(events)
      ensures ok ==> row == S.EventRow(old(Model()), given)
    {
      hide Indexed, Normal;
      var id := IdentifierFor(given.eventID);
      row := given.(eventID := id);
      if id in events { return row, false; }
      row := Defaulted(given, id, eventSeq + 1);
      assert row == S.EventRow(old(Model()), given);
      hide S.EventRow, Defaulted;
      eventSeq := eventSeq + 1;
      events := events[id := row];
      ok := true;
    }

    /** Severity, source, status and round where the caller left them empty. */
    static function Defaulted(given: Event, id: ID, seqNo: nat): (row: Event)
      ensures row.eventID == id
    {
      given.(id := seqNo, eventID := id,
             severity := if given.severity == "" then "medium" else given.severity,
             source := if given.source == "" then "manual" else given.source,
             status := if given.status == "" then "pending" else given.status,
             round := S.DefaultRound(given.round))
    }

    method UpdateEvent(e: ID, p: S.EventPatch) returns (row: Event, ok: bool)
      requires Valid()
      modifies this`events
      ensures Valid() && Model() == S.UpdateEvent(old(Model()), e, p) && (ok <==> e in old(events))
      ensures ok ==> row == S.PatchEvent(old(events)[e], p)
    {
      hide Indexed;
      row, ok := ZERO_EVENT, e in events;
      if !ok { return; }
      row := events[e];
      if p.name.Some? { row := row.(name := p.name.value); }
      if p.message.Some? { row := row.(message := p.message.value); }
      if p.context.Some? { row := row.(context := p.context.value); }
      if p.severity.Some? { row := row.(severity := p.severity.value); }
      if p.status.Some? { row := row.(status := p.status.value); }
      events := events[e := row];
    }

    method ListMessages(e: ID) returns (rows: seq<Message>)
      requires Valid()
      ensures rows == S.ListMessages(Model(), e)
    {
      hide Indexed, NormalizeMessage, IsInternalMessage;
      var slice := Rows(messagesByEvent, e);
      var out := new Message[|slice|](i requires 0 <= i < |slice| => slice[i]);
      assert out[..] == slice;
      SortByID(out);
      IndexedRows(messagesByEvent, messageSeq, messages, S.MessageEvent, MessagePos, e);
      IndexedIncreasing(messagesByEvent, messageSeq, messages, e);
      SortedOnce(slice, out[..]);
      var n := FilterInPlace(out);
      SelectNormal(messages, e);
      ShownIsVisible(slice);
      rows := out[..n];
    }

    method AppendMessage(row: Message)
      requires Valid() && row.id == messageSeq + 1 && NormalizeMessage(row) == row
      modifies this`messagesByEvent, this`messageSeq, this`messages
      ensures Valid() && Model() == old(Model()).(messages := old(messages) + [row])
    {
      hide Indexed, NormalizeMessage;
      IndexedAppend(messagesByEvent, messageSeq, messages, S.MessageEvent, MessagePos, row);
      messageSeq := messageSeq + 1;
      messagesByEvent := messagesByEvent[row.eventID := Rows(messagesByEvent, row.eventID) + [row]];
      messages := messages + [row];
    }

    method AddMessage(given: Message) returns (row: Message, ok: bool)
      requires Valid()
      modifies this`draws, this`messagesByEvent, this`messageSeq, this`messages
      ensures Valid() && Model() == S.AddMessage(old(Model()), given)
      ensures ok <==> given.eventID in old(events)
      ensures ok ==> row == S.MessageRow(old(Model()), given)
    {
      hide Indexed, NormalizeMessageFrom, SenderType, IsInternalMessage;
      row := given;
      if given.eventID !in events { return row, false; }
      IndexedRows(messagesByEvent, messageSeq, messages, S.MessageEvent, MessagePos, given.eventID);
      var id := IdentifierFor(given.messageID);
      row := NormalizeMessage(given.(id := messageSeq + 1, messageID := id, round := S.DefaultRound(given.round)));
      NormalizeIdempotent(given.(id := messageSeq + 1, messageID := id, round := S.DefaultRound(given.round)));
      AppendMessage(row);
      ok := true;
    }

    method ListTasks(e: ID) returns (rows: seq<Task>)
      requires Valid()
      ensures rows == S.ListTasks(Model(), e)
    {
      hide Indexed;
      IndexedRows(tasksByEvent, taskSeq, tasks, S.TaskEvent, TaskPos, e);
      rows := Rows(tasksByEvent, e);
    }

    method AppendTask(row: Task)
      requires Valid() && row.id == taskSeq + 1
      modifies this`tasksByEvent, this`taskSeq, this`tasks
      ensures Valid() && Model() == old(Model()).(tasks := old(tasks) + [row])
    {
      hide Indexed;
      IndexedAppend(tasksByEvent, taskSeq, tasks, S.TaskEvent, TaskPos, row);
      taskSeq := taskSeq + 1;
      tasksByEvent := tasksByEvent[row.eventID := Rows(tasksByEvent, row.eventID) + [row]];
      tasks := tasks + [row];
    }

    method AddTask(given: Task) returns (row: Task, ok: bool)
      requires Valid()
      modifies this`draws, this`tasksByEvent, this`taskSeq, this`tasks
      ensures Valid() && Model() == S.AddTask(old(Model()), given)
      ensures ok <==> given.eventID in old(events)
      ensures ok ==> row == S.TaskRow(old(Model()), given)
    {
      hide Indexed;
      row := given;
      if given.eventID !in events { return row, false; }
      IndexedRows(tasksByEvent, taskSeq, tasks, S.TaskEvent, TaskPos, given.eventID);
      var id := IdentifierFor(given.taskID);
      row := given.(id := taskSeq + 1, taskID := id, status := if given.status == "" then "pending" else given.status, round := S.DefaultRound(given.round));
      AppendTask(row);
      ok := true;
    }

    /** Scans the slices in an unspecified map order for the first row with this identifier. */
    method FindTask(taskID: ID) returns (ok: bool, e: ID, i: nat)
      requires Valid()
      ensures ok ==> e in tasksByEvent && i < |tasksByEvent[e]| && tasksByEvent[e][i].taskID == taskID
      ensures !ok ==> forall j :: 0 <= j < |tasks| ==> tasks[j].taskID != taskID
    {
      hide Indexed;
      ok, e, i := false, NO_ID, 0;
      var todo := tasksByEvent.Keys;
      while todo != {}
        invariant todo <= tasksByEvent.Keys
        invariant forall e', k :: e' in tasksByEvent.Keys - todo && 0 <= k < |tasksByEvent[e']| ==> tasksByEvent[e'][k].taskID != taskID
      {
        e :| e in todo;
        todo := todo - {e};
        i := 0;
        while i < |tasksByEvent[e]|
          invariant 0 <= i <= |tasksByEvent[e]|
          invariant forall k :: 0 <= k < i ==> tasksByEvent[e][k].taskID != taskID
        {
          if tasksByEvent[e][i].taskID == taskID { return true, e, i; }
          i := i + 1;
        }
      }
      forall j | 0 <= j < |tasks| ensures tasks[j].taskID != taskID {
        IndexedCovers(tasksByEvent, taskSeq, tasks, S.TaskEvent, TaskPos, j);
      }
    }

    method ReplaceTask(e: ID, i: nat, row: Task)
      requires Valid() && e in tasksByEvent && i < |tasksByEvent[e]|
      requires row.eventID == tasksByEvent[e][i].eventID && row.id == tasksByEvent[e][i].id
      modifies this`tasksByEvent, this`tasks
      ensures Valid() && 1 <= row.id <= |old(tasks)| && old(tasks)[row.id - 1] == old(tasksByEvent[e][i])
      ensures Model() == old(Model()).(tasks := old(tasks)[row.id - 1 := row])
    {
      hide Indexed;
      IndexedRow(tasksByEvent, taskSeq, tasks, S.TaskEvent, TaskPos, e, i);
      IndexedUpdate(tasksByEvent, taskSeq, tasks, S.TaskEvent, TaskPos, e, i, row);
      tasksByEvent := tasksByEvent[e := Rows(tasksByEvent, e)[i := row]];
      tasks := tasks[row.id - 1 := row];
    }

    /** Whatever the map order, exactly one row changes, or none when there is none; with unique
        identifiers it is the row the table update changes. */
    method UpdateTask(taskID: ID, p: S.TaskPatch) returns (row: Task, ok: bool)
      requires Valid()
      modifies this`tasksByEvent, this`tasks
      ensures Valid()
      ensures ok ==> exists j :: 0 <= j < |old(tasks)| && old(tasks)[j].taskID == taskID && row == S.PatchTask(old(tasks)[j], p)
                                 && Model() == old(Model()).(tasks := old(tasks)[j := row])
      ensures !ok ==> Model() == old(Model()) && forall j :: 0 <= j < |tasks| ==> tasks[j].taskID != taskID
      ensures S.UniqueIDs(old(tasks), S.TaskIDOf) ==> Model() == S.UpdateTask(old(Model()), taskID, p)
    {
      hide Indexed, Valid;
      var e: ID, i: nat;
      row := ZERO_TASK;
      ok, e, i := FindTask(taskID);
      if !ok { return; }
      row := S.PatchTask(tasksByEvent[e][i], p);
      ReplaceTask(e, i, row);
      ghost var j := row.id - 1;
      if S.UniqueIDs(old(tasks), S.TaskIDOf) { S.FindUnique(old(tasks), S.TaskIDOf, j); }
    }

    method ListActions(e: ID) returns (rows: seq<Action>)
      requires Valid()
      ensures rows == S.ListActions(Model(), e)
    {
      hide Indexed;
      IndexedRows(actionsByEvent, actionSeq, actions, S.ActionEvent, ActionPos, e);
      rows := Rows(actionsByEvent, e);
    }

    method AppendAction(row: Action)
      requires Valid() && row.id == actionSeq + 1
      modifies this`actionsByEvent, this`actionSeq, this`actions
      ensures Valid() && Model() == old(Model()).(actions := old(actions) + [row])
    {
      hide Indexed;
      IndexedAppend(actionsByEvent, actionSeq, actions, S.ActionEvent, ActionPos, row);
      actionSeq := actionSeq + 1;
      actionsByEvent := actionsByEvent[row.eventID := Rows(actionsByEvent, row.eventID) + [row]];
      actions := actions + [row];
    }

    method AddAction(given: Action) returns (row: Action, ok: bool)
      requires Valid()
      modifies this`draws, this`actionsByEvent, this`actionSeq, this`actions
      ensures Valid() && Model() == S.AddAction(old(Model()), given)
      ensures ok <==> given.eventID in old(events)
      ensures ok ==> row == S.ActionRow(old(Model()), given)
    {
      hide Indexed;
      row := given;
      if given.eventID !in events { return row, false; }
      IndexedRows(actionsByEvent, actionSeq, actions, S.ActionEvent, ActionPos, given.eventID);
      var id := IdentifierFor(given.actionID);
      row := given.(id := actionSeq + 1, actionID := id, status := if given.status == "" then "pending" else given.status, round := S.DefaultRound(given.round));
      AppendAction(row);
      ok := true;
    }

    /** Scans the slices in an unspecified map order for the first row with this identifier. */
    method FindAction(actionID: ID) returns (ok: bool, e: ID, i: nat)
      requires Valid()
      ensures ok ==> e in actionsByEvent && i < |actionsByEvent[e]| && actionsByEvent[e][i].actionID == actionID
      ensures !ok ==> forall j :: 0 <= j < |actions| ==> actions[j].actionID != actionID
    {
      hide Indexed;
      ok, e, i := false, NO_ID, 0;
      var todo := actionsByEvent.Keys;
      while todo != {}
        invariant todo <= actionsByEvent.Keys
        invariant forall e', k :: e' in actionsByEvent.Keys - todo && 0 <= k < |actionsByEvent[e']| ==> actionsByEvent[e'][k].actionID != actionID
      {
        e :| e in todo;
        todo := todo - {e};
        i := 0;
        while i < |actionsByEvent[e]|
          invariant 0 <= i <= |actionsByEvent[e]|
          invariant forall k :: 0 <= k < i ==> actionsByEvent[e][k].actionID != actionID
        {
          if actionsByEvent[e][i].actionID == actionID { return true, e, i; }
          i := i + 1;
        }
      }
      forall j | 0 <= j < |actions| ensures actions[j].actionID != actionID {
        IndexedCovers(actionsByEvent, actionSeq, actions, S.ActionEvent, ActionPos, j);
      }
    }

    method ReplaceAction(e: ID, i: nat, row: Action)
      requires Valid() && e in actionsByEvent && i < |actionsByEvent[e]|
      requires row.eventID == actionsByEvent[e][i].eventID && row.id == actionsByEvent[e][i].id
      modifies this`actionsByEvent, this`actions
      ensures Valid() && 1 <= row.id <= |old(actions)| && old(actions)[row.id - 1] == old(actionsByEvent[e][i])
      ensures Model() == old(Model()).(actions := old(actions)[row.id - 1 := row])
    {
      hide Indexed;
      IndexedRow(actionsByEvent, actionSeq, actions, S.ActionEvent, ActionPos, e, i);
      IndexedUpdate(actionsByEvent, actionSeq, actions, S.ActionEvent, ActionPos, e, i, row);
      actionsByEvent := actionsByEvent[e := Rows(actionsByEvent, e)[i := row]];
      actions := actions[row.id - 1 := row];
    }

    /** Whatever the map order, exactly one row changes, or none when there is none; with unique
        identifiers it is the row the table update changes. */
    method UpdateAction(actionID: ID, p: S.StatusPatch) returns (row: Action, ok: bool)
      requires Valid()
      modifies this`actionsByEvent, this`actions
      ensures Valid()
      ensures ok ==> exists j :: 0 <= j < |old(actions)| && old(actions)[j].actionID == actionID && row == S.PatchAction(old(actions)[j], p)
                                 && Model() == old(Model()).(actions := old(actions)[j := row])
      ensures !ok ==> Model() == old(Model()) && forall j :: 0 <= j < |actions| ==> actions[j].actionID != actionID
      ensures S.UniqueIDs(old(actions), S.ActionIDOf) ==> Model() == S.UpdateAction(old(Model()), actionID, p)
    {
      hide Indexed, Valid;
      var e: ID, i: nat;
      row := ZERO_ACTION;
      ok, e, i := FindAction(actionID);
      if !ok { return; }
      row := S.PatchAction(actionsByEvent[e][i], p);
      ReplaceAction(e, i, row);
      ghost var j := row.id - 1;
      if S.UniqueIDs(old(actions), S.ActionIDOf) { S.FindUnique(old(actions), S.ActionIDOf, j); }
    }

    method ListCommands(e: ID) returns (rows: seq<Command>)
      requires Valid()
      ensures rows == S.ListCommands(Model(), e)
    {
      hide Indexed;
      IndexedRows(commandsByEvent, commandSeq, commands, S.CommandEvent, CommandPos, e);
      rows := Rows(commandsByEvent, e);
    }

    method AppendCommand(row: Command)
      requires Valid() && row.id == commandSeq + 1
      modifies this`commandsByEvent, this`commandSeq, this`commands
      ensures Valid() && Model() == old(Model()).(commands := old(commands) + [row])
    {
      hide Indexed;
      IndexedAppend(commandsByEvent, commandSeq, commands, S.CommandEvent, CommandPos, row);
      commandSeq := commandSeq + 1;
      commandsByEvent := commandsByEvent[row.eventID := Rows(commandsByEvent, row.eventID) + [row]];
      commands := commands + [row];
    }

    method AddCommand(given: Command) returns (row: Command, ok: bool)
      requires Valid()
      modifies this`draws, this`commandsByEvent, this`commandSeq, this`commands
      ensures Valid() && Model() == S.AddCommand(old(Model()), given)
      ensures ok <==> given.eventID in old(events)
      ensures ok ==> row == S.CommandRow(old(Model()), given)
    {
      hide Indexed;
      row := given;
      if given.eventID !in events { return row, false; }
      IndexedRows(commandsByEvent, commandSeq, commands, S.CommandEvent, CommandPos, given.eventID);
      var id := IdentifierFor(given.commandID);
      row := given.(id := commandSeq + 1, commandID := id, status := if given.status == "" then "pending" else given.status, round := S.DefaultRound(given.round));
      AppendCommand(row);
      ok := true;
    }

    /** Scans the slices in an unspecified map order for the first row with this identifier. */
    method FindCommand(commandID: ID) returns (ok: bool, e: ID, i: nat)
      requires Valid()
      ensures ok ==> e in commandsByEvent && i < |commandsByEvent[e]| && commandsByEvent[e][i].commandID == commandID
      ensures !ok ==> forall j :: 0 <= j < |commands| ==> commands[j].commandID != commandID
    {
      hide Indexed;
      ok, e, i := false, NO_ID, 0;
      var todo := commandsByEvent.Keys;
      while todo != {}
        invariant todo <= commandsByEvent.Keys
        invariant forall e', k :: e' in commandsByEvent.Keys - todo && 0 <= k < |commandsByEvent[e']| ==> commandsByEvent[e'][k].commandID != commandID
      {
        e :| e in todo;
        todo := todo - {e};
        i := 0;
        while i < |commandsByEvent[e]|
          invariant 0 <= i <= |commandsByEvent[e]|
          invariant forall k :: 0 <= k < i ==> commandsByEvent[e][k].commandID != commandID
        {
          if commandsByEvent[e][i].commandID == commandID { return true, e, i; }
          i := i + 1;
        }
      }
      forall j | 0 <= j < |commands| ensures commands[j].commandID != commandID {
        IndexedCovers(commandsByEvent, commandSeq, commands, S.CommandEvent, CommandPos, j);
      }
    }

    method ReplaceCommand(e: ID, i: nat, row: Command)
      requires Valid() && e in commandsByEvent && i < |commandsByEvent[e]|
      requires row.eventID == commandsByEvent[e][i].eventID && row.id == commandsByEvent[e][i].id
      modifies this`commandsByEvent, this`commands
      ensures Valid() && 1 <= row.id <= |old(commands)| && old(commands)[row.id - 1] == old(commandsByEvent[e][i])
      ensures Model() == old(Model()).(commands := old(commands)[row.id - 1 := row])
    {
      hide Indexed;
      IndexedRow(commandsByEvent, commandSeq, commands, S.CommandEvent, CommandPos, e, i);
      IndexedUpdate(commandsByEvent, commandSeq, commands, S.CommandEvent, CommandPos, e, i, row);
      commandsByEvent := commandsByEvent[e := Rows(commandsByEvent, e)[i := row]];
      commands := commands[row.id - 1 := row];
    }

    /** Whatever the map order, exactly one row changes, or none when there is none; with unique
        identifiers it is the row the table update changes. */
    method UpdateCommand(commandID: ID, p: S.StatusPatch) returns (row: Command, ok: bool)
      requires Valid()
      modifies this`commandsByEvent, this`commands
      ensures Valid()
      ensures ok ==> exists j :: 0 <= j < |old(commands)| && old(commands)[j].commandID == commandID && row == S.PatchCommand(old(commands)[j], p)
                                 && Model() == old(Model()).(commands := old(commands)[j := row])
      ensures !ok ==> Model() == old(Model()) && forall j :: 0 <= j < |commands| ==> commands[j].commandID != commandID
      ensures S.UniqueIDs(old(commands), S.CommandIDOf) ==> Model() == S.UpdateCommand(old(Model()), commandID, p)
    {
      hide Indexed, Valid;
      var e: ID, i: nat;
      row := ZERO_COMMAND;
      ok, e, i := FindCommand(commandID);
      if !ok { return; }
      row := S.PatchCommand(commandsByEvent[e][i], p);
      ReplaceCommand(e, i, row);
      ghost var j := row.id - 1;
      if S.UniqueIDs(old(commands), S.CommandIDOf) { S.FindUnique(old(commands), S.CommandIDOf, j); }
    }

    method ListExecutions(e: ID) returns (rows: seq<Execution>)
      requires Valid()
      ensures rows == S.ListExecutions(Model(), e)
    {
      hide Indexed;
      IndexedRows(execByEvent, execSeq, executions, S.ExecutionEvent, ExecutionPos, e);
      rows := Rows(execByEvent, e);
    }

    method AppendExecution(row: Execution)
      requires Valid() && row.id == execSeq + 1
      modifies this`execByEvent, this`execSeq, this`executions
      ensures Valid() && Model() == old(Model()).(executions := old(executions) + [row])
    {
      hide Indexed;
      IndexedAppend(execByEvent, execSeq, executions, S.ExecutionEvent, ExecutionPos, row);
      execSeq := execSeq + 1;
      execByEvent := execByEvent[row.eventID := Rows(execByEvent, row.eventID) + [row]];
      executions := executions + [row];
    }

    method AddExecution(given: Execution) returns (row: Execution, ok: bool)
      requires Valid()
      modifies this`draws, this`execByEvent, this`execSeq, this`executions
      ensures Valid() && Model() == S.AddExecution(old(Model()), given)
      ensures ok <==> given.eventID in old(events)
      ensures ok ==> row == S.ExecutionRow(old(Model()), given)
    {
      hide Indexed;
      row := given;
      if given.eventID !in events { return row, false; }
      IndexedRows(execByEvent, execSeq, executions, S.ExecutionEvent, ExecutionPos, given.eventID);
      var id := IdentifierFor(given.executionID);
      row := given.(id := execSeq + 1, executionID := id, status := if given.status == "" then "pending" else given.status, round := S.DefaultRound(given.round));
      AppendExecution(row);
      ok := true;
    }

    method ListSummaries(e: ID) returns (rows: seq<Summary>)
      requires Valid()
      ensures rows == S.ListSummaries(Model(), e)
    {
      hide Indexed;
      IndexedRows(summariesByEvent, summarySeq, summaries, S.SummaryEvent, SummaryPos, e);
      rows := Rows(summariesByEvent, e);
    }

    method AppendSummary(row: Summary)
      requires Valid() && row.id == summarySeq + 1
      modifies this`summariesByEvent, this`summarySeq, this`summaries
      ensures Valid() && Model() == old(Model()).(summaries := old(summaries) + [row])
    {
      hide Indexed;
      IndexedAppend(summariesByEvent, summarySeq, summaries, S.SummaryEvent, SummaryPos, row);
      summarySeq := summarySeq + 1;
      summariesByEvent := summariesByEvent[row.eventID := Rows(summariesByEvent, row.eventID) + [row]];
      summaries := summaries + [row];
    }

    method AddSummary(given: Summary) returns (row: Summary, ok: bool)
      requires Valid()
      modifies this`summariesByEvent, this`summarySeq, this`summaries
      ensures Valid() && Model() == S.AddSummary(old(Model()), given)
      ensures ok <==> given.eventID in old(events)
      ensures ok ==> row == S.SummaryRow(old(Model()), given)
    {
      hide Indexed;
      row := given;
      if given.eventID !in events { return row, false; }
      IndexedRows(summariesByEvent, summarySeq, summaries, S.SummaryEvent, SummaryPos, given.eventID);
      row := given.(id := summarySeq + 1, round := S.DefaultRound(given.round));
      AppendSummary(row);
      ok := true;
    }

    method ReserveFingerprint(fp: string) returns (reserved: bool)
      requires Valid()
      modifies this`eventMaps
      ensures Valid() && Model() == S.ReserveFingerprint(old(Model()), fp) && reserved == (fp !in old(eventMaps))
    {
      reserved := fp !in eventMaps;
      if reserved { eventMaps := eventMaps[fp := EventMap(fp, "", NO_ID)]; }
    }

    method BindEventMap(fp: string, lyID: string, deepID: ID)
      requires Valid()
      modifies this`eventMaps
      ensures Valid() && Model() == S.BindEventMap(old(Model()), fp, lyID, deepID)
    {
      var row := if fp in eventMaps then eventMaps[fp] else EventMap("", "", NO_ID);
      eventMaps := eventMaps[fp := row.(fingerprint := fp, lyID := lyID, deepID := deepID)];
    }

    method GetEventMap(fp: string) returns (row: EventMap, ok: bool)
      ensures ok <==> fp in Model().eventMaps
      ensures row == if ok then Model().eventMaps[fp] else EventMap("", "", NO_ID)
    {
      ok := fp in eventMaps;
      row := if ok then eventMaps[fp] else EventMap("", "", NO_ID);
    }

    method GetCursor(name: string) returns (lastTS: string)
      ensures lastTS == S.GetCursor(Model(), name)
    {
      lastTS := if name in cursors then cursors[name] else "";
    }

    method AlreadyPushed(recordID: string) returns (known: bool)
      ensures known <==> recordID in Model().pushed
    {
      known := recordID in pushed;
    }

    method SaveCursor(name: string, lastTS: string)
      requires Valid()
      modifies this`cursors
      ensures Valid() && Model() == S.SaveCursor(old(Model()), name, lastTS)
    {
      cursors := cursors[name := lastTS];
    }

    method SavePushedEvent(pe: PushedEvent)
      requires Valid()
      modifies this`pushed
      ensures Valid() && Model() == S.SavePushed(old(Model()), pe)
    {
      pushed := pushed[pe.recordID := pe];
    }
  }
}
