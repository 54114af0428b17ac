/** When do several runs on one event leave a single set of rows? The check for existing rows and the
    first insert are separate steps (internal/service/agents.go:22-38). Without an overlap of two runs
    between those steps, one set per event is all there ever is, and everything proved of an event with one
    writing run holds of every event. */
module WorkflowOverlap {
  import opened Domain
  import opened Planning
  import opened StoreModel
  import opened Workflow
  import opened WorkflowRows
  import opened WorkflowSafety
  import opened WorkflowResults

  /** The run has found no tasks and has not written one yet. */
  ghost predicate InWindow(r: Run) { 2 <= Rank(r.stage) <= 8 && r.seen.tasks == [] && r.tasks == [] }

  ghost predicate Writer(r: Run) { r.tasks != [] }

  /** Two different runs for event e. */
  ghost predicate Rivals(sys: System, e: ID, a: nat, b: nat) {
    a < |sys.runs| && b < |sys.runs| && a != b && sys.runs[a].on.eventID == e && sys.runs[b].on.eventID == e
  }

  /** Two runs for event e are in the window together. */
  ghost predicate Overlap(sys: System, e: ID) {
    exists a: nat, b: nat :: Rivals(sys, e, a, b) && InWindow(sys.runs[a]) && InWindow(sys.runs[b])
  }

  /** A run that has written for event e has no rival that did, nor one in the window. */
  ghost predicate OneWriter(sys: System, e: ID) {
    forall a: nat, b: nat :: Rivals(sys, e, a, b) && Writer(sys.runs[a]) ==> !InWindow(sys.runs[b]) && !Writer(sys.runs[b])
  }

  // --------------------------------------------------------- what a run has seen

  ghost predicate HasExecution(st: Store, e: ID) {
    exists j :: 0 <= j < |st.executions| && st.executions[j].eventID == e
  }

  /** A run that writes saw no tasks; executions seen are still there; the messages are looked at only
      when there were tasks or executions. */
  ghost predicate SawRightly(st: Store, r: Run) {
    && (7 <= Rank(r.stage) <= 21 ==> r.seen.tasks == [])
    && (r.seen.executions != [] ==> HasExecution(st, r.on.eventID))
    && (r.stage == ReadMessages ==> r.seen.tasks != [] || r.seen.executions != [])
  }

  ghost predicate AllSawRightly(sys: System) { forall a :: 0 <= a < |sys.runs| ==> SawRightly(sys.st, sys.runs[a]) }

  lemma {:induction false} ListedExecution(st: Store, e: ID)
    requires ListExecutions(st, e) != []
    ensures HasExecution(st, e)
  {
    var x := ListExecutions(st, e)[0];
    SelectSound(st.executions, ExecutionEvent, e, x);
    var j :| 0 <= j < |st.executions| && st.executions[j] == x;
  }

  lemma {:induction false} ReadRightly(st: Store, r: Run)
    requires Progress(r) && Rank(r.stage) <= 6 && SawRightly(st, r)
    ensures SawRightly(st, AfterRead(st, r))
  {
    hide HasAgentMessages, ListMessages, ListTasks, ListActions, ListCommands, ListExecutions, ListSummaries, HasExecution, Progress;
    if ListExecutions(st, r.on.eventID) != [] { ListedExecution(st, r.on.eventID); }
  }

  lemma WindowRead(st: Store, r: Run)
    requires Progress(r) && Rank(r.stage) <= 6 && Known(st, r)
    ensures var r' := AfterRead(st, r);
            && Rank(r'.stage) != 8 && (7 <= Rank(r'.stage) <= 21 ==> r'.seen.tasks == []) && !Writer(r')
            && (InWindow(r') ==> InWindow(r) || (r.stage == ReadTasks && ListTasks(st, r.on.eventID) == []))
  {
    hide HasAgentMessages, ListMessages, ListTasks, ListActions, ListCommands, ListExecutions, ListSummaries;
  }

  lemma WindowWrite(st: Store, r: Run)
    requires Progress(r) && 7 <= Rank(r.stage) <= 14 && r.seen.tasks == []
    ensures var r' := AfterFanOut(st, r);
            && r'.seen == r.seen && Rank(r'.stage) >= 7 && (Writer(r') ==> Writer(r) || InWindow(r)) && (InWindow(r') ==> InWindow(r))
  {
    hide BuildTaskPlans, TaskRow, NewTask, ActionRow, NewAction, CommandRow, NewCommand, ExecutionRow, NewExecution;
  }

  lemma WindowLater(st: Store, r: Run)
    requires Progress(r) && Rank(r.stage) >= 15 && Known(st, r)
    ensures var r' := if Rank(r.stage) <= 21 then AfterWrapUp(st, r) else AfterRestore(st, r);
            && r'.seen == r.seen && r'.tasks == r.tasks && Rank(r'.stage) >= 15 && (Rank(r'.stage) <= 21 ==> Rank(r.stage) <= 21)
  {
    hide SummaryRow, NewSummary;
  }

  /** How one step of a run moves it with respect to the window. */
  lemma WindowStep(st: Store, r: Run)
    requires Progress(r) && Known(st, r)
    requires 7 <= Rank(r.stage) <= 21 ==> r.seen.tasks == []
    ensures var r' := Advance(st, r);
            && r'.on.eventID == r.on.eventID
            && (7 <= Rank(r'.stage) <= 21 ==> r'.seen.tasks == [])
            && (Writer(r') ==> Writer(r) || InWindow(r))
            && (InWindow(r') ==> InWindow(r) || (r.stage == ReadTasks && ListTasks(st, r.on.eventID) == []))
  {
    hide NextOp, AfterRead, AfterFanOut, AfterWrapUp, AfterRestore, Inserts, Progress, ListTasks;
    if Rank(r.stage) <= 6 { WindowRead(st, r); }
    else if Rank(r.stage) <= 14 { WindowWrite(st, r); }
    else { WindowLater(st, r); }
  }

  /** What a step leaves of what was seen. */
  lemma SeenStays(st: Store, r: Run)
    requires Progress(r) && Rank(r.stage) >= 7 && Known(st, r) && SawRightly(st, r)
    ensures var r' := Advance(st, r); r'.seen == r.seen && r'.stage != ReadMessages && (7 <= Rank(r'.stage) <= 21 ==> r'.seen.tasks == [])
  {
    hide NextOp, AfterRead, AfterFanOut, AfterWrapUp, AfterRestore, Inserts, Progress, HasExecution;
    if Rank(r.stage) <= 14 { WindowWrite(st, r); } else { WindowLater(st, r); }
  }

  lemma {:induction false} OwnSight(st: Store, st': Store, r: Run)
    requires Progress(r) && Known(st, r) && SawRightly(st, r) && st.executions <= st'.executions
    ensures SawRightly(st', Advance(st, r))
  {
    if Rank(r.stage) <= 6 {
      ReadRightly(st, r);
      ReadAdvances(st, r);
      SightStays(st, st', AfterRead(st, r));
    } else {
      SeenStays(st, r);
      AdvanceKeeps(st, r);
      SightStays(st, st', r);
      hide Advance, HasExecution, Rank, Progress, Known;
    }
  }

  lemma ReadAdvances(st: Store, r: Run)
    requires Progress(r) && Rank(r.stage) <= 6
    ensures Advance(st, r) == AfterRead(st, r) && NextOp(r) == Nothing
  {
    hide AfterRead, FanOutOp, WrapUpOp, RestoreOp, AfterFanOut, AfterWrapUp, AfterRestore;
  }

  lemma {:induction false} SightStays(st: Store, st': Store, r: Run)
    requires SawRightly(st, r) && st.executions <= st'.executions
    ensures SawRightly(st', r)
  {
    if HasExecution(st, r.on.eventID) {
      var j :| 0 <= j < |st.executions| && st.executions[j].eventID == r.on.eventID;
      assert st'.executions[j].eventID == r.on.eventID;
    }
    hide HasExecution;
  }

  lemma ExecutionsOnlyGrow(sys: System, a: nat)
    requires Runnable(sys) && a < |sys.runs|
    ensures sys.st.executions <= TakeTurn(sys, a).st.executions
  {
    hide Apply, NextOp, Advance, Progress, Grow, ExecutionRow;
    ApplyByTable(sys.st, sys.runs[a].on.eventID, NextOp(sys.runs[a]));
  }

  lemma {:induction false} TurnKeepsSight(sys: System, a: nat)
    requires Runnable(sys) && Inv(sys) && AllSawRightly(sys) && a < |sys.runs|
    ensures AllSawRightly(TakeTurn(sys, a))
  {
    hide Progress, RunOk, Advance, Apply, NextOp, Grow, SawRightly, TablesOk, FinishersOk;
    var st' := TakeTurn(sys, a).st;
    assert Known(sys.st, sys.runs[a]) by { RunIsKnown(sys, a); }
    ExecutionsOnlyGrow(sys, a);
    OwnSight(sys.st, st', sys.runs[a]);
    forall b | 0 <= b < |sys.runs| && b != a ensures SawRightly(st', sys.runs[b]) { SightStays(sys.st, st', sys.runs[b]); }
  }

  lemma RunIsKnown(sys: System, a: nat)
    requires Inv(sys) && a < |sys.runs|
    ensures Known(sys.st, sys.runs[a]) && Chain(sys.runs[a]) && RunOk(sys.st, sys.runs[a])
  {
    hide TablesOk, FinishersOk;
    assert RunOk(sys.st, sys.runs[a]);
  }

  lemma {:induction false} LabelKeepsSight(sys: System, l: Label)
    requires Runnable(sys) && Inv(sys) && AllSawRightly(sys)
    ensures AllSawRightly(Next(sys, l))
  {
    hide Progress, Inv, TakeTurn, HasExecution, MessageRow, EventRow, Drew;
    match l
    case Launch(e) =>
    case Turn(a) => if a < |sys.runs| { TurnKeepsSight(sys, a); }
    case Register(event) => SameExecutions(sys, CreateEvent(sys.st, event.(status := "pending")));
    case Write(m) => SameExecutions(sys, AddMessage(sys.st, m));
  }

  lemma SameExecutions(sys: System, st': Store)
    requires AllSawRightly(sys) && st'.executions == sys.st.executions
    ensures AllSawRightly(sys.(st := st'))
  {
  }

  lemma {:induction false} ReachableSight(sys: System, labels: seq<Label>)
    requires Initial(sys)
    ensures AllSawRightly(Execute(sys, labels))
  {
    hide Next, Inv, SawRightly;
    if labels != [] {
      ReachableInv(sys, labels[..|labels| - 1]);
      ReachableSight(sys, labels[..|labels| - 1]);
      LabelKeepsSight(Execute(sys, labels[..|labels| - 1]), labels[|labels| - 1]);
    }
  }

  // ----------------------------------------------------------- without an overlap

  lemma {:induction false} WritersAreListed(st: Store, r: Run)
    requires RunOk(st, r) && Writer(r)
    ensures ListTasks(st, r.on.eventID) != []
  {
    hide RunOk, Select;
    RunRowEvents(st, r, 0);
    var k := r.tasks[0].id - 1;
    assert TaskEvent(st.tasks[k]) == r.on.eventID;
    SelectComplete(st.tasks, TaskEvent, r.on.eventID, k);
  }

  /** A turn while event e has no overlap: whoever may start writing has no rival that wrote. */
  lemma {:induction false} TurnKeepsOneWriter(sys: System, a: nat, e: ID)
    requires Runnable(sys) && Inv(sys) && AllSawRightly(sys) && a < |sys.runs| && OneWriter(sys, e) && !Overlap(sys, e)
    ensures OneWriter(TakeTurn(sys, a), e)
  {
    hide Progress, RunOk, Advance, Apply, NextOp, Grow, InWindow, Writer, TablesOk, FinishersOk, ListTasks, Known;
    RunIsKnown(sys, a);
    assert SawRightly(sys.st, sys.runs[a]);
    assert 7 <= Rank(sys.runs[a].stage) <= 21 ==> sys.runs[a].seen.tasks == [];
    hide SawRightly, AllSawRightly, Rank;
    WindowStep(sys.st, sys.runs[a]);
    forall b | 0 <= b < |sys.runs| && Writer(sys.runs[b]) ensures ListTasks(sys.st, sys.runs[b].on.eventID) != [] {
      RunIsKnown(sys, b);
      WritersAreListed(sys.st, sys.runs[b]);
    }
    var s' := TakeTurn(sys, a);
    forall x: nat, y: nat | Rivals(s', e, x, y) && Writer(s'.runs[x]) ensures !InWindow(s'.runs[y]) && !Writer(s'.runs[y]) {
      assert Rivals(sys, e, x, y) && Rivals(sys, e, y, x);
    }
  }

  lemma {:induction false} LabelKeepsOneWriter(sys: System, l: Label, e: ID)
    requires Runnable(sys) && Inv(sys) && AllSawRightly(sys) && OneWriter(sys, e) && !Overlap(sys, e)
    ensures OneWriter(Next(sys, l), e)
  {
    hide Progress, Inv, Overlap, TakeTurn, CreateEvent, AddMessage, AllSawRightly;
    match l
    case Turn(a) => if a < |sys.runs| { TurnKeepsOneWriter(sys, a, e); }
    case Launch(e') =>
      var s' := Next(sys, l);
      forall x: nat, y: nat | Rivals(s', e, x, y) && Writer(s'.runs[x]) ensures !InWindow(s'.runs[y]) && !Writer(s'.runs[y]) {
        if y < |sys.runs| { assert Rivals(sys, e, x, y); }
      }
    case Register(_) => SameRuns(sys, Next(sys, l), e);
    case Write(_) => SameRuns(sys, Next(sys, l), e);
  }

  lemma SameRuns(sys: System, sys': System, e: ID)
    requires OneWriter(sys, e) && sys'.runs == sys.runs
    ensures OneWriter(sys', e)
  {
    forall x: nat, y: nat | Rivals(sys', e, x, y) && Writer(sys'.runs[x]) ensures !InWindow(sys'.runs[y]) && !Writer(sys'.runs[y]) {
      assert Rivals(sys, e, x, y);
    }
  }

  /** No two runs for event e are in the window together before any step of the schedule. */
  ghost predicate NeverOverlaps(sys: System, labels: seq<Label>, e: ID)
    requires Runnable(sys)
  {
    forall k :: 0 <= k < |labels| ==> !Overlap(Execute(sys, labels[..k]), e)
  }

  lemma {:induction false} NeverOverlapsFront(sys: System, labels: seq<Label>, e: ID)
    requires Runnable(sys) && labels != [] && NeverOverlaps(sys, labels, e)
    ensures NeverOverlaps(sys, labels[..|labels| - 1], e) && !Overlap(Execute(sys, labels[..|labels| - 1]), e)
  {
    hide Overlap, Progress, Execute;
    var front := labels[..|labels| - 1];
    forall k | 0 <= k < |front| ensures !Overlap(Execute(sys, front[..k]), e) { assert front[..k] == labels[..k]; }
  }

  lemma {:induction false} WithoutOverlapOneWriter(sys: System, labels: seq<Label>, e: ID)
    requires Initial(sys) && NeverOverlaps(sys, labels, e)
    ensures OneWriter(Execute(sys, labels), e)
  {
    hide Progress, Inv, Overlap, Next, AllSawRightly, NeverOverlaps;
    if labels != [] {
      var front := labels[..|labels| - 1];
      NeverOverlapsFront(sys, labels, e);
      WithoutOverlapOneWriter(sys, front, e);
      ReachableInv(sys, front);
      ReachableSight(sys, front);
      hide OneWriter;
      LabelKeepsOneWriter(Execute(sys, front), labels[|labels| - 1], e);
    }
  }

  // ------------------------------------------------------------- what the tables hold

  /** All rows of event e, of every kind, come from run a. */
  ghost predicate AllFrom(sys: System, e: ID, a: nat) {
    && |sys.taskFrom| == |sys.st.tasks| && |sys.actionFrom| == |sys.st.actions|
    && |sys.commandFrom| == |sys.st.commands| && |sys.executionFrom| == |sys.st.executions|
    && (forall j :: 0 <= j < |sys.st.tasks| && sys.st.tasks[j].eventID == e ==> sys.taskFrom[j].run == a)
    && (forall j :: 0 <= j < |sys.st.actions| && sys.st.actions[j].eventID == e ==> sys.actionFrom[j].run == a)
    && (forall j :: 0 <= j < |sys.st.commands| && sys.st.commands[j].eventID == e ==> sys.commandFrom[j].run == a)
    && (forall j :: 0 <= j < |sys.st.executions| && sys.st.executions[j].eventID == e ==> sys.executionFrom[j].run == a)
  }

  lemma {:induction false} SoleWriterOwnsAll(sys: System, e: ID, a: nat)
    requires Inv(sys) && SoleWriter(sys, e, a)
    ensures AllFrom(sys, e, a)
  {
    hide RunOk, TableOk, FinishersOk;
    TableSizes(sys);
    hide TablesOk, Inv;
    forall j | 0 <= j < |sys.st.tasks| && sys.st.tasks[j].eventID == e ensures sys.taskFrom[j].run == a { TaskRowEvent(sys, j); }
    forall j | 0 <= j < |sys.st.actions| && sys.st.actions[j].eventID == e ensures sys.actionFrom[j].run == a { ActionRowEvent(sys, j); }
    forall j | 0 <= j < |sys.st.commands| && sys.st.commands[j].eventID == e ensures sys.commandFrom[j].run == a { CommandRowEvent(sys, j); }
    forall j | 0 <= j < |sys.st.executions| && sys.st.executions[j].eventID == e ensures sys.executionFrom[j].run == a { ExecutionRowEvent(sys, j); }
  }

  /** An event no run was ever launched for has no rows. */
  lemma {:induction false} NoRunNoRows(sys: System, e: ID)
    requires Inv(sys) && forall a :: 0 <= a < |sys.runs| ==> sys.runs[a].on.eventID != e
    ensures AllFrom(sys, e, 0)
    ensures ListTasks(sys.st, e) == [] && ListActions(sys.st, e) == [] && ListCommands(sys.st, e) == [] && ListExecutions(sys.st, e) == []
    ensures e in sys.st.events ==> sys.st.events[e].status != "round_finished"
  {
    hide RunOk, TableOk;
    TableSizes(sys);
    hide TablesOk;
    forall j | 0 <= j < |sys.st.tasks| ensures sys.st.tasks[j].eventID != e { TaskRowEvent(sys, j); }
    forall j | 0 <= j < |sys.st.actions| ensures sys.st.actions[j].eventID != e { ActionRowEvent(sys, j); }
    forall j | 0 <= j < |sys.st.commands| ensures sys.st.commands[j].eventID != e { CommandRowEvent(sys, j); }
    forall j | 0 <= j < |sys.st.executions| ensures sys.st.executions[j].eventID != e { ExecutionRowEvent(sys, j); }
    NothingListed(sys.st.tasks, TaskEvent, e);
    NothingListed(sys.st.actions, ActionEvent, e);
    NothingListed(sys.st.commands, CommandEvent, e);
    NothingListed(sys.st.executions, ExecutionEvent, e);
  }

  lemma {:induction false} NothingListed<R>(rows: seq<R>, eventOf: R -> ID, e: ID)
    requires forall j :: 0 <= j < |rows| ==> eventOf(rows[j]) != e
    ensures Select(rows, eventOf, e) == []
  {
    if Select(rows, eventOf, e) != [] { SelectSound(rows, eventOf, e, Select(rows, eventOf, e)[0]); }
  }

  /** With one writer at most, some run for the event is the sole writer, unless no run was launched. */
  lemma {:induction false} WriterIsSole(sys: System, e: ID) returns (a: nat)
    requires OneWriter(sys, e)
    ensures SoleWriter(sys, e, a) || forall b :: 0 <= b < |sys.runs| ==> sys.runs[b].on.eventID != e
    ensures forall b :: 0 <= b < |sys.runs| && sys.runs[b].on.eventID == e && Writer(sys.runs[b]) ==> b == a
  {
    a := 0;
    if w :| 0 <= w < |sys.runs| && sys.runs[w].on.eventID == e && Writer(sys.runs[w]) {
      a := w;
      forall b | 0 <= b < |sys.runs| && b != a && sys.runs[b].on.eventID == e ensures sys.runs[b].tasks == [] {
        assert Rivals(sys, e, a, b);
      }
    } else if r :| 0 <= r < |sys.runs| && sys.runs[r].on.eventID == e {
      a := r;
    }
  }

  /** Without an overlap all rows of an event, however many runs were launched for it, come from one run. */
  lemma {:induction false} WithoutOverlapOneSet(sys: System, labels: seq<Label>, e: ID)
    requires Initial(sys) && NeverOverlaps(sys, labels, e)
    ensures exists a: nat :: AllFrom(Execute(sys, labels), e, a)
  {
    hide Execute, Inv, NeverOverlaps, OneWriter, AllFrom;
    ReachableInv(sys, labels);
    WithoutOverlapOneWriter(sys, labels, e);
    var s := Execute(sys, labels);
    var a := WriterIsSole(s, e);
    if SoleWriter(s, e, a) { SoleWriterOwnsAll(s, e, a); } else { NoRunNoRows(s, e); }
  }

  /** The ladder of an event with n plans. */
  ghost predicate Ladder(st: Store, e: ID, n: nat) {
    FansOut(st, e, n) && CommandsCarryActions(st, e, n) && ActionsCarryTasks(st, e, n) && TasksCarryEvent(st, e, n)
  }

  /** Without an overlap the ladder holds of every event at every moment, however many runs were launched;
      once there are tasks, its width is the number of plans of the event. */
  lemma {:induction false} WithoutOverlapLadder(sys: System, labels: seq<Label>, e: ID)
    requires Initial(sys) && NeverOverlaps(sys, labels, e)
    ensures exists n: nat :: Ladder(Execute(sys, labels).st, e, n)
    ensures var s := Execute(sys, labels);
            ListTasks(s.st, e) != [] ==>
              exists a :: 0 <= a < |s.runs| && s.runs[a].on.eventID == e && Ladder(s.st, e, |BuildTaskPlans(s.runs[a].on.event)|)
  {
    hide Execute, Inv, NeverOverlaps, OneWriter, AllFrom, FansOut, CommandsCarryActions, ActionsCarryTasks, TasksCarryEvent,
      BuildTaskPlans, ListTasks, ListActions, ListCommands, ListExecutions;
    ReachableInv(sys, labels);
    WithoutOverlapOneWriter(sys, labels, e);
    var s := Execute(sys, labels);
    var a := WriterIsSole(s, e);
    if SoleWriter(s, e, a) {
      EventClimbsTheLadder(sys, labels, e, a);
      assert Ladder(s.st, e, |s.runs[a].plans|);
    } else {
      NoRunNoRows(s, e);
      EmptyLadder(s.st, e);
    }
  }

  lemma EmptyLadder(st: Store, e: ID)
    requires ListTasks(st, e) == [] && ListActions(st, e) == [] && ListCommands(st, e) == [] && ListExecutions(st, e) == []
    requires e in st.events ==> st.events[e].status != "round_finished"
    ensures Ladder(st, e, 0)
  {
    hide ListTasks, ListActions, ListCommands, ListExecutions;
  }

  /** Without an overlap every finished run, whatever others were launched, leaves a whole set of rows. */
  lemma {:induction false} WithoutOverlapFinishedRunIsWhole(sys: System, labels: seq<Label>, a: nat)
    requires Initial(sys) && a < |Execute(sys, labels).runs| && Execute(sys, labels).runs[a].stage == Finished
    requires NeverOverlaps(sys, labels, Execute(sys, labels).runs[a].on.eventID)
    ensures var r := Execute(sys, labels).runs[a]; WholeRun(Execute(sys, labels).st, r.on.event, r.on.eventID)
  {
    hide Execute, Inv, NeverOverlaps, OneWriter, WholeRun;
    var s := Execute(sys, labels);
    var e := s.runs[a].on.eventID;
    ReachableInv(sys, labels);
    WithoutOverlapOneWriter(sys, labels, e);
    var w := WriterIsSole(s, e);
    FinishedWrote(s, a);
    FinishedRunIsWhole(sys, labels, e, a);
  }

  // ------------------------------------------------------------- the event's status

  /** Without an overlap the status of an event never steps back either. */
  lemma {:induction false} WithoutOverlapEventClimbs(sys: System, labels: seq<Label>, l: Label, e: ID)
    requires Initial(sys) && NeverOverlaps(sys, labels, e)
    ensures EventClimbs(Execute(sys, labels).st, Execute(sys, labels + [l]).st, e)
  {
    hide NeverOverlaps, Inv, OneWriter, AllSawRightly, TakeTurn, MessageRow, EventLevel, Progress, Overlap;
    assert (labels + [l])[..|labels|] == labels;
    var s := Execute(sys, labels);
    assert Execute(sys, labels + [l]) == Next(s, l);
    hide Execute;
    ReachableInv(sys, labels);
    WithoutOverlapOneWriter(sys, labels, e);
    ReachableSight(sys, labels);
    if l.Turn? && l.a < |s.runs| && e in s.st.events {
      EventStepsBackExactly(s, l.a, e);
      if s.runs[l.a].stage == MarkProcessing && s.runs[l.a].on.eventID == e { FinishedHasNoRival(s, l.a, e); }
    }
  }

  lemma {:induction false} FinishedHasNoRival(sys: System, b: nat, e: ID)
    requires Runnable(sys) && Inv(sys) && OneWriter(sys, e) && AllSawRightly(sys) && e in sys.st.events
    requires b < |sys.runs| && sys.runs[b].stage == MarkProcessing && sys.runs[b].on.eventID == e
    ensures sys.st.events[e].status != "round_finished"
  {
    hide RunOk, TablesOk;
    assert SawRightly(sys.st, sys.runs[b]) && InWindow(sys.runs[b]);
    forall x: nat | Rivals(sys, e, x, b) ensures !Writer(sys.runs[x]) {}
    if sys.st.events[e].status == "round_finished" { FinishedWrote(sys, sys.finisher[e]); }
  }
}
