/** internal/service/agents.go over the memory store: `RunAgentWorkflow` and its loops, proved to do
    exactly what the step machine of module Workflow does when nobody interferes. The ghost run passed
    from loop to loop is that machine's run, kept on track towards where it ends. */
module Agents {
  import opened Strings
  import opened Domain
  import opened Planning
  import opened Workflow
  import opened WorkflowRows
  import opened WorkflowRerun
  import opened MemoryStores
  import S = StoreModel
  import WorkflowSafety

  /** Row identifiers are unique, and the drawn ones are older than the next draw. */
  ghost predicate Keyed<R(!new)>(rows: seq<R>, idOf: R -> ID, draws: nat) {
    && S.UniqueIDs(rows, idOf)
    && forall j :: 0 <= j < |rows| && idOf(rows[j]).Drawn? ==> idOf(rows[j]).n < draws
  }

  ghost predicate WellKeyed(st: S.Store) {
    Keyed(st.tasks, S.TaskIDOf, st.draws) && Keyed(st.actions, S.ActionIDOf, st.draws) && Keyed(st.commands, S.CommandIDOf, st.draws)
  }

  /** In every reachable store they are: the workflow is the only writer of these tables. */
  lemma {:induction false} ReachableIsWellKeyed(initial: WorkflowSafety.System, labels: seq<WorkflowSafety.Label>)
    requires WorkflowSafety.Initial(initial)
    ensures WellKeyed(WorkflowSafety.Execute(initial, labels).st)
  {
    hide WorkflowSafety.Execute, WorkflowSafety.RunOk, WorkflowSafety.FinishersOk, WorkflowSafety.AllOwned, WorkflowSafety.AllTraced,
      WorkflowSafety.AllOrdered;
    WorkflowSafety.ReachableInv(initial, labels);
  }

  /** The rows a workflow inserts leave their identifier to the store. */
  predicate LeavesIDs(op: Op) {
    match op
    case InsertTask(t) => t.taskID == NO_ID
    case InsertAction(a) => a.actionID == NO_ID
    case InsertCommand(c) => c.commandID == NO_ID
    case _ => true
  }

  lemma {:induction false} KeyedLater<R(!new)>(rows: seq<R>, idOf: R -> ID, draws: nat, draws': nat)
    requires Keyed(rows, idOf, draws) && draws <= draws'
    ensures Keyed(rows, idOf, draws')
  {
  }

  lemma {:induction false} KeyedGrows<R(!new)>(rows: seq<R>, idOf: R -> ID, draws: nat, x: R)
    requires Keyed(rows, idOf, draws) && idOf(x) == Drawn(draws)
    ensures Keyed(rows + [x], idOf, draws + 1)
  {
  }

  lemma {:induction false} KeyedPatched<R(!new)>(rows: seq<R>, idOf: R -> ID, draws: nat, j: nat, x: R)
    requires Keyed(rows, idOf, draws) && j < |rows| && idOf(x) == idOf(rows[j])
    ensures Keyed(rows[j := x], idOf, draws)
  {
  }

  lemma {:induction false} TasksStayKeyed(st: S.Store, e: ID, op: Op)
    requires Keyed(st.tasks, S.TaskIDOf, st.draws) && LeavesIDs(op)
    ensures Keyed(Apply(st, e, op).tasks, S.TaskIDOf, Apply(st, e, op).draws)
  {
    hide Keyed, NormalizeMessage;
    ApplyByTable(st, e, op);
    DrawsGrow(st, e, op);
    var st' := Apply(st, e, op);
    KeyedLater(st.tasks, S.TaskIDOf, st.draws, st'.draws);
    if op.InsertTask? {
      KeyedGrows(st.tasks, S.TaskIDOf, st.draws, S.TaskRow(st, op.task));
    } else if op.PatchTaskRow? {
      var j := S.Find(st.tasks, S.TaskIDOf, op.taskID);
      if j < |st.tasks| { KeyedPatched(st.tasks, S.TaskIDOf, st.draws, j, S.PatchTask(st.tasks[j], op.taskPatch)); }
    }
  }

  lemma {:induction false} ActionsStayKeyed(st: S.Store, e: ID, op: Op)
    requires Keyed(st.actions, S.ActionIDOf, st.draws) && LeavesIDs(op)
    ensures Keyed(Apply(st, e, op).actions, S.ActionIDOf, Apply(st, e, op).draws)
  {
    hide Keyed, NormalizeMessage;
    ApplyByTable(st, e, op);
    DrawsGrow(st, e, op);
    var st' := Apply(st, e, op);
    KeyedLater(st.actions, S.ActionIDOf, st.draws, st'.draws);
    if op.InsertAction? {
      KeyedGrows(st.actions, S.ActionIDOf, st.draws, S.ActionRow(st, op.action));
    } else if op.PatchActionRow? {
      var j := S.Find(st.actions, S.ActionIDOf, op.actionID);
      if j < |st.actions| { KeyedPatched(st.actions, S.ActionIDOf, st.draws, j, S.PatchAction(st.actions[j], op.patch)); }
    }
  }

  lemma {:induction false} CommandsStayKeyed(st: S.Store, e: ID, op: Op)
    requires Keyed(st.commands, S.CommandIDOf, st.draws) && LeavesIDs(op)
    ensures Keyed(Apply(st, e, op).commands, S.CommandIDOf, Apply(st, e, op).draws)
  {
    hide Keyed, NormalizeMessage;
    ApplyByTable(st, e, op);
    DrawsGrow(st, e, op);
    var st' := Apply(st, e, op);
    KeyedLater(st.commands, S.CommandIDOf, st.draws, st'.draws);
    if op.InsertCommand? {
      KeyedGrows(st.commands, S.CommandIDOf, st.draws, S.CommandRow(st, op.command));
    } else if op.PatchCommandRow? {
      var j := S.Find(st.commands, S.CommandIDOf, op.commandID);
      if j < |st.commands| { KeyedPatched(st.commands, S.CommandIDOf, st.draws, j, S.PatchCommand(st.commands[j], op.patch)); }
    }
  }

  lemma OpsLeaveIDs(r: Run)
    requires Progress(r)
    ensures LeavesIDs(NextOp(r))
  {
    hide SeverityPriority, ActionNameForTask, FirstNonEmpty, CommandSpecForAction, NewExecution, NewSummary, Captain, Manager,
      Operator, Executor, Expert;
  }

  /** The store as a run in progress needs it, and the end it is heading for. */
  ghost predicate OnTrack(st: S.Store, r: Run, goal: (S.Store, Run)) {
    && Progress(r) && WellKeyed(st) && RunToEnd(st, r) == goal
    && (r.stage != GetEvent ==> r.on.eventID in st.events)
  }

  /** Doing what the run does next keeps it on track. */
  lemma {:induction false} StaysOnTrack(st: S.Store, r: Run, goal: (S.Store, Run))
    requires OnTrack(st, r, goal) && !Terminal(r.stage) && r.stage != GetEvent
    ensures OnTrack(Apply(st, r.on.eventID, NextOp(r)), Advance(st, r), goal)
    ensures Advance(st, r).on == r.on
  {
    hide Apply, NextOp, Advance, Keyed, LeavesIDs;
    AdvanceMakesProgress(st, r);
    OpsLeaveIDs(r);
    var e, op := r.on.eventID, NextOp(r);
    TasksStayKeyed(st, e, op);
    ActionsStayKeyed(st, e, op);
    CommandsStayKeyed(st, e, op);
    ApplyByTable(st, e, op);
    AdvanceKeeps(st, r);
  }

  /** On track, with this operation next. */
  ghost predicate Doing(st: S.Store, r: Run, op: Op, goal: (S.Store, Run)) {
    OnTrack(st, r, goal) && !Terminal(r.stage) && r.stage != GetEvent && NextOp(r) == op
  }

  lemma {:induction false} Done(st: S.Store, r: Run, op: Op, goal: (S.Store, Run))
    requires Doing(st, r, op, goal)
    ensures OnTrack(Apply(st, r.on.eventID, op), Advance(st, r), goal)
    ensures WellKeyed(st) && Progress(r) && r.on.eventID in st.events
  {
    hide Apply, NextOp, Advance, Keyed;
    StaysOnTrack(st, r, goal);
  }

  lemma Unique(st: S.Store)
    requires WellKeyed(st)
    ensures S.UniqueIDs(st.tasks, S.TaskIDOf) && S.UniqueIDs(st.actions, S.ActionIDOf) && S.UniqueIDs(st.commands, S.CommandIDOf)
  {
  }

  lemma TaskSide(st: S.Store, r: Run, goal: (S.Store, Run))
    requires OnTrack(st, r, goal) && !Terminal(r.stage) && r.stage != GetEvent
    ensures Progress(r)
    ensures r.stage == CreateTask ==> |r.tasks| <= |r.plans|
    ensures r.stage == CreateTask && |r.tasks| < |r.plans| ==>
              var t := NewTask(r.on, r.plans[|r.tasks|]);
              && Doing(st, r, InsertTask(t), goal) && t.eventID == r.on.eventID
              && Advance(st, r) == r.(tasks := r.tasks + [S.TaskRow(st, t)])
    ensures r.stage == CreateTask && |r.tasks| == |r.plans| ==>
              Doing(st, r, Nothing, goal) && Advance(st, r) == r.(stage := TellTasks)
    ensures r.stage == StartTask ==> 0 < |r.actions| <= |r.tasks|
    ensures r.stage == StartTask ==>
              && Doing(st, r, PatchTaskRow(r.tasks[|r.actions| - 1].taskID, TASK_STARTED), goal)
              && Advance(st, r) == r.(stage := CreateAction)
    ensures r.stage == CompleteTask ==> r.done <= |r.tasks|
    ensures r.stage == CompleteTask && r.done < |r.tasks| ==>
              && Doing(st, r, PatchTaskRow(r.tasks[r.done].taskID, TASK_COMPLETED), goal)
              && Advance(st, r) == r.(done := r.done + 1)
  {
    hide NextOp, Advance, SeverityPriority, Keyed;
    TaskSteps(st, r);
  }

  lemma ActionSide(st: S.Store, r: Run, goal: (S.Store, Run))
    requires OnTrack(st, r, goal) && !Terminal(r.stage) && r.stage != GetEvent
    ensures Progress(r)
    ensures r.stage == CreateAction ==> |r.actions| <= |r.tasks|
    ensures r.stage == CreateAction && |r.actions| < |r.tasks| ==>
              var a := NewAction(r.on, r.tasks[|r.actions|]);
              && Doing(st, r, InsertAction(a), goal) && a.eventID == r.on.eventID
              && Advance(st, r) == r.(stage := StartTask, actions := r.actions + [S.ActionRow(st, a)])
    ensures r.stage == CreateAction && |r.actions| == |r.tasks| ==>
              Doing(st, r, Nothing, goal) && Advance(st, r) == r.(stage := TellActions)
    ensures r.stage == StartAction ==> 0 < |r.commands| <= |r.actions|
    ensures r.stage == StartAction ==>
              && Doing(st, r, PatchActionRow(r.actions[|r.commands| - 1].actionID, STARTED), goal)
              && Advance(st, r) == r.(stage := CreateCommand)
    ensures r.stage == CompleteAction ==> r.done <= |r.actions|
    ensures r.stage == CompleteAction && r.done < |r.actions| ==>
              && Doing(st, r, PatchActionRow(r.actions[r.done].actionID, COMPLETED), goal)
              && Advance(st, r) == r.(done := r.done + 1)
  {
    hide NextOp, Advance, ActionNameForTask, FirstNonEmpty, Keyed;
    ActionSteps(st, r);
  }

  lemma CommandSide(st: S.Store, r: Run, goal: (S.Store, Run))
    requires OnTrack(st, r, goal) && !Terminal(r.stage) && r.stage != GetEvent
    ensures Progress(r)
    ensures r.stage == CreateCommand ==> |r.commands| <= |r.actions|
    ensures r.stage == CreateCommand && |r.commands| < |r.actions| ==>
              var c := NewCommand(r.on, r.actions[|r.commands|]);
              && Doing(st, r, InsertCommand(c), goal) && c.eventID == r.on.eventID
              && Advance(st, r) == r.(stage := StartAction, commands := r.commands + [S.CommandRow(st, c)])
    ensures r.stage == CreateCommand && |r.commands| == |r.actions| ==>
              Doing(st, r, Nothing, goal) && Advance(st, r) == r.(stage := TellCommands)
    ensures r.stage == CompleteCommand ==> 0 < |r.executions| <= |r.commands|
    ensures r.stage == CompleteCommand ==>
              var k := |r.executions| - 1;
              && Doing(st, r, PatchCommandRow(r.commands[k].commandID, S.StatusPatch(Some("completed"), Some(r.executions[k].result))), goal)
              && Advance(st, r) == r.(stage := CreateExecution)
  {
    hide NextOp, Advance, CommandSpecForAction, VerdictFor, Keyed;
    CommandSteps(st, r);
  }

  lemma ExecutionSide(st: S.Store, r: Run, goal: (S.Store, Run))
    requires OnTrack(st, r, goal) && !Terminal(r.stage) && r.stage != GetEvent
    ensures Progress(r)
    ensures r.stage == CreateExecution ==> |r.executions| <= |r.commands|
    ensures r.stage == CreateExecution && |r.executions| < |r.commands| ==>
              var x := NewExecution(r.on, r.commands[|r.executions|]);
              && Doing(st, r, InsertExecution(x), goal) && x.eventID == r.on.eventID
              && Advance(st, r) == r.(stage := CompleteCommand, executions := r.executions + [S.ExecutionRow(st, x)])
    ensures r.stage == CreateExecution && |r.executions| == |r.commands| ==>
              Doing(st, r, Nothing, goal) && Advance(st, r) == r.(stage := CompleteAction, done := 0)
  {
    hide NextOp, Advance, CommandSpecForAction, VerdictFor, Keyed;
    CommandSteps(st, r);
  }

  /** The ends of the two loops that complete rows. */
  lemma LoopEnds(st: S.Store, r: Run, goal: (S.Store, Run))
    requires OnTrack(st, r, goal) && !Terminal(r.stage) && r.stage != GetEvent
    ensures Progress(r)
    ensures r.stage == CompleteAction && r.done == |r.actions| ==>
              Doing(st, r, Nothing, goal) && Advance(st, r) == r.(stage := CompleteTask, done := 0)
    ensures r.stage == CompleteTask && r.done == |r.tasks| ==>
              Doing(st, r, Nothing, goal) && Advance(st, r) == r.(stage := TellResults)
  {
    hide NewTask, NewAction, NewCommand, NewExecution, NewSummary, Captain, Manager, Operator, Executor, Expert, BuildTaskPlans,
      AfterRead, AfterFanOut, AfterRestore, RestoreOp, PlanOp, FanOutOp, Keyed, RunToEnd;
  }

  /** The steps after the last loop, written out. */
  lemma WrappingUp(st: S.Store, r: Run, goal: (S.Store, Run))
    requires OnTrack(st, r, goal) && !Terminal(r.stage) && r.stage != GetEvent
    ensures Progress(r)
    ensures r.stage == TellResults ==>
              Doing(st, r, Post(Executor(r.on, r.executions)), goal) && Advance(st, r) == r.(stage := CreateSummary)
    ensures r.stage == CreateSummary ==>
              var sm := NewSummary(r.on);
              && Doing(st, r, InsertSummary(sm), goal) && sm.eventID == r.on.eventID
              && Advance(st, r) == r.(stage := TellSummary, summary := Some(S.SummaryRow(st, sm)))
    ensures r.stage == TellSummary && r.summary.Some? ==>
              && Doing(st, r, Post(Expert(r.on, r.summary.value)), goal)
              && Advance(st, r) == r.(stage := MarkFinished)
    ensures r.stage == MarkFinished ==> Doing(st, r, SetStatus("round_finished"), goal) && Advance(st, r) == r.(stage := Finished)
  {
    hide NextOp, Advance, Keyed, Executor, Expert, S.SummaryRow, RunToEnd;
    TellingSteps(st, r);
    SummarySteps(st, r);
    MarkSteps(st, r);
  }

  lemma FirstSteps(st: S.Store, r: Run, goal: (S.Store, Run))
    requires OnTrack(st, r, goal) && r.stage == MarkProcessing
    ensures Progress(r) && Doing(st, r, SetStatus("processing"), goal)
    ensures Advance(st, r) == r.(stage := CreateTask, plans := BuildTaskPlans(r.on.event))
  {
    hide NextOp, Advance, Keyed, RunToEnd, BuildTaskPlans;
    MarkSteps(st, r);
  }

  lemma Telling(st: S.Store, r: Run, goal: (S.Store, Run))
    requires OnTrack(st, r, goal) && !Terminal(r.stage) && r.stage != GetEvent
    ensures Progress(r)
    ensures r.stage == TellTasks ==>
              Doing(st, r, Post(Captain(r.on, r.tasks)), goal) && Advance(st, r) == r.(stage := CreateAction)
    ensures r.stage == TellActions ==>
              Doing(st, r, Post(Manager(r.on, r.actions)), goal) && Advance(st, r) == r.(stage := CreateCommand)
    ensures r.stage == TellCommands ==>
              Doing(st, r, Post(Operator(r.on, r.commands)), goal) && Advance(st, r) == r.(stage := CreateExecution)
  {
    hide NextOp, Advance, Keyed, RunToEnd, Captain, Manager, Operator;
    TellingSteps(st, r);
  }

  lemma NothingChanges(st: S.Store, e: ID)
    ensures Apply(st, e, Nothing) == st
  {
  }

  lemma {:induction false} Restoring(st: S.Store, r: Run, goal: (S.Store, Run))
    requires OnTrack(st, r, goal) && 22 <= Rank(r.stage) <= 27
    ensures Progress(r) && Advance(st, r).on == r.on && Advance(st, r).seen == r.seen
    ensures r.stage == RestoreTasks ==> RestoringTo(st, r, |r.seen.tasks| > 0, Captain(r.on, r.seen.tasks), RestoreActions, goal)
    ensures r.stage == RestoreActions ==> RestoringTo(st, r, |r.seen.actions| > 0, Manager(r.on, r.seen.actions), RestoreCommands, goal)
    ensures r.stage == RestoreCommands ==>
              RestoringTo(st, r, |r.seen.commands| > 0, Operator(r.on, r.seen.commands), RestoreExecutions, goal)
    ensures r.stage == RestoreExecutions ==>
              RestoringTo(st, r, |r.seen.executions| > 0, Executor(r.on, r.seen.executions), RestoreSummary, goal)
    ensures r.stage == RestoreSummary && |r.seen.summaries| > 0 ==>
              RestoringTo(st, r, true, Expert(r.on, r.seen.summaries[|r.seen.summaries| - 1]), Restored, goal)
    ensures r.stage == RestoreSummary && |r.seen.summaries| == 0 && |r.seen.executions| > 0 ==>
              var sm := NewSummary(r.on);
              && Doing(st, r, InsertSummary(sm), goal) && sm.eventID == r.on.eventID
              && Advance(st, r) == r.(stage := RestoreNewSummary, summary := Some(S.SummaryRow(st, sm)))
    ensures r.stage == RestoreSummary && |r.seen.summaries| == 0 && |r.seen.executions| == 0 ==>
              OnTrack(st, Advance(st, r), goal) && Advance(st, r).stage == Restored
    ensures r.stage == RestoreNewSummary ==>
              r.summary.Some? && RestoringTo(st, r, true, Expert(r.on, r.summary.value), Restored, goal)
  {
    hide NextOp, Advance, Keyed, RunToEnd, Captain, Manager, Operator, Executor, Expert, S.SummaryRow, Apply, WellKeyed;
    RestoringSteps(st, r);
    SummarySteps(st, r);
    Done(st, r, NextOp(r), goal);
    NothingChanges(st, r.on.eventID);
  }

  lemma {:induction false} RestoringTasks(st: S.Store, r: Run, goal: (S.Store, Run))
    requires OnTrack(st, r, goal) && r.stage == RestoreTasks
    ensures Progress(r) && Advance(st, r) == r.(stage := RestoreActions)
    ensures |r.seen.tasks| > 0 ==> Doing(st, r, Post(Captain(r.on, r.seen.tasks)), goal)
    ensures |r.seen.tasks| == 0 ==> OnTrack(st, Advance(st, r), goal)
  {
    hide NextOp, Advance, Progress, OnTrack, Doing, Captain;
    Restoring(st, r, goal);
  }

  lemma {:induction false} RestoringActions(st: S.Store, r: Run, goal: (S.Store, Run))
    requires OnTrack(st, r, goal) && r.stage == RestoreActions
    ensures Progress(r) && Advance(st, r) == r.(stage := RestoreCommands)
    ensures |r.seen.actions| > 0 ==> Doing(st, r, Post(Manager(r.on, r.seen.actions)), goal)
    ensures |r.seen.actions| == 0 ==> OnTrack(st, Advance(st, r), goal)
  {
    hide NextOp, Advance, Progress, OnTrack, Doing, Manager;
    Restoring(st, r, goal);
  }

  lemma {:induction false} RestoringCommands(st: S.Store, r: Run, goal: (S.Store, Run))
    requires OnTrack(st, r, goal) && r.stage == RestoreCommands
    ensures Progress(r) && Advance(st, r) == r.(stage := RestoreExecutions)
    ensures |r.seen.commands| > 0 ==> Doing(st, r, Post(Operator(r.on, r.seen.commands)), goal)
    ensures |r.seen.commands| == 0 ==> OnTrack(st, Advance(st, r), goal)
  {
    hide NextOp, Advance, Progress, OnTrack, Doing, Operator;
    Restoring(st, r, goal);
  }

  lemma {:induction false} RestoringExecutions(st: S.Store, r: Run, goal: (S.Store, Run))
    requires OnTrack(st, r, goal) && r.stage == RestoreExecutions
    ensures Progress(r) && Advance(st, r) == r.(stage := RestoreSummary)
    ensures |r.seen.executions| > 0 ==> Doing(st, r, Post(Executor(r.on, r.seen.executions)), goal)
    ensures |r.seen.executions| == 0 ==> OnTrack(st, Advance(st, r), goal)
  {
    hide NextOp, Advance, Progress, OnTrack, Doing, Executor;
    Restoring(st, r, goal);
  }

  /** The run posts this message, or has nothing to do here; it then goes on to the next stage. */
  ghost predicate RestoringTo(st: S.Store, r: Run, some: bool, message: Message, next: Stage, goal: (S.Store, Run))
    requires Progress(r)
  {
    && Advance(st, r) == r.(stage := next)
    && (if some then Doing(st, r, Post(message), goal) else OnTrack(st, Advance(st, r), goal))
  }

  lemma Arrived(st: S.Store, r: Run, goal: (S.Store, Run))
    requires OnTrack(st, r, goal) && Terminal(r.stage)
    ensures goal == (st, r)
  {
    hide Keyed;
  }

  /** The last read of the entry, over an event that has rows. */
  lemma ReadsOn(st: S.Store, r: Run, goal: (S.Store, Run))
    requires OnTrack(st, r, goal) && r.stage == ReadMessages
    ensures Progress(r) && RunToEnd(st, r) == RunToEnd(st, AfterRead(st, r))
    ensures var r' := Advance(st, r);
            if HasAgentMessages(S.ListMessages(st, r.on.eventID)) then goal.0 == st
            else OnTrack(st, r', goal) && r' == r.(stage := RestoreTasks)
  {
    hide Keyed, HasAgentMessages, S.ListMessages, NextOp;
    OneRead(st, r);
  }

  /** A run leaves the identifiers unique, whatever it was doing. */
  lemma {:induction false} RunKeepsKeys(st: S.Store, r: Run, goal: (S.Store, Run))
    requires OnTrack(st, r, goal) && r.stage != GetEvent
    ensures WellKeyed(goal.0)
    decreases 30 - Rank(r.stage), Left(r)
  {
    hide Apply, NextOp, Advance, Keyed;
    if !Terminal(r.stage) {
      StaysOnTrack(st, r, goal);
      AdvanceMakesProgress(st, r);
      RunKeepsKeys(Apply(st, r.on.eventID, NextOp(r)), Advance(st, r), goal);
    }
  }

  class Services {
    const store: MemoryStore

    constructor (store: MemoryStore)
      ensures this.store == store
    {
      this.store := store;
    }

    /** Appends one message; a failure to store it is ignored. */
    method AddAgentMessage(on: Incident, from: string, kind: string, content: Content, ghost r: Run, ghost goal: (S.Store, Run))
      requires store.Valid() && r.on == on
      requires Doing(store.Model(), r, Post(AgentMessage(on, from, kind, content)), goal)
      modifies store
      ensures store.Valid() && OnTrack(store.Model(), Advance(old(store.Model()), r), goal)
    {
      hide NextOp, Advance, OnTrack, Progress, MemoryStore.Valid, NormalizeMessageFrom, SenderType, S.AddMessage;
      Done(store.Model(), r, Post(AgentMessage(on, from, kind, content)), goal);
      hide Doing, WellKeyed;
      var n := NormalizeMessageFrom(from);
      var row, ok := store.AddMessage(Message(0, NO_ID, on.eventID, n, kind, content, on.round, "agent", SenderType(n)));
    }

    method PatchTask(taskID: ID, patch: S.TaskPatch, ghost r: Run, ghost goal: (S.Store, Run))
      requires store.Valid() && Doing(store.Model(), r, PatchTaskRow(taskID, patch), goal)
      modifies store
      ensures store.Valid() && OnTrack(store.Model(), Advance(old(store.Model()), r), goal)
    {
      hide NextOp, Advance, OnTrack, Progress, Keyed, MemoryStore.Valid, S.UpdateTask;
      Done(store.Model(), r, PatchTaskRow(taskID, patch), goal);
      assert S.UniqueIDs(store.tasks, S.TaskIDOf) by { Unique(store.Model()); }
      hide Doing, WellKeyed;
      var _, _ := store.UpdateTask(taskID, patch);
    }

    method PatchAction(actionID: ID, patch: S.StatusPatch, ghost r: Run, ghost goal: (S.Store, Run))
      requires store.Valid() && Doing(store.Model(), r, PatchActionRow(actionID, patch), goal)
      modifies store
      ensures store.Valid() && OnTrack(store.Model(), Advance(old(store.Model()), r), goal)
    {
      hide NextOp, Advance, OnTrack, Progress, Keyed, MemoryStore.Valid, S.UpdateAction;
      Done(store.Model(), r, PatchActionRow(actionID, patch), goal);
      assert S.UniqueIDs(store.actions, S.ActionIDOf) by { Unique(store.Model()); }
      hide Doing, WellKeyed;
      var _, _ := store.UpdateAction(actionID, patch);
    }

    method PatchCommand(commandID: ID, patch: S.StatusPatch, ghost r: Run, ghost goal: (S.Store, Run))
      requires store.Valid() && Doing(store.Model(), r, PatchCommandRow(commandID, patch), goal)
      modifies store
      ensures store.Valid() && OnTrack(store.Model(), Advance(old(store.Model()), r), goal)
    {
      hide NextOp, Advance, OnTrack, Progress, Keyed, MemoryStore.Valid, S.UpdateCommand;
      Done(store.Model(), r, PatchCommandRow(commandID, patch), goal);
      assert S.UniqueIDs(store.commands, S.CommandIDOf) by { Unique(store.Model()); }
      hide Doing, WellKeyed;
      var _, _ := store.UpdateCommand(commandID, patch);
    }

    method StoreTask(task: Task, ghost r: Run, ghost goal: (S.Store, Run)) returns (row: Task, ok: bool)
      requires store.Valid() && Doing(store.Model(), r, InsertTask(task), goal) && task.eventID == r.on.eventID
      modifies store
      ensures store.Valid() && OnTrack(store.Model(), Advance(old(store.Model()), r), goal)
      ensures ok && row == S.TaskRow(old(store.Model()), task)
    {
      hide NextOp, Advance, OnTrack, Progress, Keyed, MemoryStore.Valid, S.AddTask, S.TaskRow;
      Done(store.Model(), r, InsertTask(task), goal);
      hide Doing, WellKeyed;
      row, ok := store.AddTask(task);
    }

    method StoreAction(action: Action, ghost r: Run, ghost goal: (S.Store, Run)) returns (row: Action, ok: bool)
      requires store.Valid() && Doing(store.Model(), r, InsertAction(action), goal) && action.eventID == r.on.eventID
      modifies store
      ensures store.Valid() && OnTrack(store.Model(), Advance(old(store.Model()), r), goal)
      ensures ok && row == S.ActionRow(old(store.Model()), action)
    {
      hide NextOp, Advance, OnTrack, Progress, Keyed, MemoryStore.Valid, S.AddAction, S.ActionRow;
      Done(store.Model(), r, InsertAction(action), goal);
      hide Doing, WellKeyed;
      row, ok := store.AddAction(action);
    }

    method StoreCommand(command: Command, ghost r: Run, ghost goal: (S.Store, Run)) returns (row: Command, ok: bool)
      requires store.Valid() && Doing(store.Model(), r, InsertCommand(command), goal) && command.eventID == r.on.eventID
      modifies store
      ensures store.Valid() && OnTrack(store.Model(), Advance(old(store.Model()), r), goal)
      ensures ok && row == S.CommandRow(old(store.Model()), command)
    {
      hide NextOp, Advance, OnTrack, Progress, Keyed, MemoryStore.Valid, S.AddCommand, S.CommandRow;
      Done(store.Model(), r, InsertCommand(command), goal);
      hide Doing, WellKeyed;
      row, ok := store.AddCommand(command);
    }

    method StoreExecution(execution: Execution, ghost r: Run, ghost goal: (S.Store, Run)) returns (row: Execution, ok: bool)
      requires store.Valid() && Doing(store.Model(), r, InsertExecution(execution), goal) && execution.eventID == r.on.eventID
      modifies store
      ensures store.Valid() && OnTrack(store.Model(), Advance(old(store.Model()), r), goal)
      ensures ok && row == S.ExecutionRow(old(store.Model()), execution)
    {
      hide NextOp, Advance, OnTrack, Progress, Keyed, MemoryStore.Valid, S.AddExecution, S.ExecutionRow;
      Done(store.Model(), r, InsertExecution(execution), goal);
      hide Doing, WellKeyed;
      row, ok := store.AddExecution(execution);
    }

    method StoreSummary(summary: Summary, ghost r: Run, ghost goal: (S.Store, Run)) returns (row: Summary, ok: bool)
      requires store.Valid() && Doing(store.Model(), r, InsertSummary(summary), goal) && summary.eventID == r.on.eventID
      modifies store
      ensures store.Valid() && OnTrack(store.Model(), Advance(old(store.Model()), r), goal)
      ensures ok && row == S.SummaryRow(old(store.Model()), summary)
    {
      hide NextOp, Advance, OnTrack, Progress, Keyed, MemoryStore.Valid, S.AddSummary, S.SummaryRow;
      Done(store.Model(), r, InsertSummary(summary), goal);
      hide Doing, WellKeyed;
      row, ok := store.AddSummary(summary);
    }

    /** The first loop: one task per plan. */
    method CreateTasks(on: Incident, plans: seq<TaskPlan>, ghost r: Run, ghost goal: (S.Store, Run))
      returns (createdTasks: seq<Task>, ok: bool, ghost r': Run)
      requires store.Valid() && OnTrack(store.Model(), r, goal)
      requires r.stage == CreateTask && r.on == on && r.plans == plans && r.tasks == []
      modifies store
      ensures store.Valid() && ok
      ensures OnTrack(store.Model(), r', goal) && r' == r.(stage := TellTasks, tasks := createdTasks)
    {
      hide NextOp, Advance, OnTrack, Progress, NewTask, S.TaskRow, MemoryStore.Valid, MemoryStore.Model, Doing;
      r', createdTasks, ok := r, [], true;
      var i := 0;
      while i < |plans|
        invariant 0 <= i <= |plans| && ok && store.Valid()
        invariant OnTrack(store.Model(), r', goal) && r' == r.(tasks := createdTasks) && |createdTasks| == i
      {
        ghost var st := store.Model();
        TaskSide(st, r', goal);
        var task: Task;
        task, ok := StoreTask(NewTask(on, plans[i]), r', goal);
        if !ok { return; }
        r' := Advance(st, r');
        createdTasks := createdTasks + [task];
        i := i + 1;
      }
      TaskSide(store.Model(), r', goal);
      Done(store.Model(), r', Nothing, goal);
      r' := Advance(store.Model(), r');
    }

    /** One action per task; its task is then being processed. */
    method CreateActions(on: Incident, createdTasks: seq<Task>, ghost r: Run, ghost goal: (S.Store, Run))
      returns (createdActions: seq<Action>, ok: bool, ghost r': Run)
      requires store.Valid() && OnTrack(store.Model(), r, goal)
      requires r.stage == CreateAction && r.on == on && r.tasks == createdTasks && r.actions == []
      modifies store
      ensures store.Valid() && ok
      ensures OnTrack(store.Model(), r', goal) && r' == r.(stage := TellActions, actions := createdActions)
    {
      hide NextOp, Advance, OnTrack, Progress, NewAction, S.ActionRow, MemoryStore.Valid, MemoryStore.Model, Doing, Keyed;
      r', createdActions, ok := r, [], true;
      var i := 0;
      while i < |createdTasks|
        invariant 0 <= i <= |createdTasks| && ok && store.Valid() && |createdActions| == i
        invariant OnTrack(store.Model(), r', goal) && r' == r.(actions := createdActions)
      {
        ghost var st := store.Model();
        ActionSide(st, r', goal);
        var action: Action;
        action, ok := StoreAction(NewAction(on, createdTasks[i]), r', goal);
        if !ok { return; }
        r', st := Advance(st, r'), store.Model();
        createdActions := createdActions + [action];
        TaskSide(st, r', goal);
        PatchTask(createdTasks[i].taskID, TASK_STARTED, r', goal);
        r' := Advance(st, r');
        i := i + 1;
      }
      ActionSide(store.Model(), r', goal);
      Done(store.Model(), r', Nothing, goal);
      r' := Advance(store.Model(), r');
    }

    /** One command per action; its action is then being processed. */
    method CreateCommands(on: Incident, createdActions: seq<Action>, ghost r: Run, ghost goal: (S.Store, Run))
      returns (createdCommands: seq<Command>, ok: bool, ghost r': Run)
      requires store.Valid() && OnTrack(store.Model(), r, goal)
      requires r.stage == CreateCommand && r.on == on && r.actions == createdActions && r.commands == []
      modifies store
      ensures store.Valid() && ok
      ensures OnTrack(store.Model(), r', goal) && r' == r.(stage := TellCommands, commands := createdCommands)
    {
      hide NextOp, Advance, OnTrack, Progress, NewCommand, S.CommandRow, MemoryStore.Valid, MemoryStore.Model, Doing, Keyed;
      r', createdCommands, ok := r, [], true;
      var i := 0;
      while i < |createdActions|
        invariant 0 <= i <= |createdActions| && ok && store.Valid() && |createdCommands| == i
        invariant OnTrack(store.Model(), r', goal) && r' == r.(commands := createdCommands)
      {
        ghost var st := store.Model();
        CommandSide(st, r', goal);
        var command: Command;
        command, ok := StoreCommand(NewCommand(on, createdActions[i]), r', goal);
        if !ok { return; }
        r', st := Advance(st, r'), store.Model();
        createdCommands := createdCommands + [command];
        ActionSide(st, r', goal);
        PatchAction(createdActions[i].actionID, STARTED, r', goal);
        r' := Advance(st, r');
        i := i + 1;
      }
      CommandSide(store.Model(), r', goal);
      Done(store.Model(), r', Nothing, goal);
      r' := Advance(store.Model(), r');
    }

    /** One execution per command; its command is then completed with the same result. */
    method CreateExecutions(on: Incident, createdCommands: seq<Command>, ghost r: Run, ghost goal: (S.Store, Run))
      returns (executions: seq<Execution>, ok: bool, ghost r': Run)
      requires store.Valid() && OnTrack(store.Model(), r, goal)
      requires r.stage == CreateExecution && r.on == on && r.commands == createdCommands && r.executions == []
      modifies store
      ensures store.Valid() && ok
      ensures OnTrack(store.Model(), r', goal) && r' == r.(stage := CompleteAction, executions := executions, done := 0)
    {
      hide NextOp, Advance, OnTrack, Progress, NewExecution, S.ExecutionRow, MemoryStore.Valid, MemoryStore.Model, Doing, Keyed;
      r', executions, ok := r, [], true;
      var i := 0;
      while i < |createdCommands|
        invariant 0 <= i <= |createdCommands| && ok && store.Valid() && |executions| == i
        invariant OnTrack(store.Model(), r', goal) && r' == r.(executions := executions)
      {
        ghost var st := store.Model();
        ExecutionSide(st, r', goal);
        var exec: Execution;
        exec, ok := StoreExecution(NewExecution(on, createdCommands[i]), r', goal);
        if !ok { return; }
        r', st := Advance(st, r'), store.Model();
        executions := executions + [exec];
        CommandSide(st, r', goal);
        PatchCommand(createdCommands[i].commandID, S.StatusPatch(Some("completed"), Some(exec.result)), r', goal);
        r' := Advance(st, r');
        i := i + 1;
      }
      ExecutionSide(store.Model(), r', goal);
      Done(store.Model(), r', Nothing, goal);
      r' := Advance(store.Model(), r');
    }

    method CompleteActions(createdActions: seq<Action>, ghost r: Run, ghost goal: (S.Store, Run)) returns (ghost r': Run)
      requires store.Valid() && OnTrack(store.Model(), r, goal)
      requires r.stage == CompleteAction && r.actions == createdActions && r.done == 0
      modifies store
      ensures store.Valid() && OnTrack(store.Model(), r', goal) && r' == r.(stage := CompleteTask)
    {
      hide NextOp, Advance, OnTrack, Progress, MemoryStore.Valid, MemoryStore.Model, Doing, Keyed;
      r' := r;
      var i := 0;
      while i < |createdActions|
        invariant 0 <= i <= |createdActions| && store.Valid()
        invariant OnTrack(store.Model(), r', goal) && r' == r.(done := i)
      {
        ghost var st := store.Model();
        ActionSide(st, r', goal);
        PatchAction(createdActions[i].actionID, COMPLETED, r', goal);
        r' := Advance(st, r');
        i := i + 1;
      }
      LoopEnds(store.Model(), r', goal);
      Done(store.Model(), r', Nothing, goal);
      r' := Advance(store.Model(), r');
    }

    method CompleteTasks(createdTasks: seq<Task>, ghost r: Run, ghost goal: (S.Store, Run)) returns (ghost r': Run)
      requires store.Valid() && OnTrack(store.Model(), r, goal)
      requires r.stage == CompleteTask && r.tasks == createdTasks && r.done == 0
      modifies store
      ensures store.Valid() && OnTrack(store.Model(), r', goal) && r' == r.(stage := TellResults, done := |createdTasks|)
    {
      hide NextOp, Advance, OnTrack, Progress, MemoryStore.Valid, MemoryStore.Model, Doing, Keyed;
      r' := r;
      var i := 0;
      while i < |createdTasks|
        invariant 0 <= i <= |createdTasks| && store.Valid()
        invariant OnTrack(store.Model(), r', goal) && r' == r.(done := i)
      {
        ghost var st := store.Model();
        TaskSide(st, r', goal);
        PatchTask(createdTasks[i].taskID, TASK_COMPLETED, r', goal);
        r' := Advance(st, r');
        i := i + 1;
      }
      LoopEnds(store.Model(), r', goal);
      Done(store.Model(), r', Nothing, goal);
      r' := Advance(store.Model(), r');
    }

    /** Summary, its message and the final status. */
    method WrapUp(on: Incident, executions: seq<Execution>, ghost r: Run, ghost goal: (S.Store, Run)) returns (ok: bool, ghost r': Run)
      requires store.Valid() && OnTrack(store.Model(), r, goal)
      requires r.stage == TellResults && r.on == on && r.executions == executions
      modifies store
      ensures store.Valid() && ok && OnTrack(store.Model(), r', goal) && r'.stage == Finished
    {
      hide NextOp, Advance, OnTrack, Progress, MemoryStore.Valid, MemoryStore.Model, Doing, Keyed, NewSummary, S.SummaryRow, AgentMessage;
      ghost var st := store.Model();
      WrappingUp(st, r, goal);
      PostResults(on, executions, r, goal);
      r', st := Advance(st, r), store.Model();
      WrappingUp(st, r', goal);
      var sm: Summary;
      sm, ok := StoreSummary(NewSummary(on), r', goal);
      if !ok { return; }
      r', st := Advance(st, r'), store.Model();
      WrappingUp(st, r', goal);
      PostSummary(on, sm, r', goal);
      r', st := Advance(st, r'), store.Model();
      WrappingUp(st, r', goal);
      SetEventStatus(on.eventID, "round_finished", r', goal);
      r' := Advance(st, r');
    }

    method PostResults(on: Incident, executions: seq<Execution>, ghost r: Run, ghost goal: (S.Store, Run))
      requires store.Valid() && r.on == on && Doing(store.Model(), r, Post(Executor(on, executions)), goal)
      modifies store
      ensures store.Valid() && OnTrack(store.Model(), Advance(old(store.Model()), r), goal)
    {
      hide NextOp, Advance, OnTrack, Progress, MemoryStore.Valid, MemoryStore.Model, Doing, AgentMessage;
      AddAgentMessage(on, EXECUTOR, "command_result", Report("RESULT", ExecutionIDs(executions)), r, goal);
    }

    method PostSummary(on: Incident, sm: Summary, ghost r: Run, ghost goal: (S.Store, Run))
      requires store.Valid() && r.on == on && Doing(store.Model(), r, Post(Expert(on, sm)), goal)
      modifies store
      ensures store.Valid() && OnTrack(store.Model(), Advance(old(store.Model()), r), goal)
    {
      hide NextOp, Advance, OnTrack, Progress, MemoryStore.Valid, MemoryStore.Model, Doing, AgentMessage;
      AddAgentMessage(on, EXPERT, "event_summary", sm.content, r, goal);
    }

    method PostTasks(on: Incident, tasks: seq<Task>, ghost r: Run, ghost goal: (S.Store, Run))
      requires store.Valid() && r.on == on && Doing(store.Model(), r, Post(Captain(on, tasks)), goal)
      modifies store
      ensures store.Valid() && OnTrack(store.Model(), Advance(old(store.Model()), r), goal)
    {
      hide NextOp, Advance, OnTrack, Progress, MemoryStore.Valid, MemoryStore.Model, Doing, AgentMessage;
      AddAgentMessage(on, CAPTAIN, "task_created", Report("TASK", TaskIDs(tasks)), r, goal);
    }

    method PostActions(on: Incident, actions: seq<Action>, ghost r: Run, ghost goal: (S.Store, Run))
      requires store.Valid() && r.on == on && Doing(store.Model(), r, Post(Manager(on, actions)), goal)
      modifies store
      ensures store.Valid() && OnTrack(store.Model(), Advance(old(store.Model()), r), goal)
    {
      hide NextOp, Advance, OnTrack, Progress, MemoryStore.Valid, MemoryStore.Model, Doing, AgentMessage;
      AddAgentMessage(on, MANAGER, "action_created", Report("ACTION", ActionIDs(actions)), r, goal);
    }

    method PostCommands(on: Incident, commands: seq<Command>, ghost r: Run, ghost goal: (S.Store, Run))
      requires store.Valid() && r.on == on && Doing(store.Model(), r, Post(Operator(on, commands)), goal)
      modifies store
      ensures store.Valid() && OnTrack(store.Model(), Advance(old(store.Model()), r), goal)
    {
      hide NextOp, Advance, OnTrack, Progress, MemoryStore.Valid, MemoryStore.Model, Doing, AgentMessage;
      AddAgentMessage(on, OPERATOR, "command_created", Report("COMMAND", CommandIDs(commands)), r, goal);
    }

    method SetEventStatus(e: ID, status: string, ghost r: Run, ghost goal: (S.Store, Run))
      requires store.Valid() && r.on.eventID == e && Doing(store.Model(), r, SetStatus(status), goal)
      modifies store
      ensures store.Valid() && OnTrack(store.Model(), Advance(old(store.Model()), r), goal)
    {
      hide NextOp, Advance, OnTrack, Progress, Keyed, MemoryStore.Valid, S.UpdateEventStatus, S.UpdateEvent;
      Done(store.Model(), r, SetStatus(status), goal);
      hide Doing, WellKeyed;
      S.StatusPatchTouchesStatus(store.Model(), e, status);
      var _, _ := store.UpdateEvent(e, S.StatusOnly(status));
    }

    /** The rows of an event seen for the first time, loop by loop. */
    method FirstPassOver(on: Incident, ghost r: Run, ghost goal: (S.Store, Run)) returns (ok: bool)
      requires store.Valid() && OnTrack(store.Model(), r, goal)
      requires r.stage == MarkProcessing && r.on == on && r.tasks == [] && r.actions == [] && r.commands == [] && r.executions == []
      modifies store
      ensures store.Valid() && ok && store.Model() == goal.0 && goal.1.stage == Finished
    {
      hide NextOp, Advance, OnTrack, Progress, MemoryStore.Valid, MemoryStore.Model, Doing, Keyed, BuildTaskPlans;
      FirstSteps(store.Model(), r, goal);
      ghost var st := store.Model();
      ghost var r' := Advance(st, r);
      SetEventStatus(on.eventID, "processing", r, goal);
      var plans := BuildTaskPlans(on.event);
      var createdTasks: seq<Task>;
      createdTasks, ok, r' := CreateTasks(on, plans, r', goal);
      st := store.Model();
      Telling(st, r', goal);
      PostTasks(on, createdTasks, r', goal);
      var createdActions: seq<Action>;
      createdActions, ok, r' := CreateActions(on, createdTasks, Advance(st, r'), goal);
      st := store.Model();
      Telling(st, r', goal);
      PostActions(on, createdActions, r', goal);
      ok := SecondHalf(on, createdTasks, createdActions, Advance(st, r'), goal);
    }

    method SecondHalf(on: Incident, createdTasks: seq<Task>, createdActions: seq<Action>, ghost r: Run, ghost goal: (S.Store, Run))
      returns (ok: bool)
      requires store.Valid() && OnTrack(store.Model(), r, goal)
      requires r.stage == CreateCommand && r.on == on && r.tasks == createdTasks && r.actions == createdActions
      requires r.commands == [] && r.executions == []
      modifies store
      ensures store.Valid() && ok && store.Model() == goal.0 && goal.1.stage == Finished
    {
      hide NextOp, Advance, OnTrack, Progress, MemoryStore.Valid, MemoryStore.Model, Doing, Keyed;
      var createdCommands: seq<Command>;
      ghost var r';
      createdCommands, ok, r' := CreateCommands(on, createdActions, r, goal);
      ghost var st := store.Model();
      Telling(st, r', goal);
      PostCommands(on, createdCommands, r', goal);
      var executions: seq<Execution>;
      executions, ok, r' := CreateExecutions(on, createdCommands, Advance(st, r'), goal);
      r' := CompleteActions(createdActions, r', goal);
      r' := CompleteTasks(createdTasks, r', goal);
      ok, r' := WrapUp(on, executions, r', goal);
      Arrived(store.Model(), r', goal);
    }

    /** `restoreAgentWorkflowMessages`: whatever there are rows for is announced again. */
    method RestoreAgentWorkflowMessages(on: Incident, seen: Seen, ghost r: Run, ghost goal: (S.Store, Run)) returns (ok: bool)
      requires store.Valid() && OnTrack(store.Model(), r, goal)
      requires r.stage == RestoreTasks && r.on == on && r.seen == seen
      modifies store
      ensures store.Valid() && ok && store.Model() == goal.0 && goal.1.stage == Restored
    {
      hide NextOp, Advance, OnTrack, Progress, MemoryStore.Valid, MemoryStore.Model, Doing, Keyed;
      ghost var st, r' := store.Model(), r;
      RestoringTasks(st, r', goal);
      if |seen.tasks| > 0 { PostTasks(on, seen.tasks, r', goal); }
      r', st := Advance(st, r'), store.Model();
      RestoringActions(st, r', goal);
      if |seen.actions| > 0 { PostActions(on, seen.actions, r', goal); }
      ok := RestoreLaterMessages(on, seen, Advance(st, r'), goal);
    }

    method RestoreLaterMessages(on: Incident, seen: Seen, ghost r: Run, ghost goal: (S.Store, Run)) returns (ok: bool)
      requires store.Valid() && OnTrack(store.Model(), r, goal)
      requires r.stage == RestoreCommands && r.on == on && r.seen == seen
      modifies store
      ensures store.Valid() && ok && store.Model() == goal.0 && goal.1.stage == Restored
    {
      hide NextOp, Advance, OnTrack, Progress, MemoryStore.Valid, MemoryStore.Model, Doing, Keyed;
      ghost var st, r' := store.Model(), r;
      RestoringCommands(st, r', goal);
      if |seen.commands| > 0 { PostCommands(on, seen.commands, r', goal); }
      r', st := Advance(st, r'), store.Model();
      RestoringExecutions(st, r', goal);
      if |seen.executions| > 0 { PostResults(on, seen.executions, r', goal); }
      ok := RestoreSummaryMessage(on, seen, Advance(st, r'), goal);
    }

    method RestoreSummaryMessage(on: Incident, seen: Seen, ghost r: Run, ghost goal: (S.Store, Run)) returns (ok: bool)
      requires store.Valid() && OnTrack(store.Model(), r, goal)
      requires r.stage == RestoreSummary && r.on == on && r.seen == seen
      modifies store
      ensures store.Valid() && ok && store.Model() == goal.0 && goal.1.stage == Restored
    {
      hide NextOp, Advance, OnTrack, Progress, MemoryStore.Valid, MemoryStore.Model, Doing, Keyed, NewSummary, S.SummaryRow;
      ghost var st, r' := store.Model(), r;
      Restoring(st, r', goal);
      ok := true;
      if |seen.summaries| > 0 {
        PostSummary(on, seen.summaries[|seen.summaries| - 1], r', goal);
      } else if |seen.executions| > 0 {
        var sm: Summary;
        sm, ok := StoreSummary(NewSummary(on), r', goal);
        if !ok { return; }
        r', st := Advance(st, r'), store.Model();
        Restoring(st, r', goal);
        PostSummary(on, sm, r', goal);
      }
      Arrived(store.Model(), Advance(st, r'), goal);
    }

    /** `RunAgentWorkflow`: whatever the store holds, the effect is that of the step machine run to its
        end, and an error is returned exactly when the event is missing. */
    method RunAgentWorkflow(eventID: ID) returns (ok: bool)
      requires store.Valid() && WellKeyed(store.Model())
      modifies store
      ensures store.Valid() && store.Model() == RunWorkflow(old(store.Model()), eventID)
      ensures ok <==> eventID in old(store.events)
      ensures WellKeyed(store.Model())
    {
      hide NextOp, Advance, Progress, MemoryStore.Valid, Keyed, RunToEnd, HasAgentMessages, S.ListMessages, S.ListTasks, S.ListActions,
        S.ListCommands, S.ListExecutions, S.ListSummaries;
      ghost var st := store.Model();
      ghost var goal := RunToEnd(st, Start(eventID));
      var event: Event;
      event, ok := store.GetEvent(eventID);
      if !ok { MissingEvent(st, eventID); return; }
      var on := Incident(eventID, event, S.DefaultRound(event.round));
      var tasks := store.ListTasks(eventID);
      var actions := store.ListActions(eventID);
      var commands := store.ListCommands(eventID);
      var executions := store.ListExecutions(eventID);
      var summaries := store.ListSummaries(eventID);
      EntryRun(st, eventID);
      ghost var r := Found(st, eventID);
      assert OnTrack(st, r, goal);
      RunKeepsKeys(st, r, goal);
      if |tasks| > 0 || |executions| > 0 {
        var messages := store.ListMessages(eventID);
        OneRead(st, r);
        ReadsOn(st, r, goal);
        var has := HasAgentWorkflowMessages(messages);
        if has { return; }
        ok := RestoreAgentWorkflowMessages(on, Seen(tasks, actions, commands, executions, summaries), Advance(st, r), goal);
      } else {
        ok := FirstPassOver(on, r, goal);
      }
    }
  }

  method HasAgentWorkflowMessages(messages: seq<Message>) returns (has: bool)
    ensures has <==> HasAgentMessages(messages)
  {
    hide NormalizeMessageFrom;
    var i := 0;
    while i < |messages|
      invariant 0 <= i <= |messages|
      invariant forall k :: 0 <= k < i ==> !IsAgent(NormalizeMessageFrom(messages[k].from))
    {
      if IsAgent(NormalizeMessageFrom(messages[i].from)) { return true; }
      i := i + 1;
    }
    has := false;
  }
}
