/** What one workflow run has done to the tables, told exactly from how far it has come, and kept by
    each of its steps whatever other runs add to the tables in between. */
module WorkflowRows {
  import opened Strings
  import opened Domain
  import opened Planning
  import opened StoreModel
  import opened Workflow

  /** Row j of a table is the k-th row of its kind that this run inserted. */
  datatype Origin = Origin(run: nat, k: nat)

  // ------------------------------------------------- what a run did to its rows

  function TasksStarted(r: Run): int { if r.stage == StartTask then |r.actions| - 1 else |r.actions| }

  function TasksCompleted(r: Run): int {
    match r.stage
    case CompleteTask => r.done
    case TellResults | CreateSummary | TellSummary | MarkFinished | Finished => |r.tasks|
    case _ => 0
  }

  function ActionsStarted(r: Run): int { if r.stage == StartAction then |r.commands| - 1 else |r.commands| }

  function ActionsCompleted(r: Run): int {
    match r.stage
    case CompleteAction => r.done
    case CompleteTask | TellResults | CreateSummary | TellSummary | MarkFinished | Finished => |r.actions|
    case _ => 0
  }

  function CommandsCompleted(r: Run): int { if r.stage == CompleteCommand then |r.executions| - 1 else |r.executions| }

  function TaskNow(t: Task, started: bool, completed: bool): Task {
    t.(status := if completed then "completed" else if started then "processing" else t.status,
       assignedTo := if started then OPERATOR else t.assignedTo)
  }

  function ActionNow(a: Action, started: bool, completed: bool): Action {
    a.(status := if completed then "completed" else if started then "processing" else a.status)
  }

  function CommandNow(c: Command, completed: bool, result: Content): Command {
    if completed then c.(status := "completed", result := result) else c
  }

  /** The live rows are exactly what the run's position says they are. */
  ghost predicate TaskRows(table: seq<Task>, own: seq<Task>, started: int, completed: int) {
    forall k :: 0 <= k < |own| ==>
      1 <= own[k].id <= |table| && table[own[k].id - 1] == TaskNow(own[k], k < started, k < completed)
  }

  ghost predicate ActionRows(table: seq<Action>, own: seq<Action>, started: int, completed: int) {
    forall k :: 0 <= k < |own| ==>
      1 <= own[k].id <= |table| && table[own[k].id - 1] == ActionNow(own[k], k < started, k < completed)
  }

  ghost predicate CommandRows(table: seq<Command>, own: seq<Command>, completed: int, executions: seq<Execution>) {
    completed <= |executions| &&
    forall k :: 0 <= k < |own| ==>
      && 1 <= own[k].id <= |table|
      && table[own[k].id - 1] == CommandNow(own[k], k < completed, if k < completed then executions[k].result else NoContent)
  }

  ghost predicate ExecutionRows(table: seq<Execution>, own: seq<Execution>) {
    forall k :: 0 <= k < |own| ==> 1 <= own[k].id <= |table| && table[own[k].id - 1] == own[k]
  }

  ghost predicate SummaryRow'(table: seq<Summary>, own: Option<Summary>) {
    own.Some? ==> 1 <= own.value.id <= |table| && table[own.value.id - 1] == own.value
  }

  /** Every row of the run is derived from the row of the stage before, index by index. */
  ghost predicate Chain(r: Run) {
    && (8 <= Rank(r.stage) <= 21 ==> r.plans == BuildTaskPlans(r.on.event))
    && TaskChain(r.on, r.plans, r.tasks)
    && ActionChain(r.on, r.tasks, r.actions)
    && CommandChain(r.on, r.actions, r.commands)
    && ExecutionChain(r.on, r.commands, r.executions)
    && (r.summary.Some? ==> r.summary.value.eventID == r.on.eventID)
  }

  ghost predicate TaskChain(on: Incident, plans: seq<TaskPlan>, tasks: seq<Task>) {
    |tasks| <= |plans| &&
    forall k :: 0 <= k < |tasks| ==> tasks[k] == NewTask(on, plans[k]).(id := tasks[k].id, taskID := tasks[k].taskID)
  }

  ghost predicate ActionChain(on: Incident, tasks: seq<Task>, actions: seq<Action>) {
    |actions| <= |tasks| &&
    forall k :: 0 <= k < |actions| ==>
      actions[k] == NewAction(on, tasks[k]).(id := actions[k].id, actionID := actions[k].actionID)
  }

  ghost predicate CommandChain(on: Incident, actions: seq<Action>, commands: seq<Command>) {
    |commands| <= |actions| &&
    forall k :: 0 <= k < |commands| ==>
      commands[k] == NewCommand(on, actions[k]).(id := commands[k].id, commandID := commands[k].commandID)
  }

  ghost predicate ExecutionChain(on: Incident, commands: seq<Command>, executions: seq<Execution>) {
    |executions| <= |commands| &&
    forall k :: 0 <= k < |executions| ==>
      executions[k] == NewExecution(on, commands[k]).(id := executions[k].id, executionID := executions[k].executionID)
  }

  // --------------------------------------------------------- one step, kind by kind

  /** Which stages touch which table. */
  lemma OpOfStage(r: Run)
    requires Progress(r)
    ensures NextOp(r).InsertTask? ==> r.stage == CreateTask && |r.tasks| < |r.plans|
    ensures NextOp(r).InsertAction? ==> r.stage == CreateAction && |r.actions| < |r.tasks|
    ensures NextOp(r).InsertCommand? ==> r.stage == CreateCommand && |r.commands| < |r.actions|
    ensures NextOp(r).InsertExecution? ==> r.stage == CreateExecution && |r.executions| < |r.commands|
    ensures NextOp(r).PatchTaskRow? ==> r.stage == StartTask || (r.stage == CompleteTask && r.done < |r.tasks|)
    ensures NextOp(r).PatchActionRow? ==> r.stage == StartAction || (r.stage == CompleteAction && r.done < |r.actions|)
    ensures NextOp(r).PatchCommandRow? ==> r.stage == CompleteCommand
    ensures NextOp(r).SetStatus? ==> r.stage == MarkProcessing || r.stage == MarkFinished
  {
    hide NewTask, NewAction, NewCommand, NewExecution, NewSummary, Captain, Manager, Operator, Executor, Expert;
  }

  lemma ReadKeeps(st: Store, r: Run)
    requires Progress(r) && Rank(r.stage) <= 6
    ensures var r' := AfterRead(st, r);
            && (r.stage != GetEvent ==> r'.on == r.on) && r'.tasks == r.tasks && r'.actions == r.actions
            && r'.commands == r.commands && r'.executions == r.executions && r'.plans == r.plans && r'.summary == r.summary
  {
    hide HasAgentMessages, ListMessages, ListTasks, ListActions, ListCommands, ListExecutions, ListSummaries, Progress;
  }

  lemma FanOutKeeps(st: Store, r: Run)
    requires Progress(r) && 7 <= Rank(r.stage) <= 14
    ensures var r' := AfterFanOut(st, r);
            && r'.on == r.on && r'.summary == r.summary
            && (r.stage != CreateTask ==> r'.tasks == r.tasks)
            && (r.stage != CreateAction ==> r'.actions == r.actions)
            && (r.stage != CreateCommand ==> r'.commands == r.commands)
            && (r.stage != CreateExecution ==> r'.executions == r.executions)
            && (r.stage != MarkProcessing ==> r'.plans == r.plans)
  {
    hide BuildTaskPlans, TaskRow, NewTask, ActionRow, NewAction, CommandRow, NewCommand, ExecutionRow, NewExecution, Progress;
  }

  lemma LaterKeeps(st: Store, r: Run)
    requires Progress(r) && Rank(r.stage) >= 15
    ensures var r' := if Rank(r.stage) <= 21 then AfterWrapUp(st, r) else AfterRestore(st, r);
            && r'.on == r.on && r'.tasks == r.tasks && r'.actions == r.actions && r'.commands == r.commands
            && r'.executions == r.executions && r'.plans == r.plans
            && (r.stage != CreateSummary && r.stage != RestoreSummary ==> r'.summary == r.summary)
  {
    hide SummaryRow, NewSummary, Progress;
  }

  /** What a step leaves alone in the run. */
  lemma AdvanceKeeps(st: Store, r: Run)
    requires Progress(r)
    ensures var r' := Advance(st, r);
            && (r.stage != GetEvent ==> r'.on == r.on)
            && (r.stage != CreateTask ==> r'.tasks == r.tasks)
            && (r.stage != CreateAction ==> r'.actions == r.actions)
            && (r.stage != CreateCommand ==> r'.commands == r.commands)
            && (r.stage != CreateExecution ==> r'.executions == r.executions)
            && (r.stage != MarkProcessing ==> r'.plans == r.plans)
            && (r.stage != CreateSummary && r.stage != RestoreSummary ==> r'.summary == r.summary)
  {
    hide NextOp, Inserts, AfterRead, AfterFanOut, AfterWrapUp, AfterRestore, Progress;
    if Rank(r.stage) <= 6 { ReadKeeps(st, r); }
    else if Rank(r.stage) <= 14 { FanOutKeeps(st, r); }
    else { LaterKeeps(st, r); }
  }

  ghost predicate Known(st: Store, r: Run) {
    (r.stage != GetEvent && r.stage != Failed ==> r.on.eventID in st.events) && (r.stage == Failed ==> r.tasks == [])
  }

  // How the counters move with one step.

  lemma TaskStarts(st: Store, r: Run)
    requires Progress(r) && Known(st, r)
    ensures TasksStarted(Advance(st, r)) == TasksStarted(r) + (if r.stage == StartTask then 1 else 0)
  {
    hide NextOp, HasAgentMessages, ListMessages, ListTasks, ListActions, ListCommands, ListExecutions, ListSummaries,
      BuildTaskPlans, TaskRow, NewTask, ActionRow, NewAction, CommandRow, NewCommand, ExecutionRow, NewExecution,
      SummaryRow, NewSummary;
  }

  lemma ActionStarts(st: Store, r: Run)
    requires Progress(r) && Known(st, r)
    ensures ActionsStarted(Advance(st, r)) == ActionsStarted(r) + (if r.stage == StartAction then 1 else 0)
  {
    hide NextOp, HasAgentMessages, ListMessages, ListTasks, ListActions, ListCommands, ListExecutions, ListSummaries,
      BuildTaskPlans, TaskRow, NewTask, ActionRow, NewAction, CommandRow, NewCommand, ExecutionRow, NewExecution,
      SummaryRow, NewSummary;
  }

  lemma CommandCompletes(st: Store, r: Run)
    requires Progress(r) && Known(st, r)
    ensures CommandsCompleted(Advance(st, r)) == CommandsCompleted(r) + (if r.stage == CompleteCommand then 1 else 0)
  {
    hide NextOp, HasAgentMessages, ListMessages, ListTasks, ListActions, ListCommands, ListExecutions, ListSummaries,
      BuildTaskPlans, TaskRow, NewTask, ActionRow, NewAction, CommandRow, NewCommand, ExecutionRow, NewExecution,
      SummaryRow, NewSummary;
  }

  lemma TaskCompletes(st: Store, r: Run)
    requires Progress(r) && Known(st, r)
    ensures TasksCompleted(Advance(st, r)) == TasksCompleted(r) + (if r.stage == CompleteTask && r.done < |r.tasks| then 1 else 0)
  {
    hide NextOp, HasAgentMessages, ListMessages, ListTasks, ListActions, ListCommands, ListExecutions, ListSummaries,
      BuildTaskPlans, TaskRow, NewTask, ActionRow, NewAction, CommandRow, NewCommand, ExecutionRow, NewExecution,
      SummaryRow, NewSummary;
  }

  lemma ActionCompletes(st: Store, r: Run)
    requires Progress(r) && Known(st, r)
    ensures ActionsCompleted(Advance(st, r)) == ActionsCompleted(r) + (if r.stage == CompleteAction && r.done < |r.actions| then 1 else 0)
  {
    hide NextOp, HasAgentMessages, ListMessages, ListTasks, ListActions, ListCommands, ListExecutions, ListSummaries,
      BuildTaskPlans, TaskRow, NewTask, ActionRow, NewAction, CommandRow, NewCommand, ExecutionRow, NewExecution,
      SummaryRow, NewSummary;
  }

  ghost predicate Owned(from: seq<Origin>, at: int, a: nat, k: nat) {
    1 <= at <= |from| && from[at - 1] == Origin(a, k)
  }

  function TaskPos(t: Task): nat { t.id }
  function ActionPos(a: Action): nat { a.id }
  function CommandPos(c: Command): nat { c.id }
  function ExecutionPos(x: Execution): nat { x.id }
  function ExecutionIDOf(x: Execution): ID { x.executionID }

  ghost predicate OwnedRows<R>(from: seq<Origin>, a: nat, own: seq<R>, posOf: R -> nat) {
    forall k :: 0 <= k < |own| ==> Owned(from, posOf(own[k]), a, k)
  }

  ghost predicate Supplied<R>(rows: seq<R>, idOf: R -> ID, draws: nat) {
    && (forall i :: 0 <= i < |rows| ==> idOf(rows[i]).Drawn? && idOf(rows[i]).n < draws)
    && UniqueIDs(rows, idOf)
  }

  // -------------------------------------------- what a step does to whole tables

  /** A step adds one freshly identified row that the run remembers, or changes rows of its own only. */
  ghost predicate Change<R(!new)>(table: seq<R>, table': seq<R>, own: seq<R>, own': seq<R>, idOf: R -> ID, posOf: R -> nat,
                            draws: nat, draws': nat, from: seq<Origin>, a: nat)
  {
    if |table'| > |table| then
      var x := table'[|table|];
      table' == table + [x] && own' == own + [x] && posOf(x) == |table| + 1 && idOf(x) == Drawn(draws) && draws' == draws + 1
    else
      && |table'| == |table| && own' == own && draws <= draws'
      && forall j :: 0 <= j < |table| ==>
           idOf(table'[j]) == idOf(table[j]) && (table'[j] == table[j] || (j < |from| && from[j].run == a))
  }

  lemma DrawsGrow(st: Store, e: ID, op: Op)
    ensures st.draws <= Apply(st, e, op).draws
  {
    hide MessageRow, TaskRow, ActionRow, CommandRow, ExecutionRow, StoreModel.SummaryRow, Find, PatchTask, PatchAction,
      PatchCommand;
  }


  /** The steps that touch the task table, written out. */
  lemma TaskSteps(st: Store, r: Run)
    requires Progress(r) && Known(st, r)
    ensures r.stage == CreateTask && |r.tasks| < |r.plans| ==>
              var t := NewTask(r.on, r.plans[|r.tasks|]);
              NextOp(r) == InsertTask(t) && Advance(st, r) == r.(tasks := r.tasks + [TaskRow(st, t)])
    ensures r.stage == CreateTask && |r.tasks| == |r.plans| ==>
              NextOp(r) == Nothing && Advance(st, r) == r.(stage := TellTasks)
    ensures r.stage == StartTask ==>
              && NextOp(r) == PatchTaskRow(r.tasks[|r.actions| - 1].taskID, TASK_STARTED)
              && Advance(st, r) == r.(stage := CreateAction)
    ensures r.stage == CompleteTask && r.done < |r.tasks| ==>
              && NextOp(r) == PatchTaskRow(r.tasks[r.done].taskID, TASK_COMPLETED)
              && Advance(st, r) == r.(done := r.done + 1)
  {
    hide NewTask, NewAction, NewCommand, NewExecution, NewSummary, Captain, Manager, Operator, Executor, Expert, TaskRow,
      ActionRow, CommandRow, ExecutionRow, SummaryRow, BuildTaskPlans, AfterRead, AfterRestore, RestoreOp;
  }

  lemma ActionSteps(st: Store, r: Run)
    requires Progress(r) && Known(st, r)
    ensures r.stage == CreateAction && |r.actions| < |r.tasks| ==>
              var t := NewAction(r.on, r.tasks[|r.actions|]);
              NextOp(r) == InsertAction(t) && Advance(st, r) == r.(stage := StartTask, actions := r.actions + [ActionRow(st, t)])
    ensures r.stage == CreateAction && |r.actions| == |r.tasks| ==>
              NextOp(r) == Nothing && Advance(st, r) == r.(stage := TellActions)
    ensures r.stage == StartAction ==>
              && NextOp(r) == PatchActionRow(r.actions[|r.commands| - 1].actionID, STARTED)
              && Advance(st, r) == r.(stage := CreateCommand)
    ensures r.stage == CompleteAction && r.done < |r.actions| ==>
              && NextOp(r) == PatchActionRow(r.actions[r.done].actionID, COMPLETED)
              && Advance(st, r) == r.(done := r.done + 1)
  {
    hide NewTask, NewAction, NewCommand, NewExecution, NewSummary, Captain, Manager, Operator, Executor, Expert, TaskRow,
      ActionRow, CommandRow, ExecutionRow, SummaryRow, BuildTaskPlans, AfterRead, AfterRestore, RestoreOp, PlanOp;
  }

  lemma CommandSteps(st: Store, r: Run)
    requires Progress(r) && Known(st, r)
    ensures r.stage == CreateCommand && |r.commands| < |r.actions| ==>
              var t := NewCommand(r.on, r.actions[|r.commands|]);
              NextOp(r) == InsertCommand(t) && Advance(st, r) == r.(stage := StartAction, commands := r.commands + [CommandRow(st, t)])
    ensures r.stage == CreateCommand && |r.commands| == |r.actions| ==>
              NextOp(r) == Nothing && Advance(st, r) == r.(stage := TellCommands)
    ensures r.stage == CompleteCommand ==>
              var k := |r.executions| - 1;
              && NextOp(r) == PatchCommandRow(r.commands[k].commandID, StatusPatch(Some("completed"), Some(r.executions[k].result)))
              && Advance(st, r) == r.(stage := CreateExecution)
    ensures r.stage == CreateExecution && |r.executions| < |r.commands| ==>
              var t := NewExecution(r.on, r.commands[|r.executions|]);
              NextOp(r) == InsertExecution(t) && Advance(st, r) == r.(stage := CompleteCommand, executions := r.executions + [ExecutionRow(st, t)])
    ensures r.stage == CreateExecution && |r.executions| == |r.commands| ==>
              NextOp(r) == Nothing && Advance(st, r) == r.(stage := CompleteAction, done := 0)
  {
    hide NewTask, NewAction, NewCommand, NewExecution, NewSummary, Captain, Manager, Operator, Executor, Expert, TaskRow,
      ActionRow, CommandRow, ExecutionRow, SummaryRow, BuildTaskPlans, AfterRead, AfterWrapUp, AfterRestore, RestoreOp, PlanOp, WrapUpOp;
  }

  lemma SummarySteps(st: Store, r: Run)
    requires Progress(r) && Known(st, r)
    ensures r.stage == CreateSummary ==>
              && NextOp(r) == InsertSummary(NewSummary(r.on))
              && Advance(st, r) == r.(stage := TellSummary, summary := Some(SummaryRow(st, NewSummary(r.on))))
    ensures r.stage == RestoreSummary && |r.seen.summaries| == 0 && |r.seen.executions| > 0 ==>
              && NextOp(r) == InsertSummary(NewSummary(r.on))
              && Advance(st, r) == r.(stage := RestoreNewSummary, summary := Some(SummaryRow(st, NewSummary(r.on))))
    ensures r.stage == RestoreSummary && !(|r.seen.summaries| == 0 && |r.seen.executions| > 0) ==>
              Advance(st, r).summary == r.summary
    ensures NextOp(r).InsertSummary? ==>
              r.stage == CreateSummary || (r.stage == RestoreSummary && |r.seen.summaries| == 0 && |r.seen.executions| > 0)
  {
    hide NewTask, NewAction, NewCommand, NewExecution, NewSummary, Captain, Manager, Operator, Executor, Expert, TaskRow,
      ActionRow, CommandRow, ExecutionRow, SummaryRow, BuildTaskPlans, AfterRead;
  }

  lemma MarkSteps(st: Store, r: Run)
    requires Progress(r)
    ensures r.stage == MarkFinished ==> NextOp(r) == SetStatus("round_finished") && Advance(st, r) == r.(stage := Finished)
    ensures r.stage == MarkProcessing ==>
              NextOp(r) == SetStatus("processing") && Advance(st, r) == r.(stage := CreateTask, plans := BuildTaskPlans(r.on.event))
  {
    hide NewTask, NewAction, NewCommand, NewExecution, NewSummary, Captain, Manager, Operator, Executor, Expert, TaskRow,
      ActionRow, CommandRow, ExecutionRow, SummaryRow, BuildTaskPlans, AfterRead;
  }

  /** The steps that tell what was done, written out. */
  lemma TellingSteps(st: Store, r: Run)
    requires Progress(r)
    ensures r.stage == TellTasks ==> NextOp(r) == Post(Captain(r.on, r.tasks)) && Advance(st, r) == r.(stage := CreateAction)
    ensures r.stage == TellActions ==> NextOp(r) == Post(Manager(r.on, r.actions)) && Advance(st, r) == r.(stage := CreateCommand)
    ensures r.stage == TellCommands ==>
              NextOp(r) == Post(Operator(r.on, r.commands)) && Advance(st, r) == r.(stage := CreateExecution)
    ensures r.stage == TellResults ==>
              NextOp(r) == Post(Executor(r.on, r.executions)) && Advance(st, r) == r.(stage := CreateSummary)
    ensures r.stage == TellSummary ==>
              NextOp(r) == Post(Expert(r.on, r.summary.value)) && Advance(st, r) == r.(stage := MarkFinished)
  {
    hide NewTask, NewAction, NewCommand, NewExecution, NewSummary, Captain, Manager, Operator, Executor, Expert, BuildTaskPlans,
      AfterRead, AfterRestore, RestoreOp, PlanOp;
  }

  /** What restoring does next, written out. */
  lemma RestoringSteps(st: Store, r: Run)
    requires Progress(r) && Known(st, r)
    ensures r.stage == RestoreTasks ==>
              && NextOp(r) == (if |r.seen.tasks| > 0 then Post(Captain(r.on, r.seen.tasks)) else Nothing)
              && Advance(st, r) == r.(stage := RestoreActions)
    ensures r.stage == RestoreActions ==>
              && NextOp(r) == (if |r.seen.actions| > 0 then Post(Manager(r.on, r.seen.actions)) else Nothing)
              && Advance(st, r) == r.(stage := RestoreCommands)
    ensures r.stage == RestoreCommands ==>
              && NextOp(r) == (if |r.seen.commands| > 0 then Post(Operator(r.on, r.seen.commands)) else Nothing)
              && Advance(st, r) == r.(stage := RestoreExecutions)
    ensures r.stage == RestoreExecutions ==>
              && NextOp(r) == (if |r.seen.executions| > 0 then Post(Executor(r.on, r.seen.executions)) else Nothing)
              && Advance(st, r) == r.(stage := RestoreSummary)
    ensures r.stage == RestoreSummary && |r.seen.summaries| > 0 ==>
              && NextOp(r) == Post(Expert(r.on, r.seen.summaries[|r.seen.summaries| - 1]))
              && Advance(st, r) == r.(stage := Restored)
    ensures r.stage == RestoreSummary && |r.seen.summaries| == 0 && |r.seen.executions| == 0 ==>
              NextOp(r) == Nothing && Advance(st, r) == r.(stage := Restored)
    ensures r.stage == RestoreNewSummary ==>
              r.summary.Some? && NextOp(r) == Post(Expert(r.on, r.summary.value)) && Advance(st, r) == r.(stage := Restored)
  {
    hide NewTask, NewAction, NewCommand, NewExecution, NewSummary, Captain, Manager, Operator, Executor, Expert, BuildTaskPlans,
      AfterRead, AfterFanOut, AfterWrapUp, PlanOp, FanOutOp, WrapUpOp;
  }

  // ----------------------------------------- one step keeps the run's rows exact

  lemma ApplyToWork(st: Store, e: ID, op: Op)
    ensures var st' := Apply(st, e, op);
            && st'.tasks == (if op.InsertTask? then AddTask(st, op.task).tasks
                             else if op.PatchTaskRow? then UpdateTask(st, op.taskID, op.taskPatch).tasks else st.tasks)
            && st'.actions == (if op.InsertAction? then AddAction(st, op.action).actions
                               else if op.PatchActionRow? then UpdateAction(st, op.actionID, op.patch).actions else st.actions)
            && st'.commands == (if op.InsertCommand? then AddCommand(st, op.command).commands
                                else if op.PatchCommandRow? then UpdateCommand(st, op.commandID, op.patch).commands else st.commands)
  {
    hide MessageRow, TaskRow, ActionRow, CommandRow, ExecutionRow, StoreModel.SummaryRow, Find, PatchTask, PatchAction,
      PatchCommand, Drew;
  }

  lemma ApplyToOutcome(st: Store, e: ID, op: Op)
    ensures var st' := Apply(st, e, op);
            && st'.executions == (if op.InsertExecution? then AddExecution(st, op.execution).executions else st.executions)
            && st'.summaries == (if op.InsertSummary? then AddSummary(st, op.summary).summaries else st.summaries)
            && st'.events == (if op.SetStatus? then UpdateEventStatus(st, e, op.status).events else st.events)
  {
    hide MessageRow, TaskRow, ActionRow, CommandRow, ExecutionRow, StoreModel.SummaryRow, Find, PatchTask, PatchAction,
      PatchCommand, Drew;
  }

  /** What each operation does to each table. */
  lemma ApplyByTable(st: Store, e: ID, op: Op)
    ensures var st' := Apply(st, e, op);
            && st'.tasks == (if op.InsertTask? then AddTask(st, op.task).tasks
                             else if op.PatchTaskRow? then UpdateTask(st, op.taskID, op.taskPatch).tasks else st.tasks)
            && st'.actions == (if op.InsertAction? then AddAction(st, op.action).actions
                               else if op.PatchActionRow? then UpdateAction(st, op.actionID, op.patch).actions else st.actions)
            && st'.commands == (if op.InsertCommand? then AddCommand(st, op.command).commands
                                else if op.PatchCommandRow? then UpdateCommand(st, op.commandID, op.patch).commands else st.commands)
            && st'.executions == (if op.InsertExecution? then AddExecution(st, op.execution).executions else st.executions)
            && st'.summaries == (if op.InsertSummary? then AddSummary(st, op.summary).summaries else st.summaries)
            && st'.events == (if op.SetStatus? then UpdateEventStatus(st, e, op.status).events else st.events)
  {
    hide Apply, AddTask, UpdateTask, AddAction, UpdateAction, AddCommand, UpdateCommand, AddExecution, AddSummary, UpdateEventStatus;
    ApplyToWork(st, e, op);
    ApplyToOutcome(st, e, op);
  }

  // ---------------------------------------------------------------------- tasks

  ghost predicate TaskSideOk(st: Store, r: Run) {
    TaskRows(st.tasks, r.tasks, TasksStarted(r), TasksCompleted(r))
  }

  ghost predicate TaskStepOk(st: Store, r: Run, from: seq<Origin>, a: nat)
    requires Progress(r)
  {
    var st' := Apply(st, r.on.eventID, NextOp(r));
    var r' := Advance(st, r);
    TaskSideOk(st', r') && Change(st.tasks, st'.tasks, r.tasks, r'.tasks, TaskIDOf, TaskPos, st.draws, st'.draws, from, a)
  }

  lemma {:induction false} TaskInserted(table: seq<Task>, own: seq<Task>, row: Task, draws: nat, from: seq<Origin>, a: nat)
    requires TaskRows(table, own, 0, 0) && row.id == |table| + 1 && row.taskID == Drawn(draws)
    ensures TaskRows(table + [row], own + [row], 0, 0)
    ensures Change(table, table + [row], own, own + [row], TaskIDOf, TaskPos, draws, draws + 1, from, a)
  {
  }

  lemma {:induction false} TaskPatched(table: seq<Task>, own: seq<Task>, started: int, completed: int, i: nat,
                                       from: seq<Origin>, a: nat, draws: nat, p: TaskPatch)
    requires TaskRows(table, own, started, completed) && OwnedRows(from, a, own, TaskPos) && Supplied(table, TaskIDOf, draws)
    requires i < |own|
    requires (p == TASK_STARTED && i == started && completed <= i) || (p == TASK_COMPLETED && i == completed < started)
    ensures var j := Find(table, TaskIDOf, own[i].taskID);
            && j == own[i].id - 1 < |table|
            && TaskRows(table[j := PatchTask(table[j], p)], own, if p == TASK_STARTED then started + 1 else started,
                        if p == TASK_STARTED then completed else completed + 1)
            && Change(table, table[j := PatchTask(table[j], p)], own, own, TaskIDOf, TaskPos, draws, draws, from, a)
  {
    var j := own[i].id - 1;
    FindUnique(table, TaskIDOf, j);
    assert TaskIDOf(table[j]) == own[i].taskID;
    assert Owned(from, TaskPos(own[i]), a, i);
    forall k | 0 <= k < |own| && k != i ensures own[k].id - 1 != j {
      assert Owned(from, TaskPos(own[k]), a, k);
    }
  }

  lemma {:induction false} TaskPatchApplied(st: Store, e: ID, id: ID, p: TaskPatch, j: nat)
    requires Find(st.tasks, TaskIDOf, id) == j < |st.tasks|
    ensures var st' := Apply(st, e, PatchTaskRow(id, p)); st'.tasks == st.tasks[j := PatchTask(st.tasks[j], p)] && st'.draws == st.draws
  {
  }

  lemma {:induction false} CreateTaskKeeps(st: Store, r: Run, from: seq<Origin>, a: nat)
    requires Progress(r) && Known(st, r) && TaskSideOk(st, r) && r.stage == CreateTask && |r.tasks| < |r.plans|
    ensures TaskStepOk(st, r, from, a)
  {
    hide SeverityPriority, TaskRows, Change;
    var t := NewTask(r.on, r.plans[|r.tasks|]);
    hide NextOp, Advance;
    assert NextOp(r) == InsertTask(t) && Advance(st, r) == r.(tasks := r.tasks + [TaskRow(st, t)]) by { TaskSteps(st, r); }
    assert t.eventID == r.on.eventID && t.taskID == NO_ID;
    hide NewTask;
    TaskInserted(st.tasks, r.tasks, TaskRow(st, t), st.draws, from, a);
  }

  lemma {:induction false} StartTaskKeeps(st: Store, r: Run, from: seq<Origin>, a: nat)
    requires Progress(r) && Known(st, r) && TaskSideOk(st, r) && r.stage == StartTask
    requires OwnedRows(from, a, r.tasks, TaskPos) && Supplied(st.tasks, TaskIDOf, st.draws)
    ensures TaskStepOk(st, r, from, a)
  {
    var i := |r.actions| - 1;
    assert i < |r.tasks|;
    hide NextOp, Advance, Apply, TaskRows, Change, OwnedRows, Supplied, Progress, Find, PatchTask, Known;
    assert NextOp(r) == PatchTaskRow(r.tasks[i].taskID, TASK_STARTED) && Advance(st, r) == r.(stage := CreateAction) by { TaskSteps(st, r); }
    TaskPatched(st.tasks, r.tasks, i, 0, i, from, a, st.draws, TASK_STARTED);
    TaskPatchApplied(st, r.on.eventID, r.tasks[i].taskID, TASK_STARTED, r.tasks[i].id - 1);
  }

  lemma {:induction false} CompleteTaskKeeps(st: Store, r: Run, from: seq<Origin>, a: nat)
    requires Progress(r) && Known(st, r) && TaskSideOk(st, r) && r.stage == CompleteTask && r.done < |r.tasks|
    requires OwnedRows(from, a, r.tasks, TaskPos) && Supplied(st.tasks, TaskIDOf, st.draws)
    ensures TaskStepOk(st, r, from, a)
  {
    var i := r.done;
    assert |r.actions| == |r.tasks| && |r.commands| == |r.actions|;
    hide NextOp, Advance, Apply, TaskRows, Change, OwnedRows, Supplied, Progress, Find, PatchTask, Known;
    assert NextOp(r) == PatchTaskRow(r.tasks[i].taskID, TASK_COMPLETED) && Advance(st, r) == r.(done := i + 1) by { TaskSteps(st, r); }
    TaskPatched(st.tasks, r.tasks, |r.tasks|, i, i, from, a, st.draws, TASK_COMPLETED);
    TaskPatchApplied(st, r.on.eventID, r.tasks[i].taskID, TASK_COMPLETED, r.tasks[i].id - 1);
  }

  lemma {:induction false} TaskStep(st: Store, r: Run, from: seq<Origin>, a: nat)
    requires Progress(r) && Known(st, r) && TaskSideOk(st, r)
    requires OwnedRows(from, a, r.tasks, TaskPos) && Supplied(st.tasks, TaskIDOf, st.draws)
    ensures TaskStepOk(st, r, from, a)
  {
    hide NextOp, Advance, Apply;
    if r.stage == CreateTask && |r.tasks| < |r.plans| {
      CreateTaskKeeps(st, r, from, a);
    } else if r.stage == StartTask {
      StartTaskKeeps(st, r, from, a);
    } else if r.stage == CompleteTask && r.done < |r.tasks| {
      CompleteTaskKeeps(st, r, from, a);
    } else {
      OpOfStage(r);
      AdvanceKeeps(st, r);
      TaskStarts(st, r);
      TaskCompletes(st, r);
      if r.stage == CreateTask { TaskSteps(st, r); }
      ApplyByTable(st, r.on.eventID, NextOp(r));
      DrawsGrow(st, r.on.eventID, NextOp(r));
      hide TasksStarted, TasksCompleted, TaskRows, Progress;
    }
  }

  // ---------------------------------------------------------------------- actions

  ghost predicate ActionSideOk(st: Store, r: Run) {
    ActionRows(st.actions, r.actions, ActionsStarted(r), ActionsCompleted(r))
  }

  ghost predicate ActionStepOk(st: Store, r: Run, from: seq<Origin>, a: nat)
    requires Progress(r)
  {
    var st' := Apply(st, r.on.eventID, NextOp(r));
    var r' := Advance(st, r);
    ActionSideOk(st', r') && Change(st.actions, st'.actions, r.actions, r'.actions, ActionIDOf, ActionPos, st.draws, st'.draws, from, a)
  }

  lemma {:induction false} ActionInserted(table: seq<Action>, own: seq<Action>, row: Action, draws: nat, from: seq<Origin>, a: nat)
    requires ActionRows(table, own, 0, 0) && row.id == |table| + 1 && row.actionID == Drawn(draws)
    ensures ActionRows(table + [row], own + [row], 0, 0)
    ensures Change(table, table + [row], own, own + [row], ActionIDOf, ActionPos, draws, draws + 1, from, a)
  {
  }

  lemma {:induction false} ActionPatched(table: seq<Action>, own: seq<Action>, started: int, completed: int, i: nat,
                                       from: seq<Origin>, a: nat, draws: nat, p: StatusPatch)
    requires ActionRows(table, own, started, completed) && OwnedRows(from, a, own, ActionPos) && Supplied(table, ActionIDOf, draws)
    requires i < |own|
    requires (p == STARTED && i == started && completed <= i) || (p == COMPLETED && i == completed < started)
    ensures var j := Find(table, ActionIDOf, own[i].actionID);
            && j == own[i].id - 1 < |table|
            && ActionRows(table[j := PatchAction(table[j], p)], own, if p == STARTED then started + 1 else started,
                        if p == STARTED then completed else completed + 1)
            && Change(table, table[j := PatchAction(table[j], p)], own, own, ActionIDOf, ActionPos, draws, draws, from, a)
  {
    var j := own[i].id - 1;
    FindUnique(table, ActionIDOf, j);
    assert ActionIDOf(table[j]) == own[i].actionID;
    assert Owned(from, ActionPos(own[i]), a, i);
    forall k | 0 <= k < |own| && k != i ensures own[k].id - 1 != j {
      assert Owned(from, ActionPos(own[k]), a, k);
    }
  }

  lemma {:induction false} ActionPatchApplied(st: Store, e: ID, id: ID, p: StatusPatch, j: nat)
    requires Find(st.actions, ActionIDOf, id) == j < |st.actions|
    ensures var st' := Apply(st, e, PatchActionRow(id, p)); st'.actions == st.actions[j := PatchAction(st.actions[j], p)] && st'.draws == st.draws
  {
  }

  lemma {:induction false} CreateActionKeeps(st: Store, r: Run, from: seq<Origin>, a: nat)
    requires Progress(r) && Known(st, r) && ActionSideOk(st, r) && r.stage == CreateAction && |r.actions| < |r.tasks|
    ensures ActionStepOk(st, r, from, a)
  {
    hide ActionNameForTask, FirstNonEmpty, ActionRows, Change;
    var t := NewAction(r.on, r.tasks[|r.actions|]);
    hide NextOp, Advance;
    assert NextOp(r) == InsertAction(t) && Advance(st, r) == r.(stage := StartTask, actions := r.actions + [ActionRow(st, t)]) by { ActionSteps(st, r); }
    assert t.eventID == r.on.eventID && t.actionID == NO_ID;
    hide NewAction;
    ActionInserted(st.actions, r.actions, ActionRow(st, t), st.draws, from, a);
  }

  lemma {:induction false} StartActionKeeps(st: Store, r: Run, from: seq<Origin>, a: nat)
    requires Progress(r) && Known(st, r) && ActionSideOk(st, r) && r.stage == StartAction
    requires OwnedRows(from, a, r.actions, ActionPos) && Supplied(st.actions, ActionIDOf, st.draws)
    ensures ActionStepOk(st, r, from, a)
  {
    var i := |r.commands| - 1;
    assert i < |r.actions|;
    hide NextOp, Advance, Apply, ActionRows, Change, OwnedRows, Supplied, Progress, Find, PatchAction, Known;
    assert NextOp(r) == PatchActionRow(r.actions[i].actionID, STARTED) && Advance(st, r) == r.(stage := CreateCommand) by { ActionSteps(st, r); }
    ActionPatched(st.actions, r.actions, i, 0, i, from, a, st.draws, STARTED);
    ActionPatchApplied(st, r.on.eventID, r.actions[i].actionID, STARTED, r.actions[i].id - 1);
  }

  lemma {:induction false} CompleteActionKeeps(st: Store, r: Run, from: seq<Origin>, a: nat)
    requires Progress(r) && Known(st, r) && ActionSideOk(st, r) && r.stage == CompleteAction && r.done < |r.actions|
    requires OwnedRows(from, a, r.actions, ActionPos) && Supplied(st.actions, ActionIDOf, st.draws)
    ensures ActionStepOk(st, r, from, a)
  {
    var i := r.done;
    assert |r.actions| == |r.tasks| && |r.commands| == |r.actions|;
    hide NextOp, Advance, Apply, ActionRows, Change, OwnedRows, Supplied, Progress, Find, PatchAction, Known;
    assert NextOp(r) == PatchActionRow(r.actions[i].actionID, COMPLETED) && Advance(st, r) == r.(done := i + 1) by { ActionSteps(st, r); }
    ActionPatched(st.actions, r.actions, |r.actions|, i, i, from, a, st.draws, COMPLETED);
    ActionPatchApplied(st, r.on.eventID, r.actions[i].actionID, COMPLETED, r.actions[i].id - 1);
  }

  lemma {:induction false} ActionStep(st: Store, r: Run, from: seq<Origin>, a: nat)
    requires Progress(r) && Known(st, r) && ActionSideOk(st, r)
    requires OwnedRows(from, a, r.actions, ActionPos) && Supplied(st.actions, ActionIDOf, st.draws)
    ensures ActionStepOk(st, r, from, a)
  {
    hide NextOp, Advance, Apply;
    if r.stage == CreateAction && |r.actions| < |r.tasks| {
      CreateActionKeeps(st, r, from, a);
    } else if r.stage == StartAction {
      StartActionKeeps(st, r, from, a);
    } else if r.stage == CompleteAction && r.done < |r.actions| {
      CompleteActionKeeps(st, r, from, a);
    } else {
      OpOfStage(r);
      AdvanceKeeps(st, r);
      ActionStarts(st, r);
      ActionCompletes(st, r);
      if r.stage == CreateAction { ActionSteps(st, r); }
      ApplyByTable(st, r.on.eventID, NextOp(r));
      DrawsGrow(st, r.on.eventID, NextOp(r));
      hide ActionsStarted, ActionsCompleted, ActionRows, Progress;
    }
  }

  // ---------------------------------------------------------------------- commands

  ghost predicate CommandSideOk(st: Store, r: Run) {
    CommandRows(st.commands, r.commands, CommandsCompleted(r), r.executions)
  }

  ghost predicate CommandStepOk(st: Store, r: Run, from: seq<Origin>, a: nat)
    requires Progress(r)
  {
    var st' := Apply(st, r.on.eventID, NextOp(r));
    var r' := Advance(st, r);
    CommandSideOk(st', r') && Change(st.commands, st'.commands, r.commands, r'.commands, CommandIDOf, CommandPos, st.draws, st'.draws, from, a)
  }

  lemma {:induction false} CommandInserted(table: seq<Command>, own: seq<Command>, row: Command, draws: nat, from: seq<Origin>, a: nat)
    requires CommandRows(table, own, 0, []) && row.id == |table| + 1 && row.commandID == Drawn(draws)
    ensures CommandRows(table + [row], own + [row], 0, [])
    ensures Change(table, table + [row], own, own + [row], CommandIDOf, CommandPos, draws, draws + 1, from, a)
  {
  }

  lemma {:induction false} CommandPatched(table: seq<Command>, own: seq<Command>, i: nat, executions: seq<Execution>,
                                          from: seq<Origin>, a: nat, draws: nat)
    requires CommandRows(table, own, i, executions) && OwnedRows(from, a, own, CommandPos) && Supplied(table, CommandIDOf, draws)
    requires i < |own| && i < |executions|
    ensures var j := Find(table, CommandIDOf, own[i].commandID);
            && j == own[i].id - 1 < |table|
            && var table' := table[j := PatchCommand(table[j], StatusPatch(Some("completed"), Some(executions[i].result)))];
            && CommandRows(table', own, i + 1, executions)
            && Change(table, table', own, own, CommandIDOf, CommandPos, draws, draws, from, a)
  {
    var j := own[i].id - 1;
    FindUnique(table, CommandIDOf, j);
    assert CommandIDOf(table[j]) == own[i].commandID;
    assert Owned(from, CommandPos(own[i]), a, i);
    forall k | 0 <= k < |own| && k != i ensures own[k].id - 1 != j {
      assert Owned(from, CommandPos(own[k]), a, k);
    }
  }

  lemma {:induction false} CommandPatchApplied(st: Store, e: ID, id: ID, p: StatusPatch, j: nat)
    requires Find(st.commands, CommandIDOf, id) == j < |st.commands|
    ensures var st' := Apply(st, e, PatchCommandRow(id, p)); st'.commands == st.commands[j := PatchCommand(st.commands[j], p)] && st'.draws == st.draws
  {
  }

  lemma {:induction false} CreateCommandKeeps(st: Store, r: Run, from: seq<Origin>, a: nat)
    requires Progress(r) && Known(st, r) && CommandSideOk(st, r) && r.stage == CreateCommand && |r.commands| < |r.actions|
    ensures CommandStepOk(st, r, from, a)
  {
    hide CommandSpecForAction, FirstNonEmpty, CommandRows, Change;
    var t := NewCommand(r.on, r.actions[|r.commands|]);
    hide NextOp, Advance;
    assert NextOp(r) == InsertCommand(t)
           && Advance(st, r) == r.(stage := StartAction, commands := r.commands + [CommandRow(st, t)]) by { CommandSteps(st, r); }
    assert t.eventID == r.on.eventID && t.commandID == NO_ID;
    hide NewCommand;
    CommandInserted(st.commands, r.commands, CommandRow(st, t), st.draws, from, a);
  }

  lemma {:induction false} ExecutionAdded(table: seq<Command>, own: seq<Command>, completed: int, executions: seq<Execution>, x: Execution)
    requires CommandRows(table, own, completed, executions)
    ensures CommandRows(table, own, completed, executions + [x])
  {
  }

  lemma {:induction false} CreateExecutionKeepsCommands(st: Store, r: Run, from: seq<Origin>, a: nat)
    requires Progress(r) && Known(st, r) && CommandSideOk(st, r)
    requires r.stage == CreateExecution && |r.executions| < |r.commands|
    ensures CommandStepOk(st, r, from, a)
  {
    var t := NewExecution(r.on, r.commands[|r.executions|]);
    hide NextOp, Advance, NewExecution, ExecutionRow, CommandRows, Known;
    assert NextOp(r) == InsertExecution(t)
           && Advance(st, r) == r.(stage := CompleteCommand, executions := r.executions + [ExecutionRow(st, t)]) by { CommandSteps(st, r); }
    ExecutionAdded(st.commands, r.commands, CommandsCompleted(r), r.executions, ExecutionRow(st, t));
  }

  lemma {:induction false} CompleteCommandKeeps(st: Store, r: Run, from: seq<Origin>, a: nat)
    requires Progress(r) && Known(st, r) && CommandSideOk(st, r) && r.stage == CompleteCommand
    requires OwnedRows(from, a, r.commands, CommandPos) && Supplied(st.commands, CommandIDOf, st.draws)
    ensures CommandStepOk(st, r, from, a)
  {
    var i := |r.executions| - 1;
    assert i < |r.commands|;
    hide NextOp, Advance, Apply, CommandRows, Change, OwnedRows, Supplied, Progress, Find, PatchCommand, Known;
    var p := StatusPatch(Some("completed"), Some(r.executions[i].result));
    assert NextOp(r) == PatchCommandRow(r.commands[i].commandID, p) && Advance(st, r) == r.(stage := CreateExecution) by { CommandSteps(st, r); }
    CommandPatched(st.commands, r.commands, i, r.executions, from, a, st.draws);
    CommandPatchApplied(st, r.on.eventID, r.commands[i].commandID, p, r.commands[i].id - 1);
  }

  lemma {:induction false} CommandStep(st: Store, r: Run, from: seq<Origin>, a: nat)
    requires Progress(r) && Known(st, r) && CommandSideOk(st, r)
    requires OwnedRows(from, a, r.commands, CommandPos) && Supplied(st.commands, CommandIDOf, st.draws)
    ensures CommandStepOk(st, r, from, a)
  {
    hide NextOp, Advance, Apply;
    if r.stage == CreateCommand && |r.commands| < |r.actions| {
      CreateCommandKeeps(st, r, from, a);
    } else if r.stage == CreateExecution && |r.executions| < |r.commands| {
      CreateExecutionKeepsCommands(st, r, from, a);
    } else if r.stage == CompleteCommand {
      CompleteCommandKeeps(st, r, from, a);
    } else {
      OpOfStage(r);
      AdvanceKeeps(st, r);
      CommandCompletes(st, r);
      if r.stage == CreateCommand || r.stage == CreateExecution { CommandSteps(st, r); }
      ApplyByTable(st, r.on.eventID, NextOp(r));
      DrawsGrow(st, r.on.eventID, NextOp(r));
      hide CommandsCompleted, CommandRows, Progress;
    }
  }

  // -------------------------------------------------------- executions, summaries

  ghost predicate ExecutionStepOk(st: Store, r: Run, from: seq<Origin>, a: nat)
    requires Progress(r)
  {
    var st' := Apply(st, r.on.eventID, NextOp(r));
    var r' := Advance(st, r);
    && ExecutionRows(st'.executions, r'.executions)
    && Change(st.executions, st'.executions, r.executions, r'.executions, ExecutionIDOf, ExecutionPos, st.draws, st'.draws, from, a)
  }

  lemma {:induction false} ExecutionInserted(table: seq<Execution>, own: seq<Execution>, row: Execution, draws: nat,
                                             from: seq<Origin>, a: nat)
    requires ExecutionRows(table, own) && row.id == |table| + 1 && row.executionID == Drawn(draws)
    ensures ExecutionRows(table + [row], own + [row])
    ensures Change(table, table + [row], own, own + [row], ExecutionIDOf, ExecutionPos, draws, draws + 1, from, a)
  {
  }

  lemma {:induction false} CreateExecutionKeeps(st: Store, r: Run, from: seq<Origin>, a: nat)
    requires Progress(r) && Known(st, r) && ExecutionRows(st.executions, r.executions)
    requires r.stage == CreateExecution && |r.executions| < |r.commands|
    ensures ExecutionStepOk(st, r, from, a)
  {
    hide VerdictFor, ExecutionRows, Change;
    var t := NewExecution(r.on, r.commands[|r.executions|]);
    hide NextOp, Advance;
    assert NextOp(r) == InsertExecution(t)
           && Advance(st, r) == r.(stage := CompleteCommand, executions := r.executions + [ExecutionRow(st, t)]) by { CommandSteps(st, r); }
    assert t.eventID == r.on.eventID && t.executionID == NO_ID;
    hide NewExecution;
    ExecutionInserted(st.executions, r.executions, ExecutionRow(st, t), st.draws, from, a);
  }

  lemma {:induction false} ExecutionStep(st: Store, r: Run, from: seq<Origin>, a: nat)
    requires Progress(r) && Known(st, r) && ExecutionRows(st.executions, r.executions)
    ensures ExecutionStepOk(st, r, from, a)
  {
    hide NextOp, Advance, Apply, ExecutionRows;
    if r.stage == CreateExecution && |r.executions| < |r.commands| {
      CreateExecutionKeeps(st, r, from, a);
    } else {
      OpOfStage(r);
      AdvanceKeeps(st, r);
      if r.stage == CreateExecution { CommandSteps(st, r); }
      ApplyByTable(st, r.on.eventID, NextOp(r));
      DrawsGrow(st, r.on.eventID, NextOp(r));
    }
  }

  lemma {:induction false} SummarySide(st: Store, r: Run)
    requires Progress(r) && Known(st, r) && SummaryRow'(st.summaries, r.summary)
    ensures SummaryRow'(Apply(st, r.on.eventID, NextOp(r)).summaries, Advance(st, r).summary)
  {
    AdvanceKeeps(st, r);
    SummarySteps(st, r);
    ApplyByTable(st, r.on.eventID, NextOp(r));
    hide NextOp, Advance, Apply;
  }

  // ------------------------------------------------- rows derived from rows, kept

  // Storing a run's new row only gives it its number and its identifier.

  lemma StoredTask(st: Store, on: Incident, plan: TaskPlan)
    requires on.round != 0
    ensures TaskRow(st, NewTask(on, plan)) == NewTask(on, plan).(id := |st.tasks| + 1, taskID := Drawn(st.draws))
  {
    hide SeverityPriority;
  }

  lemma StoredAction(st: Store, on: Incident, task: Task)
    requires on.round != 0
    ensures ActionRow(st, NewAction(on, task)) == NewAction(on, task).(id := |st.actions| + 1, actionID := Drawn(st.draws))
  {
    hide ActionNameForTask, FirstNonEmpty;
  }

  lemma StoredCommand(st: Store, on: Incident, action: Action)
    requires on.round != 0
    ensures CommandRow(st, NewCommand(on, action)) == NewCommand(on, action).(id := |st.commands| + 1, commandID := Drawn(st.draws))
  {
    hide CommandSpecForAction;
  }

  lemma StoredExecution(st: Store, on: Incident, command: Command)
    requires on.round != 0
    ensures ExecutionRow(st, NewExecution(on, command)) == NewExecution(on, command).(id := |st.executions| + 1, executionID := Drawn(st.draws))
  {
    hide VerdictFor;
  }

  lemma {:induction false} PlansKept(st: Store, r: Run)
    requires Progress(r) && (8 <= Rank(r.stage) <= 21 ==> r.plans == BuildTaskPlans(r.on.event))
    ensures var r' := Advance(st, r); 8 <= Rank(r'.stage) <= 21 ==> r'.plans == BuildTaskPlans(r'.on.event)
  {
    hide NextOp, HasAgentMessages, ListMessages, ListTasks, ListActions, ListCommands, ListExecutions, ListSummaries,
      BuildTaskPlans, TaskRow, NewTask, ActionRow, NewAction, CommandRow, NewCommand, ExecutionRow, NewExecution,
      SummaryRow, NewSummary, Progress;
  }

  lemma TaskChainGrows(on: Incident, plans: seq<TaskPlan>, tasks: seq<Task>, x: Task)
    requires TaskChain(on, plans, tasks) && |tasks| < |plans|
    requires x == NewTask(on, plans[|tasks|]).(id := x.id, taskID := x.taskID)
    ensures TaskChain(on, plans, tasks + [x])
  {
    hide NewTask;
  }

  lemma {:induction false} TaskChainStep(st: Store, r: Run)
    requires Progress(r) && Known(st, r) && TaskChain(r.on, r.plans, r.tasks)
    ensures var r' := Advance(st, r); TaskChain(r'.on, r'.plans, r'.tasks)
  {
    if r.stage == CreateTask && |r.tasks| < |r.plans| {
      hide TaskRow, NewTask;
      var x := TaskRow(st, NewTask(r.on, r.plans[|r.tasks|]));
      assert Advance(st, r) == r.(tasks := r.tasks + [x]) by { TaskSteps(st, r); }
      hide Advance, TaskChain;
      StoredTask(st, r.on, r.plans[|r.tasks|]);
      TaskChainGrows(r.on, r.plans, r.tasks, x);
    } else {
      AdvanceKeeps(st, r);
      if r.stage == CreateTask { TaskSteps(st, r); }
      hide Advance;
      if r.stage == GetEvent || r.stage == MarkProcessing {
        assert r.tasks == [];
      } else {
        hide TaskChain;
      }
    }
  }

  lemma ActionChainGrows(on: Incident, tasks: seq<Task>, actions: seq<Action>, x: Action)
    requires ActionChain(on, tasks, actions) && |actions| < |tasks|
    requires x == NewAction(on, tasks[|actions|]).(id := x.id, actionID := x.actionID)
    ensures ActionChain(on, tasks, actions + [x])
  {
    hide NewAction;
  }

  lemma {:induction false} ActionChainStep(st: Store, r: Run)
    requires Progress(r) && Known(st, r) && ActionChain(r.on, r.tasks, r.actions)
    ensures var r' := Advance(st, r); ActionChain(r'.on, r'.tasks, r'.actions)
  {
    if r.stage == CreateAction && |r.actions| < |r.tasks| {
      hide ActionRow, NewAction;
      var x := ActionRow(st, NewAction(r.on, r.tasks[|r.actions|]));
      assert Advance(st, r) == r.(stage := StartTask, actions := r.actions + [x]) by { ActionSteps(st, r); }
      hide Advance, ActionChain;
      StoredAction(st, r.on, r.tasks[|r.actions|]);
      ActionChainGrows(r.on, r.tasks, r.actions, x);
    } else {
      AdvanceKeeps(st, r);
      if r.stage == CreateAction { ActionSteps(st, r); }
      hide Advance;
      if r.stage == GetEvent || r.stage == CreateTask {
        assert r.actions == [];
      } else {
        hide ActionChain;
      }
    }
  }

  lemma CommandChainGrows(on: Incident, actions: seq<Action>, commands: seq<Command>, x: Command)
    requires CommandChain(on, actions, commands) && |commands| < |actions|
    requires x == NewCommand(on, actions[|commands|]).(id := x.id, commandID := x.commandID)
    ensures CommandChain(on, actions, commands + [x])
  {
    hide NewCommand;
  }

  lemma {:induction false} CommandChainStep(st: Store, r: Run)
    requires Progress(r) && Known(st, r) && CommandChain(r.on, r.actions, r.commands)
    ensures var r' := Advance(st, r); CommandChain(r'.on, r'.actions, r'.commands)
  {
    if r.stage == CreateCommand && |r.commands| < |r.actions| {
      hide CommandRow, NewCommand;
      var x := CommandRow(st, NewCommand(r.on, r.actions[|r.commands|]));
      assert Advance(st, r) == r.(stage := StartAction, commands := r.commands + [x]) by { CommandSteps(st, r); }
      hide Advance, CommandChain;
      StoredCommand(st, r.on, r.actions[|r.commands|]);
      CommandChainGrows(r.on, r.actions, r.commands, x);
    } else {
      AdvanceKeeps(st, r);
      if r.stage == CreateCommand { CommandSteps(st, r); }
      hide Advance;
      if r.stage == GetEvent || r.stage == CreateAction {
        assert r.commands == [];
      } else {
        hide CommandChain;
      }
    }
  }

  lemma ExecutionChainGrows(on: Incident, commands: seq<Command>, executions: seq<Execution>, x: Execution)
    requires ExecutionChain(on, commands, executions) && |executions| < |commands|
    requires x == NewExecution(on, commands[|executions|]).(id := x.id, executionID := x.executionID)
    ensures ExecutionChain(on, commands, executions + [x])
  {
    hide NewExecution;
  }

  lemma {:induction false} ExecutionChainStep(st: Store, r: Run)
    requires Progress(r) && Known(st, r) && ExecutionChain(r.on, r.commands, r.executions)
    ensures var r' := Advance(st, r); ExecutionChain(r'.on, r'.commands, r'.executions)
  {
    if r.stage == CreateExecution && |r.executions| < |r.commands| {
      hide ExecutionRow, NewExecution;
      var x := ExecutionRow(st, NewExecution(r.on, r.commands[|r.executions|]));
      assert Advance(st, r) == r.(stage := CompleteCommand, executions := r.executions + [x]) by { CommandSteps(st, r); }
      hide Advance, ExecutionChain;
      StoredExecution(st, r.on, r.commands[|r.executions|]);
      ExecutionChainGrows(r.on, r.commands, r.executions, x);
    } else {
      AdvanceKeeps(st, r);
      if r.stage == CreateExecution { CommandSteps(st, r); }
      hide Advance;
      if r.stage == GetEvent || r.stage == CreateCommand {
        assert r.executions == [];
      } else {
        hide ExecutionChain;
      }
    }
  }

  lemma {:induction false} ChainStep(st: Store, r: Run)
    requires Progress(r) && Known(st, r) && Chain(r)
    ensures Chain(Advance(st, r))
  {
    hide NextOp, Advance, BuildTaskPlans, TaskChain, ActionChain, CommandChain, ExecutionChain;
    PlansKept(st, r);
    TaskChainStep(st, r);
    ActionChainStep(st, r);
    CommandChainStep(st, r);
    ExecutionChainStep(st, r);
    SummarySteps(st, r);
    AdvanceKeeps(st, r);
  }

  lemma {:induction false} KnownStep(st: Store, r: Run)
    requires Progress(r) && Known(st, r)
    ensures Known(Apply(st, r.on.eventID, NextOp(r)), Advance(st, r))
  {
    AdvanceKeeps(st, r);
    ApplyByTable(st, r.on.eventID, NextOp(r));
    FailsAtOnce(st, r);
    hide NextOp, Advance, Apply, Progress;
  }

  /** A run fails only when its event is missing, and before it writes anything. */
  lemma FailsAtOnce(st: Store, r: Run)
    requires Progress(r) && Known(st, r)
    ensures Advance(st, r).stage == Failed ==> r.stage == Failed || (r.stage == GetEvent && r.on.eventID !in st.events)
    ensures r.stage == GetEvent && Advance(st, r).stage != Failed ==> Advance(st, r).on.eventID in st.events
    ensures Advance(st, r).stage != GetEvent
  {
    hide HasAgentMessages, ListMessages, ListTasks, ListActions, ListCommands, ListExecutions, ListSummaries,
      BuildTaskPlans, TaskRow, NewTask, ActionRow, NewAction, CommandRow, NewCommand, ExecutionRow, NewExecution,
      SummaryRow, NewSummary, FanOutOp, WrapUpOp, PlanOp, RestoreOp;
  }
}
