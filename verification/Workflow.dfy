/** `RunAgentWorkflow` (internal/service/agents.go) as a step machine. One step is at most one store
    operation, so a crash is a run that is never stepped again, and several runs may take turns. */
module Workflow {
  import opened Strings
  import opened Domain
  import opened Planning
  import opened StoreModel

  datatype Stage =
    // entry: the reads that decide what this run is
    | GetEvent | ReadTasks | ReadActions | ReadCommands | ReadExecutions | ReadSummaries | ReadMessages
    // first pass over the event
    | MarkProcessing | CreateTask | TellTasks | CreateAction | StartTask | TellActions | CreateCommand | StartAction
    | TellCommands | CreateExecution | CompleteCommand | CompleteAction | CompleteTask | TellResults | CreateSummary
    | TellSummary | MarkFinished | Finished
    // re-entry: bring back lost messages
    | RestoreTasks | RestoreActions | RestoreCommands | RestoreExecutions | RestoreSummary | RestoreNewSummary
    | Restored | Skipped | Failed

  /** The lists a run read on entry. */
  datatype Seen = Seen(tasks: seq<Task>, actions: seq<Action>, commands: seq<Command>, executions: seq<Execution>,
                       summaries: seq<Summary>)

  /** What the run is about: the event as first read, and its round. */
  datatype Incident = Incident(eventID: ID, event: Event, round: int)

  datatype Run = Run(on: Incident, stage: Stage, seen: Seen,
                     plans: seq<TaskPlan>, tasks: seq<Task>, actions: seq<Action>, commands: seq<Command>,
                     executions: seq<Execution>, summary: Option<Summary>, done: nat)

  function Start(e: ID): (r: Run)
    ensures Progress(r)
  {
    Run(Incident(e, ZERO_EVENT, 1), GetEvent, Seen([], [], [], [], []), [], [], [], [], [], None, 0)
  }

  function Rank(s: Stage): nat {
    match s
    case GetEvent => 0 case ReadTasks => 1 case ReadActions => 2 case ReadCommands => 3 case ReadExecutions => 4
    case ReadSummaries => 5 case ReadMessages => 6 case MarkProcessing => 7
    case CreateTask => 8 case TellTasks => 9
    case CreateAction => 10 case StartTask => 10 case TellActions => 11
    case CreateCommand => 12 case StartAction => 12 case TellCommands => 13
    case CreateExecution => 14 case CompleteCommand => 14
    case CompleteAction => 15 case CompleteTask => 16 case TellResults => 17
    case CreateSummary => 18 case TellSummary => 19 case MarkFinished => 20 case Finished => 21
    case RestoreTasks => 22 case RestoreActions => 23 case RestoreCommands => 24 case RestoreExecutions => 25
    case RestoreSummary => 26 case RestoreNewSummary => 27 case Restored => 28 case Skipped => 28 case Failed => 29
  }

  predicate Terminal(s: Stage) { s == Finished || s == Restored || s == Skipped || s == Failed }

  /** Stages in which the run has decided to write a first set of rows. */
  predicate FirstPass(s: Stage) { 7 <= Rank(s) <= 21 }

  /** What a run has inserted, told from its stage: a stage of the fan-out begins only when the stage
      before it has covered every row. */
  predicate Progress(r: Run) {
    && r.on.round != 0
    && |r.executions| <= |r.commands| <= |r.actions| <= |r.tasks|
    && match r.stage {
         case GetEvent | ReadTasks | ReadActions | ReadCommands | ReadExecutions | ReadSummaries | ReadMessages
            | MarkProcessing => r.tasks == []
         case CreateTask => |r.tasks| <= |r.plans| && r.actions == []
         case TellTasks => |r.tasks| == |r.plans| && r.actions == []
         case CreateAction => |r.tasks| == |r.plans| && r.commands == []
         case StartTask => |r.tasks| == |r.plans| && r.commands == [] && r.actions != []
         case TellActions => |r.actions| == |r.tasks| == |r.plans| && r.commands == []
         case CreateCommand => |r.actions| == |r.tasks| == |r.plans| && r.executions == []
         case StartAction => |r.actions| == |r.tasks| == |r.plans| && r.executions == [] && r.commands != []
         case TellCommands => |r.commands| == |r.actions| == |r.tasks| == |r.plans| && r.executions == []
         case CreateExecution => |r.commands| == |r.actions| == |r.tasks| == |r.plans|
         case CompleteCommand => |r.commands| == |r.actions| == |r.tasks| == |r.plans| && r.executions != []
         case CompleteAction | CompleteTask => Complete(r) && r.done <= |r.tasks|
         case TellResults | CreateSummary => Complete(r)
         case TellSummary | MarkFinished | Finished => Complete(r) && r.summary.Some?
         case RestoreTasks | RestoreActions | RestoreCommands | RestoreExecutions | RestoreSummary | Restored | Skipped =>
           r.tasks == []
         case RestoreNewSummary => r.tasks == [] && r.summary.Some?
         case Failed => true
       }
  }

  /** Every plan has its task, action, command and execution. */
  predicate Complete(r: Run) { |r.executions| == |r.commands| == |r.actions| == |r.tasks| == |r.plans| }

  // ------------------------------------------------------------------ messages

  predicate HasAgentMessages(messages: seq<Message>) {
    exists i :: 0 <= i < |messages| && IsAgent(NormalizeMessageFrom(messages[i].from))
  }

  function AgentMessage(on: Incident, from: string, kind: string, content: Content): Message {
    var n := NormalizeMessageFrom(from);
    Message(0, NO_ID, on.eventID, n, kind, content, on.round, "agent", SenderType(n))
  }

  function TaskIDs(rows: seq<Task>): seq<ID> { seq(|rows|, i requires 0 <= i < |rows| => rows[i].taskID) }
  function ActionIDs(rows: seq<Action>): seq<ID> { seq(|rows|, i requires 0 <= i < |rows| => rows[i].actionID) }
  function CommandIDs(rows: seq<Command>): seq<ID> { seq(|rows|, i requires 0 <= i < |rows| => rows[i].commandID) }
  function ExecutionIDs(rows: seq<Execution>): seq<ID> { seq(|rows|, i requires 0 <= i < |rows| => rows[i].executionID) }

  function Captain(on: Incident, tasks: seq<Task>): Message {
    AgentMessage(on, CAPTAIN, "task_created", Report("TASK", TaskIDs(tasks)))
  }

  function Manager(on: Incident, actions: seq<Action>): Message {
    AgentMessage(on, MANAGER, "action_created", Report("ACTION", ActionIDs(actions)))
  }

  function Operator(on: Incident, commands: seq<Command>): Message {
    AgentMessage(on, OPERATOR, "command_created", Report("COMMAND", CommandIDs(commands)))
  }

  function Executor(on: Incident, executions: seq<Execution>): Message {
    AgentMessage(on, EXECUTOR, "command_result", Report("RESULT", ExecutionIDs(executions)))
  }

  function Expert(on: Incident, summary: Summary): Message {
    AgentMessage(on, EXPERT, "event_summary", summary.content)
  }

  // --------------------------------------------------------------- rows to add

  function NewTask(on: Incident, plan: TaskPlan): Task {
    Task(0, NO_ID, on.eventID, plan.name, plan.kind, plan.description, "pending", SeverityPriority(on.event.severity),
         MANAGER, plan.assignee, on.round)
  }

  function NewAction(on: Incident, task: Task): Action {
    Action(0, NO_ID, task.taskID, on.eventID, on.round, ActionNameForTask(task.name),
           FirstNonEmpty([task.kind, "query"]), OPERATOR, "pending", NoContent)
  }

  function NewCommand(on: Incident, action: Action): Command {
    var spec := CommandSpecForAction(on.event, action.name);
    Command(0, NO_ID, action.actionID, action.taskID, on.eventID, on.round, spec.name, spec.kind, EXECUTOR, spec.entity,
            spec.params, "pending", NoContent)
  }

  function NewExecution(on: Incident, command: Command): Execution {
    Execution(0, NO_ID, on.eventID, command.taskID, command.actionID, on.round, command.commandID, "completed",
              Verdict(on.event.eventID, command.commandID, VerdictFor(command.name)),
              command.name, command.kind, command.entity, command.params)
  }

  function NewSummary(on: Incident): Summary {
    Summary(0, on.eventID, on.round, Conclusion(on.event.name, on.event.eventID, if on.event.round != 0 then on.event.round else 1))
  }

  const TASK_STARTED := TaskPatch(Some("processing"), Some(OPERATOR))
  const TASK_COMPLETED := TaskPatch(Some("completed"), None)
  const STARTED := StatusPatch(Some("processing"), None)
  const COMPLETED := StatusPatch(Some("completed"), None)

  // --------------------------------------------------------------------- steps

  /** The store operation of one step. A failure to store a message is ignored; a failure to insert
      any other row ends the run. */
  datatype Op =
    | Nothing | SetStatus(status: string) | Post(message: Message)
    | InsertTask(task: Task) | InsertAction(action: Action) | InsertCommand(command: Command)
    | InsertExecution(execution: Execution) | InsertSummary(summary: Summary)
    | PatchTaskRow(taskID: ID, taskPatch: TaskPatch) | PatchActionRow(actionID: ID, patch: StatusPatch)
    | PatchCommandRow(commandID: ID, patch: StatusPatch)

  predicate Inserts(op: Op) {
    op.InsertTask? || op.InsertAction? || op.InsertCommand? || op.InsertExecution? || op.InsertSummary?
  }

  function Apply(st: Store, e: ID, op: Op): Store {
    match op
    case Nothing => st
    case SetStatus(s) => UpdateEventStatus(st, e, s)
    case Post(m) => AddMessage(st, m)
    case InsertTask(t) => AddTask(st, t)
    case InsertAction(a) => AddAction(st, a)
    case InsertCommand(c) => AddCommand(st, c)
    case InsertExecution(x) => AddExecution(st, x)
    case InsertSummary(s) => AddSummary(st, s)
    case PatchTaskRow(id, p) => UpdateTask(st, id, p)
    case PatchActionRow(id, p) => UpdateAction(st, id, p)
    case PatchCommandRow(id, p) => UpdateCommand(st, id, p)
  }

  /** What the run does next; it depends on the run alone. */
  function NextOp(r: Run): Op
    requires Progress(r)
  {
    if r.stage.CreateTask? || Rank(r.stage) < 8 then PlanOp(r)
    else if Rank(r.stage) <= 14 then FanOutOp(r)
    else if Rank(r.stage) <= 21 then WrapUpOp(r)
    else RestoreOp(r)
  }

  function PlanOp(r: Run): Op
    requires Progress(r)
  {
    match r.stage
    case MarkProcessing => SetStatus("processing")
    case CreateTask => if |r.tasks| == |r.plans| then Nothing else InsertTask(NewTask(r.on, r.plans[|r.tasks|]))
    case _ => Nothing
  }

  function FanOutOp(r: Run): Op
    requires Progress(r)
  {
    match r.stage
    case TellTasks => Post(Captain(r.on, r.tasks))
    case CreateAction =>
      if |r.actions| == |r.tasks| then Nothing else InsertAction(NewAction(r.on, r.tasks[|r.actions|]))
    case StartTask => PatchTaskRow(r.tasks[|r.actions| - 1].taskID, TASK_STARTED)
    case TellActions => Post(Manager(r.on, r.actions))
    case CreateCommand =>
      if |r.commands| == |r.actions| then Nothing else InsertCommand(NewCommand(r.on, r.actions[|r.commands|]))
    case StartAction => PatchActionRow(r.actions[|r.commands| - 1].actionID, STARTED)
    case TellCommands => Post(Operator(r.on, r.commands))
    case CreateExecution =>
      if |r.executions| == |r.commands| then Nothing else InsertExecution(NewExecution(r.on, r.commands[|r.executions|]))
    case CompleteCommand =>
      PatchCommandRow(r.commands[|r.executions| - 1].commandID,
                      StatusPatch(Some("completed"), Some(r.executions[|r.executions| - 1].result)))
    case _ => Nothing
  }

  function WrapUpOp(r: Run): Op
    requires Progress(r)
  {
    match r.stage
    case CompleteAction =>
      if r.done == |r.actions| then Nothing else PatchActionRow(r.actions[r.done].actionID, COMPLETED)
    case CompleteTask =>
      if r.done == |r.tasks| then Nothing else PatchTaskRow(r.tasks[r.done].taskID, TASK_COMPLETED)
    case TellResults => Post(Executor(r.on, r.executions))
    case CreateSummary => InsertSummary(NewSummary(r.on))
    case TellSummary => Post(Expert(r.on, r.summary.value))
    case MarkFinished => SetStatus("round_finished")
    case _ => Nothing
  }

  function RestoreOp(r: Run): Op
    requires Progress(r)
  {
    match r.stage
    case RestoreTasks => if |r.seen.tasks| > 0 then Post(Captain(r.on, r.seen.tasks)) else Nothing
    case RestoreActions => if |r.seen.actions| > 0 then Post(Manager(r.on, r.seen.actions)) else Nothing
    case RestoreCommands => if |r.seen.commands| > 0 then Post(Operator(r.on, r.seen.commands)) else Nothing
    case RestoreExecutions => if |r.seen.executions| > 0 then Post(Executor(r.on, r.seen.executions)) else Nothing
    case RestoreSummary =>
      if |r.seen.summaries| > 0 then Post(Expert(r.on, r.seen.summaries[|r.seen.summaries| - 1]))
      else if |r.seen.executions| > 0 then InsertSummary(NewSummary(r.on)) else Nothing
    case RestoreNewSummary => Post(Expert(r.on, r.summary.value))
    case _ => Nothing
  }

  /** Where the run stands afterwards: it remembers what it read and the rows it inserted. */
  function Advance(st: Store, r: Run): (r': Run)
    requires Progress(r)
    ensures Progress(r') && r'.on.eventID == r.on.eventID
  {
    hide NextOp, Inserts, AfterRead, AfterFanOut, AfterWrapUp, AfterRestore;
    if Inserts(NextOp(r)) && r.on.eventID !in st.events then r.(stage := Failed)
    else if Rank(r.stage) <= 6 then AfterRead(st, r)
    else if Rank(r.stage) <= 14 then AfterFanOut(st, r)
    else if Rank(r.stage) <= 21 then AfterWrapUp(st, r)
    else AfterRestore(st, r)
  }

  function AfterRead(st: Store, r: Run): (r': Run)
    requires Progress(r) && Rank(r.stage) <= 6
    ensures Progress(r') && r'.on.eventID == r.on.eventID
  {
    hide HasAgentMessages, ListMessages, ListTasks, ListActions, ListCommands, ListExecutions, ListSummaries;
    var e := r.on.eventID;
    match r.stage
    case GetEvent =>
      if e !in st.events then r.(stage := Failed)
      else r.(stage := ReadTasks, on := Incident(e, st.events[e], DefaultRound(st.events[e].round)))
    case ReadTasks => r.(stage := ReadActions, seen := r.seen.(tasks := ListTasks(st, e)))
    case ReadActions => r.(stage := ReadCommands, seen := r.seen.(actions := ListActions(st, e)))
    case ReadCommands => r.(stage := ReadExecutions, seen := r.seen.(commands := ListCommands(st, e)))
    case ReadExecutions => r.(stage := ReadSummaries, seen := r.seen.(executions := ListExecutions(st, e)))
    case ReadSummaries =>
      var again := |r.seen.tasks| > 0 || |r.seen.executions| > 0;
      r.(stage := if again then ReadMessages else MarkProcessing, seen := r.seen.(summaries := ListSummaries(st, e)))
    case ReadMessages => r.(stage := if HasAgentMessages(ListMessages(st, e)) then Skipped else RestoreTasks)
    case _ => r
  }

  function AfterFanOut(st: Store, r: Run): (r': Run)
    requires Progress(r) && 7 <= Rank(r.stage) <= 14
    ensures Progress(r') && r'.on.eventID == r.on.eventID
  {
    hide BuildTaskPlans, TaskRow, NewTask, ActionRow, NewAction, CommandRow, NewCommand, ExecutionRow, NewExecution;
    match r.stage
    case MarkProcessing => r.(stage := CreateTask, plans := BuildTaskPlans(r.on.event))
    case CreateTask =>
      if |r.tasks| == |r.plans| then r.(stage := TellTasks)
      else r.(tasks := r.tasks + [TaskRow(st, NewTask(r.on, r.plans[|r.tasks|]))])
    case TellTasks => r.(stage := CreateAction)
    case CreateAction =>
      if |r.actions| == |r.tasks| then r.(stage := TellActions)
      else r.(stage := StartTask, actions := r.actions + [ActionRow(st, NewAction(r.on, r.tasks[|r.actions|]))])
    case StartTask => r.(stage := CreateAction)
    case TellActions => r.(stage := CreateCommand)
    case CreateCommand =>
      if |r.commands| == |r.actions| then r.(stage := TellCommands)
      else r.(stage := StartAction, commands := r.commands + [CommandRow(st, NewCommand(r.on, r.actions[|r.commands|]))])
    case StartAction => r.(stage := CreateCommand)
    case TellCommands => r.(stage := CreateExecution)
    case CreateExecution =>
      if |r.executions| == |r.commands| then r.(stage := CompleteAction, done := 0)
      else r.(stage := CompleteCommand,
              executions := r.executions + [ExecutionRow(st, NewExecution(r.on, r.commands[|r.executions|]))])
    case CompleteCommand => r.(stage := CreateExecution)
    case _ => r
  }

  function AfterWrapUp(st: Store, r: Run): (r': Run)
    requires Progress(r) && 15 <= Rank(r.stage) <= 21
    ensures Progress(r') && r'.on.eventID == r.on.eventID
  {
    hide SummaryRow, NewSummary;
    match r.stage
    case CompleteAction => if r.done == |r.actions| then r.(stage := CompleteTask, done := 0) else r.(done := r.done + 1)
    case CompleteTask => if r.done == |r.tasks| then r.(stage := TellResults) else r.(done := r.done + 1)
    case TellResults => r.(stage := CreateSummary)
    case CreateSummary => r.(stage := TellSummary, summary := Some(SummaryRow(st, NewSummary(r.on))))
    case TellSummary => r.(stage := MarkFinished)
    case MarkFinished => r.(stage := Finished)
    case _ => r
  }

  function AfterRestore(st: Store, r: Run): (r': Run)
    requires Progress(r) && Rank(r.stage) >= 22
    ensures Progress(r') && r'.on.eventID == r.on.eventID
  {
    hide SummaryRow, NewSummary;
    match r.stage
    case RestoreTasks => r.(stage := RestoreActions)
    case RestoreActions => r.(stage := RestoreCommands)
    case RestoreCommands => r.(stage := RestoreExecutions)
    case RestoreExecutions => r.(stage := RestoreSummary)
    case RestoreSummary =>
      if |r.seen.summaries| == 0 && |r.seen.executions| > 0
      then r.(stage := RestoreNewSummary, summary := Some(SummaryRow(st, NewSummary(r.on))))
      else r.(stage := Restored)
    case RestoreNewSummary => r.(stage := Restored)
    case _ => r
  }

  function Step(st: Store, r: Run): (res: (Store, Run))
    requires Progress(r)
  {
    hide Apply, NextOp, Advance;
    (Apply(st, r.on.eventID, NextOp(r)), Advance(st, r))
  }

  // ------------------------------------------------- a run without interference

  /** What is left to do inside a stage. */
  function Left(r: Run): nat
    requires Progress(r)
  {
    match r.stage
    case CreateTask => |r.plans| - |r.tasks|
    case CreateAction => 2 * (|r.tasks| - |r.actions|)
    case StartTask => 2 * (|r.tasks| - |r.actions|) + 1
    case CreateCommand => 2 * (|r.actions| - |r.commands|)
    case StartAction => 2 * (|r.actions| - |r.commands|) + 1
    case CreateExecution => 2 * (|r.commands| - |r.executions|)
    case CompleteCommand => 2 * (|r.commands| - |r.executions|) + 1
    case CompleteAction => |r.actions| - r.done
    case CompleteTask => |r.tasks| - r.done
    case _ => 0
  }

  predicate Sooner(r': Run, r: Run)
    requires Progress(r) && Progress(r')
  {
    Rank(r.stage) < Rank(r'.stage) || (Rank(r.stage) == Rank(r'.stage) && Left(r') < Left(r))
  }

  lemma ReadsSooner(st: Store, r: Run)
    requires Progress(r) && Rank(r.stage) <= 6
    ensures Sooner(AfterRead(st, r), r)
  {
    hide HasAgentMessages, ListMessages, ListTasks, ListActions, ListCommands, ListExecutions, ListSummaries;
  }

  lemma TasksSooner(st: Store, r: Run)
    requires Progress(r) && 7 <= Rank(r.stage) <= 9
    ensures Sooner(AfterFanOut(st, r), r)
  {
    hide BuildTaskPlans, TaskRow, NewTask, ActionRow, NewAction, CommandRow, NewCommand, ExecutionRow, NewExecution;
  }

  lemma ActionsSooner(st: Store, r: Run)
    requires Progress(r) && 10 <= Rank(r.stage) <= 11
    ensures Sooner(AfterFanOut(st, r), r)
  {
    hide BuildTaskPlans, TaskRow, NewTask, ActionRow, NewAction, CommandRow, NewCommand, ExecutionRow, NewExecution;
  }

  lemma CommandsSooner(st: Store, r: Run)
    requires Progress(r) && 12 <= Rank(r.stage) <= 14
    ensures Sooner(AfterFanOut(st, r), r)
  {
    hide BuildTaskPlans, TaskRow, NewTask, ActionRow, NewAction, CommandRow, NewCommand, ExecutionRow, NewExecution;
  }

  lemma FanOutSooner(st: Store, r: Run)
    requires Progress(r) && 7 <= Rank(r.stage) <= 14
    ensures Sooner(AfterFanOut(st, r), r)
  {
    hide AfterFanOut, Progress, Sooner;
    if Rank(r.stage) <= 9 { TasksSooner(st, r); } else if Rank(r.stage) <= 11 { ActionsSooner(st, r); } else { CommandsSooner(st, r); }
  }

  lemma WrapUpSooner(st: Store, r: Run)
    requires Progress(r) && 15 <= Rank(r.stage) <= 20
    ensures Sooner(AfterWrapUp(st, r), r)
  {
    hide SummaryRow, NewSummary;
  }

  lemma RestoreSooner(st: Store, r: Run)
    requires Progress(r) && 22 <= Rank(r.stage) <= 27
    ensures Sooner(AfterRestore(st, r), r)
  {
    hide SummaryRow, NewSummary;
  }

  lemma AdvanceMakesProgress(st: Store, r: Run)
    requires Progress(r) && !Terminal(r.stage)
    ensures Sooner(Advance(st, r), r)
  {
    hide NextOp, Inserts, AfterRead, AfterFanOut, AfterWrapUp, AfterRestore;
    if Rank(r.stage) <= 6 { ReadsSooner(st, r); }
    else if Rank(r.stage) <= 14 { FanOutSooner(st, r); }
    else if Rank(r.stage) <= 21 { WrapUpSooner(st, r); }
    else { RestoreSooner(st, r); }
  }

  function RunToEnd(st: Store, r: Run): (res: (Store, Run))
    requires Progress(r)
    ensures Progress(res.1) && Terminal(res.1.stage) && res.1.on.eventID == r.on.eventID
    decreases 30 - Rank(r.stage), Left(r)
  {
    hide Apply, NextOp, Advance;
    if Terminal(r.stage) then (st, r)
    else
      AdvanceMakesProgress(st, r);
      var (st', r') := Step(st, r);
      RunToEnd(st', r')
  }

  /** The effect of one undisturbed call of `RunAgentWorkflow(eventID)`. */
  function RunWorkflow(st: Store, e: ID): Store { RunToEnd(st, Start(e)).0 }
}
