/** What the workflow leaves in the tables, field by field, in every state any schedule reaches: each row is
    told from the stored event alone, and the verdict on every execution from its playbook. */
module WorkflowInFull {
  import opened Strings
  import opened IpText
  import opened Domain
  import opened Planning
  import opened Lookups
  import opened StoreModel
  import opened Workflow
  import opened WorkflowRows
  import opened WorkflowSafety
  import opened WorkflowResults

  // ------------------------------------------------- a run works on the stored event

  function RoundOf(event: Event): int { if event.round == 0 then 1 else event.round }

  /** What a run read on entry is the event as it is still stored, up to its status. */
  ghost predicate ReadsRight(st: Store, r: Run) {
    r.stage != GetEvent && r.stage != Failed ==>
      && r.on.eventID in st.events && r.on.round == RoundOf(r.on.event)
      && st.events[r.on.eventID] == r.on.event.(status := st.events[r.on.eventID].status)
  }

  ghost predicate AllReadRight(sys: System) { forall a :: 0 <= a < |sys.runs| ==> ReadsRight(sys.st, sys.runs[a]) }

  /** Only statuses of events change. */
  ghost predicate SameEvents(st: Store, st': Store) {
    forall e :: e in st.events ==> e in st'.events && st'.events[e] == st.events[e].(status := st'.events[e].status)
  }

  lemma ReadStays(st: Store, st': Store, r: Run)
    requires ReadsRight(st, r) && SameEvents(st, st')
    ensures ReadsRight(st', r)
  {
  }

  lemma {:induction false} TurnKeepsEvents(sys: System, a: nat)
    requires Runnable(sys) && a < |sys.runs|
    ensures SameEvents(sys.st, TakeTurn(sys, a).st)
  {
    hide Apply, NextOp, Advance, Progress, Grow;
    ApplyByTable(sys.st, sys.runs[a].on.eventID, NextOp(sys.runs[a]));
  }

  lemma OwnRead(st: Store, r: Run)
    requires Progress(r) && Known(st, r) && ReadsRight(st, r)
    ensures ReadsRight(st, Advance(st, r))
  {
    FailsAtOnce(st, r);
    if r.stage == GetEvent {
      FirstRead(st, r);
    } else {
      AdvanceKeeps(st, r);
    }
    hide Advance, Progress, Known;
  }

  lemma FirstRead(st: Store, r: Run)
    requires Progress(r) && r.stage == GetEvent
    ensures r.on.eventID in st.events ==>
              var event := st.events[r.on.eventID];
              Advance(st, r).on == Incident(r.on.eventID, event, RoundOf(event))
    ensures r.on.eventID !in st.events ==> Advance(st, r).stage == Failed
  {
    hide FanOutOp, WrapUpOp, RestoreOp, AfterFanOut, AfterWrapUp, AfterRestore;
  }

  lemma {:induction false} TurnKeepsRead(sys: System, a: nat)
    requires Runnable(sys) && Inv(sys) && AllReadRight(sys) && a < |sys.runs|
    ensures AllReadRight(TakeTurn(sys, a))
  {
    hide Progress, RunOk, Advance, Apply, NextOp, Grow, ReadsRight, TablesOk, FinishersOk, SameEvents;
    var st' := TakeTurn(sys, a).st;
    TurnKeepsEvents(sys, a);
    RunIsOk(sys, a);
    OwnRead(sys.st, sys.runs[a]);
    ReadStays(sys.st, st', Advance(sys.st, sys.runs[a]));
    forall b | 0 <= b < |sys.runs| && b != a ensures ReadsRight(st', sys.runs[b]) { ReadStays(sys.st, st', sys.runs[b]); }
  }

  lemma RunIsOk(sys: System, a: nat)
    requires Inv(sys) && a < |sys.runs|
    ensures RunOk(sys.st, sys.runs[a]) && Progress(sys.runs[a]) && Known(sys.st, sys.runs[a]) && Chain(sys.runs[a])
  {
    hide TablesOk, FinishersOk, Progress, Known, Chain;
    assert RunOk(sys.st, sys.runs[a]);
  }

  lemma {:induction false} OutsideKeepsRead(sys: System, st': Store)
    requires AllReadRight(sys) && SameEvents(sys.st, st')
    ensures AllReadRight(sys.(st := st'))
  {
    hide ReadsRight, SameEvents;
    forall b | 0 <= b < |sys.runs| ensures ReadsRight(st', sys.runs[b]) { ReadStays(sys.st, st', sys.runs[b]); }
  }

  lemma {:induction false} LabelKeepsRead(sys: System, l: Label)
    requires Runnable(sys) && Inv(sys) && AllReadRight(sys)
    ensures AllReadRight(Next(sys, l))
  {
    hide Progress, Inv, TakeTurn, MessageRow, EventRow, Drew;
    match l
    case Launch(e) =>
    case Turn(a) => if a < |sys.runs| { TurnKeepsRead(sys, a); }
    case Register(event) => OutsideKeepsRead(sys, CreateEvent(sys.st, event.(status := "pending")));
    case Write(m) => OutsideKeepsRead(sys, AddMessage(sys.st, m));
  }

  lemma {:induction false} ReachableRead(sys: System, labels: seq<Label>)
    requires Initial(sys)
    ensures AllReadRight(Execute(sys, labels))
  {
    hide Next, ReadsRight, Inv;
    if labels != [] {
      ReachableRead(sys, labels[..|labels| - 1]);
      ReachableInv(sys, labels[..|labels| - 1]);
      LabelKeepsRead(Execute(sys, labels[..|labels| - 1]), labels[|labels| - 1]);
    }
  }

  // ------------------------------------------------------- verdicts, table-wide

  /** What an execution says it found is what its playbook finds. */
  ghost predicate Sound(x: Execution) {
    x.commandKind == "playbook" && x.status == "completed" && x.result.Verdict? && x.result.commandID == x.commandID
    && Judged(x.commandEntity, x.result.verdict)
  }

  lemma {:induction false} OwnExecutionSound(r: Run, k: nat)
    requires Chain(r) && k < |r.executions| && r.plans == BuildTaskPlans(r.on.event)
    ensures Sound(r.executions[k])
  {
    CommandsCompile(r, k);
    VerdictsFitPlaybooks(r.on.event, k);
    hide BuildTaskPlans, ActionNameForTask, CommandSpecForAction, VerdictFor, SeverityPriority, FirstNonEmpty, Judged, Compile;
  }

  lemma PlansOfWriter(r: Run)
    requires Progress(r) && Chain(r) && r.tasks != [] && r.stage != Failed
    ensures r.plans == BuildTaskPlans(r.on.event)
  {
    hide BuildTaskPlans, TaskChain, ActionChain, CommandChain, ExecutionChain;
  }

  /** In every reachable state every stored execution, whichever run made it, carries the verdict of the
      playbook it ran: none needs a person. */
  lemma {:induction false} VerdictsFollowPlaybooks(initial: System, labels: seq<Label>, j: nat)
    requires Initial(initial) && j < |Execute(initial, labels).st.executions|
    ensures Sound(Execute(initial, labels).st.executions[j])
  {
    hide Execute, Sound, RunOk, Progress, Known, Chain, FinishersOk, ExecutionRows;
    ReachableInv(initial, labels);
    var sys := Execute(initial, labels);
    var origin := sys.executionFrom[j];
    var r := sys.runs[origin.run];
    assert ExecutionsOf(sys.runs)[origin.run] == r.executions && ExecutionPos(r.executions[origin.k]) == j + 1;
    hide TablesOk;
    RunIsOk(sys, origin.run);
    hide Inv;
    ExecutionStored(sys.st, r, origin.k);
    PlansOfWriter(r);
    OwnExecutionSound(r, origin.k);
  }

  lemma ExecutionStored(st: Store, r: Run, k: nat)
    requires RunOk(st, r) && k < |r.executions|
    ensures 1 <= r.executions[k].id <= |st.executions| && st.executions[r.executions[k].id - 1] == r.executions[k]
    ensures r.tasks != [] && r.stage != Failed
  {
    hide TaskSideOk, ActionSideOk, CommandSideOk, TaskChain, BuildTaskPlans;
  }

  // -------------------------------------------------------- rows of one kind each

  ghost predicate TaskIs(t: Task, l: Lookup, e: ID, event: Event) {
    && t.eventID == e && t.name == l.task && t.kind == "query" && t.description == l.description && t.assignee == "_analyst"
    && t.round == RoundOf(event) && Weighs(event.severity, t.priority)
    && ((t.status == "pending" && t.assignedTo == "_manager") || (t.status in ["processing", "completed"] && t.assignedTo == "_operator"))
  }

  ghost predicate ActionIs(a: Action, l: Lookup, e: ID, event: Event) {
    && a.eventID == e && a.name == l.action && a.kind == "query" && a.assignee == "_operator" && a.round == RoundOf(event)
    && a.status in ["pending", "processing", "completed"] && a.result == NoContent
  }

  ghost predicate CommandIs(c: Command, l: Lookup, e: ID, event: Event) {
    && c.eventID == e && c.name == l.playbook && c.kind == "playbook" && c.assignee == "_executor" && c.round == RoundOf(event)
    && c.entity == Playbook(l.number, l.code) && c.params == Params(l.key, l.ip)
    && (|| (c.status == "pending" && c.result == NoContent)
        || (c.status == "completed" && c.result == Verdict(event.eventID, c.commandID, l.verdict)))
  }

  ghost predicate ExecutionIs(x: Execution, l: Lookup, e: ID, event: Event) {
    && x.eventID == e && x.status == "completed" && x.round == RoundOf(event)
    && x.commandName == l.playbook && x.commandKind == "playbook" && x.commandEntity == Playbook(l.number, l.code)
    && x.commandParams == Params(l.key, l.ip) && x.result == Verdict(event.eventID, x.commandID, l.verdict)
  }

  lemma TaskOfPlan(on: Incident, plan: TaskPlan, l: Lookup, t: Task, started: bool, completed: bool)
    requires plan == TaskPlan(l.task, "query", "_analyst", l.description) && on.round == RoundOf(on.event)
    requires t == NewTask(on, plan).(id := t.id, taskID := t.taskID) && (completed ==> started)
    ensures TaskIs(TaskNow(t, started, completed), l, on.eventID, on.event)
  {
    PriorityWeighs(on.event.severity);
    hide SeverityPriority, Weighs;
  }

  lemma ActionOfTask(on: Incident, task: Task, l: Lookup, a: Action, started: bool, completed: bool)
    requires task.name == l.task && task.kind == "query" && ActionNameForTask(l.task) == l.action && on.round == RoundOf(on.event)
    requires a == NewAction(on, task).(id := a.id, actionID := a.actionID)
    ensures ActionIs(ActionNow(a, started, completed), l, on.eventID, on.event) && a.name == l.action
  {
    hide ActionNameForTask;
  }

  lemma CommandOfLookup(on: Incident, action: Action, l: Lookup, c: Command, completed: bool, result: Content)
    requires action.name == l.action && on.round == RoundOf(on.event)
    requires CommandSpecForAction(on.event, l.action) == CommandSpec(l.playbook, "playbook", Playbook(l.number, l.code), Params(l.key, l.ip))
    requires c == NewCommand(on, action).(id := c.id, commandID := c.commandID)
    requires completed ==> result == Verdict(on.event.eventID, c.commandID, l.verdict)
    ensures CommandIs(CommandNow(c, completed, result), l, on.eventID, on.event) && CommandIs(c, l, on.eventID, on.event)
  {
    hide CommandSpecForAction;
  }

  lemma ExecutionOfCommand(on: Incident, command: Command, l: Lookup, x: Execution)
    requires CommandIs(command, l, on.eventID, on.event) && VerdictFor(l.playbook) == l.verdict && on.round == RoundOf(on.event)
    requires x == NewExecution(on, command).(id := x.id, executionID := x.executionID)
    ensures ExecutionIs(x, l, on.eventID, on.event) && x.commandID == command.commandID
  {
    hide VerdictFor;
  }

  lemma {:induction false} ChainAt(r: Run, k: nat)
    requires Chain(r)
    ensures k < |r.tasks| ==> k < |r.plans| && r.tasks[k] == NewTask(r.on, r.plans[k]).(id := r.tasks[k].id, taskID := r.tasks[k].taskID)
    ensures k < |r.actions| ==>
              k < |r.tasks| && r.actions[k] == NewAction(r.on, r.tasks[k]).(id := r.actions[k].id, actionID := r.actions[k].actionID)
    ensures k < |r.commands| ==>
              k < |r.actions| && r.commands[k] == NewCommand(r.on, r.actions[k]).(id := r.commands[k].id, commandID := r.commands[k].commandID)
    ensures k < |r.executions| ==>
              k < |r.commands|
              && r.executions[k] == NewExecution(r.on, r.commands[k]).(id := r.executions[k].id, executionID := r.executions[k].executionID)
  {
    hide BuildTaskPlans, NewTask, NewAction, NewCommand, NewExecution;
  }

  lemma TaskOfRun(r: Run, k: nat, started: bool, completed: bool)
    requires Chain(r) && k < |r.tasks| && r.plans == BuildTaskPlans(r.on.event) && r.on.round == RoundOf(r.on.event) && (completed ==> started)
    ensures k < |Expected(r.on.event)| && TaskIs(TaskNow(r.tasks[k], started, completed), Expected(r.on.event)[k], r.on.eventID, r.on.event)
    ensures r.tasks[k].name == Expected(r.on.event)[k].task && r.tasks[k].kind == "query"
  {
    ChainAt(r, k);
    PlansAreExpected(r.on.event);
    hide Chain, BuildTaskPlans, Expected;
    TaskOfPlan(r.on, r.plans[k], Expected(r.on.event)[k], r.tasks[k], started, completed);
    hide TaskIs, SeverityPriority;
  }

  lemma ActionOfRun(r: Run, k: nat, started: bool, completed: bool)
    requires Chain(r) && k < |r.actions| && r.plans == BuildTaskPlans(r.on.event) && r.on.round == RoundOf(r.on.event)
    requires Readable(r.on.event)
    ensures k < |Expected(r.on.event)| && ActionIs(ActionNow(r.actions[k], started, completed), Expected(r.on.event)[k], r.on.eventID, r.on.event)
    ensures r.actions[k].name == Expected(r.on.event)[k].action
  {
    ChainAt(r, k);
    TaskOfRun(r, k, false, false);
    hide Chain, BuildTaskPlans, Expected, TaskIs, Readable, CommandSpecForAction, VerdictFor, ActionNameForTask;
    StagesAreExpected(r.on.event, k);
    ActionOfTask(r.on, r.tasks[k], Expected(r.on.event)[k], r.actions[k], started, completed);
    hide ActionIs, NewAction, NewTask;
  }

  lemma CommandOfRun(r: Run, k: nat, completed: bool, result: Content)
    requires Chain(r) && k < |r.commands| && r.plans == BuildTaskPlans(r.on.event) && r.on.round == RoundOf(r.on.event)
    requires Readable(r.on.event) && k < |Expected(r.on.event)|
    requires completed ==> result == Verdict(r.on.event.eventID, r.commands[k].commandID, Expected(r.on.event)[k].verdict)
    ensures CommandIs(CommandNow(r.commands[k], completed, result), Expected(r.on.event)[k], r.on.eventID, r.on.event)
    ensures CommandIs(r.commands[k], Expected(r.on.event)[k], r.on.eventID, r.on.event)
  {
    ChainAt(r, k);
    ActionOfRun(r, k, false, false);
    hide Chain, BuildTaskPlans, Expected, ActionIs, Readable, CommandSpecForAction, VerdictFor, ActionNameForTask;
    StagesAreExpected(r.on.event, k);
    CommandOfLookup(r.on, r.actions[k], Expected(r.on.event)[k], r.commands[k], completed, result);
    hide CommandIs, NewCommand, NewAction;
  }

  lemma ExecutionOfRun(r: Run, k: nat)
    requires Chain(r) && k < |r.executions| && r.plans == BuildTaskPlans(r.on.event) && r.on.round == RoundOf(r.on.event)
    requires Readable(r.on.event) && k < |Expected(r.on.event)|
    ensures ExecutionIs(r.executions[k], Expected(r.on.event)[k], r.on.eventID, r.on.event)
    ensures k < |r.commands| && r.executions[k].commandID == r.commands[k].commandID
  {
    ChainAt(r, k);
    CommandOfRun(r, k, false, NoContent);
    hide Chain, BuildTaskPlans, Expected, CommandIs, Readable, CommandSpecForAction, VerdictFor, ActionNameForTask;
    StagesAreExpected(r.on.event, k);
    ExecutionOfCommand(r.on, r.commands[k], Expected(r.on.event)[k], r.executions[k]);
    hide ExecutionIs, NewExecution, NewCommand;
  }

  // ----------------------------------------------------------- what can be listed

  ghost predicate TasksInFull(st: Store, e: ID, event: Event) {
    |ListTasks(st, e)| <= |Expected(event)| && forall k :: 0 <= k < |ListTasks(st, e)| ==> TaskIs(ListTasks(st, e)[k], Expected(event)[k], e, event)
  }

  ghost predicate ActionsInFull(st: Store, e: ID, event: Event) {
    |ListActions(st, e)| <= |Expected(event)|
    && forall k :: 0 <= k < |ListActions(st, e)| ==> ActionIs(ListActions(st, e)[k], Expected(event)[k], e, event)
  }

  ghost predicate CommandsInFull(st: Store, e: ID, event: Event) {
    |ListCommands(st, e)| <= |Expected(event)|
    && forall k :: 0 <= k < |ListCommands(st, e)| ==> CommandIs(ListCommands(st, e)[k], Expected(event)[k], e, event)
  }

  ghost predicate ExecutionsInFull(st: Store, e: ID, event: Event) {
    |ListExecutions(st, e)| <= |Expected(event)|
    && forall k :: 0 <= k < |ListExecutions(st, e)| ==> ExecutionIs(ListExecutions(st, e)[k], Expected(event)[k], e, event)
  }

  lemma CompletedStarted(r: Run)
    requires Progress(r)
    ensures TasksCompleted(r) <= TasksStarted(r) || r.tasks == []
  {
  }

  lemma {:induction false} TasksAreInFull(sys: System, e: ID, a: nat)
    requires Inv(sys) && SoleWriter(sys, e, a) && sys.runs[a].tasks != [] && sys.runs[a].on.round == RoundOf(sys.runs[a].on.event)
    ensures TasksInFull(sys.st, e, sys.runs[a].on.event)
  {
    hide RunOk, TablesOk, Progress, FinishersOk, ListTasks, TasksStarted, TasksCompleted, TaskNow, TaskIs, BuildTaskPlans, Expected, Chain;
    var r := sys.runs[a];
    SoleTasks(sys, e, a);
    SoleOk(sys, e, a);
    CompletedStarted(r);
    hide Inv, SoleWriter;
    PlansAreExpected(r.on.event);
    assert |r.tasks| <= |r.plans| by { ChainIDs(r); }
    forall k | 0 <= k < |r.tasks| ensures TaskIs(ListTasks(sys.st, e)[k], Expected(r.on.event)[k], e, r.on.event) {
      TaskOfRun(r, k, k < TasksStarted(r), k < TasksCompleted(r));
    }
  }

  lemma {:induction false} ActionsAreInFull(sys: System, e: ID, a: nat)
    requires Inv(sys) && SoleWriter(sys, e, a) && sys.runs[a].tasks != [] && sys.runs[a].on.round == RoundOf(sys.runs[a].on.event)
    requires Readable(sys.runs[a].on.event)
    ensures ActionsInFull(sys.st, e, sys.runs[a].on.event)
  {
    hide RunOk, TablesOk, Progress, FinishersOk, ListActions, ActionsStarted, ActionsCompleted, ActionNow, ActionIs, BuildTaskPlans, Expected,
      Readable, Chain;
    var r := sys.runs[a];
    SoleActions(sys, e, a);
    SoleOk(sys, e, a);
    hide Inv, SoleWriter;
    PlansAreExpected(r.on.event);
    assert |r.actions| <= |r.plans| by { ChainIDs(r); }
    forall k | 0 <= k < |r.actions| ensures ActionIs(ListActions(sys.st, e)[k], Expected(r.on.event)[k], e, r.on.event) {
      ActionOfRun(r, k, k < ActionsStarted(r), k < ActionsCompleted(r));
    }
  }

  lemma {:induction false} CommandsAreInFull(sys: System, e: ID, a: nat)
    requires Inv(sys) && SoleWriter(sys, e, a) && sys.runs[a].tasks != [] && sys.runs[a].on.round == RoundOf(sys.runs[a].on.event)
    requires Readable(sys.runs[a].on.event)
    ensures CommandsInFull(sys.st, e, sys.runs[a].on.event)
  {
    hide RunOk, TablesOk, Progress, FinishersOk, ListCommands, CommandsCompleted, CommandNow, CommandIs, BuildTaskPlans, Expected, Readable, Chain;
    var r := sys.runs[a];
    SoleCommands(sys, e, a);
    SoleOk(sys, e, a);
    hide Inv, SoleWriter;
    PlansAreExpected(r.on.event);
    assert |r.executions| <= |r.commands| <= |r.plans| by { ChainIDs(r); }
    forall k | 0 <= k < |r.commands| ensures CommandIs(ListCommands(sys.st, e)[k], Expected(r.on.event)[k], e, r.on.event) {
      var completed := k < CommandsCompleted(r);
      var result := if completed then r.executions[k].result else NoContent;
      if completed { ExecutionOfRun(r, k); }
      CommandOfRun(r, k, completed, result);
    }
  }

  lemma {:induction false} ExecutionsAreInFull(sys: System, e: ID, a: nat)
    requires Inv(sys) && SoleWriter(sys, e, a) && sys.runs[a].tasks != [] && sys.runs[a].on.round == RoundOf(sys.runs[a].on.event)
    requires Readable(sys.runs[a].on.event)
    ensures ExecutionsInFull(sys.st, e, sys.runs[a].on.event)
  {
    hide RunOk, TablesOk, Progress, FinishersOk, ListExecutions, ExecutionIs, BuildTaskPlans, Expected, Readable, Chain;
    var r := sys.runs[a];
    SoleExecutions(sys, e, a);
    SoleOk(sys, e, a);
    hide Inv, SoleWriter;
    PlansAreExpected(r.on.event);
    assert |r.executions| <= |r.plans| by { ChainIDs(r); }
    forall k | 0 <= k < |r.executions| ensures ExecutionIs(ListExecutions(sys.st, e)[k], Expected(r.on.event)[k], e, r.on.event) {
      ExecutionOfRun(r, k);
    }
  }

  // --------------------------------------------------------------- the main result

  lemma StatusAside(event: Event, status: string)
    ensures var event' := event.(status := status);
            && Source(event') == Source(event) && Destination(event') == Destination(event)
            && Expected(event') == Expected(event) && (Readable(event') <==> Readable(event))
            && RoundOf(event') == RoundOf(event) && event'.eventID == event.eventID && event'.severity == event.severity
  {
    hide FirstIP, FirstWithRole, FirstObservable, IsQuad, ThreatLookup, LocationLookup, AssetLookup;
    FirstIPAside(event, status);
    RolesAside(event, ["source"], status);
    RolesAside(event, ["destination", "target", "victim", "dst"], status);
  }

  lemma FirstIPAside(event: Event, status: string)
    ensures FirstIP(event.(status := status)) == FirstIP(event)
  {
  }

  lemma {:induction false} RolesAside(event: Event, roles: seq<string>, status: string)
    ensures FirstObservable(event.(status := status), roles) == FirstObservable(event, roles)
  {
    if roles != [] { RolesAside(event, roles[1..], status); }
  }

  lemma {:induction false} RowsAside(st: Store, e: ID, event: Event, status: string)
    ensures var event' := event.(status := status);
            && (TasksInFull(st, e, event) ==> TasksInFull(st, e, event'))
            && (ActionsInFull(st, e, event) ==> ActionsInFull(st, e, event'))
            && (CommandsInFull(st, e, event) ==> CommandsInFull(st, e, event'))
            && (ExecutionsInFull(st, e, event) ==> ExecutionsInFull(st, e, event'))
  {
    StatusAside(event, status);
    hide Expected, Readable, ListTasks, ListActions, ListCommands, ListExecutions, Weighs, RoundOf, Source, Destination;
  }

  /** In every reachable state, for an event that one run at most has written for: the listings are, in order,
      the tasks the stored event calls for and, when its addresses are canonical or absent, the actions,
      commands and executions too, each field as written out in module Lookups. */
  lemma {:induction false} RowsInFull(initial: System, labels: seq<Label>, e: ID, a: nat)
    requires Initial(initial) && SoleWriter(Execute(initial, labels), e, a) && Execute(initial, labels).runs[a].tasks != []
    ensures var st := Execute(initial, labels).st;
            e in st.events && TasksInFull(st, e, st.events[e])
            && (Readable(st.events[e]) ==>
                  ActionsInFull(st, e, st.events[e]) && CommandsInFull(st, e, st.events[e]) && ExecutionsInFull(st, e, st.events[e]))
  {
    hide Execute, Inv, RunOk, Progress, TasksInFull, ActionsInFull, CommandsInFull, ExecutionsInFull, Readable, Expected, RoundOf;
    ReachableInv(initial, labels);
    ReachableRead(initial, labels);
    var sys := Execute(initial, labels);
    var r := sys.runs[a];
    SoleOk(sys, e, a);
    WriterHasStarted(r);
    assert ReadsRight(sys.st, r);
    var status := sys.st.events[e].status;
    StatusAside(r.on.event, status);
    RowsAside(sys.st, e, r.on.event, status);
    TasksAreInFull(sys, e, a);
    if Readable(r.on.event) {
      ActionsAreInFull(sys, e, a);
      CommandsAreInFull(sys, e, a);
      ExecutionsAreInFull(sys, e, a);
    }
  }

  lemma WriterHasStarted(r: Run)
    requires Progress(r) && r.tasks != []
    ensures r.stage != GetEvent
  {
  }

  /** A finished run has left one row of each kind for every expected lookup, all of them completed. */
  lemma {:induction false} FinishedInFull(initial: System, labels: seq<Label>, e: ID, a: nat)
    requires Initial(initial) && SoleWriter(Execute(initial, labels), e, a) && Execute(initial, labels).runs[a].stage == Finished
    ensures var st := Execute(initial, labels).st;
            e in st.events && TasksInFull(st, e, st.events[e])
            && |ListTasks(st, e)| == |ListActions(st, e)| == |ListCommands(st, e)| == |ListExecutions(st, e)| == |Expected(st.events[e])|
            && (forall k :: 0 <= k < |ListTasks(st, e)| ==> ListTasks(st, e)[k].status == "completed" && ListCommands(st, e)[k].status == "completed")
            && (Readable(st.events[e]) ==>
                  ActionsInFull(st, e, st.events[e]) && CommandsInFull(st, e, st.events[e]) && ExecutionsInFull(st, e, st.events[e]))
  {
    hide Execute, Inv, RunOk, Progress, TasksInFull, ActionsInFull, CommandsInFull, ExecutionsInFull, Readable, Expected, RoundOf, BuildTaskPlans,
      Compile, VerdictFor, ListTasks, ListActions, ListCommands, ListExecutions;
    ReachableInv(initial, labels);
    ReachableRead(initial, labels);
    var sys := Execute(initial, labels);
    var r := sys.runs[a];
    FinishedWrote(sys, a);
    RowsInFull(initial, labels, e, a);
    FinishedRunIsWhole(initial, labels, e, a);
    assert ReadsRight(sys.st, r);
    StatusAside(r.on.event, sys.st.events[e].status);
    PlansAreExpected(r.on.event);
  }
}
