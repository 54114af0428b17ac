/** What the agents say when their messages were lost: a restoring run repeats, kind by kind, the rows it finds
    listed. And what the last line of any run concludes. */
module WorkflowRestore {
  import opened Domain
  import opened StoreModel
  import opened Workflow
  import opened WorkflowRows
  import opened WorkflowRerun
  import opened WorkflowMessages

  /** The conclusion on an event, told from the event alone. */
  function ConclusionOn(event: Event): Content {
    Conclusion(event.name, event.eventID, if event.round == 0 then 1 else event.round)
  }

  function SayTasks(on: Incident, rows: seq<Task>): seq<Line> {
    if rows == [] then [] else [Say(on, "_captain", "task_created", Report("TASK", seq(|rows|, i requires 0 <= i < |rows| => rows[i].taskID)))]
  }

  function SayActions(on: Incident, rows: seq<Action>): seq<Line> {
    if rows == [] then [] else [Say(on, "_manager", "action_created", Report("ACTION", seq(|rows|, i requires 0 <= i < |rows| => rows[i].actionID)))]
  }

  function SayCommands(on: Incident, rows: seq<Command>): seq<Line> {
    if rows == [] then [] else [Say(on, "_operator", "command_created", Report("COMMAND", seq(|rows|, i requires 0 <= i < |rows| => rows[i].commandID)))]
  }

  function SayResults(on: Incident, rows: seq<Execution>): seq<Line> {
    if rows == [] then [] else [Say(on, "_executor", "command_result", Report("RESULT", seq(|rows|, i requires 0 <= i < |rows| => rows[i].executionID)))]
  }

  /** The last summary there is, or else one made anew when there are results to conclude from. */
  function SayEnd(on: Incident, summaries: seq<Summary>, executions: seq<Execution>): seq<Line> {
    if summaries != [] then [Say(on, "_expert", "event_summary", summaries[|summaries| - 1].content)]
    else if executions != [] then [Say(on, "_expert", "event_summary", ConclusionOn(on.event))]
    else []
  }

  /** What is still to be said at a stage. */
  function Owed(r: Run): seq<Line> {
    var end := SayEnd(r.on, r.seen.summaries, r.seen.executions);
    match r.stage
    case RestoreTasks =>
      SayTasks(r.on, r.seen.tasks) + SayActions(r.on, r.seen.actions) + SayCommands(r.on, r.seen.commands) + SayResults(r.on, r.seen.executions) + end
    case RestoreActions =>
      SayActions(r.on, r.seen.actions) + SayCommands(r.on, r.seen.commands) + SayResults(r.on, r.seen.executions) + end
    case RestoreCommands => SayCommands(r.on, r.seen.commands) + SayResults(r.on, r.seen.executions) + end
    case RestoreExecutions => SayResults(r.on, r.seen.executions) + end
    case RestoreSummary => end
    case RestoreNewSummary => if r.summary.Some? then [Say(r.on, "_expert", "event_summary", r.summary.value.content)] else []
    case _ => []
  }

  /** The line a step stores, if any. */
  ghost predicate Stores(st: Store, r: Run, lines: seq<Line>)
    requires Progress(r)
  {
    Lines(Apply(st, r.on.eventID, NextOp(r)).messages) == Lines(st.messages) + lines
  }

  lemma {:induction false} PostStores(st: Store, r: Run, role: string, kind: string, content: Content)
    requires Progress(r) && r.on.eventID in st.events && IsRole(role)
    requires NextOp(r) == Post(AgentMessage(r.on, role, kind, content))
    ensures Stores(st, r, [Say(r.on, role, kind, content)])
  {
    hide NextOp, Progress, Apply, AgentMessage, MessageRow, LineOf, Say, IsRole, Lines, HasTask;
    RoundIsSet(r);
    AboutItsEvent(r.on, role, kind, content);
    var m := AgentMessage(r.on, role, kind, content);
    ApplyKeeps(st, r.on.eventID, Post(m));
    StoredLine(st, r.on, role, kind, content);
    LinesGrow(st.messages, MessageRow(st, m));
  }

  lemma AboutItsEvent(on: Incident, role: string, kind: string, content: Content)
    ensures AgentMessage(on, role, kind, content).eventID == on.eventID
  {
    hide NormalizeMessageFrom, SenderType;
  }

  lemma SilenceStores(st: Store, r: Run)
    requires Progress(r) && !NextOp(r).Post?
    ensures Stores(st, r, [])
  {
    hide NextOp, Progress, Apply, Lines, MessageRow, HasTask;
    ApplyKeeps(st, r.on.eventID, NextOp(r));
    assert Lines(st.messages) + [] == Lines(st.messages);
  }

  /** The steps of restoring. */
  lemma RestoreMoves(st: Store, r: Run)
    requires Progress(r) && 22 <= Rank(r.stage) <= 25 && r.on.eventID in st.events
    ensures var (op, r') := (NextOp(r), Advance(st, r));
            && r' == r.(stage := r'.stage)
            && (r.stage == RestoreTasks ==>
                  r'.stage == RestoreActions && op == if r.seen.tasks != [] then Post(Captain(r.on, r.seen.tasks)) else Nothing)
            && (r.stage == RestoreActions ==>
                  r'.stage == RestoreCommands && op == if r.seen.actions != [] then Post(Manager(r.on, r.seen.actions)) else Nothing)
            && (r.stage == RestoreCommands ==>
                  r'.stage == RestoreExecutions && op == if r.seen.commands != [] then Post(Operator(r.on, r.seen.commands)) else Nothing)
            && (r.stage == RestoreExecutions ==>
                  r'.stage == RestoreSummary && op == if r.seen.executions != [] then Post(Executor(r.on, r.seen.executions)) else Nothing)
  {
    hide Captain, Manager, Operator, Executor, Expert, NewSummary, AfterRead, AfterFanOut, AfterWrapUp, PlanOp, FanOutOp, WrapUpOp;
  }

  lemma RestoreMovesOn(st: Store, r: Run)
    requires Progress(r) && 26 <= Rank(r.stage) <= 27 && r.on.eventID in st.events
    ensures var (op, r', s) := (NextOp(r), Advance(st, r), r.seen);
            && (r.stage == RestoreSummary && s.summaries != [] ==>
                  op == Post(Expert(r.on, s.summaries[|s.summaries| - 1])) && r' == r.(stage := Restored))
            && (r.stage == RestoreSummary && s.summaries == [] && s.executions != [] ==>
                  op == InsertSummary(NewSummary(r.on))
                  && r' == r.(stage := RestoreNewSummary, summary := Some(StoreModel.SummaryRow(st, NewSummary(r.on)))))
            && (r.stage == RestoreSummary && s.summaries == [] && s.executions == [] ==> op == Nothing && r' == r.(stage := Restored))
            && (r.stage == RestoreNewSummary ==> r.summary.Some? && op == Post(Expert(r.on, r.summary.value)) && r' == r.(stage := Restored))
  {
    hide Captain, Manager, Operator, Executor, Expert, NewSummary, AfterRead, AfterFanOut, AfterWrapUp, PlanOp, FanOutOp, WrapUpOp,
      StoreModel.SummaryRow;
  }

  lemma Voices(on: Incident, tasks: seq<Task>, actions: seq<Action>, commands: seq<Command>, executions: seq<Execution>, summary: Summary)
    ensures Captain(on, tasks) == AgentMessage(on, CAPTAIN, "task_created", Report("TASK", TaskIDs(tasks)))
    ensures Manager(on, actions) == AgentMessage(on, MANAGER, "action_created", Report("ACTION", ActionIDs(actions)))
    ensures Operator(on, commands) == AgentMessage(on, OPERATOR, "command_created", Report("COMMAND", CommandIDs(commands)))
    ensures Executor(on, executions) == AgentMessage(on, EXECUTOR, "command_result", Report("RESULT", ExecutionIDs(executions)))
    ensures Expert(on, summary) == AgentMessage(on, EXPERT, "event_summary", summary.content)
  {
    hide AgentMessage, TaskIDs, ActionIDs, CommandIDs, ExecutionIDs;
  }

  lemma TasksByID(rows: seq<Task>)
    ensures TaskIDs(rows) == seq(|rows|, i requires 0 <= i < |rows| => rows[i].taskID)
  {
  }

  lemma ActionsByID(rows: seq<Action>)
    ensures ActionIDs(rows) == seq(|rows|, i requires 0 <= i < |rows| => rows[i].actionID)
  {
  }

  lemma CommandsByID(rows: seq<Command>)
    ensures CommandIDs(rows) == seq(|rows|, i requires 0 <= i < |rows| => rows[i].commandID)
  {
  }

  lemma ExecutionsByID(rows: seq<Execution>)
    ensures ExecutionIDs(rows) == seq(|rows|, i requires 0 <= i < |rows| => rows[i].executionID)
  {
  }

  lemma OwedNext(r: Run, next: Run)
    requires next == r.(stage := next.stage)
    ensures r.stage == RestoreTasks && next.stage == RestoreActions ==> Owed(r) == SayTasks(r.on, r.seen.tasks) + Owed(next)
    ensures r.stage == RestoreActions && next.stage == RestoreCommands ==> Owed(r) == SayActions(r.on, r.seen.actions) + Owed(next)
    ensures r.stage == RestoreCommands && next.stage == RestoreExecutions ==> Owed(r) == SayCommands(r.on, r.seen.commands) + Owed(next)
    ensures r.stage == RestoreExecutions && next.stage == RestoreSummary ==> Owed(r) == SayResults(r.on, r.seen.executions) + Owed(next)
  {
    hide SayTasks, SayActions, SayCommands, SayResults, SayEnd;
    var (a, b, c, d) := (SayTasks(r.on, r.seen.tasks), SayActions(r.on, r.seen.actions), SayCommands(r.on, r.seen.commands),
                         SayResults(r.on, r.seen.executions));
    var end := SayEnd(r.on, r.seen.summaries, r.seen.executions);
    assert a + b + c + d + end == a + (b + c + d + end) && b + c + d + end == b + (c + d + end) && c + d + end == c + (d + end);
  }

  lemma {:induction false} RestoreTasksTells(st: Store, r: Run)
    requires Progress(r) && r.stage == RestoreTasks && r.on.eventID in st.events
    ensures Stores(st, r, SayTasks(r.on, r.seen.tasks)) && Owed(r) == SayTasks(r.on, r.seen.tasks) + Owed(Advance(st, r))
  {
    hide NextOp, Advance, Apply, AgentMessage, Progress, Captain, Manager, Operator, Executor, Expert, SayEnd, Stores, TaskIDs, Owed, Say, NewSummary;
    RestoreMoves(st, r);
    AgentsAreRoles();
    hide IsRole;
    OwedNext(r, Advance(st, r));
    if r.seen.tasks != [] {
      TasksByID(r.seen.tasks);
      Voices(r.on, r.seen.tasks, r.seen.actions, r.seen.commands, r.seen.executions, NewSummary(r.on));
      PostStores(st, r, CAPTAIN, "task_created", Report("TASK", TaskIDs(r.seen.tasks)));
    } else {
      SilenceStores(st, r);
    }
  }

  lemma {:induction false} RestoreActionsTells(st: Store, r: Run)
    requires Progress(r) && r.stage == RestoreActions && r.on.eventID in st.events
    ensures Stores(st, r, SayActions(r.on, r.seen.actions)) && Owed(r) == SayActions(r.on, r.seen.actions) + Owed(Advance(st, r))
  {
    hide NextOp, Advance, Apply, AgentMessage, Progress, Captain, Manager, Operator, Executor, Expert, SayEnd, Stores, ActionIDs, Owed, Say, NewSummary;
    RestoreMoves(st, r);
    AgentsAreRoles();
    hide IsRole;
    OwedNext(r, Advance(st, r));
    if r.seen.actions != [] {
      ActionsByID(r.seen.actions);
      Voices(r.on, r.seen.tasks, r.seen.actions, r.seen.commands, r.seen.executions, NewSummary(r.on));
      PostStores(st, r, MANAGER, "action_created", Report("ACTION", ActionIDs(r.seen.actions)));
    } else {
      SilenceStores(st, r);
    }
  }

  lemma {:induction false} RestoreCommandsTells(st: Store, r: Run)
    requires Progress(r) && r.stage == RestoreCommands && r.on.eventID in st.events
    ensures Stores(st, r, SayCommands(r.on, r.seen.commands)) && Owed(r) == SayCommands(r.on, r.seen.commands) + Owed(Advance(st, r))
  {
    hide NextOp, Advance, Apply, AgentMessage, Progress, Captain, Manager, Operator, Executor, Expert, SayEnd, Stores, CommandIDs, Owed, Say, NewSummary;
    RestoreMoves(st, r);
    AgentsAreRoles();
    hide IsRole;
    OwedNext(r, Advance(st, r));
    if r.seen.commands != [] {
      CommandsByID(r.seen.commands);
      Voices(r.on, r.seen.tasks, r.seen.actions, r.seen.commands, r.seen.executions, NewSummary(r.on));
      PostStores(st, r, OPERATOR, "command_created", Report("COMMAND", CommandIDs(r.seen.commands)));
    } else {
      SilenceStores(st, r);
    }
  }

  lemma {:induction false} RestoreExecutionsTells(st: Store, r: Run)
    requires Progress(r) && r.stage == RestoreExecutions && r.on.eventID in st.events
    ensures Stores(st, r, SayResults(r.on, r.seen.executions)) && Owed(r) == SayResults(r.on, r.seen.executions) + Owed(Advance(st, r))
  {
    hide NextOp, Advance, Apply, AgentMessage, Progress, Captain, Manager, Operator, Executor, Expert, SayEnd, Stores, ExecutionIDs, Owed, Say, NewSummary;
    RestoreMoves(st, r);
    AgentsAreRoles();
    hide IsRole;
    OwedNext(r, Advance(st, r));
    if r.seen.executions != [] {
      ExecutionsByID(r.seen.executions);
      Voices(r.on, r.seen.tasks, r.seen.actions, r.seen.commands, r.seen.executions, NewSummary(r.on));
      PostStores(st, r, EXECUTOR, "command_result", Report("RESULT", ExecutionIDs(r.seen.executions)));
    } else {
      SilenceStores(st, r);
    }
  }

  lemma {:induction false} EarlyRestore(st: Store, r: Run)
    requires Progress(r) && 22 <= Rank(r.stage) <= 25 && r.on.eventID in st.events
    ensures exists lines: seq<Line> :: Stores(st, r, lines) && Owed(r) == lines + Owed(Advance(st, r))
  {
    hide Advance, Stores, Owed, Progress, SayTasks, SayActions, SayCommands, SayResults;
    match r.stage
    case RestoreTasks => RestoreTasksTells(st, r);
    case RestoreActions => RestoreActionsTells(st, r);
    case RestoreCommands => RestoreCommandsTells(st, r);
    case RestoreExecutions => RestoreExecutionsTells(st, r);
  }

  /** What the last steps owe: the last summary, or a new one, which is stored before it is told of. */
  lemma OwedLast(st: Store, r: Run)
    ensures var (s, said) := (r.seen, content => [Say(r.on, EXPERT, "event_summary", content)]);
            && (r.stage == RestoreSummary && s.summaries != [] ==> Owed(r) == said(s.summaries[|s.summaries| - 1].content))
            && (r.stage == RestoreSummary && s.summaries == [] && s.executions != [] ==>
                  Owed(r) == Owed(r.(stage := RestoreNewSummary, summary := Some(StoreModel.SummaryRow(st, NewSummary(r.on))))))
            && (r.stage == RestoreSummary && s.summaries == [] && s.executions == [] ==> Owed(r) == [])
            && (r.stage == RestoreNewSummary && r.summary.Some? ==> Owed(r) == said(r.summary.value.content))
            && Owed(r.(stage := Restored)) == []
  {
    hide Say;
  }

  lemma {:induction false} LateRestore(st: Store, r: Run)
    requires Progress(r) && 26 <= Rank(r.stage) <= 27 && r.on.eventID in st.events
    ensures exists lines: seq<Line> :: Stores(st, r, lines) && Owed(r) == lines + Owed(Advance(st, r))
  {
    hide NextOp, Advance, Apply, AgentMessage, Progress, Say, Stores, Captain, Manager, Operator, Executor, Expert, Owed, NewSummary,
      StoreModel.SummaryRow;
    RestoreMovesOn(st, r);
    OwedLast(st, r);
    AgentsAreRoles();
    hide IsRole;
    var s := r.seen;
    if NextOp(r).Post? {
      var content := if r.stage == RestoreNewSummary then r.summary.value.content else s.summaries[|s.summaries| - 1].content;
      Voices(r.on, s.tasks, s.actions, s.commands, s.executions,
             if r.stage == RestoreNewSummary then r.summary.value else s.summaries[|s.summaries| - 1]);
      PostStores(st, r, EXPERT, "event_summary", content);
      assert Owed(r) == [Say(r.on, EXPERT, "event_summary", content)] + Owed(Advance(st, r));
    } else {
      SilenceStores(st, r);
      assert Owed(r) == [] + Owed(Advance(st, r));
    }
  }

  lemma RestoreStays(st: Store, r: Run)
    requires Progress(r) && 22 <= Rank(r.stage) <= 27 && r.on.eventID in st.events
    ensures 22 <= Rank(Advance(st, r).stage) <= 28 && r.on.eventID in Apply(st, r.on.eventID, NextOp(r)).events
  {
    hide NextOp, Advance, Progress, MessageRow, HasTask, Apply;
    RestoreStages(st, r);
    ApplyKeeps(st, r.on.eventID, NextOp(r));
  }

  lemma {:induction false} OneStepOwes(st: Store, r: Run)
    requires Progress(r) && 22 <= Rank(r.stage) <= 27 && r.on.eventID in st.events
    ensures Lines(Apply(st, r.on.eventID, NextOp(r)).messages) + Owed(Advance(st, r)) == Lines(st.messages) + Owed(r)
  {
    hide NextOp, Advance, Apply, Progress, Lines, Owed, Rank;
    if Rank(r.stage) <= 25 { EarlyRestore(st, r); } else { LateRestore(st, r); }
    var lines: seq<Line> :| Stores(st, r, lines) && Owed(r) == lines + Owed(Advance(st, r));
    assert Lines(st.messages) + lines + Owed(Advance(st, r)) == Lines(st.messages) + (lines + Owed(Advance(st, r)));
  }

  /** Restoring says, from any of its stages to its end, exactly what it still owes. */
  lemma {:induction false} RestoreSaysAll(st: Store, r: Run)
    requires Progress(r) && 22 <= Rank(r.stage) <= 28 && r.on.eventID in st.events
    ensures Lines(RunToEnd(st, r).0.messages) == Lines(st.messages) + Owed(r)
    decreases 30 - Rank(r.stage), Left(r)
  {
    hide NextOp, Advance, Apply, Progress, Lines, Owed, Left;
    if Terminal(r.stage) {
      NothingOwed(r);
      assert Lines(st.messages) + [] == Lines(st.messages);
    } else {
      AdvanceMakesProgress(st, r);
      RestoreStays(st, r);
      OneStepOwes(st, r);
      RestoreSaysAll(Apply(st, r.on.eventID, NextOp(r)), Advance(st, r));
    }
  }

  lemma NothingOwed(r: Run)
    requires Terminal(r.stage)
    ensures Owed(r) == []
  {
  }

  /** An event with rows whose agent messages are gone: one undisturbed run tells of each kind of rows listed,
      in order, and of the last summary or a new one. */
  lemma {:induction false} RestoreSpeaks(st: Store, e: ID)
    requires e in st.events && HasRows(st, e) && !HasAgentMessages(ListMessages(st, e))
    ensures var (st', on) := (RunToEnd(st, Start(e)).0, Incident(e, st.events[e], if st.events[e].round == 0 then 1 else st.events[e].round));
            Lines(st'.messages) == Lines(st.messages)
              + (SayTasks(on, ListTasks(st, e)) + SayActions(on, ListActions(st, e)) + SayCommands(on, ListCommands(st, e))
                 + SayResults(on, ListExecutions(st, e)) + SayEnd(on, ListSummaries(st, e), ListExecutions(st, e)))
  {
    hide RunToEnd, HasAgentMessages, ListMessages, ListTasks, ListActions, ListCommands, ListExecutions, ListSummaries, Lines, SayTasks,
      SayActions, SayCommands, SayResults, SayEnd;
    EntryRun(st, e);
    OneRead(st, Found(st, e));
    RestoreSaysAll(st, AfterRead(st, Found(st, e)));
  }

  // ------------------------------------------------------------------ conclusions

  ghost predicate Concludes(r: Run) { r.summary.Some? ==> r.summary.value.content == ConclusionOn(r.on.event) }

  lemma StepConcludes(st: Store, r: Run)
    requires Progress(r) && FirstPass(r.stage) && r.on.eventID in st.events && Concludes(r)
    ensures Concludes(Advance(st, r)) && Advance(st, r).on == r.on
  {
    hide NextOp, Advance, Progress;
    AdvanceKeeps(st, r);
    StageRanks(r);
    if r.stage == CreateSummary { SummarySteps(st, r); }
  }

  lemma {:induction false} EndConcludes(st: Store, r: Run)
    requires Progress(r) && FirstPassOk(st, r) && Concludes(r)
    ensures Concludes(RunToEnd(st, r).1) && RunToEnd(st, r).1.on == r.on
    decreases 30 - Rank(r.stage), Left(r)
  {
    hide Apply, NextOp, Advance, FirstPassOk, Progress, Concludes;
    if !Terminal(r.stage) {
      AdvanceMakesProgress(st, r);
      FirstPassStep(st, r);
      FirstPassKnown(st, r);
      StepConcludes(st, r);
      EndConcludes(Apply(st, r.on.eventID, NextOp(r)), Advance(st, r));
    }
  }

  /** A first pass over an event concludes on the event as it was stored when the run began, and every one of
      its five lines is about that event and of its round. */
  lemma {:induction false} FirstPassConcludes(st: Store, e: ID)
    requires e in st.events && !HasRows(st, e)
    ensures var (st', r') := RunToEnd(st, Start(e));
            var (n, round) := (|st.messages|, if st.events[e].round == 0 then 1 else st.events[e].round);
            && |st'.messages| == n + 5 && Lines(st'.messages)[..n] == Lines(st.messages)
            && (forall i :: n <= i < n + 5 ==> st'.messages[i].eventID == e && st'.messages[i].round == round)
            && st'.messages[n + 4].from == "_expert" && st'.messages[n + 4].content == ConclusionOn(st.events[e])
  {
    hide RunToEnd, ListTasks, ListExecutions, ListActions, ListCommands, ListSummaries, HasTask, Announced, Lines, Script;
    FirstPassSpeaks(st, e);
    EntryRun(st, e);
    EndConcludes(st, Found(st, e));
    var (st', r') := RunToEnd(st, Start(e));
    ScriptSays(r');
    LinesSay(st.messages, st'.messages, Script(r'));
  }

  lemma ScriptSays(r: Run)
    requires r.summary.Some?
    ensures forall i :: 0 <= i < 5 ==> Script(r)[i].eventID == r.on.eventID && Script(r)[i].round == r.on.round
    ensures Script(r)[4].from == "_expert" && Script(r)[4].content == r.summary.value.content
  {
    hide TaskIDs, ActionIDs, CommandIDs, ExecutionIDs;
  }

  lemma {:induction false} LinesSay(rows: seq<Message>, rows': seq<Message>, lines: seq<Line>)
    requires Lines(rows') == Lines(rows) + lines
    ensures |rows'| == |rows| + |lines| && Lines(rows')[..|rows|] == Lines(rows)
    ensures forall i :: |rows| <= i < |rows'| ==> LineOf(rows'[i]) == lines[i - |rows|]
  {
    assert |Lines(rows')| == |rows'|;
    forall i | |rows| <= i < |rows'| ensures LineOf(rows'[i]) == lines[i - |rows|] {
      assert Lines(rows')[i] == lines[i - |rows|];
    }
  }
}
