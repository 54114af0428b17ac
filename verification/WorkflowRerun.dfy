/** Running the workflow again. From every store, including any a crashed run left behind, running
    twice equals running once; and over an event that has rows, a run adds only messages and at most
    one summary. */
module WorkflowRerun {
  import opened Strings
  import opened Domain
  import opened Planning
  import opened StoreModel
  import opened Workflow
  import opened WorkflowRows

  // ------------------------------------------------------------- agent messages

  /** A stored agent message of event e that the listing shows. */
  ghost predicate Announced(st: Store, e: ID) {
    exists i :: 0 <= i < |st.messages| && AgentLine(st.messages[i], e)
  }

  predicate AgentLine(m: Message, e: ID) {
    m.eventID == e && !IsInternalMessage(m) && IsAgent(NormalizeMessageFrom(m.from))
  }

  lemma {:induction false} AnnouncedIsSeen(st: Store, e: ID)
    requires Announced(st, e)
    ensures HasAgentMessages(ListMessages(st, e))
  {
    var i :| 0 <= i < |st.messages| && AgentLine(st.messages[i], e);
    var m := st.messages[i];
    hide IsInternalMessage, NormalizeMessageFrom, IsAgent, Select, Visible;
    SelectComplete(st.messages, MessageEvent, e, i);
    var rows := Select(st.messages, MessageEvent, e);
    var k :| 0 <= k < |rows| && rows[k] == m;
    VisibleComplete(rows, k);
    var l :| 0 <= l < |Visible(rows)| && Visible(rows)[l] == m;
    assert ListMessages(st, e)[l] == m;
  }

  /** The kinds the agents write are not hidden by the message filter. */
  lemma KindsAreVisible(kind: string)
    requires kind in ["task_created", "action_created", "command_created", "command_result", "event_summary"]
    ensures IsPlainName(kind) && |kind| >= 12 && kind[|kind| - 2] != 's'
  {
  }

  lemma SuffixCharDiffers(s: string, suffix: string, k: int)
    requires 0 <= k < |suffix| <= |s| && s[|s| - |suffix| + k] != suffix[k]
    ensures !HasSuffix(s, suffix)
  {
    assert s[|s| - |suffix| + k] == s[|s| - |suffix|..][k];
  }

  lemma VisibleKind(m: Message)
    requires IsPlainName(m.kind) && |m.kind| >= 12 && m.kind[|m.kind| - 2] != 's'
    ensures !IsInternalMessage(m)
  {
    hide Trimmed, IsSpace;
    PlainNameIsLower(m.kind);
    SuffixCharDiffers(m.kind, "_llm_request", 10);
  }

  lemma RowIsAgentLine(st: Store, on: Incident, role: string, kind: string, content: Content)
    requires IsAgent(role) && kind in ["task_created", "action_created", "command_created", "command_result", "event_summary"]
    ensures AgentLine(MessageRow(st, AgentMessage(on, role, kind, content)), on.eventID)
  {
    hide IsAgent, IsInternalMessage, RoleNamed, SenderType;
    KindsAreVisible(kind);
    assert IsRole(role);
    RolesAreNormal(role);
    hide NormalizeMessageFrom;
    VisibleKind(MessageRow(st, AgentMessage(on, role, kind, content)));
  }

  // ---------------------------------------------------------------- what a run does

  ghost predicate HasTask(st: Store, e: ID) {
    exists j :: 0 <= j < |st.tasks| && st.tasks[j].eventID == e
  }

  lemma {:induction false} HasTaskIsListed(st: Store, e: ID)
    requires HasTask(st, e)
    ensures ListTasks(st, e) != []
  {
    var j :| 0 <= j < |st.tasks| && st.tasks[j].eventID == e;
    SelectComplete(st.tasks, TaskEvent, e, j);
  }

  /** The operations that touch neither events nor messages nor tasks. */
  lemma PlainApply(st: Store, e: ID, op: Op)
    requires !op.Post? && !op.SetStatus? && !op.InsertTask? && !op.PatchTaskRow?
    ensures var st' := Apply(st, e, op); st'.events == st.events && st'.messages == st.messages && st'.tasks == st.tasks
  {
    hide ActionRow, CommandRow, ExecutionRow, StoreModel.SummaryRow, PatchAction, PatchCommand, Find, Drew;
  }

  lemma TouchingApply(st: Store, e: ID, op: Op)
    requires op.Post? || op.SetStatus? || op.InsertTask? || op.PatchTaskRow?
    ensures var st' := Apply(st, e, op);
            && st'.events.Keys == st.events.Keys
            && st'.messages == (if op.Post? && op.message.eventID in st.events then st.messages + [MessageRow(st, op.message)] else st.messages)
            && |st.tasks| <= |st'.tasks|
            && (forall j :: 0 <= j < |st.tasks| ==> st'.tasks[j].eventID == st.tasks[j].eventID)
            && (op.InsertTask? && op.task.eventID in st.events ==> st'.tasks == st.tasks + [TaskRow(st, op.task)])
  {
    hide MessageRow, NormalizeMessage, Drew;
  }

  lemma {:induction false} TasksOfEventStay(st: Store, st': Store, e: ID)
    requires HasTask(st, e) && |st.tasks| <= |st'.tasks|
    requires forall j :: 0 <= j < |st.tasks| ==> st'.tasks[j].eventID == st.tasks[j].eventID
    ensures HasTask(st', e)
  {
    var j :| 0 <= j < |st.tasks| && st.tasks[j].eventID == e;
    assert st'.tasks[j].eventID == e;
  }

  /** No operation of the workflow removes an event, a message or a task. */
  lemma {:induction false} ApplyKeeps(st: Store, e: ID, op: Op)
    ensures var st' := Apply(st, e, op);
            && st'.events.Keys == st.events.Keys && st.messages <= st'.messages
            && (HasTask(st, e) ==> HasTask(st', e))
            && (op.InsertTask? && op.task.eventID == e && e in st.events ==> HasTask(st', e))
            && (op.Post? && op.message.eventID in st.events ==> st'.messages == st.messages + [MessageRow(st, op.message)])
            && (!op.Post? ==> st'.messages == st.messages)
  {
    hide Apply, MessageRow;
    var st' := Apply(st, e, op);
    if op.Post? || op.SetStatus? || op.InsertTask? || op.PatchTaskRow? {
      TouchingApply(st, e, op);
    } else {
      PlainApply(st, e, op);
    }
    if HasTask(st, e) { TasksOfEventStay(st, st', e); }
    if op.InsertTask? && op.task.eventID == e && e in st.events {
      assert st'.tasks[|st.tasks|].eventID == e;
    }
  }

  lemma {:induction false} AnnouncedStays(st: Store, st': Store, e: ID)
    requires Announced(st, e) && st.messages <= st'.messages
    ensures Announced(st', e)
  {
    hide AgentLine;
    var i :| 0 <= i < |st.messages| && AgentLine(st.messages[i], e);
    assert AgentLine(st'.messages[i], e);
  }

  /** The steps that write agent messages a later run will look for. */
  lemma TellSteps(st: Store, r: Run)
    requires Progress(r)
    ensures r.stage == TellTasks ==> NextOp(r) == Post(Captain(r.on, r.tasks))
    ensures r.stage == RestoreTasks && r.seen.tasks != [] ==> NextOp(r) == Post(Captain(r.on, r.seen.tasks))
    ensures r.stage == RestoreExecutions && r.seen.executions != [] ==> NextOp(r) == Post(Executor(r.on, r.seen.executions))
  {
    hide NewTask, NewAction, NewCommand, NewExecution, NewSummary, Captain, Manager, Operator, Executor, Expert;
  }

  lemma {:induction false} TellingAnnounces(st: Store, r: Run)
    requires Progress(r) && r.on.eventID in st.events
    requires r.stage == TellTasks || (r.stage == RestoreTasks && r.seen.tasks != []) || (r.stage == RestoreExecutions && r.seen.executions != [])
    ensures Announced(Apply(st, r.on.eventID, NextOp(r)), r.on.eventID)
  {
    hide AgentLine, IsAgent, MessageRow, NormalizeMessageFrom, SenderType;
    TellSteps(st, r);
    var op, e := NextOp(r), r.on.eventID;
    hide NextOp;
    assert op.Post? && op.message.eventID == e;
    ApplyKeeps(st, e, op);
    assert AgentLine(MessageRow(st, op.message), e) by {
      assert IsAgent(CAPTAIN) && IsAgent(EXECUTOR) by { RolesAreAgents(); }
      if r.stage == RestoreExecutions {
        RowIsAgentLine(st, r.on, EXECUTOR, "command_result", Report("RESULT", ExecutionIDs(r.seen.executions)));
      } else {
        RowIsAgentLine(st, r.on, CAPTAIN, "task_created", Report("TASK", TaskIDs(if r.stage == TellTasks then r.tasks else r.seen.tasks)));
      }
    }
    var st' := Apply(st, e, op);
    hide Apply;
    assert st'.messages[|st.messages|] == MessageRow(st, op.message);
  }

  lemma RolesAreAgents()
    ensures IsAgent(CAPTAIN) && IsAgent(EXECUTOR)
  {
  }

  /** What a first pass has left for a later run to find. */
  ghost predicate FirstPassOk(st: Store, r: Run) {
    && FirstPass(r.stage) && r.on.eventID in st.events
    && (Rank(r.stage) >= 8 ==> r.plans != [])
    && (r.tasks != [] ==> HasTask(st, r.on.eventID))
    && (Rank(r.stage) >= 10 ==> r.tasks != [] && Announced(st, r.on.eventID))
  }

  lemma FanOutStays(st: Store, r: Run)
    requires Progress(r) && 7 <= Rank(r.stage) <= 14
    ensures var r' := AfterFanOut(st, r);
            && FirstPass(r'.stage) && (Rank(r.stage) >= 8 ==> Rank(r'.stage) >= 8) && (Rank(r.stage) == 8 ==> Rank(r'.stage) <= 9)
  {
    hide BuildTaskPlans, TaskRow, NewTask, ActionRow, NewAction, CommandRow, NewCommand, ExecutionRow, NewExecution, Progress;
  }

  lemma WrapUpStays(st: Store, r: Run)
    requires Progress(r) && 15 <= Rank(r.stage) <= 21
    ensures 15 <= Rank(AfterWrapUp(st, r).stage) <= 21
  {
    hide SummaryRow, NewSummary, Progress;
  }

  lemma FirstPassStays(st: Store, r: Run)
    requires Progress(r) && FirstPass(r.stage) && r.on.eventID in st.events
    ensures var r' := Advance(st, r);
            && FirstPass(r'.stage)
            && (Rank(r.stage) >= 8 ==> Rank(r'.stage) >= 8)
            && (Rank(r.stage) == 8 ==> Rank(r'.stage) <= 9)
  {
    hide NextOp, Inserts, AfterRead, AfterFanOut, AfterWrapUp, AfterRestore, Progress;
    if Rank(r.stage) <= 14 { FanOutStays(st, r); } else { WrapUpStays(st, r); }
  }

  lemma FirstPassStages(st: Store, r: Run)
    requires Progress(r) && FirstPass(r.stage) && r.on.eventID in st.events
    ensures var r' := Advance(st, r);
            && FirstPass(r'.stage) && r'.on == r.on
            && (Rank(r.stage) == 7 ==> r'.plans == BuildTaskPlans(r.on.event) && Rank(r'.stage) == 8 && r'.tasks == [])
            && (Rank(r.stage) >= 8 ==> r'.plans == r.plans && Rank(r'.stage) >= 8)
            && (Rank(r.stage) == 8 ==> Rank(r'.stage) <= 9)
            && (r.stage != CreateTask ==> r'.tasks == r.tasks)
            && (r.stage == CreateTask && |r.tasks| < |r.plans| ==> NextOp(r).InsertTask? && NextOp(r).task.eventID == r.on.eventID)
            && (r.stage == CreateTask && |r.tasks| == |r.plans| ==> r'.tasks == r.tasks)
  {
    hide NextOp, Advance, BuildTaskPlans, SeverityPriority;
    FirstPassStays(st, r);
    AdvanceKeeps(st, r);
    TaskSteps(st, r);
    MarkSteps(st, r);
  }

  lemma {:induction false} FirstPassStep(st: Store, r: Run)
    requires Progress(r) && FirstPassOk(st, r)
    ensures FirstPassOk(Apply(st, r.on.eventID, NextOp(r)), Advance(st, r))
  {
    var e, op, r' := r.on.eventID, NextOp(r), Advance(st, r);
    var st' := Apply(st, e, op);
    assert 9 <= Rank(r.stage) ==> r.tasks != [];
    hide Apply, NextOp, Advance, HasTask, Announced, BuildTaskPlans, Progress;
    FirstPassStages(st, r);
    ApplyKeeps(st, e, op);
    if Announced(st, e) { AnnouncedStays(st, st', e); }
    if r.stage == TellTasks { TellingAnnounces(st, r); }
    if r.stage == MarkProcessing { PlanShape(r.on.event); }
  }

  lemma {:induction false} FirstPassEnds(st: Store, r: Run)
    requires Progress(r) && FirstPassOk(st, r)
    ensures var (st', r') := RunToEnd(st, r);
            r'.stage == Finished && HasTask(st', r.on.eventID) && Announced(st', r.on.eventID) && st'.events.Keys == st.events.Keys
    decreases 30 - Rank(r.stage), Left(r)
  {
    hide Apply, NextOp, Advance, HasTask, Announced;
    if !Terminal(r.stage) {
      AdvanceMakesProgress(st, r);
      FirstPassStep(st, r);
      ApplyKeeps(st, r.on.eventID, NextOp(r));
      FirstPassEnds(Apply(st, r.on.eventID, NextOp(r)), Advance(st, r));
    }
  }

  // ---------------------------------------------------------------- restoring messages

  /** Everything but the messages and the summaries is as before. */
  ghost predicate OnlyMessages(st: Store, st': Store) {
    && st'.events == st.events && st'.tasks == st.tasks && st'.actions == st.actions && st'.commands == st.commands
    && st'.executions == st.executions && st'.eventMaps == st.eventMaps && st'.cursors == st.cursors && st'.pushed == st.pushed
    && st.messages <= st'.messages && st.summaries <= st'.summaries
  }

  ghost predicate RestoreOk(st: Store, r: Run) {
    && 22 <= Rank(r.stage) <= 28 && r.stage != Skipped && r.on.eventID in st.events
    && (r.seen.tasks != [] || r.seen.executions != [])
    && (Rank(r.stage) >= 23 && r.seen.tasks != [] ==> Announced(st, r.on.eventID))
    && (Rank(r.stage) >= 26 && r.seen.executions != [] ==> Announced(st, r.on.eventID))
  }

  lemma RestoreStages(st: Store, r: Run)
    requires Progress(r) && 22 <= Rank(r.stage) <= 27 && r.on.eventID in st.events
    ensures var r' := Advance(st, r);
            && r'.seen == r.seen && r'.on == r.on && Rank(r.stage) < Rank(r'.stage) <= 28 && r'.stage != Skipped
            && (r.stage == RestoreTasks ==> r'.stage == RestoreActions)
            && (r.stage == RestoreExecutions ==> r'.stage == RestoreSummary)
            && (Rank(r.stage) < 25 ==> Rank(r'.stage) <= 25)
    ensures NextOp(r).Nothing? || NextOp(r).Post? || NextOp(r).InsertSummary?
  {
    hide SummaryRow, NewSummary, Captain, Manager, Operator, Executor, Expert, AfterRead, AfterFanOut, AfterWrapUp, PlanOp,
      FanOutOp, WrapUpOp;
  }

  lemma OnlyMessagesApply(st: Store, e: ID, op: Op)
    requires op.Nothing? || op.Post? || op.InsertSummary?
    ensures OnlyMessages(st, Apply(st, e, op))
  {
    hide MessageRow, StoreModel.SummaryRow;
  }

  lemma {:induction false} RestoreStepOk(st: Store, r: Run)
    requires Progress(r) && RestoreOk(st, r) && !Terminal(r.stage)
    ensures RestoreOk(Apply(st, r.on.eventID, NextOp(r)), Advance(st, r))
    ensures OnlyMessages(st, Apply(st, r.on.eventID, NextOp(r)))
  {
    hide Apply, NextOp, Advance, Announced, Progress;
    var e, op := r.on.eventID, NextOp(r);
    RestoreStages(st, r);
    OnlyMessagesApply(st, e, op);
    if Announced(st, e) { AnnouncedStays(st, Apply(st, e, op), e); }
    if (r.stage == RestoreTasks && r.seen.tasks != []) || (r.stage == RestoreExecutions && r.seen.executions != []) {
      TellingAnnounces(st, r);
    }
  }

  lemma {:induction false} RestoreEnds(st: Store, r: Run)
    requires Progress(r) && RestoreOk(st, r)
    ensures var (st', r') := RunToEnd(st, r);
            r'.stage == Restored && OnlyMessages(st, st') && Announced(st', r.on.eventID)
    decreases 30 - Rank(r.stage), Left(r)
  {
    hide Apply, NextOp, Advance, Announced, Progress;
    if !Terminal(r.stage) {
      AdvanceMakesProgress(st, r);
      RestoreStepOk(st, r);
      RestoreStages(st, r);
      RestoreEnds(Apply(st, r.on.eventID, NextOp(r)), Advance(st, r));
    }
  }

  // ------------------------------------------------------------------- the entry

  /** The reads at the start decide between nothing, restoring and a first pass. */
  lemma {:induction false} OneRead(st: Store, r: Run)
    requires Progress(r) && Rank(r.stage) <= 6
    ensures RunToEnd(st, r) == RunToEnd(st, AfterRead(st, r)) && NextOp(r) == Nothing
  {
    hide HasAgentMessages, ListMessages, ListTasks, ListActions, ListCommands, ListExecutions, ListSummaries, FanOutOp, WrapUpOp,
      RestoreOp, AfterFanOut, AfterWrapUp, AfterRestore;
    ReadsSooner(st, r);
  }

  function Found(st: Store, e: ID): Run
    requires e in st.events
  {
    var on := Incident(e, st.events[e], DefaultRound(st.events[e].round));
    var again := |ListTasks(st, e)| > 0 || |ListExecutions(st, e)| > 0;
    Run(on, if again then ReadMessages else MarkProcessing,
        Seen(ListTasks(st, e), ListActions(st, e), ListCommands(st, e), ListExecutions(st, e), ListSummaries(st, e)),
        [], [], [], [], [], None, 0)
  }

  lemma {:induction false} EntryRun(st: Store, e: ID)
    requires e in st.events
    ensures Progress(Found(st, e)) && RunToEnd(st, Start(e)) == RunToEnd(st, Found(st, e))
  {
    hide RunToEnd, HasAgentMessages, ListMessages, ListTasks, ListActions, ListCommands, ListExecutions, ListSummaries, NextOp;
    var r0 := Start(e);
    var r1 := AfterRead(st, r0);
    var r2 := AfterRead(st, r1);
    var r3 := AfterRead(st, r2);
    var r4 := AfterRead(st, r3);
    var r5 := AfterRead(st, r4);
    OneRead(st, r0);
    OneRead(st, r1);
    OneRead(st, r2);
    OneRead(st, r3);
    OneRead(st, r4);
    OneRead(st, r5);
    assert AfterRead(st, r5) == Found(st, e);
  }

  ghost predicate HasRows(st: Store, e: ID) { ListTasks(st, e) != [] || ListExecutions(st, e) != [] }

  lemma {:induction false} MissingEvent(st: Store, e: ID)
    requires e !in st.events
    ensures RunToEnd(st, Start(e)).0 == st && RunToEnd(st, Start(e)).1.stage == Failed
  {
    hide NextOp;
    OneRead(st, Start(e));
    assert AfterRead(st, Start(e)).stage == Failed;
  }

  lemma {:induction false} NothingToDo(st: Store, e: ID)
    requires e in st.events && HasRows(st, e) && HasAgentMessages(ListMessages(st, e))
    ensures RunToEnd(st, Start(e)).0 == st && RunToEnd(st, Start(e)).1.stage == Skipped
  {
    hide NextOp, HasAgentMessages, ListMessages, ListTasks, ListActions, ListCommands, ListExecutions, ListSummaries, Advance;
    EntryRun(st, e);
    OneRead(st, Found(st, e));
    assert AfterRead(st, Found(st, e)).stage == Skipped;
  }

  lemma {:induction false} MessagesLost(st: Store, e: ID)
    requires e in st.events && HasRows(st, e) && !HasAgentMessages(ListMessages(st, e))
    ensures var (st', r') := RunToEnd(st, Start(e)); r'.stage == Restored && OnlyMessages(st, st') && Announced(st', e)
  {
    hide NextOp, RunToEnd, HasAgentMessages, ListMessages, ListTasks, ListActions, ListCommands, ListExecutions, ListSummaries,
      Advance, Announced, OnlyMessages;
    EntryRun(st, e);
    OneRead(st, Found(st, e));
    RestoreEnds(st, AfterRead(st, Found(st, e)));
  }

  lemma {:induction false} FreshEvent(st: Store, e: ID)
    requires e in st.events && !HasRows(st, e)
    ensures var (st', r') := RunToEnd(st, Start(e));
            r'.stage == Finished && HasTask(st', e) && Announced(st', e) && st'.events.Keys == st.events.Keys
  {
    hide NextOp, RunToEnd, HasAgentMessages, ListMessages, ListTasks, ListActions, ListCommands, ListExecutions, ListSummaries,
      Advance, Announced, HasTask;
    EntryRun(st, e);
    FirstPassEnds(st, Found(st, e));
  }

  /** Which of its four ends a run comes to is decided by what the store holds when it starts: it writes
      a round to its end exactly when the event exists without tasks and executions. In particular a
      run over what a crashed run left behind never finishes the round; it only brings back messages. */
  lemma {:induction false} OutcomeOfRun(st: Store, e: ID)
    ensures var (st', r') := RunToEnd(st, Start(e));
            && (r'.stage == Failed <==> e !in st.events)
            && (r'.stage == Finished <==> e in st.events && !HasRows(st, e))
            && (r'.stage == Skipped <==> e in st.events && HasRows(st, e) && HasAgentMessages(ListMessages(st, e)))
            && (r'.stage != Finished ==> OnlyMessages(st, st'))
            && ((r'.stage == Failed || r'.stage == Skipped) ==> st' == st)
  {
    hide RunToEnd, HasRows, HasAgentMessages, ListMessages, HasTask, Announced;
    if e !in st.events { MissingEvent(st, e); }
    else if !HasRows(st, e) { FreshEvent(st, e); }
    else if HasAgentMessages(ListMessages(st, e)) { NothingToDo(st, e); }
    else { MessagesLost(st, e); }
  }

  /** From every store whatsoever, running the workflow twice equals running it once. */
  lemma {:induction false} RunningTwiceIsRunningOnce(st: Store, e: ID)
    ensures RunWorkflow(RunWorkflow(st, e), e) == RunWorkflow(st, e)
  {
    hide RunToEnd, HasAgentMessages, ListMessages, HasTask, Announced, ListTasks, ListExecutions;
    if e !in st.events {
      MissingEvent(st, e);
    } else if HasRows(st, e) && HasAgentMessages(ListMessages(st, e)) {
      NothingToDo(st, e);
    } else {
      var st' := RunWorkflow(st, e);
      if HasRows(st, e) {
        MessagesLost(st, e);
        SameRows(st, st', e);
      } else {
        FreshEvent(st, e);
        HasTaskIsListed(st', e);
      }
      AnnouncedIsSeen(st', e);
      NothingToDo(st', e);
    }
  }

  lemma SameRows(st: Store, st': Store, e: ID)
    requires OnlyMessages(st, st')
    ensures HasRows(st, e) == HasRows(st', e)
  {
  }
}
