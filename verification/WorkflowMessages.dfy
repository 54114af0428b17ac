/** What the agents say: an undisturbed first pass appends five messages, one after each stage, in the
    order captain, manager, operator, executor, expert, each listing the rows of its stage. */
module WorkflowMessages {
  import opened Domain
  import opened Planning
  import opened StoreModel
  import opened Workflow
  import opened WorkflowRows
  import opened WorkflowRerun

  /** A message without its row number and identifier. */
  datatype Line = Line(eventID: ID, from: string, kind: string, content: Content, round: int)

  function LineOf(m: Message): Line { Line(m.eventID, m.from, m.kind, m.content, m.round) }

  function Lines(rows: seq<Message>): seq<Line> { seq(|rows|, i requires 0 <= i < |rows| => LineOf(rows[i])) }

  function Say(on: Incident, from: string, kind: string, content: Content): Line {
    Line(on.eventID, from, kind, content, on.round)
  }

  /** The five lines of a first pass. */
  function Script(r: Run): (lines: seq<Line>)
    ensures |lines| == 5
  {
    [Say(r.on, CAPTAIN, "task_created", Report("TASK", TaskIDs(r.tasks))),
     Say(r.on, MANAGER, "action_created", Report("ACTION", ActionIDs(r.actions))),
     Say(r.on, OPERATOR, "command_created", Report("COMMAND", CommandIDs(r.commands))),
     Say(r.on, EXECUTOR, "command_result", Report("RESULT", ExecutionIDs(r.executions))),
     Say(r.on, EXPERT, "event_summary", if r.summary.Some? then r.summary.value.content else NoContent)]
  }

  /** How many of them have been said at a stage. */
  function Said(s: Stage): (n: nat)
    ensures n <= 5
  {
    var at := Rank(s);
    if at < 10 then 0 else if at < 12 then 1 else if at < 14 then 2 else if at < 18 then 3 else if at < 20 then 4 else 5
  }

  function Spoken(r: Run): seq<Line> { Script(r)[..Said(r.stage)] }

  predicate Tells(s: Stage) { s == TellTasks || s == TellActions || s == TellCommands || s == TellResults || s == TellSummary }

  lemma SilentFanOut(st: Store, r: Run)
    requires Progress(r) && 7 <= Rank(r.stage) <= 14 && !Tells(r.stage)
    ensures var (at, at') := (Rank(r.stage), Rank(AfterFanOut(st, r).stage));
            && (at >= 10 <==> at' >= 10) && (at >= 12 <==> at' >= 12) && (at >= 14 <==> at' >= 14) && at' < 18
            && (at < 15 ==> at' <= 15)
  {
    hide BuildTaskPlans, TaskRow, NewTask, ActionRow, NewAction, CommandRow, NewCommand, ExecutionRow, NewExecution, Progress;
  }

  lemma SilentWrapUp(st: Store, r: Run)
    requires Progress(r) && 15 <= Rank(r.stage) <= 21 && !Tells(r.stage)
    ensures var (at, at') := (Rank(r.stage), Rank(AfterWrapUp(st, r).stage));
            at' >= 15 && (at >= 18 <==> at' >= 18) && (at >= 20 <==> at' >= 20)
  {
    hide SummaryRow, NewSummary, Progress;
  }

  lemma SilentOp(r: Run)
    requires Progress(r) && FirstPass(r.stage) && !Tells(r.stage)
    ensures !NextOp(r).Post?
  {
    hide NewTask, NewAction, NewCommand, NewExecution, NewSummary, Captain, Manager, Operator, Executor, Expert;
  }

  lemma SilentRanks(st: Store, r: Run)
    requires Progress(r) && FirstPass(r.stage) && r.on.eventID in st.events && !Tells(r.stage)
    ensures Said(Advance(st, r).stage) == Said(r.stage)
  {
    hide NextOp, Inserts, AfterRead, AfterFanOut, AfterWrapUp, AfterRestore, Progress, Tells, Complete;
    if Rank(r.stage) <= 14 { SilentFanOut(st, r); } else { SilentWrapUp(st, r); }
  }

  lemma ScriptAgrees(r: Run, r': Run, n: nat)
    requires n <= 5 && r'.on == r.on
    requires n >= 1 ==> r'.tasks == r.tasks
    requires n >= 2 ==> r'.actions == r.actions
    requires n >= 3 ==> r'.commands == r.commands
    requires n >= 4 ==> r'.executions == r.executions
    requires n >= 5 ==> r'.summary == r.summary
    ensures Script(r')[..n] == Script(r)[..n]
  {
    hide Say;
    forall i | 0 <= i < n ensures Script(r')[i] == Script(r)[i] {}
  }

  /** A step that tells nothing leaves what was said as it is. */
  lemma {:induction false} SilentStep(st: Store, r: Run)
    requires Progress(r) && FirstPass(r.stage) && r.on.eventID in st.events && !Tells(r.stage)
    ensures Spoken(Advance(st, r)) == Spoken(r) && !NextOp(r).Post?
  {
    hide NextOp, Advance, Progress, Tells, Script, Said;
    SilentOp(r);
    SilentRanks(st, r);
    AdvanceKeeps(st, r);
    StageRanks(r);
    ScriptAgrees(r, Advance(st, r), Said(r.stage));
  }

  lemma StageRanks(r: Run)
    ensures r.stage == CreateTask ==> Said(r.stage) == 0
    ensures r.stage == CreateAction ==> Said(r.stage) == 1
    ensures r.stage == CreateCommand ==> Said(r.stage) == 2
    ensures r.stage == CreateExecution ==> Said(r.stage) == 3
    ensures r.stage == CreateSummary ==> Said(r.stage) == 4
    ensures r.stage == GetEvent ==> Rank(r.stage) == 0
    ensures r.stage == RestoreSummary ==> Rank(r.stage) == 26
    ensures FirstPass(r.stage) ==> 7 <= Rank(r.stage) <= 21
  {
  }

  /** Where the telling steps lead and what they post. */
  lemma TellingMoves(st: Store, r: Run)
    requires Progress(r) && Tells(r.stage)
    ensures NextOp(r).Post? && FirstPass(r.stage)
    ensures var m, r' := NextOp(r).message, Advance(st, r);
            && r' == r.(stage := r'.stage) && m.eventID == r.on.eventID
            && (r.stage == TellTasks ==> m == Captain(r.on, r.tasks) && r'.stage == CreateAction)
            && (r.stage == TellActions ==> m == Manager(r.on, r.actions) && r'.stage == CreateCommand)
            && (r.stage == TellCommands ==> m == Operator(r.on, r.commands) && r'.stage == CreateExecution)
            && (r.stage == TellResults ==> m == Executor(r.on, r.executions) && r'.stage == CreateSummary)
            && (r.stage == TellSummary ==> r.summary.Some? && m == Expert(r.on, r.summary.value) && r'.stage == MarkFinished)
  {
    hide NextOp, Advance, NormalizeMessageFrom, SenderType;
    TellingSteps(st, r);
  }

  lemma StoredLine(st: Store, on: Incident, role: string, kind: string, content: Content)
    requires IsRole(role) && on.round != 0
    ensures LineOf(MessageRow(st, AgentMessage(on, role, kind, content))) == Say(on, role, kind, content)
  {
    RolesAreNormal(role);
    hide NormalizeMessageFrom, SenderType;
  }

  lemma AgentsAreRoles()
    ensures IsRole(CAPTAIN) && IsRole(MANAGER) && IsRole(OPERATOR) && IsRole(EXECUTOR) && IsRole(EXPERT)
  {
  }

  lemma ScriptLines(r: Run)
    ensures r.stage == TellTasks ==>
              Said(r.stage) == 0 && Script(r)[0] == Say(r.on, CAPTAIN, "task_created", Report("TASK", TaskIDs(r.tasks)))
    ensures r.stage == TellActions ==>
              Said(r.stage) == 1 && Script(r)[1] == Say(r.on, MANAGER, "action_created", Report("ACTION", ActionIDs(r.actions)))
    ensures r.stage == TellCommands ==>
              Said(r.stage) == 2 && Script(r)[2] == Say(r.on, OPERATOR, "command_created", Report("COMMAND", CommandIDs(r.commands)))
    ensures r.stage == TellResults ==>
              Said(r.stage) == 3 && Script(r)[3] == Say(r.on, EXECUTOR, "command_result", Report("RESULT", ExecutionIDs(r.executions)))
    ensures r.stage == TellSummary && r.summary.Some? ==>
              Said(r.stage) == 4 && Script(r)[4] == Say(r.on, EXPERT, "event_summary", r.summary.value.content)
  {
    hide Say, TaskIDs, ActionIDs, CommandIDs, ExecutionIDs;
  }

  lemma RoundIsSet(r: Run)
    requires Progress(r)
    ensures r.on.round != 0
  {
  }

  lemma {:induction false} PostsNextLine(st: Store, r: Run)
    requires Progress(r) && Tells(r.stage)
    ensures Said(r.stage) < 5 && NextOp(r).Post? && LineOf(MessageRow(st, NextOp(r).message)) == Script(r)[Said(r.stage)]
  {
    hide NextOp, Advance, Progress, MessageRow, AgentMessage, IsRole, LineOf, Say, TaskIDs, ActionIDs, CommandIDs, ExecutionIDs, Script,
      Said;
    RoundIsSet(r);
    TellingMoves(st, r);
    AgentsAreRoles();
    ScriptLines(r);
    match r.stage
    case TellTasks => StoredLine(st, r.on, CAPTAIN, "task_created", Report("TASK", TaskIDs(r.tasks)));
    case TellActions => StoredLine(st, r.on, MANAGER, "action_created", Report("ACTION", ActionIDs(r.actions)));
    case TellCommands => StoredLine(st, r.on, OPERATOR, "command_created", Report("COMMAND", CommandIDs(r.commands)));
    case TellResults => StoredLine(st, r.on, EXECUTOR, "command_result", Report("RESULT", ExecutionIDs(r.executions)));
    case TellSummary => StoredLine(st, r.on, EXPERT, "event_summary", r.summary.value.content);
    case _ =>
  }

  lemma {:induction false} TellsOneMore(st: Store, r: Run)
    requires Progress(r) && Tells(r.stage)
    ensures Said(Advance(st, r).stage) == Said(r.stage) + 1 && Script(Advance(st, r)) == Script(r)
  {
    hide NextOp, Advance, Progress, Captain, Manager, Operator, Executor, Expert, Script;
    TellingMoves(st, r);
    var r' := Advance(st, r);
    ScriptAgrees(r, r', 5);
    assert Script(r')[..5] == Script(r') && Script(r)[..5] == Script(r);
  }

  lemma {:induction false} TellingStep(st: Store, r: Run)
    requires Progress(r) && Tells(r.stage)
    ensures NextOp(r).Post? && NextOp(r).message.eventID == r.on.eventID
    ensures Spoken(Advance(st, r)) == Spoken(r) + [LineOf(MessageRow(st, NextOp(r).message))]
  {
    hide NextOp, Advance, Progress, MessageRow, Script, LineOf, AgentMessage, Captain, Manager, Operator, Executor, Expert, Said;
    PostsNextLine(st, r);
    TellingMoves(st, r);
    TellsOneMore(st, r);
    assert Script(r)[..Said(r.stage) + 1] == Script(r)[..Said(r.stage)] + [Script(r)[Said(r.stage)]];
  }

  lemma LinesGrow(rows: seq<Message>, m: Message)
    ensures Lines(rows + [m]) == Lines(rows) + [LineOf(m)]
  {
  }

  /** Between two points of a run, the lines stored are the lines said. */
  ghost predicate Stored(st: Store, r: Run, st': Store, r': Run) {
    Spoken(r) <= Spoken(r') && Lines(st'.messages) == Lines(st.messages) + Spoken(r')[|Spoken(r)|..]
  }

  lemma {:induction false} TellingStores(st: Store, r: Run)
    requires Progress(r) && Tells(r.stage) && r.on.eventID in st.events
    ensures Stored(st, r, Apply(st, r.on.eventID, NextOp(r)), Advance(st, r))
  {
    hide Apply, NextOp, Advance, Progress, Lines, LineOf, MessageRow, HasTask, Spoken, Tells;
    var op := NextOp(r);
    ApplyKeeps(st, r.on.eventID, op);
    TellingStep(st, r);
    LinesGrow(st.messages, MessageRow(st, op.message));
  }

  lemma FirstPassKnown(st: Store, r: Run)
    requires FirstPassOk(st, r)
    ensures FirstPass(r.stage) && r.on.eventID in st.events
  {
    hide HasTask, Announced, Rank;
  }

  lemma {:induction false} SilentStores(st: Store, r: Run)
    requires Progress(r) && FirstPass(r.stage) && r.on.eventID in st.events && !Tells(r.stage)
    ensures Stored(st, r, Apply(st, r.on.eventID, NextOp(r)), Advance(st, r))
  {
    hide Apply, NextOp, Advance, Progress, Lines, HasTask, Spoken, Tells, FirstPass, MessageRow;
    ApplyKeeps(st, r.on.eventID, NextOp(r));
    SilentStep(st, r);
  }

  lemma {:induction false} OneStepStores(st: Store, r: Run)
    requires Progress(r) && FirstPassOk(st, r)
    ensures Stored(st, r, Apply(st, r.on.eventID, NextOp(r)), Advance(st, r))
  {
    hide Apply, NextOp, Advance, FirstPassOk, Progress, Stored, Tells, FirstPass;
    FirstPassKnown(st, r);
    if Tells(r.stage) { TellingStores(st, r); } else { SilentStores(st, r); }
  }

  lemma StoredChain(st: Store, r: Run, st1: Store, r1: Run, st2: Store, r2: Run)
    requires Stored(st, r, st1, r1) && Stored(st1, r1, st2, r2)
    ensures Stored(st, r, st2, r2)
  {
    hide Lines, Spoken;
    var a, b, c := Spoken(r), Spoken(r1), Spoken(r2);
    assert c[|a|..] == b[|a|..] + c[|b|..];
  }

  /** From any point of a first pass to its end, the messages stored are what remained to be said. */
  lemma {:induction false} SaysTheRest(st: Store, r: Run)
    requires Progress(r) && FirstPassOk(st, r)
    ensures Stored(st, r, RunToEnd(st, r).0, RunToEnd(st, r).1)
    decreases 30 - Rank(r.stage), Left(r)
  {
    if Terminal(r.stage) {
      assert Spoken(r)[|Spoken(r)|..] == [];
    } else {
      hide Apply, NextOp, Advance, Stored, FirstPassOk, Progress;
      AdvanceMakesProgress(st, r);
      FirstPassStep(st, r);
      OneStepStores(st, r);
      var st1, r1 := Apply(st, r.on.eventID, NextOp(r)), Advance(st, r);
      SaysTheRest(st1, r1);
      StoredChain(st, r, st1, r1, RunToEnd(st1, r1).0, RunToEnd(st1, r1).1);
    }
  }

  /** The whole of it: over an event without rows the run appends exactly these five lines. */
  lemma {:induction false} FirstPassSpeaks(st: Store, e: ID)
    requires e in st.events && !HasRows(st, e)
    ensures var (st', r') := RunToEnd(st, Start(e));
            && r'.stage == Finished && r'.summary.Some? && r'.on.eventID == e
            && Lines(st'.messages) == Lines(st.messages) + Script(r')
  {
    hide RunToEnd, ListTasks, ListExecutions, ListActions, ListCommands, ListSummaries, Lines, Script, HasTask, Announced;
    EntryRun(st, e);
    var r0 := Found(st, e);
    FreshEvent(st, e);
    SaysTheRest(st, r0);
    assert Spoken(r0) == [];
  }
}
