/** Running the workflow again after a crash: what the new run does is decided by whether the old one had
    stored a task. And the one way an event's status steps back, shown to happen. */
module WorkflowCrash {
  import opened Domain
  import opened StoreModel
  import opened Workflow
  import opened WorkflowRows
  import opened WorkflowSafety
  import opened WorkflowResults
  import opened WorkflowOverlap
  import opened WorkflowSplit
  import R = WorkflowRerun

  lemma {:induction false} RowsMeanWriter(s: System, e: ID)
    requires Inv(s) && R.HasRows(s.st, e)
    ensures exists a :: 0 <= a < |s.runs| && s.runs[a].on.eventID == e && Writer(s.runs[a])
  {
    hide Inv, Select;
    if ListTasks(s.st, e) != [] {
      var x := ListTasks(s.st, e)[0];
      SelectSound(s.st.tasks, TaskEvent, e, x);
      var j :| 0 <= j < |s.st.tasks| && s.st.tasks[j] == x;
      TaskRowEvent(s, j);
    } else {
      ListedExecution(s.st, e);
      var j :| 0 <= j < |s.st.executions| && s.st.executions[j].eventID == e;
      ExecutionRowEvent(s, j);
    }
  }

  lemma {:induction false} WriterMeansRows(s: System, a: nat)
    requires Inv(s) && a < |s.runs| && Writer(s.runs[a])
    ensures R.HasRows(s.st, s.runs[a].on.eventID)
  {
    hide Inv;
    RunIsKnown(s, a);
    WritersAreListed(s.st, s.runs[a]);
  }

  /** In every reachable state, a new undisturbed run on an event finishes the round exactly when no run
      before it, crashed or not, has stored a task for the event. */
  lemma {:induction false} RerunFinishesExactly(initial: System, labels: seq<Label>, e: ID)
    requires Initial(initial) && e in Execute(initial, labels).st.events
    ensures var s := Execute(initial, labels);
            RunToEnd(s.st, Start(e)).1.stage == Finished <==>
              forall a :: 0 <= a < |s.runs| && s.runs[a].on.eventID == e ==> s.runs[a].tasks == []
  {
    hide Execute, RunToEnd, Inv, R.HasRows;
    ReachableInv(initial, labels);
    var s := Execute(initial, labels);
    R.OutcomeOfRun(s.st, e);
    hide HasAgentMessages, R.OnlyMessages;
    if R.HasRows(s.st, e) {
      RowsMeanWriter(s, e);
    } else {
      forall a | 0 <= a < |s.runs| && s.runs[a].on.eventID == e ensures s.runs[a].tasks == [] {
        if s.runs[a].tasks != [] { WriterMeansRows(s, a); }
      }
    }
  }

  /** A run that crashed after storing a task: the event is left unfinished, and running again, which does
      not finish the round, leaves it so. */
  ghost predicate Stranded(s: System, e: ID) {
    && |s.runs| == 1 && s.runs[0].on.eventID == e && Writer(s.runs[0]) && s.runs[0].stage != Finished
    && e in s.st.events && s.st.events[e].status != "round_finished"
    && RunToEnd(s.st, Start(e)).1.stage != Finished
    && e in RunWorkflow(s.st, e).events && RunWorkflow(s.st, e).events[e].status != "round_finished"
  }

  lemma {:induction false} UnfinishedIsStranded(s: System, e: ID)
    requires Good(s) && |s.runs| == 1 && s.runs[0].on.eventID == e && Writer(s.runs[0]) && Rank(s.runs[0].stage) <= 9
    ensures Stranded(s, e)
  {
    hide RunToEnd, Good, Inv, R.HasRows, HasAgentMessages, ListMessages, Writer, Start;
    GoodRuns(s);
    WriterMeansRows(s, 0);
    WriterEvent(s, 0);
    NobodyFinished(s, e);
    R.OutcomeOfRun(s.st, e);
  }

  lemma NobodyFinished(s: System, e: ID)
    requires Inv(s) && |s.runs| == 1 && Rank(s.runs[0].stage) <= 9
    ensures s.runs[0].stage != Finished && (e in s.st.events ==> s.st.events[e].status != "round_finished")
  {
    hide TablesOk, RunOk;
  }

  lemma WriterEvent(s: System, a: nat)
    requires Inv(s) && a < |s.runs| && Writer(s.runs[a])
    ensures s.runs[a].on.eventID in s.st.events
  {
    hide TablesOk, FinishersOk, Chain, TaskSideOk, ActionSideOk, CommandSideOk;
    assert RunOk(s.st, s.runs[a]);
  }

  /** It happens: for any event there when the system starts, some schedule of a single run strands it. */
  lemma {:induction false} CrashStrands(initial: System, e: ID)
    requires Initial(initial) && e in initial.st.events
    ensures exists labels :: Stranded(Execute(initial, labels), e)
  {
    hide Execute, TakeTurn, Good, Stranded, InWindow, NoWriter, Turns, Start, Committed, Writer, Rank;
    OneLaunch(initial, e);
    var l: seq<Label> := [Launch(e)];
    var s := Execute(initial, l);
    ReachableIsGood(initial, l);
    NoTasksYet(initial, e);
    TwoReads(s, 0, e);
    OneTurn(s, 0);
    var s1 := TakeTurn(s, 0);
    TurnIsGood(s, 0);
    OneTurn(s1, 0);
    TurnIsGood(s1, 0);
    TurnsThen(s, [0], [0]);
    var s2 := TakeTurn(s1, 0);
    InWindowIsNoWriter(s2);
    assert NoWriter(s2, e) by { SoleReader(s2, e); }
    var t := ToCommitted(s2, 0);
    var s3 := Turns(s2, t);
    var u := CommitAndWrite(s3, 0);
    TurnsThen(s2, t, u);
    var all := [0] + [0] + (t + u);
    TurnsThen(s, [0] + [0], t + u);
    UnfinishedIsStranded(Turns(s3, u), e);
    ExecuteAsTurns(initial, l, all);
  }

  lemma SoleReader(s: System, e: ID)
    requires |s.runs| == 1 && !Writer(s.runs[0])
    ensures NoWriter(s, e)
  {
  }

  lemma {:induction false} ExecuteAsTurns(initial: System, labels: seq<Label>, turns: seq<nat>)
    requires Runnable(initial)
    ensures Execute(initial, labels + TurnLabels(turns)) == Turns(Execute(initial, labels), turns)
  {
    hide Execute, Progress;
    ExecuteThen(initial, labels, TurnLabels(turns));
  }

  // ---------------------------------------------------------- an event set back

  /** A run on its way through a first pass comes to its end and marks the event as finished. */
  lemma {:induction false} ToFinished(s: System, a: nat) returns (turns: seq<nat>)
    requires Good(s) && a < |s.runs| && R.FirstPassOk(s.st, s.runs[a]) && s.runs[a].stage != Finished
    ensures var (s', e) := (Turns(s, turns), s.runs[a].on.eventID);
            && Good(s') && |s'.runs| == |s.runs| && (forall b :: 0 <= b < |s.runs| && b != a ==> s'.runs[b] == s.runs[b])
            && e in s'.st.events && s'.st.events[e].status == "round_finished"
    decreases 30 - Rank(s.runs[a].stage), if Progress(s.runs[a]) then Left(s.runs[a]) else 0
  {
    hide Good, TakeTurn, Turns, R.FirstPassOk, Advance, Apply, NextOp, Progress, Left;
    GoodRuns(s);
    TurnIsGood(s, a);
    OneTurn(s, a);
    FirstPassTurn(s, a);
    var s1 := TakeTurn(s, a);
    if s.runs[a].stage == MarkFinished {
      turns := [a];
    } else {
      GoodRuns(s1);
      var rest := ToFinished(s1, a);
      turns := [a] + rest;
      TurnsThen(s, [a], rest);
    }
  }

  lemma {:induction false} FirstPassGoesOn(s: System, a: nat)
    requires Good(s) && a < |s.runs| && R.FirstPassOk(s.st, s.runs[a]) && s.runs[a].stage != Finished
    ensures Runnable(s) && Progress(s.runs[a]) && FirstPass(s.runs[a].stage) && !Terminal(s.runs[a].stage)
    ensures s.runs[a].on.eventID in s.st.events
  {
    hide Inv, AllSawRightly, R.HasTask, R.Announced, Progress;
  }

  lemma {:induction false} FirstPassTurn(s: System, a: nat)
    requires Good(s) && a < |s.runs| && R.FirstPassOk(s.st, s.runs[a]) && s.runs[a].stage != Finished
    ensures var (s', r, e) := (TakeTurn(s, a), s.runs[a], s.runs[a].on.eventID);
            && Progress(r) && Progress(s'.runs[a]) && R.FirstPassOk(s'.st, s'.runs[a]) && Sooner(s'.runs[a], r)
            && (if r.stage == MarkFinished then e in s'.st.events && s'.st.events[e].status == "round_finished" else s'.runs[a].stage != Finished)
  {
    hide Good, Apply, NextOp, Advance, Progress, R.FirstPassOk, Grow, Left, FirstPass, Terminal, Sooner;
    var r := s.runs[a];
    FirstPassGoesOn(s, a);
    R.FirstPassStep(s.st, r);
    AdvanceMakesProgress(s.st, r);
    EventStatusAfter(s, a);
    OnlyMarkFinishes(s.st, r);
  }

  lemma OnlyMarkFinishes(st: Store, r: Run)
    requires Progress(r) && FirstPass(r.stage) && r.stage != Finished && r.on.eventID in st.events
    ensures r.stage != MarkFinished ==> Advance(st, r).stage != Finished
  {
    hide NextOp, Inserts, AfterRead, AfterFanOut, AfterWrapUp, AfterRestore, Progress;
    if Rank(r.stage) <= 14 { NoFinishInFanOut(st, r); } else { NoFinishInWrapUp(st, r); }
  }

  lemma NoFinishInFanOut(st: Store, r: Run)
    requires Progress(r) && 7 <= Rank(r.stage) <= 14
    ensures AfterFanOut(st, r).stage != Finished
  {
    hide TaskRow, NewTask, ActionRow, NewAction, CommandRow, NewCommand, ExecutionRow, NewExecution, Progress;
  }

  lemma NoFinishInWrapUp(st: Store, r: Run)
    requires Progress(r) && 15 <= Rank(r.stage) <= 20
    ensures r.stage != MarkFinished ==> AfterWrapUp(st, r).stage != Finished
  {
    hide StoreModel.SummaryRow, NewSummary, Progress;
  }

  /** It happens too: of two runs on an event one finishes it, and the other's next turn sets it back. */
  lemma {:induction false} FinishedEventSetBack(initial: System, e: ID)
    requires Initial(initial) && e in initial.st.events
    ensures exists labels :: SetBack(Execute(initial, labels), e)
  {
    hide Execute, Good, Turns, BothReading, SetBack;
    TwoRunsOverlap(initial, e);
    var labels :| BothReading(Execute(initial, labels), e);
    ReachableIsGood(initial, labels);
    var turns := ReadersSetBack(Execute(initial, labels), e);
    ExecuteAsTurns(initial, labels, turns);
  }

  lemma {:induction false} ReadersSetBack(s: System, e: ID) returns (turns: seq<nat>)
    requires Good(s) && BothReading(s, e)
    ensures SetBack(Turns(s, turns), e)
  {
    hide TakeTurn, Good, InWindow, NoWriter, Turns, Committed, Rank, BothReading, R.FirstPassOk, OneWriter, AllRead, Overlap,
      SetBack, Progress;
    GoodRuns(s);
    BothReadingOverlap(s, e);
    BothEarly(s, e);
    var t := ToCommitted(s, 0);
    var s1 := Turns(s, t);
    var u := ToCommitted(s1, 1);
    var s2 := Turns(s1, u);
    MarkingIsFirstPass(s2, 0);
    var v := ToFinished(s2, 0);
    FinishedMeansSetBack(Turns(s2, v), e);
    TurnsThen(s, t, u);
    TurnsThen(s, t + u, v);
    turns := t + u + v;
  }

  lemma FinishedMeansSetBack(s: System, e: ID)
    requires Good(s) && |s.runs| == 2 && s.runs[1].on.eventID == e && s.runs[1].stage == MarkProcessing
    requires e in s.st.events && s.st.events[e].status == "round_finished"
    ensures SetBack(s, e)
  {
    hide Good, TakeTurn, EventClimbs, Progress;
    GoodRuns(s);
    EventStepsBackExactly(s, 1, e);
  }

  ghost predicate SetBack(s: System, e: ID) {
    && Runnable(s) && |s.runs| == 2 && e in s.st.events && s.st.events[e].status == "round_finished"
    && !EventClimbs(s.st, TakeTurn(s, 1).st, e)
  }

  lemma BothEarly(s: System, e: ID)
    requires BothReading(s, e)
    ensures |s.runs| == 2 && s.runs[0].on.eventID == e && s.runs[1].on.eventID == e && InWindow(s.runs[0]) && InWindow(s.runs[1])
    ensures Rank(s.runs[0].stage) <= 7 && Rank(s.runs[1].stage) <= 7
  {
    hide InWindow, Rank;
    assert Rank(s.runs[0].stage) == 2 && Rank(s.runs[1].stage) == 2;
  }

  lemma {:induction false} MarkingIsFirstPass(s: System, a: nat)
    requires Good(s) && a < |s.runs| && s.runs[a].stage == MarkProcessing
    ensures R.FirstPassOk(s.st, s.runs[a])
  {
    hide AllSawRightly, TablesOk, FinishersOk, R.HasTask, R.Announced, Chain;
    assert RunOk(s.st, s.runs[a]);
    assert s.runs[a].tasks == [];
  }
}
