/** An overlap does duplicate rows: from every reachable state in which two runs on one event are in the
    window together, some schedule of their turns leaves the event with two sets; and that is the only way. */
module WorkflowSplit {
  import opened Domain
  import opened Planning
  import opened StoreModel
  import opened Workflow
  import opened WorkflowRows
  import opened WorkflowSafety
  import opened WorkflowResults
  import opened WorkflowOverlap

  // ------------------------------------------------------------------- turns

  function TurnLabels(turns: seq<nat>): seq<Label> { seq(|turns|, i requires 0 <= i < |turns| => Turn(turns[i])) }

  ghost function Turns(s: System, turns: seq<nat>): (res: System)
    requires Runnable(s)
    ensures Runnable(res)
  {
    Execute(s, TurnLabels(turns))
  }

  lemma {:induction false} ExecuteThen(s: System, l: seq<Label>, m: seq<Label>)
    requires Runnable(s)
    ensures Execute(s, l + m) == Execute(Execute(s, l), m)
  {
    hide Next, Progress;
    if m == [] {
      assert l + m == l;
    } else {
      var n := |m| - 1;
      ExecuteThen(s, l, m[..n]);
      assert (l + m)[..|l + m| - 1] == l + m[..n];
    }
  }

  lemma {:induction false} TurnsThen(s: System, t: seq<nat>, u: seq<nat>)
    requires Runnable(s)
    ensures Turns(s, t + u) == Turns(Turns(s, t), u)
  {
    hide Progress, Execute;
    assert TurnLabels(t + u) == TurnLabels(t) + TurnLabels(u);
    ExecuteThen(s, TurnLabels(t), TurnLabels(u));
  }

  lemma TurnsSnoc(s: System, t: seq<nat>, a: nat)
    requires Runnable(s)
    ensures Turns(s, []) == s
    ensures Turns(s, t + [a]) == if a < |Turns(s, t).runs| then TakeTurn(Turns(s, t), a) else Turns(s, t)
  {
    hide Progress, TakeTurn;
    var l := TurnLabels(t + [a]);
    assert l[..|l| - 1] == TurnLabels(t) && l[|l| - 1] == Turn(a);
  }

  lemma OneTurn(s: System, a: nat)
    requires Runnable(s) && a < |s.runs|
    ensures Turns(s, []) == s && Turns(s, [a]) == TakeTurn(s, a)
  {
    hide Progress, TakeTurn, Turns;
    TurnsSnoc(s, [], a);
    assert [] + [a] == [a];
  }

  ghost predicate Good(s: System) { Runnable(s) && Inv(s) && AllSawRightly(s) }

  lemma {:induction false} TurnIsGood(s: System, a: nat)
    requires Good(s) && a < |s.runs|
    ensures var s' := TakeTurn(s, a);
            && Good(s') && |s'.runs| == |s.runs| && s'.runs[a].on.eventID == s.runs[a].on.eventID
            && s'.runs[a] == Advance(s.st, s.runs[a]) && (forall b :: 0 <= b < |s.runs| && b != a ==> s'.runs[b] == s.runs[b])
  {
    TurnKeepsInv(s, a);
    TurnKeepsSight(s, a);
    hide Inv, AllSawRightly, Apply, NextOp, Advance, Grow, Progress;
  }

  lemma {:induction false} ReachableIsGood(initial: System, labels: seq<Label>)
    requires Initial(initial)
    ensures Good(Execute(initial, labels))
  {
    hide Inv, AllSawRightly, Next;
    ReachableInv(initial, labels);
    ReachableSight(initial, labels);
  }

  // ------------------------------------------------------------- two sets of rows

  /** The listing of event e shows a task that run a stored. */
  ghost predicate ListsTaskOf(s: System, e: ID, a: nat) {
    exists j :: 0 <= j < |s.st.tasks| && j < |s.taskFrom| && s.taskFrom[j].run == a && s.st.tasks[j].eventID == e
                && s.st.tasks[j] in ListTasks(s.st, e)
  }

  ghost predicate TwoSets(s: System, e: ID) {
    exists a: nat, b: nat :: a != b && ListsTaskOf(s, e, a) && ListsTaskOf(s, e, b)
  }

  lemma {:induction false} WriterIsListed(s: System, a: nat)
    requires Inv(s) && a < |s.runs| && Writer(s.runs[a])
    ensures ListsTaskOf(s, s.runs[a].on.eventID, a)
  {
    hide FinishersOk, TableOk;
    var r, e := s.runs[a], s.runs[a].on.eventID;
    RunIsKnown(s, a);
    hide RunOk;
    RunRowEvents(s.st, r, 0);
    var j := r.tasks[0].id - 1;
    FirstIsOwn(s, a);
    SelectComplete(s.st.tasks, TaskEvent, e, j);
    hide Select;
  }

  lemma FirstIsOwn(s: System, a: nat)
    requires Inv(s) && a < |s.runs| && Writer(s.runs[a])
    ensures var j := s.runs[a].tasks[0].id - 1; 0 <= j < |s.taskFrom| && s.taskFrom[j].run == a
  {
    hide RunOk, FinishersOk, Supplied;
    assert TableOk(s.st.tasks, s.taskFrom, TasksOf(s.runs), TaskIDOf, TaskPos, s.st.draws);
    assert TasksOf(s.runs)[a] == s.runs[a].tasks;
    assert OwnedRows(s.taskFrom, a, s.runs[a].tasks, TaskPos);
    assert Owned(s.taskFrom, TaskPos(s.runs[a].tasks[0]), a, 0);
  }

  lemma {:induction false} ListedIsWriter(s: System, e: ID, a: nat)
    requires Inv(s) && ListsTaskOf(s, e, a)
    ensures a < |s.runs| && Writer(s.runs[a]) && s.runs[a].on.eventID == e
  {
    hide Inv, Select;
    var j :| 0 <= j < |s.st.tasks| && j < |s.taskFrom| && s.taskFrom[j].run == a && s.st.tasks[j].eventID == e
              && s.st.tasks[j] in ListTasks(s.st, e);
    TaskRowEvent(s, j);
  }

  lemma {:induction false} OneWriterOneSet(s: System, e: ID)
    requires Inv(s) && OneWriter(s, e)
    ensures !TwoSets(s, e)
  {
    hide Inv, ListsTaskOf;
    forall a: nat, b: nat | a != b && ListsTaskOf(s, e, a) ensures !ListsTaskOf(s, e, b) {
      ListedIsWriter(s, e, a);
      if ListsTaskOf(s, e, b) {
        ListedIsWriter(s, e, b);
        NotBoth(s, e, a, b);
      }
    }
  }

  lemma NotBoth(s: System, e: ID, a: nat, b: nat)
    requires OneWriter(s, e) && Rivals(s, e, a, b)
    ensures !(Writer(s.runs[a]) && Writer(s.runs[b]))
  {
  }

  // -------------------------------------------------------- through the window

  /** Past the check, about to insert its first task. */
  ghost predicate Committed(r: Run) { r.stage == MarkProcessing || (r.stage == CreateTask && r.tasks == []) }

  /** Two turns take a committed run to its first row. */
  lemma CommittedWrites(st: Store, st': Store, r: Run)
    requires Progress(r) && Known(st, r) && Chain(r) && Committed(r)
    requires r.on.eventID in st'.events
    ensures Writer(Advance(st, r)) || Writer(Advance(st', Advance(st, r)))
    ensures Writer(Advance(st, r)) ==> Writer(Advance(st', Advance(st, r)))
    ensures Rank(Advance(st', Advance(st, r)).stage) <= 9
  {
    PlanShape(r.on.event);
    hide BuildTaskPlans, NewTask, TaskRow, AfterRead, AfterWrapUp, AfterRestore, FanOutOp, WrapUpOp, RestoreOp, TaskChain,
      ActionChain, CommandChain, ExecutionChain;
    if r.stage == MarkProcessing { MarkSteps(st, r); TaskSteps(st', Advance(st, r)); } else { TaskSteps(st, r); }
    AdvanceKeeps(st, r);
    AdvanceKeeps(st', Advance(st, r));
  }

  lemma RunFacts(s: System, a: nat)
    requires Inv(s) && a < |s.runs|
    ensures Known(s.st, s.runs[a]) && Chain(s.runs[a]) && (Committed(s.runs[a]) ==> s.runs[a].on.eventID in s.st.events)
  {
    hide TablesOk, FinishersOk;
    assert RunOk(s.st, s.runs[a]);
  }

  lemma {:induction false} TwoTurnsWrite(s: System, a: nat)
    requires Runnable(s) && Inv(s) && a < |s.runs| && (Committed(s.runs[a]) || Writer(s.runs[a]))
    ensures var s2 := TakeTurn(TakeTurn(s, a), a);
            Inv(s2) && |s2.runs| == |s.runs| && (Committed(s.runs[a]) ==> Writer(s2.runs[a]) && Rank(s2.runs[a].stage) <= 9)
            && forall b :: 0 <= b < |s.runs| && b != a ==> s2.runs[b] == s.runs[b]
  {
    hide Progress, RunOk, Advance, Apply, NextOp, Grow, Writer, Committed, Inv, Rank;
    var r, s1 := s.runs[a], TakeTurn(s, a);
    TurnKeepsInv(s, a);
    TurnKeepsInv(s1, a);
    if Committed(r) {
      RunFacts(s, a);
      OnlyGrows(s, a);
      CommittedWrites(s.st, s1.st, r);
    }
  }


  ghost predicate NoWriter(s: System, e: ID) {
    forall b :: 0 <= b < |s.runs| && s.runs[b].on.eventID == e ==> !Writer(s.runs[b])
  }

  /** With no writer for its event a run in the window never turns to restoring. */
  lemma {:induction false} NoExecutionsSeen(s: System, a: nat)
    requires Good(s) && a < |s.runs| && NoWriter(s, s.runs[a].on.eventID)
    ensures s.runs[a].seen.executions == []
  {
    hide Inv;
    var e := s.runs[a].on.eventID;
    assert SawRightly(s.st, s.runs[a]);
    if HasExecution(s.st, e) {
      var j :| 0 <= j < |s.st.executions| && s.st.executions[j].eventID == e;
      ExecutionRowEvent(s, j);
    }
  }

  lemma {:induction false} WindowMovesOn(st: Store, r: Run)
    requires Progress(r) && Known(st, r) && InWindow(r) && Rank(r.stage) <= 5
    ensures InWindow(Advance(st, r)) && Rank(Advance(st, r).stage) > Rank(r.stage)
  {
    ReadAdvances(st, r);
    ReadsSooner(st, r);
    hide HasAgentMessages, ListMessages, ListTasks, ListActions, ListCommands, ListExecutions, ListSummaries, Advance, NextOp;
  }

  lemma {:induction false} StillReading(s: System, a: nat)
    requires Good(s) && a < |s.runs| && InWindow(s.runs[a]) && !Committed(s.runs[a]) && NoWriter(s, s.runs[a].on.eventID)
    ensures Rank(s.runs[a].stage) <= 5 && Known(s.st, s.runs[a]) && Progress(s.runs[a]) && Runnable(s)
  {
    hide Inv, Progress, Chain, RunOk;
    NoExecutionsSeen(s, a);
    assert SawRightly(s.st, s.runs[a]);
    RunIsKnown(s, a);
    hide HasExecution, Known;
  }

  lemma {:induction false} WindowTurn(s: System, a: nat)
    requires Good(s) && a < |s.runs| && InWindow(s.runs[a]) && !Committed(s.runs[a]) && NoWriter(s, s.runs[a].on.eventID)
    ensures var s' := TakeTurn(s, a);
            && Good(s') && |s'.runs| == |s.runs| && s'.runs[a].on.eventID == s.runs[a].on.eventID
            && InWindow(s'.runs[a]) && Rank(s'.runs[a].stage) > Rank(s.runs[a].stage)
            && (forall b :: 0 <= b < |s.runs| && b != a ==> s'.runs[b] == s.runs[b])
            && NoWriter(s', s.runs[a].on.eventID)
  {
    hide Good, TakeTurn, Progress, Committed, Advance, RunOk, Chain, Known, SawRightly, Rank;
    StillReading(s, a);
    TurnIsGood(s, a);
    WindowMovesOn(s.st, s.runs[a]);
    assert !Writer(TakeTurn(s, a).runs[a]);
  }

  lemma {:induction false} ReadingEndsAtMark(s: System, a: nat)
    requires Good(s) && a < |s.runs| && InWindow(s.runs[a]) && !Committed(s.runs[a]) && NoWriter(s, s.runs[a].on.eventID)
    ensures Runnable(s) && Rank(TakeTurn(s, a).runs[a].stage) <= 7
  {
    hide Good, Progress, Committed, Advance, Known, Apply, NextOp, Grow;
    StillReading(s, a);
    ReadAdvances(s.st, s.runs[a]);
    ReadsReachMark(s.st, s.runs[a]);
  }

  lemma ReadsReachMark(st: Store, r: Run)
    requires Progress(r) && Known(st, r) && 1 <= Rank(r.stage) <= 5
    ensures Rank(AfterRead(st, r).stage) <= 7
  {
    hide HasAgentMessages, ListMessages, ListTasks, ListActions, ListCommands, ListExecutions, ListSummaries, Progress;
  }

  lemma {:induction false} ToCommitted(s: System, a: nat) returns (turns: seq<nat>)
    requires Good(s) && a < |s.runs| && InWindow(s.runs[a]) && NoWriter(s, s.runs[a].on.eventID)
    ensures var s' := Turns(s, turns);
            && Good(s') && |s'.runs| == |s.runs| && s'.runs[a].on.eventID == s.runs[a].on.eventID && Committed(s'.runs[a])
            && (forall b :: 0 <= b < |s.runs| && b != a ==> s'.runs[b] == s.runs[b])
            && NoWriter(s', s.runs[a].on.eventID) && (Rank(s.runs[a].stage) <= 7 ==> s'.runs[a].stage == MarkProcessing)
    decreases 8 - Rank(s.runs[a].stage)
  {
    if Committed(s.runs[a]) {
      turns := [];
      assert Turns(s, turns) == s by { OneTurn(s, a); }
    } else {
      WindowTurn(s, a);
      assert Runnable(s) && Rank(TakeTurn(s, a).runs[a].stage) <= 7 by { ReadingEndsAtMark(s, a); }
      hide Good, NoWriter, InWindow, TakeTurn, Turns, Committed, Rank;
      var rest := ToCommitted(TakeTurn(s, a), a);
      turns := [a] + rest;
      TurnsThen(s, [a], rest);
      OneTurn(s, a);
    }
  }

  lemma {:induction false} CommitAndWrite(s: System, a: nat) returns (turns: seq<nat>)
    requires Good(s) && a < |s.runs| && Committed(s.runs[a])
    ensures var s' := Turns(s, turns);
            && Good(s') && |s'.runs| == |s.runs| && s'.runs[a].on.eventID == s.runs[a].on.eventID && Writer(s'.runs[a])
            && (forall b :: 0 <= b < |s.runs| && b != a ==> s'.runs[b] == s.runs[b])
            && Rank(s'.runs[a].stage) <= 9
  {
    hide Good, TakeTurn, Turns, Writer, Committed, Inv, Advance, Progress, Rank;
    GoodRuns(s);
    var s1 := TakeTurn(s, a);
    TurnIsGood(s, a);
    TurnIsGood(s1, a);
    TwoTurnsWrite(s, a);
    OneTurn(s, a);
    OneTurn(s1, a);
    TurnsThen(s, [a], [a]);
    turns := [a, a];
    assert [a] + [a] == turns;
  }

  /** Two runs in the window on an unwritten event both come to write. */
  lemma {:induction false} BothWrite(s: System, e: ID, a: nat, b: nat) returns (turns: seq<nat>)
    requires Good(s) && Rivals(s, e, a, b) && InWindow(s.runs[a]) && InWindow(s.runs[b]) && NoWriter(s, e)
    ensures var s' := Turns(s, turns); Good(s') && Rivals(s', e, a, b) && Writer(s'.runs[a]) && Writer(s'.runs[b])
  {
    hide Good, NoWriter, InWindow, TakeTurn, Turns, Committed, Writer, Rank;
    assert Runnable(s) by { GoodRuns(s); }
    var t1 := ToCommitted(s, a);
    var s1 := Turns(s, t1);
    var t2 := ToCommitted(s1, b);
    var s2 := Turns(s1, t2);
    var t3 := CommitAndWrite(s2, a);
    var s3 := Turns(s2, t3);
    var t4 := CommitAndWrite(s3, b);
    turns := t1 + t2 + t3 + t4;
    TurnsThen(s, t1, t2);
    TurnsThen(s, t1 + t2, t3);
    TurnsThen(s, t1 + t2 + t3, t4);
  }

  lemma GoodRuns(s: System)
    requires Good(s)
    ensures Runnable(s) && Inv(s)
  {
  }

  lemma {:induction false} WindowsMeanNoWriter(s: System, e: ID, a: nat, b: nat)
    requires OneWriter(s, e) && Rivals(s, e, a, b) && InWindow(s.runs[a]) && InWindow(s.runs[b])
    ensures NoWriter(s, e)
  {
    forall c | 0 <= c < |s.runs| && s.runs[c].on.eventID == e ensures !Writer(s.runs[c]) {
      if c != a { assert Rivals(s, e, c, a); }
    }
  }

  /** From a good state with an overlap on an event with one writer at most, some turns lead to two sets. */
  lemma {:induction false} OverlapSplits(s: System, e: ID)
    requires Good(s) && OneWriter(s, e) && Overlap(s, e)
    ensures exists turns: seq<nat> :: TwoSets(Turns(s, turns), e)
  {
    hide Good, NoWriter, InWindow, Turns, Writer, OneWriter, ListsTaskOf;
    GoodRuns(s);
    var a: nat, b: nat :| Rivals(s, e, a, b) && InWindow(s.runs[a]) && InWindow(s.runs[b]);
    WindowsMeanNoWriter(s, e, a, b);
    var turns := BothWrite(s, e, a, b);
    var s' := Turns(s, turns);
    GoodRuns(s');
    WriterIsListed(s', a);
    WriterIsListed(s', b);
  }

  // ------------------------------------------------------------------- exactly

  /** Every run for the event has read its tasks. */
  ghost predicate AllRead(s: System, e: ID) {
    forall a :: 0 <= a < |s.runs| && s.runs[a].on.eventID == e ==> Rank(s.runs[a].stage) >= 2
  }

  ghost predicate Calm(s: System, e: ID) { Good(s) && OneWriter(s, e) && AllRead(s, e) && !Overlap(s, e) }

  lemma TerminalStays(st: Store, r: Run)
    requires Progress(r) && Terminal(r.stage)
    ensures Advance(st, r) == r
  {
    hide AfterRead, AfterFanOut, PlanOp, FanOutOp;
  }

  lemma RankNeverFalls(st: Store, r: Run)
    requires Progress(r)
    ensures Rank(Advance(st, r).stage) >= Rank(r.stage)
  {
    hide Advance;
    if Terminal(r.stage) { TerminalStays(st, r); } else { AdvanceMakesProgress(st, r); }
  }

  lemma {:induction false} NoNewWindow(s: System, a: nat, e: ID)
    requires Good(s) && a < |s.runs| && (s.runs[a].on.eventID == e ==> Rank(s.runs[a].stage) >= 2)
    ensures s.runs[a].on.eventID == e ==> Rank(Advance(s.st, s.runs[a]).stage) >= 2
    ensures s.runs[a].on.eventID == e && InWindow(Advance(s.st, s.runs[a])) ==> InWindow(s.runs[a])
  {
    hide Inv, Advance, Chain, RunOk, ListTasks;
    RunIsKnown(s, a);
    assert Progress(s.runs[a]) && SawRightly(s.st, s.runs[a]);
    WindowStep(s.st, s.runs[a]);
    RankNeverFalls(s.st, s.runs[a]);
  }

  lemma {:induction false} TurnKeepsCalm(s: System, a: nat, e: ID)
    requires Calm(s, e) && a < |s.runs|
    ensures Calm(TakeTurn(s, a), e)
  {
    hide Inv, AllSawRightly, Progress, Advance, InWindow, Writer, TakeTurn, Rank;
    TurnIsGood(s, a);
    TurnKeepsOneWriter(s, a, e);
    NoNewWindow(s, a, e);
    hide OneWriter, Good;
    var s' := TakeTurn(s, a);
    forall x: nat, y: nat | Rivals(s', e, x, y) ensures !(InWindow(s'.runs[x]) && InWindow(s'.runs[y])) {
      assert Rivals(s, e, x, y) && Rivals(s, e, y, x);
    }
  }

  lemma {:induction false} TurnsKeepCalm(s: System, turns: seq<nat>, e: ID)
    requires Calm(s, e) && Runnable(s)
    ensures Calm(Turns(s, turns), e)
  {
    hide Calm, TakeTurn, Turns, Progress;
    if turns == [] {
      TurnsSnoc(s, [], 0);
    } else {
      var n := |turns| - 1;
      TurnsKeepCalm(s, turns[..n], e);
      TurnsSnoc(s, turns[..n], turns[n]);
      assert turns[..n] + [turns[n]] == turns;
      if turns[n] < |Turns(s, turns[..n]).runs| { TurnKeepsCalm(Turns(s, turns[..n]), turns[n], e); }
    }
  }

  /** In every reachable state in which all runs for an event have read its tasks and at most one has written:
      some schedule of their turns leaves the event with two sets of rows exactly when two of the runs are in
      the window together. */
  lemma {:induction false} SplitsExactlyOnOverlap(initial: System, labels: seq<Label>, e: ID)
    requires Initial(initial)
    ensures var s := Execute(initial, labels);
            OneWriter(s, e) && AllRead(s, e) ==> ((exists turns: seq<nat> :: TwoSets(Turns(s, turns), e)) <==> Overlap(s, e))
  {
    hide Execute, Good, Turns, TwoSets, Overlap, OneWriter, AllRead;
    ReachableIsGood(initial, labels);
    var s := Execute(initial, labels);
    if OneWriter(s, e) && AllRead(s, e) {
      if Overlap(s, e) {
        OverlapSplits(s, e);
      } else {
        forall turns: seq<nat> ensures !TwoSets(Turns(s, turns), e) {
          TurnsKeepCalm(s, turns, e);
          GoodRuns(Turns(s, turns));
          OneWriterOneSet(Turns(s, turns), e);
        }
      }
    }
  }

  // --------------------------------------------------------------- it can happen

  ghost predicate NoTasks(st: Store, e: ID) { e in st.events && ListTasks(st, e) == [] }

  lemma {:induction false} TwoReads(s: System, a: nat, e: ID)
    requires Runnable(s) && a < |s.runs| && s.runs[a] == Start(e) && NoTasks(s.st, e)
    ensures var s' := TakeTurn(TakeTurn(s, a), a);
            && s' == s.(runs := s'.runs) && s'.runs == s.runs[a := s'.runs[a]]
            && s'.runs[a].on.eventID == e && Rank(s'.runs[a].stage) == 2 && InWindow(s'.runs[a])
  {
    hide ListTasks, NextOp, Advance;
    var r0 := Start(e);
    ReadAdvances(s.st, r0);
    var r1 := AfterRead(s.st, r0);
    ReadAdvances(s.st, r1);
    assert s.runs[a := r1][a := AfterRead(s.st, r1)] == s.runs[a := AfterRead(s.st, r1)];
  }

  lemma {:induction false} NoTasksYet(initial: System, e: ID)
    requires Initial(initial) && e in initial.st.events
    ensures NoTasks(initial.st, e)
  {
  }

  lemma TwoLaunches(initial: System, e: ID)
    requires Initial(initial)
    ensures Execute(initial, [Launch(e), Launch(e)]) == initial.(runs := [Start(e), Start(e)])
  {
    hide Start, Progress;
    var l: seq<Label> := [Launch(e), Launch(e)];
    assert l[..1] == [Launch(e)];
    OneLaunch(initial, e);
  }

  lemma OneLaunch(s: System, e: ID)
    requires Runnable(s)
    ensures Execute(s, [Launch(e)]) == s.(runs := s.runs + [Start(e)]) && Execute(s, []) == s
  {
    hide Start, Progress;
    var l: seq<Label> := [Launch(e)];
    assert l[..0] == [];
  }

  /** Two runs, both for the event, have just read that it has no tasks. */
  ghost predicate BothReading(s: System, e: ID) {
    && |s.runs| == 2 && Rivals(s, e, 0, 1)
    && InWindow(s.runs[0]) && InWindow(s.runs[1]) && Rank(s.runs[0].stage) == 2 && Rank(s.runs[1].stage) == 2
  }

  /** That is an overlap with no writer yet. */
  lemma BothReadingOverlap(s: System, e: ID)
    requires BothReading(s, e)
    ensures OneWriter(s, e) && AllRead(s, e) && Overlap(s, e) && NoWriter(s, e)
  {
  }

  /** Two runs launched for an event without tasks, both having read them. */
  lemma {:induction false} TwoRunsOverlap(initial: System, e: ID)
    requires Initial(initial) && e in initial.st.events
    ensures exists labels :: BothReading(Execute(initial, labels), e)
  {
    hide ListTasks, TakeTurn, Execute, InWindow, Start, Next;
    var l: seq<Label> := [Launch(e), Launch(e)];
    var s := Execute(initial, l);
    TwoLaunches(initial, e);
    NoTasksYet(initial, e);
    hide NoTasks;
    TwoReads(s, 0, e);
    var s1 := TakeTurn(TakeTurn(s, 0), 0);
    TwoReads(s1, 1, e);
    var s2 := TakeTurn(TakeTurn(s1, 1), 1);
    FourTurns(s, 0, 1);
    var turns: seq<nat> := [0, 0, 1, 1];
    ExecuteThen(initial, l, TurnLabels(turns));
    assert Execute(initial, l + TurnLabels(turns)) == s2;
    assert BothReading(Execute(initial, l + TurnLabels(turns)), e);
  }

  lemma InWindowIsNoWriter(s: System)
    ensures forall a :: 0 <= a < |s.runs| && InWindow(s.runs[a]) ==> !Writer(s.runs[a])
  {
  }

  lemma FourTurns(s: System, a: nat, b: nat)
    requires Runnable(s) && a < |s.runs| && b < |s.runs|
    ensures Turns(s, [a, a, b, b]) == TakeTurn(TakeTurn(TakeTurn(TakeTurn(s, a), a), b), b)
  {
    hide Progress, TakeTurn, Turns;
    TurnsSnoc(s, [], a);
    TurnsSnoc(s, [a], a);
    TurnsSnoc(s, [a, a], b);
    TurnsSnoc(s, [a, a, b], b);
    assert [] + [a] == [a] && [a] + [a] == [a, a] && [a, a] + [b] == [a, a, b] && [a, a, b] + [b] == [a, a, b, b];
  }

  /** So any event there is when the system starts can end up with two sets of rows. */
  lemma {:induction false} ConcurrentRunsCanSplit(initial: System, e: ID)
    requires Initial(initial) && e in initial.st.events
    ensures exists labels :: TwoSets(Execute(initial, labels), e)
  {
    hide Execute, Good, OneWriter, AllRead, Overlap, TwoSets, BothReading;
    TwoRunsOverlap(initial, e);
    var labels :| BothReading(Execute(initial, labels), e);
    BothReadingOverlap(Execute(initial, labels), e);
    ReachableIsGood(initial, labels);
    OverlapSplits(Execute(initial, labels), e);
    var turns: seq<nat> :| TwoSets(Turns(Execute(initial, labels), turns), e);
    ExecuteThen(initial, labels, TurnLabels(turns));
  }
}
