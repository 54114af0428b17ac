/** What the interleaving invariant means for the rows an observer can list. */
module WorkflowResults {
  import opened Domain
  import opened IpText
  import opened Planning
  import opened Strings
  import opened StoreModel
  import opened Workflow
  import opened WorkflowRows
  import opened WorkflowSafety

  // ------------------------------------------------------- references never dangle

  ghost predicate ActionAnchored(st: Store, j: int, t: int) {
    && 0 <= j < |st.actions| && 0 <= t < |st.tasks|
    && var (x, task) := (st.actions[j], st.tasks[t]);
    && x.taskID == task.taskID && x.eventID == task.eventID && x.round == task.round
    && x.name == ActionNameForTask(task.name)
  }

  ghost predicate CommandAnchored(st: Store, j: int, a: int, t: int) {
    && 0 <= j < |st.commands| && 0 <= a < |st.actions| && ActionAnchored(st, a, t)
    && var (x, action) := (st.commands[j], st.actions[a]);
    && x.actionID == action.actionID && x.taskID == action.taskID && x.eventID == action.eventID && x.round == action.round
  }

  ghost predicate ExecutionAnchored(st: Store, j: int, c: int, a: int, t: int) {
    && 0 <= j < |st.executions| && 0 <= c < |st.commands| && CommandAnchored(st, c, a, t)
    && var (x, command) := (st.executions[j], st.commands[c]);
    && x.commandID == command.commandID && x.actionID == command.actionID && x.taskID == command.taskID
    && x.eventID == command.eventID && x.round == command.round
    && x.commandName == command.name && x.commandKind == command.kind
    && x.commandEntity == command.entity && x.commandParams == command.params
  }

  lemma {:induction false} ActionAnchors(st: Store, r: Run, k: nat)
    requires RunOk(st, r) && k < |r.actions|
    ensures k < |r.tasks| && ActionAnchored(st, r.actions[k].id - 1, r.tasks[k].id - 1)
  {
    hide Progress, Known, CommandSideOk, ExecutionRows, CommandChain, ExecutionChain, BuildTaskPlans, TasksStarted, TasksCompleted, ActionsStarted, ActionsCompleted, CommandsCompleted,
      ActionNameForTask, CommandSpecForAction, VerdictFor, SeverityPriority, FirstNonEmpty, SummaryRow';
  }

  lemma {:induction false} CommandAnchors(st: Store, r: Run, k: nat)
    requires RunOk(st, r) && k < |r.commands|
    ensures k < |r.actions| && k < |r.tasks| && CommandAnchored(st, r.commands[k].id - 1, r.actions[k].id - 1, r.tasks[k].id - 1)
  {
    hide Progress, Known, TaskSideOk, ExecutionRows, TaskChain, ExecutionChain, ActionAnchored, BuildTaskPlans, TasksStarted, TasksCompleted, ActionsStarted, ActionsCompleted, CommandsCompleted,
      ActionNameForTask, CommandSpecForAction, VerdictFor, SeverityPriority, FirstNonEmpty, SummaryRow';
    ActionAnchors(st, r, k);
  }

  lemma {:induction false} ExecutionAnchors(st: Store, r: Run, k: nat)
    requires RunOk(st, r) && k < |r.executions|
    ensures k < |r.commands| && k < |r.actions| && k < |r.tasks|
    ensures ExecutionAnchored(st, r.executions[k].id - 1, r.commands[k].id - 1, r.actions[k].id - 1, r.tasks[k].id - 1)
  {
    hide Progress, Known, TaskSideOk, ActionSideOk, TaskChain, ActionChain, CommandAnchored, BuildTaskPlans, TasksStarted, TasksCompleted, ActionsStarted, ActionsCompleted, CommandsCompleted,
      ActionNameForTask, CommandSpecForAction, VerdictFor, SeverityPriority, FirstNonEmpty, SummaryRow';
    CommandAnchors(st, r, k);
  }

  /** The k-th rows of a run, of every kind it has reached, hang together. */
  lemma {:induction false} RunAnchors(st: Store, r: Run, k: nat)
    requires RunOk(st, r)
    ensures k < |r.actions| ==> k < |r.tasks| && ActionAnchored(st, r.actions[k].id - 1, r.tasks[k].id - 1)
    ensures k < |r.commands| ==>
              k < |r.actions| && k < |r.tasks| && CommandAnchored(st, r.commands[k].id - 1, r.actions[k].id - 1, r.tasks[k].id - 1)
    ensures k < |r.executions| ==> k < |r.commands| && k < |r.actions| && k < |r.tasks|
    ensures k < |r.executions| ==>
              ExecutionAnchored(st, r.executions[k].id - 1, r.commands[k].id - 1, r.actions[k].id - 1, r.tasks[k].id - 1)
  {
    hide RunOk, ActionAnchored, CommandAnchored, ExecutionAnchored;
    if k < |r.actions| { ActionAnchors(st, r, k); }
    if k < |r.commands| { CommandAnchors(st, r, k); }
    if k < |r.executions| { ExecutionAnchors(st, r, k); }
  }

  ghost predicate HasTask(st: Store, j: nat) { exists t: int :: ActionAnchored(st, j, t) }
  ghost predicate HasAction(st: Store, j: nat) { exists a: int, t: int :: CommandAnchored(st, j, a, t) }
  ghost predicate HasCommand(st: Store, j: nat) { exists c: int, a: int, t: int :: ExecutionAnchored(st, j, c, a, t) }

  lemma {:induction false} ActionHasTask(sys: System, j: nat)
    requires Inv(sys) && j < |sys.st.actions|
    ensures HasTask(sys.st, j)
  {
    hide RunOk, ActionAnchored, CommandAnchored, ExecutionAnchored;
    var origin := sys.actionFrom[j];
    var r := sys.runs[origin.run];
    assert ActionsOf(sys.runs)[origin.run] == r.actions && ActionPos(r.actions[origin.k]) == j + 1;
    RunAnchors(sys.st, r, origin.k);
  }

  lemma {:induction false} CommandHasAction(sys: System, j: nat)
    requires Inv(sys) && j < |sys.st.commands|
    ensures HasAction(sys.st, j)
  {
    hide RunOk, ActionAnchored, CommandAnchored, ExecutionAnchored;
    var origin := sys.commandFrom[j];
    var r := sys.runs[origin.run];
    assert CommandsOf(sys.runs)[origin.run] == r.commands && CommandPos(r.commands[origin.k]) == j + 1;
    RunAnchors(sys.st, r, origin.k);
  }

  lemma {:induction false} ExecutionHasCommand(sys: System, j: nat)
    requires Inv(sys) && j < |sys.st.executions|
    ensures HasCommand(sys.st, j)
  {
    hide RunOk, ActionAnchored, CommandAnchored, ExecutionAnchored;
    var origin := sys.executionFrom[j];
    var r := sys.runs[origin.run];
    assert ExecutionsOf(sys.runs)[origin.run] == r.executions && ExecutionPos(r.executions[origin.k]) == j + 1;
    RunAnchors(sys.st, r, origin.k);
  }

  /** In every reachable state every execution names an existing command, every command an existing
      action, every action an existing task, each unique; event, round and copied identifiers agree. */
  lemma {:induction false} ReferencesNeverDangle(sys: System, labels: seq<Label>)
    requires Initial(sys)
    ensures var st := Execute(sys, labels).st;
            && (forall j: nat :: j < |st.actions| ==> HasTask(st, j))
            && (forall j: nat :: j < |st.commands| ==> HasAction(st, j))
            && (forall j: nat :: j < |st.executions| ==> HasCommand(st, j))
            && UniqueIDs(st.tasks, TaskIDOf) && UniqueIDs(st.actions, ActionIDOf) && UniqueIDs(st.commands, CommandIDOf)
  {
    hide Execute, HasTask, HasAction, HasCommand, RunOk;
    ReachableInv(sys, labels);
    var s := Execute(sys, labels);
    forall j: nat | j < |s.st.actions| ensures HasTask(s.st, j) { ActionHasTask(s, j); }
    forall j: nat | j < |s.st.commands| ensures HasAction(s.st, j) { CommandHasAction(s, j); }
    forall j: nat | j < |s.st.executions| ensures HasCommand(s.st, j) { ExecutionHasCommand(s, j); }
  }

  // --------------------------------------------- listing the rows of a sole run

  ghost predicate Increasing(p: seq<int>) { forall k, l :: 0 <= k < l < |p| ==> p[k] < p[l] }

  /** p[..m] are the positions up to n. */
  ghost predicate Covered(p: seq<int>, m: nat, n: int) {
    m <= |p| && (forall k :: 0 <= k < m ==> p[k] <= n) && (forall k :: m <= k < |p| ==> p[k] > n)
  }

  lemma {:induction false} CoverNext(p: seq<int>, m: nat, n: int, k: nat)
    requires Increasing(p) && Covered(p, m, n - 1) && k < |p| && p[k] == n
    ensures k == m && Covered(p, m + 1, n)
  {
    assert m <= k;
    assert p[m] >= n;
  }

  lemma {:induction false} SelectNext<R(!new)>(table: seq<R>, eventOf: R -> ID, e: ID, n: nat)
    requires 1 <= n <= |table|
    ensures Select(table[..n], eventOf, e) == Select(table[..n - 1], eventOf, e) + (if eventOf(table[n - 1]) == e then [table[n - 1]] else [])
  {
    assert table[..n][..n - 1] == table[..n - 1];
  }

  /** When exactly the rows of run `a` belong to event `e`, listing `e` shows that run's rows in order. */
  lemma {:induction false} ListedUpTo<R(!new)>(table: seq<R>, from: seq<Origin>, p: seq<int>, eventOf: R -> ID, e: ID, a: nat, n: nat)
    returns (m: nat)
    requires n <= |table| == |from| && Increasing(p)
    requires forall k :: 0 <= k < |p| ==> 1 <= p[k] <= |table| && from[p[k] - 1].run == a
    requires forall j :: 0 <= j < n && from[j].run == a ==> from[j].k < |p| && p[from[j].k] == j + 1
    requires forall j :: 0 <= j < n ==> (eventOf(table[j]) == e <==> from[j].run == a)
    ensures Covered(p, m, n)
    ensures |Select(table[..n], eventOf, e)| == m
    ensures forall k :: 0 <= k < m ==> Select(table[..n], eventOf, e)[k] == table[p[k] - 1]
    decreases n
  {
    if n == 0 {
      m := 0;
    } else {
      m := ListedUpTo(table, from, p, eventOf, e, a, n - 1);
      SelectNext(table, eventOf, e, n);
      hide Select, Increasing;
      if from[n - 1].run == a {
        CoverNext(p, m, n, from[n - 1].k);
        m := m + 1;
      } else {
        forall k | 0 <= k < |p| ensures p[k] != n { assert from[p[k] - 1].run == a; }
      }
    }
  }

  lemma {:induction false} ListedAll<R(!new)>(table: seq<R>, from: seq<Origin>, p: seq<int>, eventOf: R -> ID, e: ID, a: nat)
    requires |table| == |from| && Increasing(p)
    requires forall k :: 0 <= k < |p| ==> 1 <= p[k] <= |table| && from[p[k] - 1].run == a
    requires forall j :: 0 <= j < |from| && from[j].run == a ==> from[j].k < |p| && p[from[j].k] == j + 1
    requires forall j :: 0 <= j < |table| ==> (eventOf(table[j]) == e <==> from[j].run == a)
    ensures |Select(table, eventOf, e)| == |p|
    ensures forall k :: 0 <= k < |p| ==> Select(table, eventOf, e)[k] == table[p[k] - 1]
  {
    var m := ListedUpTo(table, from, p, eventOf, e, a, |table|);
    assert table[..|table|] == table;
    if p != [] { assert p[|p| - 1] <= |table|; }
  }

  function Positions<R>(own: seq<R>, posOf: R -> nat): (p: seq<int>)
    ensures |p| == |own| && forall k :: 0 <= k < |own| ==> p[k] == posOf(own[k])
  {
    seq(|own|, k requires 0 <= k < |own| => posOf(own[k]))
  }

  lemma {:induction false} PositionsOwned<R(!new)>(from: seq<Origin>, own: seq<seq<R>>, posOf: R -> nat, a: nat)
    requires AllOwned(from, own, posOf) && a < |own|
    ensures var p := Positions(own[a], posOf); forall k :: 0 <= k < |p| ==> 1 <= p[k] <= |from| && from[p[k] - 1].run == a
  {
    assert OwnedRows(from, a, own[a], posOf);
    forall k | 0 <= k < |own[a]| ensures 1 <= posOf(own[a][k]) <= |from| && from[posOf(own[a][k]) - 1].run == a {
      assert Owned(from, posOf(own[a][k]), a, k);
    }
  }

  lemma {:induction false} PositionsTraced<R(!new)>(from: seq<Origin>, own: seq<seq<R>>, posOf: R -> nat, a: nat)
    requires AllTraced(from, own, posOf) && AllOrdered(own, posOf) && a < |own|
    ensures var p := Positions(own[a], posOf);
            && (forall j :: 0 <= j < |from| && from[j].run == a ==> from[j].k < |p| && p[from[j].k] == j + 1)
            && Increasing(p)
  {
  }

  lemma {:induction false} OwnPositions<R(!new)>(table: seq<R>, from: seq<Origin>, own: seq<seq<R>>, idOf: R -> ID, posOf: R -> nat,
                                                 draws: nat, a: nat)
    requires TableOk(table, from, own, idOf, posOf, draws) && a < |own|
    ensures var p := Positions(own[a], posOf);
            && |from| == |table| && Increasing(p)
            && (forall k :: 0 <= k < |p| ==> 1 <= p[k] <= |table| && from[p[k] - 1].run == a)
            && (forall j :: 0 <= j < |from| && from[j].run == a ==> from[j].k < |p| && p[from[j].k] == j + 1)
  {
    hide AllOwned, AllTraced, AllOrdered, Supplied, Increasing, Positions;
    PositionsOwned(from, own, posOf, a);
    PositionsTraced(from, own, posOf, a);
  }

  lemma {:induction false} Listed<R(!new)>(table: seq<R>, from: seq<Origin>, own: seq<seq<R>>, idOf: R -> ID, posOf: R -> nat,
                                           draws: nat, eventOf: R -> ID, e: ID, a: nat)
    requires TableOk(table, from, own, idOf, posOf, draws) && a < |own|
    requires forall j :: 0 <= j < |table| ==> (eventOf(table[j]) == e <==> from[j].run == a)
    ensures |Select(table, eventOf, e)| == |own[a]|
    ensures forall k :: 0 <= k < |own[a]| ==>
              1 <= posOf(own[a][k]) <= |table| && Select(table, eventOf, e)[k] == table[posOf(own[a][k]) - 1]
  {
    hide TableOk, Increasing, Select, Positions;
    OwnPositions(table, from, own, idOf, posOf, draws, a);
    ListedAll(table, from, Positions(own[a], posOf), eventOf, e, a);
  }

  // -------------------------------------------------- an event with one writing run

  /** No run for event `e` but run `a` has stored a task. There may be any number of other runs for it,
      past, crashed, skipped, restoring or yet to read, and any number of runs for other events. */
  ghost predicate SoleWriter(sys: System, e: ID, a: nat) {
    && a < |sys.runs| && sys.runs[a].on.eventID == e
    && forall b :: 0 <= b < |sys.runs| && b != a && sys.runs[b].on.eventID == e ==> sys.runs[b].tasks == []
  }

  lemma TableSizes(sys: System)
    requires TablesOk(sys)
    ensures |sys.taskFrom| == |sys.st.tasks| && |sys.actionFrom| == |sys.st.actions|
    ensures |sys.commandFrom| == |sys.st.commands| && |sys.executionFrom| == |sys.st.executions|
  {
    hide Supplied, AllOwned, AllTraced, AllOrdered;
  }

  lemma {:induction false} TaskRowOfRun(st: Store, r: Run, k: nat)
    requires RunOk(st, r) && k < |r.tasks|
    ensures 1 <= r.tasks[k].id <= |st.tasks| && st.tasks[r.tasks[k].id - 1].eventID == r.on.eventID
  {
    hide Progress, Known, ActionSideOk, CommandSideOk, ExecutionRows, SummaryRow', ActionChain, CommandChain, ExecutionChain, BuildTaskPlans, TasksStarted, TasksCompleted, SeverityPriority;
  }

  lemma {:induction false} ActionRowOfRun(st: Store, r: Run, k: nat)
    requires RunOk(st, r) && k < |r.actions|
    ensures 1 <= r.actions[k].id <= |st.actions| && st.actions[r.actions[k].id - 1].eventID == r.on.eventID && r.tasks != []
  {
    hide Progress, Known, TaskSideOk, CommandSideOk, ExecutionRows, SummaryRow', CommandChain, ExecutionChain, BuildTaskPlans, ActionsStarted, ActionsCompleted, SeverityPriority, ActionNameForTask, FirstNonEmpty;
  }

  lemma {:induction false} CommandRowOfRun(st: Store, r: Run, k: nat)
    requires RunOk(st, r) && k < |r.commands|
    ensures 1 <= r.commands[k].id <= |st.commands| && st.commands[r.commands[k].id - 1].eventID == r.on.eventID && r.tasks != []
  {
    hide Progress, Known, TaskSideOk, ActionSideOk, ExecutionRows, SummaryRow', ExecutionChain, BuildTaskPlans, CommandsCompleted, SeverityPriority, ActionNameForTask, FirstNonEmpty, CommandSpecForAction;
  }

  lemma {:induction false} ExecutionRowOfRun(st: Store, r: Run, k: nat)
    requires RunOk(st, r) && k < |r.executions|
    ensures 1 <= r.executions[k].id <= |st.executions| && st.executions[r.executions[k].id - 1].eventID == r.on.eventID && r.tasks != []
  {
    hide Progress, Known, TaskSideOk, ActionSideOk, CommandSideOk, SummaryRow', BuildTaskPlans, SeverityPriority, ActionNameForTask, FirstNonEmpty, CommandSpecForAction, VerdictFor;
  }

  lemma {:induction false} RunRowEvents(st: Store, r: Run, k: nat)
    requires RunOk(st, r)
    ensures k < |r.tasks| ==> 1 <= r.tasks[k].id <= |st.tasks| && st.tasks[r.tasks[k].id - 1].eventID == r.on.eventID
    ensures k < |r.actions| ==> 1 <= r.actions[k].id <= |st.actions| && st.actions[r.actions[k].id - 1].eventID == r.on.eventID
    ensures k < |r.commands| ==> 1 <= r.commands[k].id <= |st.commands| && st.commands[r.commands[k].id - 1].eventID == r.on.eventID
    ensures k < |r.executions| ==>
              1 <= r.executions[k].id <= |st.executions| && st.executions[r.executions[k].id - 1].eventID == r.on.eventID
    ensures k < |r.actions| || k < |r.commands| || k < |r.executions| ==> r.tasks != []
  {
    hide RunOk;
    if k < |r.tasks| { TaskRowOfRun(st, r, k); }
    if k < |r.actions| { ActionRowOfRun(st, r, k); }
    if k < |r.commands| { CommandRowOfRun(st, r, k); }
    if k < |r.executions| { ExecutionRowOfRun(st, r, k); }
  }

  lemma {:induction false} TaskRowEvent(sys: System, j: nat)
    requires Inv(sys) && j < |sys.st.tasks|
    ensures j < |sys.taskFrom| && sys.taskFrom[j].run < |sys.runs|
    ensures var (origin, r) := (sys.taskFrom[j], sys.runs[sys.taskFrom[j].run]);
            origin.k < |r.tasks| && r.tasks[origin.k].id == j + 1 && sys.st.tasks[j].eventID == r.on.eventID
  {
    hide RunOk;
    var origin := sys.taskFrom[j];
    var r := sys.runs[origin.run];
    assert TasksOf(sys.runs)[origin.run] == r.tasks && TaskPos(r.tasks[origin.k]) == j + 1;
    RunRowEvents(sys.st, r, origin.k);
  }

  lemma {:induction false} ActionRowEvent(sys: System, j: nat)
    requires Inv(sys) && j < |sys.st.actions|
    ensures j < |sys.actionFrom| && sys.actionFrom[j].run < |sys.runs|
    ensures var (origin, r) := (sys.actionFrom[j], sys.runs[sys.actionFrom[j].run]);
            origin.k < |r.actions| && r.actions[origin.k].id == j + 1 && sys.st.actions[j].eventID == r.on.eventID && r.tasks != []
  {
    hide RunOk;
    var origin := sys.actionFrom[j];
    var r := sys.runs[origin.run];
    assert ActionsOf(sys.runs)[origin.run] == r.actions && ActionPos(r.actions[origin.k]) == j + 1;
    RunRowEvents(sys.st, r, origin.k);
  }

  lemma {:induction false} CommandRowEvent(sys: System, j: nat)
    requires Inv(sys) && j < |sys.st.commands|
    ensures j < |sys.commandFrom| && sys.commandFrom[j].run < |sys.runs|
    ensures var (origin, r) := (sys.commandFrom[j], sys.runs[sys.commandFrom[j].run]);
            origin.k < |r.commands| && r.commands[origin.k].id == j + 1 && sys.st.commands[j].eventID == r.on.eventID && r.tasks != []
  {
    hide RunOk;
    var origin := sys.commandFrom[j];
    var r := sys.runs[origin.run];
    assert CommandsOf(sys.runs)[origin.run] == r.commands && CommandPos(r.commands[origin.k]) == j + 1;
    RunRowEvents(sys.st, r, origin.k);
  }

  lemma {:induction false} ExecutionRowEvent(sys: System, j: nat)
    requires Inv(sys) && j < |sys.st.executions|
    ensures j < |sys.executionFrom| && sys.executionFrom[j].run < |sys.runs|
    ensures var (origin, r) := (sys.executionFrom[j], sys.runs[sys.executionFrom[j].run]);
            origin.k < |r.executions| && r.executions[origin.k].id == j + 1 && sys.st.executions[j].eventID == r.on.eventID && r.tasks != []
  {
    hide RunOk;
    var origin := sys.executionFrom[j];
    var r := sys.runs[origin.run];
    assert ExecutionsOf(sys.runs)[origin.run] == r.executions && ExecutionPos(r.executions[origin.k]) == j + 1;
    RunRowEvents(sys.st, r, origin.k);
  }

  lemma {:induction false} TasksInPlace(sys: System, e: ID, a: nat)
    requires Inv(sys) && SoleWriter(sys, e, a)
    ensures |ListTasks(sys.st, e)| == |sys.runs[a].tasks|
    ensures forall k :: 0 <= k < |sys.runs[a].tasks| ==>
              var j := sys.runs[a].tasks[k].id - 1; 0 <= j < |sys.st.tasks| && ListTasks(sys.st, e)[k] == sys.st.tasks[j]
  {
    hide RunOk, TableOk, Progress, FinishersOk;
    var st, from, own := sys.st, sys.taskFrom, TasksOf(sys.runs);
    assert TableOk(st.tasks, from, own, TaskIDOf, TaskPos, st.draws) && |from| == |st.tasks| by { TableSizes(sys); }
    hide Inv;
    forall j | 0 <= j < |st.tasks| ensures TaskEvent(st.tasks[j]) == e <==> from[j].run == a {
      TaskRowEvent(sys, j);
    }
    Listed(st.tasks, from, own, TaskIDOf, TaskPos, st.draws, TaskEvent, e, a);
    forall k | 0 <= k < |own[a]| ensures TaskPos(own[a][k]) == sys.runs[a].tasks[k].id { }
  }

  lemma {:induction false} SoleTasks(sys: System, e: ID, a: nat)
    requires Inv(sys) && SoleWriter(sys, e, a)
    ensures |ListTasks(sys.st, e)| == |sys.runs[a].tasks|
    ensures forall k :: 0 <= k < |sys.runs[a].tasks| ==>
              ListTasks(sys.st, e)[k] == TaskNow(sys.runs[a].tasks[k], k < TasksStarted(sys.runs[a]), k < TasksCompleted(sys.runs[a]))
  {
    hide RunOk, TablesOk, Progress, FinishersOk, ListTasks, TasksStarted, TasksCompleted, ActionsStarted, ActionsCompleted,
      CommandsCompleted, TaskNow, ActionNow, CommandNow;
    var r := sys.runs[a];
    TasksInPlace(sys, e, a);
    assert TaskRows(sys.st.tasks, r.tasks, TasksStarted(r), TasksCompleted(r)) by { SidesOf(sys.st, r); }
  }

  lemma {:induction false} ActionsInPlace(sys: System, e: ID, a: nat)
    requires Inv(sys) && SoleWriter(sys, e, a)
    ensures |ListActions(sys.st, e)| == |sys.runs[a].actions|
    ensures forall k :: 0 <= k < |sys.runs[a].actions| ==>
              var j := sys.runs[a].actions[k].id - 1; 0 <= j < |sys.st.actions| && ListActions(sys.st, e)[k] == sys.st.actions[j]
  {
    hide RunOk, TableOk, Progress, FinishersOk;
    var st, from, own := sys.st, sys.actionFrom, ActionsOf(sys.runs);
    assert TableOk(st.actions, from, own, ActionIDOf, ActionPos, st.draws) && |from| == |st.actions| by { TableSizes(sys); }
    hide Inv;
    forall j | 0 <= j < |st.actions| ensures ActionEvent(st.actions[j]) == e <==> from[j].run == a {
      ActionRowEvent(sys, j);
    }
    Listed(st.actions, from, own, ActionIDOf, ActionPos, st.draws, ActionEvent, e, a);
    forall k | 0 <= k < |own[a]| ensures ActionPos(own[a][k]) == sys.runs[a].actions[k].id { }
  }

  lemma {:induction false} SoleActions(sys: System, e: ID, a: nat)
    requires Inv(sys) && SoleWriter(sys, e, a)
    ensures |ListActions(sys.st, e)| == |sys.runs[a].actions|
    ensures forall k :: 0 <= k < |sys.runs[a].actions| ==>
              ListActions(sys.st, e)[k] == ActionNow(sys.runs[a].actions[k], k < ActionsStarted(sys.runs[a]), k < ActionsCompleted(sys.runs[a]))
  {
    hide RunOk, TablesOk, Progress, FinishersOk, ListActions, TasksStarted, TasksCompleted, ActionsStarted, ActionsCompleted,
      CommandsCompleted, TaskNow, ActionNow, CommandNow;
    var r := sys.runs[a];
    ActionsInPlace(sys, e, a);
    assert ActionRows(sys.st.actions, r.actions, ActionsStarted(r), ActionsCompleted(r)) by { SidesOf(sys.st, r); }
  }

  lemma {:induction false} CommandsInPlace(sys: System, e: ID, a: nat)
    requires Inv(sys) && SoleWriter(sys, e, a)
    ensures |ListCommands(sys.st, e)| == |sys.runs[a].commands|
    ensures forall k :: 0 <= k < |sys.runs[a].commands| ==>
              var j := sys.runs[a].commands[k].id - 1; 0 <= j < |sys.st.commands| && ListCommands(sys.st, e)[k] == sys.st.commands[j]
  {
    hide RunOk, TableOk, Progress, FinishersOk;
    var st, from, own := sys.st, sys.commandFrom, CommandsOf(sys.runs);
    assert TableOk(st.commands, from, own, CommandIDOf, CommandPos, st.draws) && |from| == |st.commands| by { TableSizes(sys); }
    hide Inv;
    forall j | 0 <= j < |st.commands| ensures CommandEvent(st.commands[j]) == e <==> from[j].run == a {
      CommandRowEvent(sys, j);
    }
    Listed(st.commands, from, own, CommandIDOf, CommandPos, st.draws, CommandEvent, e, a);
    forall k | 0 <= k < |own[a]| ensures CommandPos(own[a][k]) == sys.runs[a].commands[k].id { }
  }

  lemma {:induction false} SoleCommands(sys: System, e: ID, a: nat)
    requires Inv(sys) && SoleWriter(sys, e, a)
    ensures |ListCommands(sys.st, e)| == |sys.runs[a].commands| && CommandsCompleted(sys.runs[a]) <= |sys.runs[a].executions|
    ensures forall k :: 0 <= k < |sys.runs[a].commands| ==>
              ListCommands(sys.st, e)[k] == CommandNow(sys.runs[a].commands[k], k < CommandsCompleted(sys.runs[a]),
                                                       if k < CommandsCompleted(sys.runs[a]) then sys.runs[a].executions[k].result else NoContent)
  {
    hide RunOk, TablesOk, Progress, FinishersOk, ListCommands, TasksStarted, TasksCompleted, ActionsStarted, ActionsCompleted,
      CommandsCompleted, TaskNow, ActionNow, CommandNow;
    var r := sys.runs[a];
    CommandsInPlace(sys, e, a);
    assert CommandRows(sys.st.commands, r.commands, CommandsCompleted(r), r.executions) by { SidesOf(sys.st, r); }
  }

  lemma {:induction false} ExecutionsInPlace(sys: System, e: ID, a: nat)
    requires Inv(sys) && SoleWriter(sys, e, a)
    ensures |ListExecutions(sys.st, e)| == |sys.runs[a].executions|
    ensures forall k :: 0 <= k < |sys.runs[a].executions| ==>
              var j := sys.runs[a].executions[k].id - 1; 0 <= j < |sys.st.executions| && ListExecutions(sys.st, e)[k] == sys.st.executions[j]
  {
    hide RunOk, TableOk, Progress, FinishersOk;
    var st, from, own := sys.st, sys.executionFrom, ExecutionsOf(sys.runs);
    assert TableOk(st.executions, from, own, ExecutionIDOf, ExecutionPos, st.draws) && |from| == |st.executions| by { TableSizes(sys); }
    hide Inv;
    forall j | 0 <= j < |st.executions| ensures ExecutionEvent(st.executions[j]) == e <==> from[j].run == a {
      ExecutionRowEvent(sys, j);
    }
    Listed(st.executions, from, own, ExecutionIDOf, ExecutionPos, st.draws, ExecutionEvent, e, a);
    forall k | 0 <= k < |own[a]| ensures ExecutionPos(own[a][k]) == sys.runs[a].executions[k].id { }
  }

  lemma {:induction false} SoleExecutions(sys: System, e: ID, a: nat)
    requires Inv(sys) && SoleWriter(sys, e, a)
    ensures |ListExecutions(sys.st, e)| == |sys.runs[a].executions|
    ensures forall k :: 0 <= k < |sys.runs[a].executions| ==>
              ListExecutions(sys.st, e)[k] == sys.runs[a].executions[k]
  {
    hide RunOk, TablesOk, Progress, FinishersOk, ListExecutions, TasksStarted, TasksCompleted, ActionsStarted, ActionsCompleted,
      CommandsCompleted, TaskNow, ActionNow, CommandNow;
    var r := sys.runs[a];
    ExecutionsInPlace(sys, e, a);
    assert ExecutionRows(sys.st.executions, r.executions) by { SidesOf(sys.st, r); }
  }

  lemma SidesOf(st: Store, r: Run)
    requires RunOk(st, r)
    ensures TaskRows(st.tasks, r.tasks, TasksStarted(r), TasksCompleted(r)) && ActionRows(st.actions, r.actions, ActionsStarted(r), ActionsCompleted(r))
    ensures CommandRows(st.commands, r.commands, CommandsCompleted(r), r.executions) && ExecutionRows(st.executions, r.executions)
  {
  }

  // ------------------------------------------------------------------- the ladder

  /** A later kind of row appears only once the earlier kind is complete; rows are paired by index. */
  ghost predicate FansOut(st: Store, e: ID, n: nat) {
    var (tasks, actions, commands, executions) := (ListTasks(st, e), ListActions(st, e), ListCommands(st, e), ListExecutions(st, e));
    && |executions| <= |commands| <= |actions| <= |tasks| <= n
    && (actions != [] ==> |tasks| == n) && (commands != [] ==> |actions| == n) && (executions != [] ==> |commands| == n)
    && (forall k :: 0 <= k < |actions| ==> actions[k].taskID == tasks[k].taskID)
    && (forall k :: 0 <= k < |commands| ==> commands[k].actionID == actions[k].actionID)
    && (forall k :: 0 <= k < |executions| ==> executions[k].commandID == commands[k].commandID)
  }

  /** A completed action means every command has completed with the result of its execution. */
  ghost predicate CommandsCarryActions(st: Store, e: ID, n: nat) {
    var (actions, commands, executions) := (ListActions(st, e), ListCommands(st, e), ListExecutions(st, e));
    forall k :: 0 <= k < |actions| && actions[k].status == "completed" ==>
      |commands| == |executions| == n
      && forall i :: 0 <= i < n ==> commands[i].status == "completed" && commands[i].result == executions[i].result
  }

  /** A completed task means every action has completed. */
  ghost predicate ActionsCarryTasks(st: Store, e: ID, n: nat) {
    var (tasks, actions) := (ListTasks(st, e), ListActions(st, e));
    forall k :: 0 <= k < |tasks| && tasks[k].status == "completed" ==>
      |actions| == n && forall i :: 0 <= i < n ==> actions[i].status == "completed"
  }

  /** A finished round means every task has completed and there is a summary. */
  ghost predicate TasksCarryEvent(st: Store, e: ID, n: nat) {
    e in st.events && st.events[e].status == "round_finished" ==>
      var tasks := ListTasks(st, e);
      |tasks| == n && (forall i :: 0 <= i < n ==> tasks[i].status == "completed") && ListSummaries(st, e) != []
  }

  lemma {:induction false} RunCounts(r: Run)
    requires Progress(r)
    ensures r.stage != Failed ==>
              && (r.actions != [] ==> |r.tasks| == |r.plans|) && (r.commands != [] ==> |r.actions| == |r.tasks|)
              && (r.executions != [] ==> |r.commands| == |r.tasks|)
    ensures TasksCompleted(r) > 0 ==> Complete(r) && ActionsCompleted(r) == |r.actions| == |r.tasks|
    ensures ActionsCompleted(r) > 0 ==> Complete(r) && CommandsCompleted(r) == |r.executions| == |r.plans|
    ensures r.stage == Finished ==> Complete(r) && TasksCompleted(r) == |r.tasks| && r.summary.Some?
    ensures 0 <= TasksStarted(r) <= |r.tasks| && 0 <= ActionsStarted(r) <= |r.actions|
  {
  }

  lemma {:induction false} ChainIDs(r: Run)
    requires Chain(r)
    ensures |r.executions| <= |r.commands| <= |r.actions| <= |r.tasks| <= |r.plans|
    ensures forall k :: 0 <= k < |r.tasks| ==> r.tasks[k].status == "pending"
    ensures forall k :: 0 <= k < |r.actions| ==> r.actions[k].taskID == r.tasks[k].taskID && r.actions[k].status == "pending"
    ensures forall k :: 0 <= k < |r.commands| ==> r.commands[k].actionID == r.actions[k].actionID && r.commands[k].status == "pending"
    ensures forall k :: 0 <= k < |r.executions| ==> r.executions[k].commandID == r.commands[k].commandID
  {
    hide BuildTaskPlans, ActionNameForTask, CommandSpecForAction, VerdictFor, SeverityPriority;
  }

  lemma {:induction false} SummaryListed(st: Store, r: Run)
    requires RunOk(st, r) && r.summary.Some?
    ensures ListSummaries(st, r.on.eventID) != []
  {
    hide Progress, TaskSideOk, ActionSideOk, CommandSideOk, ExecutionRows, TaskChain, ActionChain, CommandChain, ExecutionChain;
    var s := r.summary.value;
    SelectComplete(st.summaries, SummaryEvent, r.on.eventID, s.id - 1);
  }

  lemma FinishedWrote(sys: System, b: nat)
    requires Inv(sys) && b < |sys.runs| && sys.runs[b].stage == Finished
    ensures sys.runs[b].tasks != [] && sys.runs[b].summary.Some? && RunOk(sys.st, sys.runs[b])
  {
    hide TablesOk, FinishersOk;
    var r := sys.runs[b];
    assert RunOk(sys.st, r);
    FinishedCounts(r);
    PlanShape(r.on.event);
    RunCounts(r);
    hide BuildTaskPlans, Chain, TaskSideOk, ActionSideOk, CommandSideOk, ExecutionRows, SummaryRow', TasksCompleted, ActionsCompleted, CommandsCompleted;
  }

  lemma {:induction false} FinishedRun(sys: System, e: ID, a: nat)
    requires Inv(sys) && SoleWriter(sys, e, a) && e in sys.st.events && sys.st.events[e].status == "round_finished"
    ensures sys.runs[a].stage == Finished && ListSummaries(sys.st, e) != []
  {
    hide TablesOk, RunOk;
    FinishedWrote(sys, sys.finisher[e]);
    SummaryListed(sys.st, sys.runs[a]);
  }

  lemma {:induction false} FansOutHolds(sys: System, e: ID, a: nat)
    requires Inv(sys) && SoleWriter(sys, e, a)
    ensures FansOut(sys.st, e, |sys.runs[a].plans|)
  {
    hide Inv, RunOk, Progress, Chain, TasksStarted, TasksCompleted, ActionsStarted, ActionsCompleted, CommandsCompleted,
      ListTasks, ListActions, ListCommands, ListExecutions, ListSummaries, Complete;
    var r := sys.runs[a];
    SoleOk(sys, e, a);
    RunCounts(r);
    ChainIDs(r);
    SoleTasks(sys, e, a);
    SoleActions(sys, e, a);
    SoleCommands(sys, e, a);
    SoleExecutions(sys, e, a);
    hide SoleWriter;
  }

  lemma {:induction false} CommandsCarryActionsHolds(sys: System, e: ID, a: nat)
    requires Inv(sys) && SoleWriter(sys, e, a)
    ensures CommandsCarryActions(sys.st, e, |sys.runs[a].plans|)
  {
    hide Inv, RunOk, Progress, Chain, TasksStarted, TasksCompleted, ActionsStarted, ActionsCompleted, CommandsCompleted,
      ListTasks, ListActions, ListCommands, ListExecutions, ListSummaries, Complete;
    var r := sys.runs[a];
    SoleOk(sys, e, a);
    RunCounts(r);
    ChainIDs(r);
    SoleActions(sys, e, a);
    SoleCommands(sys, e, a);
    SoleExecutions(sys, e, a);
    hide SoleWriter;
  }

  lemma {:induction false} ActionsCarryTasksHolds(sys: System, e: ID, a: nat)
    requires Inv(sys) && SoleWriter(sys, e, a)
    ensures ActionsCarryTasks(sys.st, e, |sys.runs[a].plans|)
  {
    hide Inv, RunOk, Progress, Chain, TasksStarted, TasksCompleted, ActionsStarted, ActionsCompleted, CommandsCompleted,
      ListTasks, ListActions, ListCommands, ListExecutions, ListSummaries, Complete;
    var r := sys.runs[a];
    SoleOk(sys, e, a);
    RunCounts(r);
    ChainIDs(r);
    SoleTasks(sys, e, a);
    SoleActions(sys, e, a);
    hide SoleWriter;
  }

  lemma {:induction false} TasksCarryEventHolds(sys: System, e: ID, a: nat)
    requires Inv(sys) && SoleWriter(sys, e, a)
    ensures TasksCarryEvent(sys.st, e, |sys.runs[a].plans|)
  {
    hide Inv, RunOk, Progress, Chain, TasksStarted, TasksCompleted, ActionsStarted, ActionsCompleted, CommandsCompleted,
      ListTasks, ListActions, ListCommands, ListExecutions, ListSummaries, Complete;
    var r := sys.runs[a];
    SoleOk(sys, e, a);
    RunCounts(r);
    ChainIDs(r);
    if e in sys.st.events && sys.st.events[e].status == "round_finished" { FinishedRun(sys, e, a); }
    SoleTasks(sys, e, a);
    hide SoleWriter;
  }

  /** At every moment of every schedule, for an event that one run at most has written for: a later kind
      of row appears only when the earlier kind is complete, rows are paired, and completion climbs from
      commands to actions to tasks to the event. */
  lemma {:induction false} EventClimbsTheLadder(sys: System, labels: seq<Label>, e: ID, a: nat)
    requires Initial(sys) && SoleWriter(Execute(sys, labels), e, a)
    ensures var s := Execute(sys, labels);
            var n := |s.runs[a].plans|;
            && FansOut(s.st, e, n) && CommandsCarryActions(s.st, e, n) && ActionsCarryTasks(s.st, e, n) && TasksCarryEvent(s.st, e, n)
            && (ListTasks(s.st, e) != [] ==> s.runs[a].plans == BuildTaskPlans(s.runs[a].on.event))
  {
    hide Inv, RunOk, Progress, BuildTaskPlans, FansOut, CommandsCarryActions, ActionsCarryTasks, TasksCarryEvent;
    ReachableInv(sys, labels);
    var s := Execute(sys, labels);
    FansOutHolds(s, e, a);
    CommandsCarryActionsHolds(s, e, a);
    ActionsCarryTasksHolds(s, e, a);
    TasksCarryEventHolds(s, e, a);
    SoleOk(s, e, a);
    SoleTasks(s, e, a);
  }

  lemma SoleOk(sys: System, e: ID, a: nat)
    requires Inv(sys) && SoleWriter(sys, e, a)
    ensures RunOk(sys.st, sys.runs[a]) && Progress(sys.runs[a]) && Chain(sys.runs[a])
    ensures sys.runs[a].stage == Failed ==> sys.runs[a].tasks == []
    ensures sys.runs[a].tasks != [] ==> sys.runs[a].plans == BuildTaskPlans(sys.runs[a].on.event)
    ensures Complete(sys.runs[a]) ==> |sys.runs[a].executions| == |sys.runs[a].commands| == |sys.runs[a].actions| == |sys.runs[a].tasks| == |sys.runs[a].plans|
  {
    hide TablesOk, FinishersOk, BuildTaskPlans;
    assert RunOk(sys.st, sys.runs[a]);
  }

  // -------------------------------------------------------------- a completed run

  lemma {:induction false} CommandsCompile(r: Run, k: nat)
    requires Chain(r) && k < |r.commands|
    ensures k < |r.tasks| && k < |r.plans| && r.tasks[k].name == r.plans[k].name
    ensures var spec := Compile(r.on.event, r.plans[k]);
            r.commands[k].name == spec.name && r.commands[k].kind == spec.kind
            && r.commands[k].entity == spec.entity && r.commands[k].params == spec.params
  {
    hide BuildTaskPlans, ActionNameForTask, CommandSpecForAction, VerdictFor, SeverityPriority, FirstNonEmpty;
    assert r.actions[k].name == ActionNameForTask(r.tasks[k].name);
  }

  /** One row of each kind per plan of the event, each saying what the plan says. */
  ghost predicate WholeRun(st: Store, event: Event, e: ID) {
    var plans := BuildTaskPlans(event);
    && |ListTasks(st, e)| == |ListActions(st, e)| == |ListCommands(st, e)| == |ListExecutions(st, e)| == |plans|
    && forall k :: 0 <= k < |plans| ==>
         var (task, command, execution) := (ListTasks(st, e)[k], ListCommands(st, e)[k], ListExecutions(st, e)[k]);
         var spec := Compile(event, plans[k]);
         && task.name == plans[k].name && task.kind == plans[k].kind && task.description == plans[k].description
         && task.assignee == plans[k].assignee && task.assignedTo == OPERATOR
         && task.status == "completed" && command.status == "completed"
         && command.name == spec.name && command.kind == spec.kind
         && command.entity == spec.entity && command.params == spec.params
         && execution.commandID == command.commandID && execution.result == command.result
         && execution.result == Verdict(event.eventID, command.commandID, VerdictFor(command.name))
  }

  /** The command is the playbook of the query, about the address. */
  ghost predicate Asks(command: Command, q: Query, ip: string) {
    var spec := PlaybookCommand(q, ip);
    command.name == spec.name && command.kind == spec.kind && command.entity == spec.entity && command.params == spec.params
  }

  lemma {:induction false} PlanOfTask(r: Run, k: nat)
    requires Chain(r) && k < |r.tasks|
    ensures k < |r.plans| && r.tasks[k].kind == r.plans[k].kind && r.tasks[k].description == r.plans[k].description
    ensures r.tasks[k].assignee == r.plans[k].assignee
    ensures k < |r.executions| ==>
              r.executions[k].result == Verdict(r.on.event.eventID, r.executions[k].commandID, VerdictFor(r.executions[k].commandName))
    ensures k < |r.executions| ==> k < |r.commands| && r.executions[k].commandName == r.commands[k].name
  {
    hide BuildTaskPlans, ActionNameForTask, CommandSpecForAction, VerdictFor, SeverityPriority, FirstNonEmpty;
  }

  lemma {:induction false} FinishedRows(sys: System, e: ID, a: nat)
    requires Inv(sys) && SoleWriter(sys, e, a) && sys.runs[a].stage == Finished
    ensures WholeRun(sys.st, sys.runs[a].on.event, e)
  {
    hide Inv, RunOk, Progress, Chain, TasksStarted, TasksCompleted, ActionsStarted, ActionsCompleted, CommandsCompleted,
      ListTasks, ListActions, ListCommands, ListExecutions, Complete, BuildTaskPlans, Compile, VerdictFor;
    var r := sys.runs[a];
    SoleOk(sys, e, a);
    RunCounts(r);
    FinishedCounts(r);
    ChainIDs(r);
    SoleTasks(sys, e, a);
    SoleActions(sys, e, a);
    SoleCommands(sys, e, a);
    SoleExecutions(sys, e, a);
    PlanShape(r.on.event);
    hide SoleWriter;
    forall k | 0 <= k < |r.plans|
      ensures r.tasks[k].name == r.plans[k].name
      ensures var spec := Compile(r.on.event, r.plans[k]);
              r.commands[k].name == spec.name && r.commands[k].kind == spec.kind
              && r.commands[k].entity == spec.entity && r.commands[k].params == spec.params
    {
      CommandsCompile(r, k);
    }
    forall k | 0 <= k < |r.plans|
      ensures r.tasks[k].kind == r.plans[k].kind && r.tasks[k].description == r.plans[k].description && r.tasks[k].assignee == r.plans[k].assignee
      ensures r.executions[k].result == Verdict(r.on.event.eventID, r.executions[k].commandID, VerdictFor(r.commands[k].name))
    {
      PlanOfTask(r, k);
    }
    assert TasksStarted(r) == |r.tasks| by { FinishedStarted(r); }
  }

  lemma FinishedStarted(r: Run)
    requires Progress(r) && Chain(r) && r.stage == Finished
    ensures TasksStarted(r) == |r.tasks|
  {
    hide BuildTaskPlans, TaskChain, ActionChain, CommandChain, ExecutionChain;
  }

  lemma FinishedCounts(r: Run)
    requires Progress(r) && Chain(r) && r.stage == Finished
    ensures TasksCompleted(r) == CommandsCompleted(r) == |r.executions| == |r.plans| && r.plans == BuildTaskPlans(r.on.event)
  {
    hide BuildTaskPlans, TaskChain, ActionChain, CommandChain, ExecutionChain;
  }

  /** A finished run leaves one task, action, command and execution per plan, all completed; the k-th
      task is the k-th plan, the k-th command what the text pipeline makes of it, and the k-th execution
      the verdict on that command. */
  lemma {:induction false} FinishedRunIsWhole(initial: System, labels: seq<Label>, e: ID, a: nat)
    requires Initial(initial) && SoleWriter(Execute(initial, labels), e, a) && Execute(initial, labels).runs[a].stage == Finished
    ensures var sys := Execute(initial, labels);
            WholeRun(sys.st, sys.runs[a].on.event, e)
  {
    hide Execute;
    ReachableInv(initial, labels);
    FinishedRows(Execute(initial, labels), e, a);
  }

  /** With canonical IPv4 source and destination, each command of a finished run is the playbook its plan
      intended, about exactly the plan's address. */
  lemma {:induction false} FinishedRunAsksWhatWasPlanned(initial: System, labels: seq<Label>, e: ID, a: nat)
    requires Initial(initial) && SoleWriter(Execute(initial, labels), e, a) && Execute(initial, labels).runs[a].stage == Finished
    ensures var (sys, event) := (Execute(initial, labels), Execute(initial, labels).runs[a].on.event);
            && |ListCommands(sys.st, e)| == |Intended(event)|
            && (IsQuad(Source(event)) && (Destination(event) == "" || IsQuad(Destination(event))) ==>
                  forall k :: 0 <= k < |Intended(event)| ==> Asks(ListCommands(sys.st, e)[k], Intended(event)[k].0, Intended(event)[k].1))
  {
    hide Execute, ListTasks, ListActions, ListCommands, ListExecutions, BuildTaskPlans, Compile, Intended, Source,
      Destination, IsQuad, PlaybookCommand;
    FinishedRunIsWhole(initial, labels, e, a);
    var sys := Execute(initial, labels);
    var event := sys.runs[a].on.event;
    PlanShape(event);
    if IsQuad(Source(event)) && (Destination(event) == "" || IsQuad(Destination(event))) {
      forall k | 0 <= k < |Intended(event)| ensures Asks(ListCommands(sys.st, e)[k], Intended(event)[k].0, Intended(event)[k].1) {
        CanonicalAddressesSurvive(event, k);
      }
    }
  }

  // -------------------------------------------------------- statuses never step back

  function Level(status: string): nat { if status == "completed" then 2 else if status == "processing" then 1 else 0 }

  lemma ChangeKeepsOwn<R(!new)>(table: seq<R>, table': seq<R>, own: seq<R>, own': seq<R>, idOf: R -> ID, posOf: R -> nat,
                                draws: nat, draws': nat, from: seq<Origin>, a: nat)
    requires Change(table, table', own, own', idOf, posOf, draws, draws', from, a)
    ensures |table| <= |table'| && own <= own'
  {
  }

  lemma {:induction false} TaskRowClimbs(table: seq<Task>, table': seq<Task>, own: seq<Task>, own': seq<Task>,
                                            s: int, s': int, c: int, c': int, k: nat)
    requires TaskRows(table, own, s, c) && TaskRows(table', own', s', c') && s <= s' && c <= c'
    requires k < |own| <= |own'| && own'[k] == own[k] && own[k].status == "pending"
    ensures 1 <= own[k].id <= |table| && own[k].id <= |table'|
    ensures Level(table[own[k].id - 1].status) <= Level(table'[own[k].id - 1].status)
  {
  }

  lemma {:induction false} ActionRowClimbs(table: seq<Action>, table': seq<Action>, own: seq<Action>, own': seq<Action>,
                                            s: int, s': int, c: int, c': int, k: nat)
    requires ActionRows(table, own, s, c) && ActionRows(table', own', s', c') && s <= s' && c <= c'
    requires k < |own| <= |own'| && own'[k] == own[k] && own[k].status == "pending"
    ensures 1 <= own[k].id <= |table| && own[k].id <= |table'|
    ensures Level(table[own[k].id - 1].status) <= Level(table'[own[k].id - 1].status)
  {
  }

  lemma {:induction false} CommandRowClimbs(table: seq<Command>, table': seq<Command>, own: seq<Command>, own': seq<Command>,
                                            c: int, c': int, x: seq<Execution>, x': seq<Execution>, k: nat)
    requires CommandRows(table, own, c, x) && CommandRows(table', own', c', x') && c <= c'
    requires k < |own| <= |own'| && own'[k] == own[k] && own[k].status == "pending"
    ensures 1 <= own[k].id <= |table| && own[k].id <= |table'|
    ensures Level(table[own[k].id - 1].status) <= Level(table'[own[k].id - 1].status)
  {
  }

  lemma {:induction false} OwnTaskClimbs(st: Store, r: Run, from: seq<Origin>, a: nat, k: nat)
    requires RunOk(st, r) && TaskStepOk(st, r, from, a) && k < |r.tasks|
    ensures var st' := Apply(st, r.on.eventID, NextOp(r));
            var j := r.tasks[k].id - 1;
            0 <= j < |st.tasks| <= |st'.tasks| && Level(st.tasks[j].status) <= Level(st'.tasks[j].status)
  {
    hide Apply, NextOp, Advance, Chain, Progress, TasksStarted, TasksCompleted, ActionsStarted, ActionsCompleted, CommandsCompleted,
      TaskRows, ActionRows, CommandRows, ExecutionRows, Level, Change;
    ChainIDs(r);
    TaskStarts(st, r);
    TaskCompletes(st, r);
    var st', r' := Apply(st, r.on.eventID, NextOp(r)), Advance(st, r);
    ChangeKeepsOwn(st.tasks, st'.tasks, r.tasks, r'.tasks, TaskIDOf, TaskPos, st.draws, st'.draws, from, a);
    TaskRowClimbs(st.tasks, st'.tasks, r.tasks, r'.tasks, TasksStarted(r), TasksStarted(r'), TasksCompleted(r), TasksCompleted(r'), k);
  }

  lemma {:induction false} TasksClimb(sys: System, a: nat, j: nat)
    requires Runnable(sys) && Inv(sys) && a < |sys.runs| && j < |sys.st.tasks|
    ensures j < |TakeTurn(sys, a).st.tasks| && Level(sys.st.tasks[j].status) <= Level(TakeTurn(sys, a).st.tasks[j].status)
  {
    hide RunOk, Progress, Apply, NextOp, Advance, Grow, Level, TaskSideOk;
    TaskRowEvent(sys, j);
    OwnStep(sys, a);
    assert RunOk(sys.st, sys.runs[a]);
    hide Inv;
    var origin := sys.taskFrom[j];
    if origin.run == a { OwnTaskClimbs(sys.st, sys.runs[a], sys.taskFrom, a, origin.k); }
  }

  lemma {:induction false} OwnActionClimbs(st: Store, r: Run, from: seq<Origin>, a: nat, k: nat)
    requires RunOk(st, r) && ActionStepOk(st, r, from, a) && k < |r.actions|
    ensures var st' := Apply(st, r.on.eventID, NextOp(r));
            var j := r.actions[k].id - 1;
            0 <= j < |st.actions| <= |st'.actions| && Level(st.actions[j].status) <= Level(st'.actions[j].status)
  {
    hide Apply, NextOp, Advance, Chain, Progress, TasksStarted, TasksCompleted, ActionsStarted, ActionsCompleted, CommandsCompleted,
      TaskRows, ActionRows, CommandRows, ExecutionRows, Level, Change;
    ChainIDs(r);
    ActionStarts(st, r);
    ActionCompletes(st, r);
    var st', r' := Apply(st, r.on.eventID, NextOp(r)), Advance(st, r);
    ChangeKeepsOwn(st.actions, st'.actions, r.actions, r'.actions, ActionIDOf, ActionPos, st.draws, st'.draws, from, a);
    ActionRowClimbs(st.actions, st'.actions, r.actions, r'.actions, ActionsStarted(r), ActionsStarted(r'), ActionsCompleted(r), ActionsCompleted(r'), k);
  }

  lemma {:induction false} ActionsClimb(sys: System, a: nat, j: nat)
    requires Runnable(sys) && Inv(sys) && a < |sys.runs| && j < |sys.st.actions|
    ensures j < |TakeTurn(sys, a).st.actions| && Level(sys.st.actions[j].status) <= Level(TakeTurn(sys, a).st.actions[j].status)
  {
    hide RunOk, Progress, Apply, NextOp, Advance, Grow, Level, ActionSideOk;
    ActionRowEvent(sys, j);
    OwnStep(sys, a);
    assert RunOk(sys.st, sys.runs[a]);
    hide Inv;
    var origin := sys.actionFrom[j];
    if origin.run == a { OwnActionClimbs(sys.st, sys.runs[a], sys.actionFrom, a, origin.k); }
  }

  lemma {:induction false} OwnCommandClimbs(st: Store, r: Run, from: seq<Origin>, a: nat, k: nat)
    requires RunOk(st, r) && CommandStepOk(st, r, from, a) && k < |r.commands|
    ensures var st' := Apply(st, r.on.eventID, NextOp(r));
            var j := r.commands[k].id - 1;
            0 <= j < |st.commands| <= |st'.commands| && Level(st.commands[j].status) <= Level(st'.commands[j].status)
  {
    hide Apply, NextOp, Advance, Chain, Progress, TasksStarted, TasksCompleted, ActionsStarted, ActionsCompleted, CommandsCompleted,
      TaskRows, ActionRows, CommandRows, ExecutionRows, Level, Change;
    ChainIDs(r);
    CommandCompletes(st, r);
    var st', r' := Apply(st, r.on.eventID, NextOp(r)), Advance(st, r);
    ChangeKeepsOwn(st.commands, st'.commands, r.commands, r'.commands, CommandIDOf, CommandPos, st.draws, st'.draws, from, a);
    CommandRowClimbs(st.commands, st'.commands, r.commands, r'.commands, CommandsCompleted(r), CommandsCompleted(r'), r.executions, r'.executions, k);
  }

  lemma {:induction false} CommandsClimb(sys: System, a: nat, j: nat)
    requires Runnable(sys) && Inv(sys) && a < |sys.runs| && j < |sys.st.commands|
    ensures j < |TakeTurn(sys, a).st.commands| && Level(sys.st.commands[j].status) <= Level(TakeTurn(sys, a).st.commands[j].status)
  {
    hide RunOk, Progress, Apply, NextOp, Advance, Grow, Level, CommandSideOk;
    CommandRowEvent(sys, j);
    OwnStep(sys, a);
    assert RunOk(sys.st, sys.runs[a]);
    hide Inv;
    var origin := sys.commandFrom[j];
    if origin.run == a { OwnCommandClimbs(sys.st, sys.runs[a], sys.commandFrom, a, origin.k); }
  }

  ghost predicate NoRowStepsBack(st: Store, st': Store) {
    && |st.tasks| <= |st'.tasks| && |st.actions| <= |st'.actions| && |st.commands| <= |st'.commands|
    && (forall j :: 0 <= j < |st.tasks| ==> Level(st.tasks[j].status) <= Level(st'.tasks[j].status))
    && (forall j :: 0 <= j < |st.actions| ==> Level(st.actions[j].status) <= Level(st'.actions[j].status))
    && (forall j :: 0 <= j < |st.commands| ==> Level(st.commands[j].status) <= Level(st'.commands[j].status))
  }

  lemma TablesGrow(sys: System, a: nat)
    requires Runnable(sys) && a < |sys.runs|
    ensures var (st, st') := (sys.st, TakeTurn(sys, a).st);
            |st.tasks| <= |st'.tasks| && |st.actions| <= |st'.actions| && |st.commands| <= |st'.commands|
  {
    hide Apply, NextOp, Advance, Progress, Grow, TaskRow, ActionRow, CommandRow, Find, PatchTask, PatchAction, PatchCommand;
    ApplyByTable(sys.st, sys.runs[a].on.eventID, NextOp(sys.runs[a]));
  }

  lemma {:induction false} TurnStepsNothingBack(sys: System, a: nat)
    requires Runnable(sys) && Inv(sys) && a < |sys.runs|
    ensures NoRowStepsBack(sys.st, TakeTurn(sys, a).st)
  {
    hide Inv, Level, TakeTurn;
    var st, st' := sys.st, TakeTurn(sys, a).st;
    TablesGrow(sys, a);
    forall j | 0 <= j < |st.tasks| ensures Level(st.tasks[j].status) <= Level(st'.tasks[j].status) { TasksClimb(sys, a, j); }
    forall j | 0 <= j < |st.actions| ensures Level(st.actions[j].status) <= Level(st'.actions[j].status) { ActionsClimb(sys, a, j); }
    forall j | 0 <= j < |st.commands| ensures Level(st.commands[j].status) <= Level(st'.commands[j].status) { CommandsClimb(sys, a, j); }
  }

  /** In every schedule, whatever else is going on, no task, action or command row ever steps back. */
  lemma {:induction false} StatusesNeverStepBack(sys: System, labels: seq<Label>, l: Label)
    requires Initial(sys)
    ensures NoRowStepsBack(Execute(sys, labels).st, Execute(sys, labels + [l]).st)
  {
    hide Inv, Level, TakeTurn, MessageRow, EventRow, Progress;
    ReachableInv(sys, labels);
    assert (labels + [l])[..|labels|] == labels;
    var s := Execute(sys, labels);
    assert Execute(sys, labels + [l]) == Next(s, l);
    hide Execute;
    if l.Turn? && l.a < |s.runs| { TurnStepsNothingBack(s, l.a); }
  }

  function EventLevel(status: string): nat { if status == "round_finished" then 2 else if status == "processing" then 1 else 0 }

  ghost predicate EventClimbs(st: Store, st': Store, e: ID) {
    e in st.events ==> e in st'.events && EventLevel(st.events[e].status) <= EventLevel(st'.events[e].status)
  }

  /** What a turn does to the status of its event. */
  lemma EventStatusAfter(sys: System, a: nat)
    requires Runnable(sys) && a < |sys.runs| && sys.runs[a].on.eventID in sys.st.events
    ensures var (r, e, s') := (sys.runs[a], sys.runs[a].on.eventID, TakeTurn(sys, a));
            && e in s'.st.events
            && s'.st.events[e].status == (if r.stage == MarkProcessing then "processing" else if r.stage == MarkFinished then "round_finished"
                                          else sys.st.events[e].status)
  {
    hide Progress, Apply, NextOp, Advance, Grow;
    var st, r := sys.st, sys.runs[a];
    ApplyByTable(st, r.on.eventID, NextOp(r));
    OpOfStage(r);
    MarkSteps(st, r);
  }

  /** A turn lowers an event's status exactly when the run is about to mark as being processed an event that
      another run has finished: the mark is written unconditionally. */
  lemma {:induction false} EventStepsBackExactly(sys: System, a: nat, e: ID)
    requires Runnable(sys) && a < |sys.runs| && e in sys.st.events
    ensures !EventClimbs(sys.st, TakeTurn(sys, a).st, e) <==>
              sys.runs[a].on.eventID == e && sys.runs[a].stage == MarkProcessing && sys.st.events[e].status == "round_finished"
  {
    hide Progress, TakeTurn;
    StatusOfTurn(sys, a);
    if sys.runs[a].on.eventID == e { EventStatusAfter(sys, a); }
  }
}
