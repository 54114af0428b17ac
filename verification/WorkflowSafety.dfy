/** Any number of workflow runs over any events, taking turns in any order, some never finishing. */
module WorkflowSafety {
  import opened Domain
  import opened Planning
  import opened StoreModel
  import opened Workflow
  import opened WorkflowRows

  // --------------------------------------------------------- one table at a time

  function Grow(from: seq<Origin>, before: nat, after: nat, a: nat, k: nat): seq<Origin> {
    if after > before then from + [Origin(a, k)] else from
  }

  /** Every row a run remembers is marked as its own. */
  ghost predicate AllOwned<R(!new)>(from: seq<Origin>, own: seq<seq<R>>, posOf: R -> nat) {
    forall b :: 0 <= b < |own| ==> OwnedRows(from, b, own[b], posOf)
  }

  /** Every row of the table is remembered by the run it came from. */
  ghost predicate AllTraced<R(!new)>(from: seq<Origin>, own: seq<seq<R>>, posOf: R -> nat) {
    forall j :: 0 <= j < |from| ==>
      from[j].run < |own| && from[j].k < |own[from[j].run]| && posOf(own[from[j].run][from[j].k]) == j + 1
  }

  ghost predicate AllOrdered<R(!new)>(own: seq<seq<R>>, posOf: R -> nat) {
    forall b, k, l :: 0 <= b < |own| && 0 <= k < l < |own[b]| ==> posOf(own[b][k]) < posOf(own[b][l])
  }

  /** Rows have fresh identifiers, and the table's rows and the runs' own rows correspond one to one,
      in the same order. */
  ghost predicate TableOk<R(!new)>(table: seq<R>, from: seq<Origin>, own: seq<seq<R>>, idOf: R -> ID, posOf: R -> nat, draws: nat) {
    |from| == |table| && Supplied(table, idOf, draws) && AllOwned(from, own, posOf) && AllTraced(from, own, posOf)
    && AllOrdered(own, posOf)
  }

  lemma {:induction false} TableGrows<R(!new)>(table: seq<R>, from: seq<Origin>, own: seq<seq<R>>, x: R, idOf: R -> ID,
                                               posOf: R -> nat, draws: nat, a: nat)
    requires TableOk(table, from, own, idOf, posOf, draws) && a < |own|
    requires posOf(x) == |table| + 1 && idOf(x) == Drawn(draws)
    ensures TableOk(table + [x], from + [Origin(a, |own[a]|)], own[a := own[a] + [x]], idOf, posOf, draws + 1)
  {
    var from' := from + [Origin(a, |own[a]|)];
    var own' := own[a := own[a] + [x]];
    forall b | 0 <= b < |own'| ensures OwnedRows(from', b, own'[b], posOf) {
      assert OwnedRows(from, b, own[b], posOf);
      forall k | 0 <= k < |own'[b]| ensures Owned(from', posOf(own'[b][k]), b, k) {
        if k < |own[b]| { assert Owned(from, posOf(own[b][k]), b, k); }
      }
    }
    assert AllTraced(from', own', posOf);
    assert AllOrdered(own', posOf) by {
      forall b, k, l | 0 <= b < |own'| && 0 <= k < l < |own'[b]| ensures posOf(own'[b][k]) < posOf(own'[b][l]) {
        assert OwnedRows(from, b, own[b], posOf) && Owned(from, posOf(own[b][k]), b, k);
      }
    }
    hide AllTraced, AllOwned, AllOrdered;
    assert Supplied(table + [x], idOf, draws + 1);
  }

  lemma {:induction false} TableTurn<R(!new)>(table: seq<R>, table': seq<R>, from: seq<Origin>, own: seq<seq<R>>, own': seq<R>,
                                              idOf: R -> ID, posOf: R -> nat, draws: nat, draws': nat, a: nat)
    requires TableOk(table, from, own, idOf, posOf, draws) && a < |own|
    requires Change(table, table', own[a], own', idOf, posOf, draws, draws', from, a)
    ensures TableOk(table', Grow(from, |table|, |table'|, a, |own[a]|), own[a := own'], idOf, posOf, draws')
  {
    if |table'| > |table| {
      TableGrows(table, from, own, table'[|table|], idOf, posOf, draws, a);
    } else {
      assert own[a := own'] == own;
      assert Supplied(table', idOf, draws') by { hide AllOwned, AllTraced, AllOrdered; }
    }
  }

  ghost predicate RowKept<R>(table: seq<R>, table': seq<R>, id: int) {
    1 <= id <= |table| <= |table'| && table'[id - 1] == table[id - 1]
  }

  /** The rows of every other run are where and what they were. */
  lemma {:induction false} OthersKept<R(!new)>(table: seq<R>, table': seq<R>, from: seq<Origin>, own: seq<seq<R>>, own': seq<R>,
                                               idOf: R -> ID, posOf: R -> nat, draws: nat, draws': nat, a: nat, b: nat)
    requires TableOk(table, from, own, idOf, posOf, draws) && a < |own| && b < |own| && b != a
    requires Change(table, table', own[a], own', idOf, posOf, draws, draws', from, a)
    ensures forall k :: 0 <= k < |own[b]| ==> RowKept(table, table', posOf(own[b][k]))
  {
    assert OwnedRows(from, b, own[b], posOf);
    forall k | 0 <= k < |own[b]| ensures RowKept(table, table', posOf(own[b][k])) {
      assert Owned(from, posOf(own[b][k]), b, k);
    }
  }

  // ------------------------------------------------------------------ the system

  /** The store, the runs, and for every table where each of its rows came from; `finisher` is the run
      that last finished an event. */
  datatype System = System(st: Store, runs: seq<Run>, taskFrom: seq<Origin>, actionFrom: seq<Origin>,
                           commandFrom: seq<Origin>, executionFrom: seq<Origin>, finisher: map<ID, nat>)

  /** Launch a run, let run `a` take one step, or let another request register a pending event or
      store a message. */
  datatype Label = Launch(e: ID) | Turn(a: nat) | Register(event: Event) | Write(message: Message)

  ghost predicate Runnable(sys: System) { forall a :: 0 <= a < |sys.runs| ==> Progress(sys.runs[a]) }

  ghost function TakeTurn(sys: System, a: nat): (res: System)
    requires Runnable(sys) && a < |sys.runs|
    ensures Runnable(res) && |res.runs| == |sys.runs| && res.runs[a].on.eventID == sys.runs[a].on.eventID
  {
    hide Apply, NextOp, Advance, Progress;
    var r := sys.runs[a];
    var st' := Apply(sys.st, r.on.eventID, NextOp(r));
    System(st', sys.runs[a := Advance(sys.st, r)],
           Grow(sys.taskFrom, |sys.st.tasks|, |st'.tasks|, a, |r.tasks|),
           Grow(sys.actionFrom, |sys.st.actions|, |st'.actions|, a, |r.actions|),
           Grow(sys.commandFrom, |sys.st.commands|, |st'.commands|, a, |r.commands|),
           Grow(sys.executionFrom, |sys.st.executions|, |st'.executions|, a, |r.executions|),
           if r.stage == MarkFinished then sys.finisher[r.on.eventID := a] else sys.finisher)
  }

  ghost function Next(sys: System, l: Label): (res: System)
    requires Runnable(sys)
    ensures Runnable(res)
  {
    hide TakeTurn, CreateEvent, AddMessage, Progress;
    match l
    case Launch(e) => sys.(runs := sys.runs + [Start(e)])
    case Turn(a) => if a < |sys.runs| then TakeTurn(sys, a) else sys
    case Register(event) => sys.(st := CreateEvent(sys.st, event.(status := "pending")))
    case Write(m) => sys.(st := AddMessage(sys.st, m))
  }

  ghost function Execute(sys: System, labels: seq<Label>): (res: System)
    requires Runnable(sys)
    ensures Runnable(res)
  {
    hide Next;
    if labels == [] then sys else Next(Execute(sys, labels[..|labels| - 1]), labels[|labels| - 1])
  }

  /** No run has touched the store yet. */
  ghost predicate Initial(sys: System) {
    && sys.runs == [] && sys.finisher == map[]
    && sys.taskFrom == [] && sys.actionFrom == [] && sys.commandFrom == [] && sys.executionFrom == []
    && sys.st.tasks == [] && sys.st.actions == [] && sys.st.commands == [] && sys.st.executions == []
    && forall e :: e in sys.st.events ==> sys.st.events[e].status != "round_finished"
  }

  // --------------------------------------------------------------- the invariant

  ghost predicate RunOk(st: Store, r: Run) {
    && Progress(r) && Known(st, r) && Chain(r)
    && TaskSideOk(st, r) && ActionSideOk(st, r) && CommandSideOk(st, r)
    && ExecutionRows(st.executions, r.executions) && SummaryRow'(st.summaries, r.summary)
  }

  function TasksOf(runs: seq<Run>): seq<seq<Task>> { seq(|runs|, a requires 0 <= a < |runs| => runs[a].tasks) }
  function ActionsOf(runs: seq<Run>): seq<seq<Action>> { seq(|runs|, a requires 0 <= a < |runs| => runs[a].actions) }
  function CommandsOf(runs: seq<Run>): seq<seq<Command>> { seq(|runs|, a requires 0 <= a < |runs| => runs[a].commands) }
  function ExecutionsOf(runs: seq<Run>): seq<seq<Execution>> { seq(|runs|, a requires 0 <= a < |runs| => runs[a].executions) }

  ghost predicate TablesOk(sys: System) {
    && TableOk(sys.st.tasks, sys.taskFrom, TasksOf(sys.runs), TaskIDOf, TaskPos, sys.st.draws)
    && TableOk(sys.st.actions, sys.actionFrom, ActionsOf(sys.runs), ActionIDOf, ActionPos, sys.st.draws)
    && TableOk(sys.st.commands, sys.commandFrom, CommandsOf(sys.runs), CommandIDOf, CommandPos, sys.st.draws)
    && TableOk(sys.st.executions, sys.executionFrom, ExecutionsOf(sys.runs), ExecutionIDOf, ExecutionPos, sys.st.draws)
  }

  /** Only a run that came to its end leaves an event finished. */
  ghost predicate FinishersOk(sys: System) {
    forall e :: e in sys.st.events && sys.st.events[e].status == "round_finished" ==>
      && e in sys.finisher && sys.finisher[e] < |sys.runs|
      && sys.runs[sys.finisher[e]].stage == Finished && sys.runs[sys.finisher[e]].on.eventID == e
  }

  ghost predicate Inv(sys: System) {
    && (forall a :: 0 <= a < |sys.runs| ==> RunOk(sys.st, sys.runs[a]))
    && TablesOk(sys) && FinishersOk(sys)
  }

  // ------------------------------------------------------------ a run's own step

  lemma {:induction false} OwnStep(sys: System, a: nat)
    requires Runnable(sys) && Inv(sys) && a < |sys.runs|
    ensures RunOk(TakeTurn(sys, a).st, Advance(sys.st, sys.runs[a]))
    ensures TaskStepOk(sys.st, sys.runs[a], sys.taskFrom, a) && ActionStepOk(sys.st, sys.runs[a], sys.actionFrom, a)
    ensures CommandStepOk(sys.st, sys.runs[a], sys.commandFrom, a) && ExecutionStepOk(sys.st, sys.runs[a], sys.executionFrom, a)
  {
    var st, r := sys.st, sys.runs[a];
    assert RunOk(st, r);
    assert TasksOf(sys.runs)[a] == r.tasks && ActionsOf(sys.runs)[a] == r.actions && CommandsOf(sys.runs)[a] == r.commands;
    assert OwnedRows(sys.taskFrom, a, r.tasks, TaskPos);
    assert OwnedRows(sys.actionFrom, a, r.actions, ActionPos);
    assert OwnedRows(sys.commandFrom, a, r.commands, CommandPos);
    hide Progress, Known, Chain, Apply, NextOp, Advance, TaskSideOk, ActionSideOk, CommandSideOk, ExecutionRows, SummaryRow',
      OwnedRows, Supplied, AllOwned, AllTraced, AllOrdered, Change, FinishersOk, Grow;
    TaskStep(st, r, sys.taskFrom, a);
    ActionStep(st, r, sys.actionFrom, a);
    CommandStep(st, r, sys.commandFrom, a);
    ExecutionStep(st, r, sys.executionFrom, a);
    SummarySide(st, r);
    ChainStep(st, r);
    KnownStep(st, r);
  }

  // ------------------------------------------------------- what it does to others

  /** All rows a run remembers are unchanged, and so is what the run may rely on. */
  ghost predicate KeptFor(st: Store, st': Store, r: Run) {
    && (forall k :: 0 <= k < |r.tasks| ==> RowKept(st.tasks, st'.tasks, r.tasks[k].id))
    && (forall k :: 0 <= k < |r.actions| ==> RowKept(st.actions, st'.actions, r.actions[k].id))
    && (forall k :: 0 <= k < |r.commands| ==> RowKept(st.commands, st'.commands, r.commands[k].id))
    && (forall k :: 0 <= k < |r.executions| ==> RowKept(st.executions, st'.executions, r.executions[k].id))
    && st.summaries <= st'.summaries
    && st.events.Keys <= st'.events.Keys
  }

  lemma {:induction false} KeptRunOk(st: Store, st': Store, r: Run)
    requires RunOk(st, r) && KeptFor(st, st', r)
    ensures RunOk(st', r)
  {
    hide Progress, Chain, TasksStarted, TasksCompleted, ActionsStarted, ActionsCompleted, CommandsCompleted;
  }

  lemma {:induction false} TaskTurn(sys: System, a: nat, b: nat)
    requires Runnable(sys) && a < |sys.runs| && TaskStepOk(sys.st, sys.runs[a], sys.taskFrom, a)
    requires TableOk(sys.st.tasks, sys.taskFrom, TasksOf(sys.runs), TaskIDOf, TaskPos, sys.st.draws)
    ensures var sys' := TakeTurn(sys, a);
            && TableOk(sys'.st.tasks, sys'.taskFrom, TasksOf(sys'.runs), TaskIDOf, TaskPos, sys'.st.draws)
            && (b < |sys.runs| && b != a ==>
                  forall k :: 0 <= k < |sys.runs[b].tasks| ==> RowKept(sys.st.tasks, sys'.st.tasks, sys.runs[b].tasks[k].id))
  {
    hide Progress, Apply, NextOp, Advance, Change, TableOk, Grow, RowKept;
    var st, r, own := sys.st, sys.runs[a], TasksOf(sys.runs);
    var st', r' := Apply(st, r.on.eventID, NextOp(r)), Advance(st, r);
    assert own[a] == r.tasks;
    TableTurn(st.tasks, st'.tasks, sys.taskFrom, own, r'.tasks, TaskIDOf, TaskPos, st.draws, st'.draws, a);
    assert TasksOf(sys.runs[a := r']) == own[a := r'.tasks];
    if b < |sys.runs| && b != a {
      OthersKept(st.tasks, st'.tasks, sys.taskFrom, own, r'.tasks, TaskIDOf, TaskPos, st.draws, st'.draws, a, b);
      forall k | 0 <= k < |sys.runs[b].tasks| ensures RowKept(st.tasks, st'.tasks, sys.runs[b].tasks[k].id) {
        assert TaskPos(own[b][k]) == sys.runs[b].tasks[k].id;
      }
    }
  }

  lemma {:induction false} ActionTurn(sys: System, a: nat, b: nat)
    requires Runnable(sys) && a < |sys.runs| && ActionStepOk(sys.st, sys.runs[a], sys.actionFrom, a)
    requires TableOk(sys.st.actions, sys.actionFrom, ActionsOf(sys.runs), ActionIDOf, ActionPos, sys.st.draws)
    ensures var sys' := TakeTurn(sys, a);
            && TableOk(sys'.st.actions, sys'.actionFrom, ActionsOf(sys'.runs), ActionIDOf, ActionPos, sys'.st.draws)
            && (b < |sys.runs| && b != a ==>
                  forall k :: 0 <= k < |sys.runs[b].actions| ==> RowKept(sys.st.actions, sys'.st.actions, sys.runs[b].actions[k].id))
  {
    hide Progress, Apply, NextOp, Advance, Change, TableOk, Grow, RowKept;
    var st, r, own := sys.st, sys.runs[a], ActionsOf(sys.runs);
    var st', r' := Apply(st, r.on.eventID, NextOp(r)), Advance(st, r);
    assert own[a] == r.actions;
    TableTurn(st.actions, st'.actions, sys.actionFrom, own, r'.actions, ActionIDOf, ActionPos, st.draws, st'.draws, a);
    assert ActionsOf(sys.runs[a := r']) == own[a := r'.actions];
    if b < |sys.runs| && b != a {
      OthersKept(st.actions, st'.actions, sys.actionFrom, own, r'.actions, ActionIDOf, ActionPos, st.draws, st'.draws, a, b);
      forall k | 0 <= k < |sys.runs[b].actions| ensures RowKept(st.actions, st'.actions, sys.runs[b].actions[k].id) {
        assert ActionPos(own[b][k]) == sys.runs[b].actions[k].id;
      }
    }
  }

  lemma {:induction false} CommandTurn(sys: System, a: nat, b: nat)
    requires Runnable(sys) && a < |sys.runs| && CommandStepOk(sys.st, sys.runs[a], sys.commandFrom, a)
    requires TableOk(sys.st.commands, sys.commandFrom, CommandsOf(sys.runs), CommandIDOf, CommandPos, sys.st.draws)
    ensures var sys' := TakeTurn(sys, a);
            && TableOk(sys'.st.commands, sys'.commandFrom, CommandsOf(sys'.runs), CommandIDOf, CommandPos, sys'.st.draws)
            && (b < |sys.runs| && b != a ==>
                  forall k :: 0 <= k < |sys.runs[b].commands| ==> RowKept(sys.st.commands, sys'.st.commands, sys.runs[b].commands[k].id))
  {
    hide Progress, Apply, NextOp, Advance, Change, TableOk, Grow, RowKept;
    var st, r, own := sys.st, sys.runs[a], CommandsOf(sys.runs);
    var st', r' := Apply(st, r.on.eventID, NextOp(r)), Advance(st, r);
    assert own[a] == r.commands;
    TableTurn(st.commands, st'.commands, sys.commandFrom, own, r'.commands, CommandIDOf, CommandPos, st.draws, st'.draws, a);
    assert CommandsOf(sys.runs[a := r']) == own[a := r'.commands];
    if b < |sys.runs| && b != a {
      OthersKept(st.commands, st'.commands, sys.commandFrom, own, r'.commands, CommandIDOf, CommandPos, st.draws, st'.draws, a, b);
      forall k | 0 <= k < |sys.runs[b].commands| ensures RowKept(st.commands, st'.commands, sys.runs[b].commands[k].id) {
        assert CommandPos(own[b][k]) == sys.runs[b].commands[k].id;
      }
    }
  }

  lemma {:induction false} ExecutionTurn(sys: System, a: nat, b: nat)
    requires Runnable(sys) && a < |sys.runs| && ExecutionStepOk(sys.st, sys.runs[a], sys.executionFrom, a)
    requires TableOk(sys.st.executions, sys.executionFrom, ExecutionsOf(sys.runs), ExecutionIDOf, ExecutionPos, sys.st.draws)
    ensures var sys' := TakeTurn(sys, a);
            && TableOk(sys'.st.executions, sys'.executionFrom, ExecutionsOf(sys'.runs), ExecutionIDOf, ExecutionPos, sys'.st.draws)
            && (b < |sys.runs| && b != a ==>
                  forall k :: 0 <= k < |sys.runs[b].executions| ==> RowKept(sys.st.executions, sys'.st.executions, sys.runs[b].executions[k].id))
  {
    hide Progress, Apply, NextOp, Advance, Change, TableOk, Grow, RowKept;
    var st, r, own := sys.st, sys.runs[a], ExecutionsOf(sys.runs);
    var st', r' := Apply(st, r.on.eventID, NextOp(r)), Advance(st, r);
    assert own[a] == r.executions;
    TableTurn(st.executions, st'.executions, sys.executionFrom, own, r'.executions, ExecutionIDOf, ExecutionPos, st.draws, st'.draws, a);
    assert ExecutionsOf(sys.runs[a := r']) == own[a := r'.executions];
    if b < |sys.runs| && b != a {
      OthersKept(st.executions, st'.executions, sys.executionFrom, own, r'.executions, ExecutionIDOf, ExecutionPos, st.draws, st'.draws, a, b);
      forall k | 0 <= k < |sys.runs[b].executions| ensures RowKept(st.executions, st'.executions, sys.runs[b].executions[k].id) {
        assert ExecutionPos(own[b][k]) == sys.runs[b].executions[k].id;
      }
    }
  }

  lemma OnlyGrows(sys: System, a: nat)
    requires Runnable(sys) && a < |sys.runs|
    ensures sys.st.summaries <= TakeTurn(sys, a).st.summaries && sys.st.events.Keys <= TakeTurn(sys, a).st.events.Keys
  {
    hide Apply, NextOp, Advance, Progress, Grow;
    ApplyByTable(sys.st, sys.runs[a].on.eventID, NextOp(sys.runs[a]));
  }

  lemma {:induction false} TurnKeepsOther(sys: System, a: nat, b: nat)
    requires Runnable(sys) && Inv(sys) && a < |sys.runs| && b < |sys.runs| && b != a
    ensures RunOk(TakeTurn(sys, a).st, sys.runs[b])
  {
    hide RunOk, Progress, TakeTurn, TableOk, FinishersOk, TaskStepOk, ActionStepOk, CommandStepOk, ExecutionStepOk, RowKept,
      NextOp, Advance, Apply;
    OwnStep(sys, a);
    OnlyGrows(sys, a);
    TaskTurn(sys, a, b);
    ActionTurn(sys, a, b);
    CommandTurn(sys, a, b);
    ExecutionTurn(sys, a, b);
    KeptRunOk(sys.st, TakeTurn(sys, a).st, sys.runs[b]);
  }

  lemma {:induction false} TurnKeepsTables(sys: System, a: nat)
    requires Runnable(sys) && Inv(sys) && a < |sys.runs|
    ensures TablesOk(TakeTurn(sys, a))
  {
    hide RunOk, Progress, TableOk, FinishersOk, TakeTurn, TaskStepOk, ActionStepOk, CommandStepOk, ExecutionStepOk, NextOp,
      Advance, Apply;
    OwnStep(sys, a);
    TaskTurn(sys, a, a);
    ActionTurn(sys, a, a);
    CommandTurn(sys, a, a);
    ExecutionTurn(sys, a, a);
  }

  /** A step that sets a status is the first or the last of its run. */
  lemma StatusStep(st: Store, r: Run)
    requires Progress(r)
    ensures NextOp(r).SetStatus? ==>
              if r.stage == MarkFinished then NextOp(r) == SetStatus("round_finished") && Advance(st, r).stage == Finished
              else NextOp(r) == SetStatus("processing")
    ensures r.stage == MarkFinished ==> NextOp(r).SetStatus?
    ensures r.stage == Finished ==> Advance(st, r) == r
  {
    hide Advance;
    OpOfStage(r);
    if r.stage == Finished { StaysFinished(st, r); }
    if r.stage == MarkFinished || r.stage == MarkProcessing {
      MarkSteps(st, r);
    }
    hide NextOp;
  }

  /** How a turn moves the statuses. */
  lemma {:induction false} StatusOfTurn(sys: System, a: nat)
    requires Runnable(sys) && a < |sys.runs|
    ensures var (r, s', e) := (sys.runs[a], TakeTurn(sys, a), sys.runs[a].on.eventID);
            && s'.runs == sys.runs[a := s'.runs[a]] && s'.runs[a].on.eventID == e
            && s'.finisher == (if r.stage == MarkFinished then sys.finisher[e := a] else sys.finisher)
            && (r.stage == MarkFinished || r.stage == Finished ==> s'.runs[a].stage == Finished)
            && s'.st.events.Keys == sys.st.events.Keys
            && (forall e' :: e' in sys.st.events && e' != e ==> s'.st.events[e'] == sys.st.events[e'])
            && (e in sys.st.events && s'.st.events[e].status == "round_finished" ==>
                  r.stage == MarkFinished || sys.st.events[e].status == "round_finished")
  {
    hide Progress, Apply, NextOp, Advance, Grow;
    var st, r := sys.st, sys.runs[a];
    var op := NextOp(r);
    assert Apply(st, r.on.eventID, op).events == if op.SetStatus? then UpdateEventStatus(st, r.on.eventID, op.status).events else st.events by {
      ApplyByTable(st, r.on.eventID, op);
    }
    StatusStep(st, r);
  }

  lemma {:induction false} TurnKeepsFinishers(sys: System, a: nat)
    requires Runnable(sys) && FinishersOk(sys) && a < |sys.runs|
    ensures FinishersOk(TakeTurn(sys, a))
  {
    hide TakeTurn, Progress;
    StatusOfTurn(sys, a);
  }

  lemma StaysFinished(st: Store, r: Run)
    requires Progress(r) && r.stage == Finished
    ensures Advance(st, r) == r
  {
    hide FanOutOp, PlanOp, RestoreOp, AfterFanOut, AfterRestore, AfterRead;
  }

  // ------------------------------------------------------------- every interleaving

  lemma {:induction false} TurnKeepsInv(sys: System, a: nat)
    requires Runnable(sys) && Inv(sys) && a < |sys.runs|
    ensures Inv(TakeTurn(sys, a))
  {
    hide RunOk, Progress, TablesOk, FinishersOk, Apply, NextOp, Advance, Grow;
    OwnStep(sys, a);
    forall b | 0 <= b < |sys.runs| && b != a ensures RunOk(TakeTurn(sys, a).st, sys.runs[b]) {
      TurnKeepsOther(sys, a, b);
    }
    TurnKeepsTables(sys, a);
    TurnKeepsFinishers(sys, a);
  }

  lemma {:induction false} LaunchedTable<R(!new)>(table: seq<R>, from: seq<Origin>, own: seq<seq<R>>, own': seq<seq<R>>,
                                                  idOf: R -> ID, posOf: R -> nat, draws: nat, draws': nat)
    requires TableOk(table, from, own, idOf, posOf, draws) && draws <= draws'
    requires own' == own || own' == own + [[]]
    ensures TableOk(table, from, own', idOf, posOf, draws')
  {
    forall b | 0 <= b < |own'| ensures OwnedRows(from, b, own'[b], posOf) {
      if b < |own| { assert OwnedRows(from, b, own[b], posOf); }
    }
  }

  lemma {:induction false} LaunchKeepsInv(sys: System, e: ID)
    requires Runnable(sys) && Inv(sys)
    ensures Inv(sys.(runs := sys.runs + [Start(e)]))
  {
    var runs' := sys.runs + [Start(e)];
    assert RunOk(sys.st, Start(e));
    hide RunOk, Progress, TableOk;
    assert TasksOf(runs') == TasksOf(sys.runs) + [[]] && ActionsOf(runs') == ActionsOf(sys.runs) + [[]];
    assert CommandsOf(runs') == CommandsOf(sys.runs) + [[]] && ExecutionsOf(runs') == ExecutionsOf(sys.runs) + [[]];
    var d := sys.st.draws;
    LaunchedTable(sys.st.tasks, sys.taskFrom, TasksOf(sys.runs), TasksOf(runs'), TaskIDOf, TaskPos, d, d);
    LaunchedTable(sys.st.actions, sys.actionFrom, ActionsOf(sys.runs), ActionsOf(runs'), ActionIDOf, ActionPos, d, d);
    LaunchedTable(sys.st.commands, sys.commandFrom, CommandsOf(sys.runs), CommandsOf(runs'), CommandIDOf, CommandPos, d, d);
    LaunchedTable(sys.st.executions, sys.executionFrom, ExecutionsOf(sys.runs), ExecutionsOf(runs'), ExecutionIDOf, ExecutionPos, d, d);
  }

  /** Other requests add pending events and messages, and leave the workflow's tables alone. */
  lemma {:induction false} OutsideKeepsInv(sys: System, st': Store)
    requires Runnable(sys) && Inv(sys)
    requires st'.tasks == sys.st.tasks && st'.actions == sys.st.actions && st'.commands == sys.st.commands
    requires st'.executions == sys.st.executions && st'.summaries == sys.st.summaries && sys.st.draws <= st'.draws
    requires forall e :: e in sys.st.events ==> e in st'.events && st'.events[e] == sys.st.events[e]
    requires forall e :: e in st'.events && e !in sys.st.events ==> st'.events[e].status != "round_finished"
    ensures Inv(sys.(st := st'))
  {
    var d, d' := sys.st.draws, st'.draws;
    forall a | 0 <= a < |sys.runs| ensures RunOk(st', sys.runs[a]) {
      OutsideRunOk(sys.st, st', sys.runs[a]);
    }
    hide RunOk, Progress, TableOk;
    LaunchedTable(sys.st.tasks, sys.taskFrom, TasksOf(sys.runs), TasksOf(sys.runs), TaskIDOf, TaskPos, d, d');
    LaunchedTable(sys.st.actions, sys.actionFrom, ActionsOf(sys.runs), ActionsOf(sys.runs), ActionIDOf, ActionPos, d, d');
    LaunchedTable(sys.st.commands, sys.commandFrom, CommandsOf(sys.runs), CommandsOf(sys.runs), CommandIDOf, CommandPos, d, d');
    LaunchedTable(sys.st.executions, sys.executionFrom, ExecutionsOf(sys.runs), ExecutionsOf(sys.runs), ExecutionIDOf, ExecutionPos, d, d');
  }

  lemma OutsideRunOk(st: Store, st': Store, r: Run)
    requires RunOk(st, r)
    requires st'.tasks == st.tasks && st'.actions == st.actions && st'.commands == st.commands
    requires st'.executions == st.executions && st'.summaries == st.summaries && st.events.Keys <= st'.events.Keys
    ensures RunOk(st', r)
  {
    hide Progress, Chain, TaskRows, ActionRows, CommandRows, ExecutionRows, SummaryRow';
  }

  lemma {:induction false} NextKeepsInv(sys: System, l: Label)
    requires Runnable(sys) && Inv(sys)
    ensures Inv(Next(sys, l))
  {
    hide Inv, TakeTurn, MessageRow;
    match l
    case Launch(e) => LaunchKeepsInv(sys, e);
    case Turn(a) => if a < |sys.runs| { TurnKeepsInv(sys, a); }
    case Register(event) => OutsideKeepsInv(sys, CreateEvent(sys.st, event.(status := "pending")));
    case Write(m) => OutsideKeepsInv(sys, AddMessage(sys.st, m));
  }

  lemma InitialInv(sys: System)
    requires Initial(sys)
    ensures Inv(sys)
  {
    hide RunOk, Progress;
    EmptyTable<Task>(TaskIDOf, TaskPos, sys.st.draws);
    EmptyTable<Action>(ActionIDOf, ActionPos, sys.st.draws);
    EmptyTable<Command>(CommandIDOf, CommandPos, sys.st.draws);
    EmptyTable<Execution>(ExecutionIDOf, ExecutionPos, sys.st.draws);
    hide TableOk;
    assert TasksOf(sys.runs) == [] && ActionsOf(sys.runs) == [] && CommandsOf(sys.runs) == [] && ExecutionsOf(sys.runs) == [];
  }

  lemma EmptyTable<R(!new)>(idOf: R -> ID, posOf: R -> nat, draws: nat)
    ensures TableOk([], [], [], idOf, posOf, draws)
  {
  }

  /** The invariant holds after every schedule of every number of runs. */
  lemma {:induction false} ReachableInv(sys: System, labels: seq<Label>)
    requires Initial(sys)
    ensures Inv(Execute(sys, labels))
  {
    hide Next, Inv;
    if labels == [] {
      InitialInv(sys);
    } else {
      ReachableInv(sys, labels[..|labels| - 1]);
      NextKeepsInv(Execute(sys, labels[..|labels| - 1]), labels[|labels| - 1]);
    }
  }
}
