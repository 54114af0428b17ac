/** The automation hook (internal/httpapi/driving_mode_hooks.go) around the endpoint that takes in pushed
    records: after a push that succeeded it may run the workflow on the event it finds in the response
    or, failing that, in the request. */
module DrivingMode {
  import opened Json
  import opened Strings
  import opened Domain
  import opened StoreModel
  import opened Ingest
  import opened Sync
  import W = Workflow
  import R = WorkflowRerun

  // ----------------------------------------------------- finding the event

  const EVENT_KEYS := ["event_id", "eventId", "eventID", "deepsoc_event_id", "deepSOCEventID", "deepSocEventID", "id"]
  const FLAG_KEYS := ["auto_driving", "autoDriving", "driving_mode", "drivingMode", "autopilot", "ai_analysis", "aiAnalysis"]

  function FirstString(m: Fields, keys: seq<string>): string {
    if keys == [] then ""
    else if keys[0] in m && m[keys[0]].Str? && m[keys[0]].s != "" then m[keys[0]].s
    else FirstString(m, keys[1..])
  }

  function DrivingEventFrom(v: Value): string
    requires v.Obj?
  {
    var id := FirstString(v.fields, EVENT_KEYS);
    if id == "" && "upstream" in v.fields && v.fields["upstream"].Obj? then DrivingEventFrom(v.fields["upstream"]) else id
  }

  function DrivingEventFromMap(m: Fields): string { DrivingEventFrom(Obj(m, "")) }

  function DrivingEventFromResponse(env: Fields): string {
    if "data" in env && env["data"].Obj? then DrivingEventFromMap(env["data"].fields) else DrivingEventFromMap(env)
  }

  function FlagOf(v: Value): Option<bool> {
    match v
    case Bool(b) => Some(b)
    case Str(s) =>
      (match ToLower(TrimSpace(s))
       case "1" | "true" | "yes" | "y" | "on" => Some(true)
       case "0" | "false" | "no" | "n" | "off" => Some(false)
       case _ => None)
    case _ => None
  }

  /** The first key that holds something readable as a flag decides. */
  function BoolRequestValue(m: Fields, keys: seq<string>): Option<bool> {
    if keys == [] then None
    else if keys[0] in m && FlagOf(m[keys[0]]).Some? then FlagOf(m[keys[0]])
    else BoolRequestValue(m, keys[1..])
  }

  function ShouldAutoDrive(path: string, body: Fields): bool {
    var flag := BoolRequestValue(body, FLAG_KEYS);
    if flag.Some? then flag.value else path == "/api/event/create" || path == "/internal/event/push"
  }

  /** A pushed record and the body it was read from. */
  datatype Request = Request(path: string, ly: LyRecord, body: Fields)

  function Shown(id: ID): string { if id.Text? then id.s else "" }

  /** What `ProcessLyEvent` answers; `reply` is the upstream reply, if there was one. */
  function Response(ly: LyRecord, outcome: Outcome, reply: Option<Fields>): Fields {
    match outcome
    case Failure => map[]
    case Duplicate(id) =>
      map["skipped" := Bool(true), "reason" := Str("duplicate"), "fingerprint" := Str(ly.fp), "ly_id" := Str(ly.lyID),
          "deepsoc_event_id" := Str(Shown(id))]
    case Created(id) =>
      var res := map["success" := Bool(true), "fingerprint" := Str(ly.fp), "ly_event_id" := Str(ly.lyID),
                     "deepsoc_event_id" := Str(Shown(id))];
      if reply.Some? then res["upstream" := Obj(reply.value, "")] else res
  }

  /** The response names the event bound to the record, or else what the upstream reply named. */
  lemma ResponseNames(ly: LyRecord, outcome: Outcome, reply: Option<Fields>)
    requires !outcome.Failure?
    ensures DrivingEventFromResponse(Response(ly, outcome, reply)) ==
            if Shown(outcome.id) != "" then Shown(outcome.id)
            else if outcome.Created? && reply.Some? then DrivingEventFromMap(reply.value) else ""
  {
    var m := Response(ly, outcome, reply);
    assert "data" !in m;
    OnlyOneKey(m, Shown(outcome.id));
    hide FirstString;
  }

  lemma OnlyOneKey(m: Fields, id: string)
    requires "event_id" !in m && "eventId" !in m && "eventID" !in m && "deepSOCEventID" !in m && "deepSocEventID" !in m && "id" !in m
    requires "deepsoc_event_id" in m && m["deepsoc_event_id"] == Str(id)
    ensures FirstString(m, EVENT_KEYS) == id
  {
    Skipped(m, EVENT_KEYS);
    Skipped(m, EVENT_KEYS[1..]);
    Skipped(m, EVENT_KEYS[2..]);
    if id == "" {
      Skipped(m, EVENT_KEYS[3..]);
      Skipped(m, EVENT_KEYS[4..]);
      Skipped(m, EVENT_KEYS[5..]);
      Skipped(m, EVENT_KEYS[6..]);
    }
  }

  lemma Skipped(m: Fields, keys: seq<string>)
    requires keys != [] && (keys[0] !in m || m[keys[0]] == Str(""))
    ensures FirstString(m, keys) == FirstString(m, keys[1..])
  {
  }

  // ------------------------------------------------------------- one push

  /** The store, how many events were forwarded, and the driving-mode flag. */
  datatype Server = Server(st: Store, asked: nat, driving: bool)

  /** What the hook takes for the event, after a push that succeeded. */
  function Resolve(up: Upstream, asked: nat, req: Request, outcome: Outcome): ID {
    var reply := if up.On? && up.answer(asked).Accepted? then Some(up.answer(asked).reply) else None;
    var id := DrivingEventFromResponse(Response(req.ly, outcome, reply));
    Text(if id != "" then id else DrivingEventFromMap(req.body))
  }

  /** The event on which the hook runs the workflow, if it does. */
  function Driven(up: Upstream, d: Server, req: Request): Option<ID> {
    var outcome := Process(up, d.st, d.asked, req.ly).2;
    if outcome.Failure? then None
    else
      var id := Resolve(up, d.asked, req, outcome);
      if id != NO_ID && (d.driving || ShouldAutoDrive(req.path, req.body)) then Some(id) else None
  }

  /** The hook switches driving mode on when the request, not the flag, asks for automation. */
  function Push(up: Upstream, d: Server, req: Request): Server {
    var (st', asked', _) := Process(up, d.st, d.asked, req.ly);
    match Driven(up, d, req)
    case None => Server(st', asked', d.driving)
    case Some(id) => Server(W.RunWorkflow(st', id), asked', true)
  }

  /** A record pushed, with its own path and body, or the flag set from outside. */
  datatype Move = Pushed(req: Request) | Toggle(on: bool)

  function Make(up: Upstream, d: Server, move: Move): Server {
    match move
    case Pushed(req) => Push(up, d, req)
    case Toggle(on) => d.(driving := on)
  }

  function Moves(up: Upstream, d: Server, moves: seq<Move>): Server {
    if moves == [] then d else Make(up, Moves(up, d, moves[..|moves| - 1]), moves[|moves| - 1])
  }

  /** All pushes are of records with this fingerprint. */
  predicate PushesOf(moves: seq<Move>, fp: Digest) {
    forall i :: 0 <= i < |moves| && moves[i].Pushed? ==> moves[i].req.ly.fp == fp
  }

  // ------------------------------------------------- what the workflow leaves alone

  lemma {:induction false} ApplyKeepsIndex(st: Store, e: ID, op: W.Op)
    ensures var st' := W.Apply(st, e, op); st'.eventMaps == st.eventMaps && st'.events.Keys == st.events.Keys
  {
    hide MessageRow, TaskRow, ActionRow, CommandRow, ExecutionRow, StoreModel.SummaryRow, Find, PatchTask, PatchAction,
      PatchCommand, Drew;
  }

  /** A run on any event removes no task, and leaves fingerprints and the set of events alone. */
  lemma {:induction false} RunKeeps(st: Store, r: W.Run, e: ID)
    requires W.Progress(r)
    ensures var st' := W.RunToEnd(st, r).0;
            && st'.eventMaps == st.eventMaps && st'.events.Keys == st.events.Keys && (R.HasTask(st, e) ==> R.HasTask(st', e))
    decreases 30 - W.Rank(r.stage), W.Left(r)
  {
    hide W.Apply, W.NextOp, W.Advance, R.HasTask;
    if !W.Terminal(r.stage) {
      W.AdvanceMakesProgress(st, r);
      var op := W.NextOp(r);
      ApplyKeepsIndex(st, r.on.eventID, op);
      ApplyKeepsTasksOf(st, r.on.eventID, op, e);
      RunKeeps(W.Apply(st, r.on.eventID, op), W.Advance(st, r), e);
    }
  }

  lemma {:induction false} ApplyKeepsTasksOf(st: Store, e: ID, op: W.Op, e': ID)
    ensures R.HasTask(st, e') ==> R.HasTask(W.Apply(st, e, op), e')
  {
    hide W.Apply, MessageRow;
    if op.Post? || op.SetStatus? || op.InsertTask? || op.PatchTaskRow? {
      R.TouchingApply(st, e, op);
    } else {
      R.PlainApply(st, e, op);
    }
    if R.HasTask(st, e') { R.TasksOfEventStay(st, W.Apply(st, e, op), e'); }
  }

  /** Pushing a record whose fingerprint is known does no more than run the workflow. */
  lemma KnownPush(up: Upstream, d: Server, req: Request)
    requires req.ly.fp in d.st.eventMaps
    ensures Process(up, d.st, d.asked, req.ly) == (d.st, d.asked, Duplicate(BoundID(d.st, req.ly.fp)))
  {
    ProcessEnds(up, d.st, d.asked, req.ly);
    hide Process, LocalEvent, CreateEvent, AddMessage, BindEventMap, Notification, BoundID;
  }

  // ------------------------------------------------------------- one event, one binding

  /** Once the fingerprint is known, pushes create, bind and forward nothing more. */
  lemma {:induction false} KnownStaysPut(up: Upstream, d: Server, fp: Digest, moves: seq<Move>)
    requires fp in d.st.eventMaps && PushesOf(moves, fp)
    ensures var d' := Moves(up, d, moves);
            d'.st.eventMaps == d.st.eventMaps && d'.st.events.Keys == d.st.events.Keys && d'.asked == d.asked
  {
    hide Process, W.RunWorkflow, Driven;
    if moves != [] {
      var d1, move := Moves(up, d, moves[..|moves| - 1]), moves[|moves| - 1];
      KnownStaysPut(up, d, fp, moves[..|moves| - 1]);
      if move.Pushed? {
        KnownPush(up, d1, move.req);
        if Driven(up, d1, move.req).Some? { WorkflowKeepsIndex(d1.st, Driven(up, d1, move.req).value); }
      }
    }
  }

  lemma WorkflowKeepsIndex(st: Store, e: ID)
    ensures var st' := W.RunWorkflow(st, e); st'.eventMaps == st.eventMaps && st'.events.Keys == st.events.Keys
  {
    RunKeeps(st, W.Start(e), e);
  }

  /** What the first push of a fingerprint can do to fingerprints, events and the upstream. */
  lemma FirstPush(up: Upstream, d: Server, req: Request)
    requires req.ly.fp !in d.st.eventMaps
    ensures var (st', asked', _) := Process(up, d.st, d.asked, req.ly);
            && st'.eventMaps.Keys == d.st.eventMaps.Keys + {req.ly.fp}
            && (forall fp :: fp in d.st.eventMaps ==> st'.eventMaps[fp] == d.st.eventMaps[fp])
            && (st'.events.Keys == d.st.events.Keys || st'.events.Keys == d.st.events.Keys + {LocalEvent(req.ly).eventID})
            && d.asked <= asked' <= d.asked + 1
  {
    ProcessEnds(up, d.st, d.asked, req.ly);
    LocalEventIsNamed(req.ly);
    hide Process, LocalEvent, Notification, MessageRow, Drew;
  }

  /** Nothing was added to the events, or the event of one of the pushed records. */
  ghost predicate AddsAtMostOne(before: set<ID>, after: set<ID>, moves: seq<Move>) {
    after == before || exists i :: 0 <= i < |moves| && moves[i].Pushed? && after == before + {LocalEvent(moves[i].req.ly).eventID}
  }

  lemma {:induction false} AddsAtMostOneStill(before: set<ID>, after: set<ID>, moves: seq<Move>)
    requires moves != [] && AddsAtMostOne(before, after, moves[..|moves| - 1])
    ensures AddsAtMostOne(before, after, moves)
  {
    hide LocalEvent;
    if after != before {
      var i :| 0 <= i < |moves| - 1 && moves[i].Pushed? && after == before + {LocalEvent(moves[..|moves| - 1][i].req.ly).eventID};
      assert after == before + {LocalEvent(moves[i].req.ly).eventID};
    }
  }

  ghost predicate OneMore(d: Server, d': Server, fp: Digest, moves: seq<Move>) {
    if fp in d'.st.eventMaps then
      && d'.st.eventMaps.Keys == d.st.eventMaps.Keys + {fp}
      && (forall fp' :: fp' in d.st.eventMaps ==> d'.st.eventMaps[fp'] == d.st.eventMaps[fp'])
      && AddsAtMostOne(d.st.events.Keys, d'.st.events.Keys, moves)
      && d.asked <= d'.asked <= d.asked + 1
    else d'.st == d.st && d'.asked == d.asked
  }

  /** Any series of pushes of one fingerprint, whatever their bodies and whatever happens to the flag in
      between: at most one event, one binding and one event forwarded. */
  lemma {:induction false} OneEventOneBinding(up: Upstream, d: Server, fp: Digest, moves: seq<Move>)
    requires PushesOf(moves, fp)
    ensures OneMore(d, Moves(up, d, moves), fp, moves)
  {
    if moves == [] {
      assert fp in d.st.eventMaps ==> d.st.eventMaps.Keys == d.st.eventMaps.Keys + {fp};
    } else {
      hide Process, W.RunWorkflow, Driven, LocalEvent, AddsAtMostOne;
      var d1, move := Moves(up, d, moves[..|moves| - 1]), moves[|moves| - 1];
      OneEventOneBinding(up, d, fp, moves[..|moves| - 1]);
      if fp in d1.st.eventMaps { AddsAtMostOneStill(d.st.events.Keys, d1.st.events.Keys, moves); }
      if move.Pushed? {
        if fp in d1.st.eventMaps {
          KnownPush(up, d1, move.req);
        } else {
          FirstPush(up, d1, move.req);
          FirstAdds(d.st.events.Keys, Process(up, d1.st, d1.asked, move.req.ly).0.events.Keys, moves);
        }
        if Driven(up, d1, move.req).Some? {
          WorkflowKeepsIndex(Process(up, d1.st, d1.asked, move.req.ly).0, Driven(up, d1, move.req).value);
        }
      }
    }
  }

  lemma FirstAdds(before: set<ID>, after: set<ID>, moves: seq<Move>)
    requires moves != [] && moves[|moves| - 1].Pushed?
    requires after == before || after == before + {LocalEvent(moves[|moves| - 1].req.ly).eventID}
    ensures AddsAtMostOne(before, after, moves)
  {
    hide LocalEvent;
  }

  // ------------------------------------------------------------------ one set of rows

  ghost predicate SameWork(st: Store, st': Store) {
    st'.tasks == st.tasks && st'.actions == st.actions && st'.commands == st.commands && st'.executions == st.executions
  }

  /** How many of the moves wrote rows while driving event e. */
  ghost function WritesFor(up: Upstream, d: Server, moves: seq<Move>, e: ID): nat {
    if moves == [] then 0
    else
      var d1 := Moves(up, d, moves[..|moves| - 1]);
      var move := moves[|moves| - 1];
      WritesFor(up, d, moves[..|moves| - 1], e)
      + (if move.Pushed? && Driven(up, d1, move.req) == Some(e) && !SameWork(d1.st, Make(up, d1, move).st) then 1 else 0)
  }

  lemma ProcessKeepsWork(up: Upstream, st: Store, asked: nat, ly: LyRecord)
    ensures SameWork(st, Process(up, st, asked, ly).0)
  {
    ProcessEnds(up, st, asked, ly);
    hide Process, LocalEvent, EventRow, MessageRow, Notification, Drew;
  }

  /** A run writes rows only over an event without tasks, and leaves it with tasks. */
  lemma {:induction false} RunWritesOnce(st: Store, e: ID)
    ensures !SameWork(st, W.RunWorkflow(st, e)) ==> !R.HasTask(st, e) && R.HasTask(W.RunWorkflow(st, e), e)
  {
    R.OutcomeOfRun(st, e);
    if e in st.events && !R.HasRows(st, e) { R.FreshEvent(st, e); }
    if R.HasTask(st, e) { R.HasTaskIsListed(st, e); }
    hide W.RunToEnd, R.Announced, R.HasTask, ListTasks, ListExecutions;
  }

  lemma {:induction false} MoveKeepsTasks(up: Upstream, d: Server, move: Move, e: ID)
    requires R.HasTask(d.st, e)
    ensures R.HasTask(Make(up, d, move).st, e)
  {
    hide Process, Driven, W.RunToEnd;
    if move.Pushed? {
      ProcessKeepsWork(up, d.st, d.asked, move.req.ly);
      var st' := Process(up, d.st, d.asked, move.req.ly).0;
      assert R.HasTask(st', e);
      if Driven(up, d, move.req).Some? { RunKeeps(st', W.Start(Driven(up, d, move.req).value), e); }
    }
  }

  /** However often records are pushed, of one fingerprint or many, and whatever happens to the flag, each
      event the hook drives gets at most one set of tasks, actions, commands and executions. */
  lemma {:induction false} OneSetOfRows(up: Upstream, d: Server, moves: seq<Move>, e: ID)
    ensures WritesFor(up, d, moves, e) <= 1
    ensures WritesFor(up, d, moves, e) == 1 || R.HasTask(d.st, e) ==> R.HasTask(Moves(up, d, moves).st, e)
    ensures R.HasTask(d.st, e) ==> WritesFor(up, d, moves, e) == 0
  {
    hide Process, W.RunWorkflow, Driven, R.HasTask, SameWork;
    if moves != [] {
      var d1, move := Moves(up, d, moves[..|moves| - 1]), moves[|moves| - 1];
      OneSetOfRows(up, d, moves[..|moves| - 1], e);
      if R.HasTask(d1.st, e) { MoveKeepsTasks(up, d1, move, e); }
      if move.Pushed? && Driven(up, d1, move.req) == Some(e) { DrivenWritesOnce(up, d1, move.req, e); }
    }
  }

  lemma DrivenWritesOnce(up: Upstream, d: Server, req: Request, e: ID)
    requires Driven(up, d, req) == Some(e)
    ensures !SameWork(d.st, Push(up, d, req).st) ==> !R.HasTask(d.st, e) && R.HasTask(Push(up, d, req).st, e)
  {
    hide W.RunWorkflow, Process, Driven;
    ProcessKeepsWork(up, d.st, d.asked, req.ly);
    RunWritesOnce(Process(up, d.st, d.asked, req.ly).0, e);
  }

  // ------------------------------------------------------------------------ settled

  /** What the hook takes for the event of a known fingerprint: the bound event, or what the body names. */
  function KnownEvent(st: Store, req: Request): ID {
    var bound := Shown(BoundID(st, req.ly.fp));
    Text(if bound != "" then bound else DrivingEventFromMap(req.body))
  }

  lemma KnownDriven(up: Upstream, d: Server, req: Request)
    requires req.ly.fp in d.st.eventMaps
    ensures var id := KnownEvent(d.st, req);
            Driven(up, d, req) == if id != NO_ID && (d.driving || ShouldAutoDrive(req.path, req.body)) then Some(id) else None
  {
    KnownPush(up, d, req);
    var reply := if up.On? && up.answer(d.asked).Accepted? then Some(up.answer(d.asked).reply) else None;
    ResponseNames(req.ly, Duplicate(BoundID(d.st, req.ly.fp)), reply);
    hide Process, Response, DrivingEventFromResponse, ShouldAutoDrive, DrivingEventFromMap, BoundID;
  }

  /** Running the workflow of what the request resolves to changes nothing. */
  ghost predicate Settled(st: Store, req: Request) {
    KnownEvent(st, req) == NO_ID || W.RunWorkflow(st, KnownEvent(st, req)) == st
  }

  /** Once the fingerprint is known and the workflow of what each request resolves to has run, no further
      push changes the store, whatever happens to the flag. */
  lemma {:induction false} SettledForGood(up: Upstream, d: Server, fp: Digest, moves: seq<Move>)
    requires fp in d.st.eventMaps && PushesOf(moves, fp)
    requires forall i :: 0 <= i < |moves| && moves[i].Pushed? ==> Settled(d.st, moves[i].req)
    ensures Moves(up, d, moves).st == d.st
  {
    hide Process, W.RunWorkflow, Driven, KnownEvent;
    if moves != [] {
      var d1, move := Moves(up, d, moves[..|moves| - 1]), moves[|moves| - 1];
      SettledForGood(up, d, fp, moves[..|moves| - 1]);
      if move.Pushed? {
        KnownPush(up, d1, move.req);
        KnownDriven(up, d1, move.req);
      }
    }
  }

  /** Whether a later request of the same fingerprint resolves to what this one drove, told from what is
      known when this one is pushed: a bound event is what every request resolves to; otherwise the bodies
      decide. Without an upstream the first push binds. */
  predicate Agrees(up: Upstream, d: Server, req: Request, later: Request) {
    var sameBody := DrivingEventFromMap(later.body) == DrivingEventFromMap(req.body);
    && later.ly.fp == req.ly.fp
    && if req.ly.fp in d.st.eventMaps then Shown(BoundID(d.st, req.ly.fp)) != "" || sameBody
       else
         match up
         case Off => true
         case On(answer) =>
           var reply := answer(d.asked);
           reply.Refused? || ExtractEventID(reply.reply) != "" || (DrivingEventFromMap(reply.reply) == "" && sameBody)
  }

  lemma FirstBinding(up: Upstream, d: Server, req: Request)
    requires req.ly.fp !in d.st.eventMaps && !Process(up, d.st, d.asked, req.ly).2.Failure?
    ensures var (st', _, outcome) := Process(up, d.st, d.asked, req.ly);
            && outcome.Created? && outcome.id.Text? && req.ly.fp in st'.eventMaps && BoundID(st', req.ly.fp) == outcome.id
            && (up.Off? ==> outcome.id != NO_ID)
            && (up.On? ==> up.answer(d.asked).Accepted? && outcome.id == Text(ExtractEventID(up.answer(d.asked).reply)))
  {
    ProcessEnds(up, d.st, d.asked, req.ly);
    LocalEventIsNamed(req.ly);
    hide Process, LocalEvent, EventRow, MessageRow, Notification, Drew, ExtractEventID;
  }

  /** After a push that drove the workflow, agreeing requests resolve to the event it drove. */
  lemma AgreeingResolve(up: Upstream, d: Server, req: Request, later: Request)
    requires Driven(up, d, req).Some? && Agrees(up, d, req, later)
    ensures var st1 := Process(up, d.st, d.asked, req.ly).0;
            req.ly.fp in st1.eventMaps && KnownEvent(st1, later) == Driven(up, d, req).value
  {
    hide Response, DrivingEventFromResponse, ShouldAutoDrive, DrivingEventFromMap, BoundID, ExtractEventID;
    if req.ly.fp in d.st.eventMaps {
      KnownPush(up, d, req);
      KnownDriven(up, d, req);
      hide Process, Driven;
    } else {
      var outcome := Process(up, d.st, d.asked, req.ly).2;
      FirstBinding(up, d, req);
      var reply := if up.On? && up.answer(d.asked).Accepted? then Some(up.answer(d.asked).reply) else None;
      ResponseNames(req.ly, outcome, reply);
      hide Process;
    }
  }

  /** The first push that drives the workflow settles the matter, whether the fingerprint was new, bound or
      only reserved: all later pushes that resolve to the same event leave the store as it is, whatever
      happens to the flag. Without an upstream these are all pushes of the fingerprint, unless it is
      reserved without a binding; then they are those whose bodies name the same event. */
  lemma {:induction false} DrivenOnceIsSettled(up: Upstream, d: Server, req: Request, moves: seq<Move>)
    requires Driven(up, d, req).Some?
    requires forall i :: 0 <= i < |moves| && moves[i].Pushed? ==> Agrees(up, d, req, moves[i].req)
    ensures var d' := Push(up, d, req); Moves(up, d', moves).st == d'.st
  {
    hide Process, Driven, W.RunWorkflow, Agrees, KnownEvent;
    var st1, e, d' := Process(up, d.st, d.asked, req.ly).0, Driven(up, d, req).value, Push(up, d, req);
    assert d'.st == W.RunWorkflow(st1, e);
    WorkflowKeepsIndex(st1, e);
    R.RunningTwiceIsRunningOnce(st1, e);
    forall i | 0 <= i < |moves| && moves[i].Pushed?
      ensures moves[i].req.ly.fp == req.ly.fp && req.ly.fp in d'.st.eventMaps && Settled(d'.st, moves[i].req)
    {
      AgreesOnRecord(up, d, req, moves[i].req);
      AgreeingResolve(up, d, req, moves[i].req);
      SameKnownEvent(st1, d'.st, moves[i].req);
    }
    if req.ly.fp in d'.st.eventMaps {
      SettledForGood(up, d', req.ly.fp, moves);
    } else {
      OnlyToggles(up, d', moves);
    }
  }

  lemma AgreesOnRecord(up: Upstream, d: Server, req: Request, later: Request)
    requires Agrees(up, d, req, later)
    ensures later.ly.fp == req.ly.fp
  {
  }

  lemma SameKnownEvent(st: Store, st': Store, req: Request)
    requires st'.eventMaps == st.eventMaps
    ensures KnownEvent(st', req) == KnownEvent(st, req)
  {
    hide DrivingEventFromMap;
  }

  lemma {:induction false} OnlyToggles(up: Upstream, d: Server, moves: seq<Move>)
    requires forall i :: 0 <= i < |moves| ==> moves[i].Toggle?
    ensures Moves(up, d, moves).st == d.st
  {
    hide Push;
    if moves != [] { OnlyToggles(up, d, moves[..|moves| - 1]); }
  }

  /** The same request, pushed again and again with no upstream, always agrees with itself. */
  lemma SameRequestAgrees(d: Server, req: Request)
    ensures Agrees(Off, d, req, req)
  {
  }
}
