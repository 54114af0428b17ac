/** `ProcessLyEvent` and `RunSyncOnce` (internal/service/services.go) over the memory store. One
    undisturbed call is the call of module Ingest taken to its end. */
module Sync {
  import opened Json
  import opened Strings
  import opened Domain
  import opened StoreModel
  import opened Ingest
  import opened MemoryStores

  // -------------------------------------------------------------- one record

  /** No upstream, or its answer to each event forwarded, in turn. */
  datatype Upstream = Off | On(answer: nat -> Answer)

  function TurnsLeft(s: Stage): nat {
    match s
    case Reserving => 5 case Rereading => 1 case Creating => 4 case Binding(_) => 3 case Announcing(_) => 2 case Answered(_) => 0
  }

  /** A call nobody interrupts. */
  function Finish(upstream: bool, st: Store, call: Call, answer: Answer): (Store, Outcome)
    decreases TurnsLeft(call.at)
  {
    match call.at
    case Answered(outcome) => (st, outcome)
    case _ =>
      var (st', at') := Step(upstream, st, call, answer);
      Finish(upstream, st', At(call, at'), answer)
  }

  /** The store, how many events were forwarded upstream, and what the call returned. */
  function Process(up: Upstream, st: Store, asked: nat, ly: LyRecord): (Store, nat, Outcome) {
    var (st', outcome) := Finish(up.On?, st, Push(ly, Reserving), if up.On? then up.answer(asked) else Refused);
    (st', if up.On? && ly.fp !in st.eventMaps then asked + 1 else asked, outcome)
  }

  lemma ReserveKeepsEvents(st: Store, fp: string)
    ensures ReserveFingerprint(st, fp).events == st.events
  {
  }

  lemma Taken(upstream: bool, st: Store, call: Call, answer: Answer, st': Store, at': Stage)
    requires !call.at.Answered? && Step(upstream, st, call, answer) == (st', at')
    ensures Finish(upstream, st, call, answer) == Finish(upstream, st', At(call, at'), answer)
    ensures at'.Answered? ==> Finish(upstream, st, call, answer) == (st', at'.outcome)
  {
    hide Step;
  }

  /** A call that reserved its fingerprint, with no upstream. */
  lemma LocalWinner(st: Store, ly: LyRecord, answer: Answer)
    ensures var e := LocalEvent(ly);
            Finish(false, st, Push(ly, Creating), answer) ==
            if e.eventID in st.events then (st, Failure)
            else
              (AddMessage(BindEventMap(CreateEvent(st, e), ly.fp, ly.lyID, e.eventID), Notification(e.eventID)), Created(e.eventID))
  {
    hide AddMessage, Notification, LyEventToDeepSOC, BindEventMap, Severity, Finish;
    LocalEventIsNamed(ly);
    hide LocalEvent;
    var e := LocalEvent(ly);
    var st2 := CreateEvent(st, e);
    var id := e.eventID;
    if id in st.events {
      Taken(false, st, Push(ly, Creating), answer, st, Answered(Failure));
    } else {
      Taken(false, st, Push(ly, Creating), answer, st2, Binding(id));
      hide CreateEvent, EventRow;
      var st3 := BindEventMap(st2, ly.fp, ly.lyID, id);
      Taken(false, st2, Push(ly, Binding(id)), answer, st3, Announcing(id));
      Taken(false, st3, Push(ly, Announcing(id)), answer, AddMessage(st3, Notification(id)), Answered(Created(id)));
      hide Step;
    }
  }

  lemma UpstreamWinner(st: Store, ly: LyRecord, answer: Answer)
    ensures Finish(true, st, Push(ly, Creating), answer) ==
            if answer.Refused? then (st, Failure)
            else (BindEventMap(st, ly.fp, ly.lyID, Text(ExtractEventID(answer.reply))), Created(Text(ExtractEventID(answer.reply))))
  {
    hide BindEventMap, CreateEvent, EventRow, LocalEvent, Finish, ExtractEventID;
    if answer.Refused? {
      Taken(true, st, Push(ly, Creating), answer, st, Answered(Failure));
    } else {
      var id := Text(ExtractEventID(answer.reply));
      var st' := BindEventMap(st, ly.fp, ly.lyID, id);
      Taken(true, st, Push(ly, Creating), answer, st, Binding(id));
      Taken(true, st, Push(ly, Binding(id)), answer, st', Answered(Created(id)));
    }
  }

  lemma Entered(upstream: bool, st: Store, ly: LyRecord, answer: Answer)
    ensures ly.fp in st.eventMaps ==> Finish(upstream, st, Push(ly, Reserving), answer) == (st, Duplicate(BoundID(st, ly.fp)))
    ensures ly.fp !in st.eventMaps ==>
              Finish(upstream, st, Push(ly, Reserving), answer)
              == Finish(upstream, ReserveFingerprint(st, ly.fp), Push(ly, Creating), answer)
  {
    hide BoundID, ReserveFingerprint, CreateEvent, EventRow, LocalEvent, Finish;
    if ly.fp in st.eventMaps {
      Taken(upstream, st, Push(ly, Reserving), answer, st, Rereading);
      Taken(upstream, st, Push(ly, Rereading), answer, st, Answered(Duplicate(BoundID(st, ly.fp))));
    } else {
      Taken(upstream, st, Push(ly, Reserving), answer, ReserveFingerprint(st, ly.fp), Creating);
    }
  }

  /** The ends a call can come to, written out. */
  lemma ProcessEnds(up: Upstream, st: Store, asked: nat, ly: LyRecord)
    ensures var st1 := ReserveFingerprint(st, ly.fp);
            var e := LocalEvent(ly);
            Process(up, st, asked, ly) ==
            if ly.fp in st.eventMaps then (st, asked, Duplicate(BoundID(st, ly.fp)))
            else if up.On? && up.answer(asked).Refused? then (st1, asked + 1, Failure)
            else if up.On? then
              (BindEventMap(st1, ly.fp, ly.lyID, Text(ExtractEventID(up.answer(asked).reply))), asked + 1, Created(Text(ExtractEventID(up.answer(asked).reply))))
            else if e.eventID in st.events then (st1, asked, Failure)
            else
              (AddMessage(BindEventMap(CreateEvent(st1, e), ly.fp, ly.lyID, e.eventID), Notification(e.eventID)), asked,
               Created(e.eventID))
  {
    var answer := if up.On? then up.answer(asked) else Refused;
    var st1 := ReserveFingerprint(st, ly.fp);
    ReserveKeepsEvents(st, ly.fp);
    hide BoundID, ReserveFingerprint, BindEventMap, AddMessage, Notification, LocalEvent, CreateEvent, EventRow, Finish;
    Entered(up.On?, st, ly, answer);
    if up.On? { UpstreamWinner(st1, ly, answer); } else { LocalWinner(st1, ly, answer); }
  }

  /** `CreateEventFromRequest`, nobody interfering: an empty message is refused; so is a taken identifier,
      which may still use up a drawn one. */
  lemma RequestEnds(st: Store, request: Event)
    ensures var st', e := CreateEvent(st, request), EventRow(st, request).eventID;
            Finish(false, st, Manual(request, Reserving), Refused) ==
            if request.message == "" then (st, Failure)
            else if e in st.events then (st', Failure)
            else (AddMessage(st', Notification(e)), Created(e))
  {
    hide AddMessage, Notification, CreateEvent, EventRow, Finish;
    var st', e := CreateEvent(st, request), EventRow(st, request).eventID;
    if request.message == "" {
      Taken(false, st, Manual(request, Reserving), Refused, st, Answered(Failure));
    } else {
      Taken(false, st, Manual(request, Reserving), Refused, st, Creating);
      if e in st.events {
        Taken(false, st, Manual(request, Creating), Refused, st', Answered(Failure));
      } else {
        Taken(false, st, Manual(request, Creating), Refused, st', Announcing(e));
        Taken(false, st', Manual(request, Announcing(e)), Refused, AddMessage(st', Notification(e)), Answered(Created(e)));
      }
    }
  }

  // -------------------------------------------------------------- the retry loop

  function RecordID(ly: LyRecord): string { if ly.eventID == "" then "noid:" + ly.key else ly.eventID }

  function NewRecord(ly: LyRecord): PushedEvent { PushedEvent(RecordID(ly), ly.key, NO_ID, "FAILED", 0, false) }

  /** Attempts i + 1, i + 2, ..., max, up to the first that succeeds. */
  function Retry(up: Upstream, st: Store, asked: nat, ly: LyRecord, pe: PushedEvent, i: nat, max: int): (Store, nat, PushedEvent)
    decreases max - i
  {
    if i >= max then (st, asked, pe)
    else
      var (st', asked', outcome) := Process(up, st, asked, ly);
      if outcome.Failure? then Retry(up, st', asked', ly, pe.(attempts := i + 1, failed := true), i + 1, max)
      else (st', asked', pe.(attempts := i + 1, status := "SUCCESS", deepID := outcome.id, failed := false))
  }

  /** Errors arise only after the reservation, so a second attempt is always told "duplicate": it counts as
      a success with no event. Whatever the limit, nobody tries a third time. */
  lemma {:induction false} RetryEnds(up: Upstream, st: Store, asked: nat, ly: LyRecord, max: int)
    ensures var (st1, asked1, first) := Process(up, st, asked, ly);
            Retry(up, st, asked, ly, NewRecord(ly), 0, max) ==
            if max <= 0 then (st, asked, NewRecord(ly))
            else if !first.Failure? then (st1, asked1, NewRecord(ly).(attempts := 1, status := "SUCCESS", deepID := first.id))
            else if max == 1 then (st1, asked1, NewRecord(ly).(attempts := 1, failed := true))
            else (st1, asked1, NewRecord(ly).(attempts := 2, status := "SUCCESS"))
  {
    hide Process, RecordID;
    if max >= 1 {
      var (st1, asked1, first) := Process(up, st, asked, ly);
      if first.Failure? && max >= 2 {
        assert Process(up, st1, asked1, ly) == (st1, asked1, Duplicate(NO_ID)) by { FailureIsReserved(up, st, asked, ly); }
      }
    }
  }

  lemma FailureIsReserved(up: Upstream, st: Store, asked: nat, ly: LyRecord)
    ensures var (st1, asked1, first) := Process(up, st, asked, ly);
            first.Failure? ==> st1 == ReserveFingerprint(st, ly.fp) && Process(up, st1, asked1, ly) == (st1, asked1, Duplicate(NO_ID))
  {
    var (st1, asked1, first) := Process(up, st, asked, ly);
    ProcessEnds(up, st, asked, ly);
    ProcessEnds(up, st1, asked1, ly);
    hide Process, LocalEvent, CreateEvent, AddMessage, BindEventMap, Notification;
  }

  /** Processing records touches neither the cursor nor what was pushed. */
  lemma ProcessKeeps(up: Upstream, st: Store, asked: nat, ly: LyRecord)
    ensures var st' := Process(up, st, asked, ly).0; st'.pushed == st.pushed && st'.cursors == st.cursors
  {
    ProcessEnds(up, st, asked, ly);
    hide Process, LocalEvent, EventRow, MessageRow, Notification, Drew;
  }

  lemma {:induction false} RetryKeeps(up: Upstream, st: Store, asked: nat, ly: LyRecord, max: int)
    ensures var st' := Retry(up, st, asked, ly, NewRecord(ly), 0, max).0; st'.pushed == st.pushed && st'.cursors == st.cursors
  {
    hide Process, Retry;
    RetryEnds(up, st, asked, ly, max);
    ProcessKeeps(up, st, asked, ly);
  }

  // --------------------------------------------------------------------- a batch

  const CURSOR := "flowshadow_events"

  /** The store and the loop variables of a run. */
  datatype Batch = Batch(st: Store, asked: nat, pushed: nat, failed: nat, skipped: nat, newest: string)

  function SyncOne(up: Upstream, b: Batch, ly: LyRecord, max: int): Batch {
    var newest := if ly.time != "" && Less(b.newest, ly.time) then ly.time else b.newest;
    if RecordID(ly) in b.st.pushed then b.(newest := newest, skipped := b.skipped + 1)
    else
      var (st', asked', pe) := Retry(up, b.st, b.asked, ly, NewRecord(ly), 0, max);
      Batch(SavePushed(st', pe), asked', if pe.failed then b.pushed else b.pushed + 1, if pe.failed then b.failed + 1 else b.failed,
            b.skipped, newest)
  }

  function SyncAll(up: Upstream, b: Batch, items: seq<LyRecord>, max: int): Batch {
    if items == [] then b else SyncOne(up, SyncAll(up, b, items[..|items| - 1], max), items[|items| - 1], max)
  }

  function Since(st: Store, lookback: string): string {
    if GetCursor(st, CURSOR) == "" then lookback else GetCursor(st, CURSOR)
  }

  /** One run: what the source returned (or that it failed) and the time to look back to if there is no cursor. */
  datatype Round = Round(fetched: Option<seq<LyRecord>>, lookback: string, max: int)

  function OneRun(up: Upstream, st: Store, asked: nat, round: Round): Batch {
    var b := Batch(st, asked, 0, 0, 0, Since(st, round.lookback));
    match round.fetched
    case None => b
    case Some(items) =>
      var b' := SyncAll(up, b, items, round.max);
      b'.(st := SaveCursor(b'.st, CURSOR, b'.newest))
  }

  function Runs(up: Upstream, st: Store, asked: nat, rounds: seq<Round>): (Store, nat) {
    if rounds == [] then (st, asked)
    else
      var (st', asked') := Runs(up, st, asked, rounds[..|rounds| - 1]);
      var b := OneRun(up, st', asked', rounds[|rounds| - 1]);
      (b.st, b.asked)
  }

  // ----------------------------------------------------------------- the methods

  class Services {
    const store: MemoryStore
    const upstream: Upstream
    /** How many events were forwarded. */
    var asked: nat

    constructor (store: MemoryStore, upstream: Upstream)
      ensures this.store == store && this.upstream == upstream && asked == 0
    {
      this.store, this.upstream, asked := store, upstream, 0;
    }

    method Forward() returns (answer: Answer)
      requires upstream.On?
      modifies this`asked
      ensures answer == upstream.answer(old(asked)) && asked == old(asked) + 1
    {
      answer := upstream.answer(asked);
      asked := asked + 1;
    }

    /** `ProcessLyEvent` */
    method ProcessLyEvent(ly: LyRecord) returns (outcome: Outcome)
      requires store.Valid()
      modifies this`asked, store
      ensures store.Valid() && (store.Model(), asked, outcome) == Process(upstream, old(store.Model()), old(asked), ly)
    {
      hide MemoryStore.Valid, Process, LocalEvent, CreateEvent, EventRow, MessageRow, AddMessage, BindEventMap, Notification;
      ProcessEnds(upstream, store.Model(), asked, ly);
      ghost var st := store.Model();
      var reserved := store.ReserveFingerprint(ly.fp);
      if !reserved {
        assert store.Model() == st;
        var row, _ := store.GetEventMap(ly.fp);
        return Duplicate(row.deepID);
      }
      if upstream.On? {
        var answer := Forward();
        if answer.Refused? { return Failure; }
        store.BindEventMap(ly.fp, ly.lyID, Text(ExtractEventID(answer.reply)));
        return Created(Text(ExtractEventID(answer.reply)));
      }
      outcome := CreateLocally(ly);
    }

    method CreateLocally(ly: LyRecord) returns (outcome: Outcome)
      requires store.Valid()
      modifies store
      ensures store.Valid()
      ensures var st, e := old(store.Model()), LocalEvent(ly);
              (store.Model(), outcome) ==
              if e.eventID in st.events then (st, Failure)
              else
                (AddMessage(BindEventMap(CreateEvent(st, e), ly.fp, ly.lyID, e.eventID), Notification(e.eventID)),
                 Created(e.eventID))
    {
      hide MemoryStore.Valid, LocalEvent, MessageRow, AddMessage, BindEventMap, Notification;
      LocalEventIsNamed(ly);
      var payload := LocalEvent(ly);
      var event, ok := store.CreateEvent(payload);
      if !ok { return Failure; }
      store.BindEventMap(ly.fp, ly.lyID, event.eventID);
      var _, _ := store.AddMessage(Notification(event.eventID));
      outcome := Created(event.eventID);
    }

    /** `CreateEventFromRequest` */
    method CreateEventFromRequest(body: Fields) returns (outcome: Outcome)
      requires store.Valid()
      modifies store
      ensures store.Valid()
      ensures (store.Model(), outcome) == Finish(false, old(store.Model()), Manual(RequestedEvent(body), Reserving), Refused)
    {
      hide MemoryStore.Valid, AddMessage, Notification, CreateEvent, EventRow, Finish, FirstNonEmpty, Observables, TextAt;
      RequestEnds(store.Model(), RequestedEvent(body));
      if TextAt(body, "message") == "" { return Failure; }
      var observables: seq<IOC> := [];
      if "observables" in body && body["observables"].Arr? { observables := DecodeObservables(body["observables"].items); }
      var request := Event(0, Text(TextAt(body, "event_id")), FirstNonEmpty([TextAt(body, "event_name"), TextAt(body, "title")]),
                           TextAt(body, "title"), TextAt(body, "message"), TextAt(body, "context"),
                           FirstNonEmpty([TextAt(body, "source"), "manual"]), FirstNonEmpty([TextAt(body, "severity"), "medium"]),
                           TextAt(body, "category"), "pending", 0, observables);
      var event, ok := store.CreateEvent(request);
      if !ok { return Failure; }
      var _, _ := store.AddMessage(Notification(event.eventID));
      outcome := Created(event.eventID);
    }

    method DecodeObservables(items: seq<Value>) returns (observables: seq<IOC>)
      ensures observables == Observables(items)
    {
      hide Observable;
      observables := [];
      var i := 0;
      while i < |items|
        invariant 0 <= i <= |items| && observables == Observables(items[..i])
      {
        assert items[..i + 1][..i] == items[..i];
        if items[i].Obj? { observables := observables + [Observable(items[i].fields)]; }
        i := i + 1;
      }
      assert items[..i] == items;
    }

    /** The retry loop of one record. */
    method PushWithRetries(ly: LyRecord, maxRetries: int) returns (pe: PushedEvent)
      requires store.Valid()
      modifies this`asked, store
      ensures store.Valid()
      ensures (store.Model(), asked, pe) == Retry(upstream, old(store.Model()), old(asked), ly, NewRecord(ly), 0, maxRetries)
    {
      hide MemoryStore.Valid, MemoryStore.Model, Process, RecordID;
      pe := NewRecord(ly);
      ghost var goal := Retry(upstream, store.Model(), asked, ly, pe, 0, maxRetries);
      var i := 0;
      while i < maxRetries
        invariant 0 <= i && store.Valid()
        invariant Retry(upstream, store.Model(), asked, ly, pe, i, maxRetries) == goal
      {
        pe := pe.(attempts := i + 1);
        var outcome := ProcessLyEvent(ly);
        if !outcome.Failure? {
          pe := pe.(status := "SUCCESS", deepID := outcome.id, failed := false);
          return;
        }
        pe := pe.(failed := true);
        i := i + 1;
      }
    }

    /** `RunSyncOnce`: `items` is what the source returned, or its failure. */
    method RunSyncOnce(fetched: Option<seq<LyRecord>>, lookback: string, maxRetries: int)
      returns (ok: bool, pushed: nat, failed: nat, newestTS: string)
      requires store.Valid()
      modifies this`asked, store
      ensures store.Valid() && (ok <==> fetched.Some?)
      ensures var b := OneRun(upstream, old(store.Model()), old(asked), Round(fetched, lookback, maxRetries));
              && (store.Model(), asked) == (b.st, b.asked)
              && (ok ==> (pushed, failed, newestTS) == (b.pushed, b.failed, b.newest))
    {
      hide MemoryStore.Valid, Retry, RecordID, SyncOne, GetCursor;
      pushed, failed := 0, 0;
      var since := store.GetCursor(CURSOR);
      if since == "" { since := lookback; }
      newestTS := since;
      ok := fetched.Some?;
      if !ok { return; }
      ghost var b0, skipped := Batch(store.Model(), asked, 0, 0, 0, since), 0;
      var items := fetched.value;
      var i := 0;
      while i < |items|
        invariant 0 <= i <= |items| && store.Valid()
        invariant Batch(store.Model(), asked, pushed, failed, skipped, newestTS) == SyncAll(upstream, b0, items[..i], maxRetries)
      {
        assert items[..i + 1][..i] == items[..i];
        ghost var known;
        pushed, failed, newestTS, known := SyncItem(items[i], maxRetries, pushed, failed, newestTS, skipped);
        if known { skipped := skipped + 1; }
        i := i + 1;
      }
      assert items[..i] == items;
      store.SaveCursor(CURSOR, newestTS);
    }

    /** The body of the loop. */
    method SyncItem(ev: LyRecord, maxRetries: int, pushed: nat, failed: nat, newestTS: string, ghost skipped: nat)
      returns (pushed': nat, failed': nat, newestTS': string, ghost known: bool)
      requires store.Valid()
      modifies this`asked, store
      ensures store.Valid()
      ensures Batch(store.Model(), asked, pushed', failed', if known then skipped + 1 else skipped, newestTS')
           == SyncOne(upstream, Batch(old(store.Model()), old(asked), pushed, failed, skipped, newestTS), ev, maxRetries)
    {
      hide MemoryStore.Valid, Retry, RecordID, Less;
      pushed', failed', newestTS' := pushed, failed, newestTS;
      if ev.time != "" && Less(newestTS, ev.time) { newestTS' := ev.time; }
      var seen := store.AlreadyPushed(RecordID(ev));
      known := seen;
      if seen { return; }
      var pe := PushWithRetries(ev, maxRetries);
      if pe.failed { failed' := failed + 1; } else { pushed' := pushed + 1; }
      store.SavePushedEvent(pe);
    }
  }
}
