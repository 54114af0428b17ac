/** The queue worker (internal/worker/rabbit_worker.go): messages arrive at least once, are handled one by
    one, and are put back when handling fails. */
module Worker {
  import opened Domain
  import opened StoreModel
  import opened MemoryStores

  /** A delivery; `readable` tells whether its body decodes to an event message. */
  datatype Delivery = Delivery(key: string, readable: bool, eventID: ID, source: string)

  const NOTIFICATIONS := "notifications.frontend."
  const EVENTS := "event."

  function Receipt(d: Delivery): Message {
    var from := NormalizeMessageFrom(d.source);
    Message(0, NO_ID, d.eventID, from, "queue_notification", Plain(d.key), 1, "agent", SenderType(from))
  }

  /** The delivery is about an event and is neither a front-end notification nor an event announcement. */
  predicate Recorded(d: Delivery) { d.readable && d.eventID != NO_ID && !(NOTIFICATIONS <= d.key) && !(EVENTS <= d.key) }

  /** `handleEventMessage`: the new store, and whether the delivery is acknowledged. */
  function Handle(st: Store, d: Delivery): (Store, bool) {
    if !d.readable then (st, false)
    else if d.eventID == NO_ID || NOTIFICATIONS <= d.key || EVENTS <= d.key then (st, true)
    else (AddMessage(st, Receipt(d)), d.eventID in st.events)
  }

  function Consume(st: Store, deliveries: seq<Delivery>): Store {
    if deliveries == [] then st else Handle(Consume(st, deliveries[..|deliveries| - 1]), deliveries[|deliveries| - 1]).0
  }

  /** What the services publish. */
  datatype Publication = Ingested(e: ID) | EventCreated(e: ID, source: string) | SyncCompleted | AgentSaid(e: ID, suffix: string, from: string)

  function Deliver(p: Publication): Delivery {
    match p
    case Ingested(e) => Delivery("event.ingested", true, e, "flowshadow")
    case EventCreated(e, source) => Delivery("event.created", true, e, source)
    case SyncCompleted => Delivery("sync.completed", true, NO_ID, "flowshadow")
    case AgentSaid(e, suffix, from) => Delivery(NOTIFICATIONS + suffix, true, e, from)
  }

  /** A delivery changes the store exactly when it is recorded and its event exists; then it adds one row.
      It is put back exactly when it is unreadable or is to be recorded for a missing event. */
  lemma HandledExactly(st: Store, d: Delivery)
    ensures Handle(st, d).0 != st <==> Recorded(d) && d.eventID in st.events
    ensures Handle(st, d).0 != st ==> |Handle(st, d).0.messages| == |st.messages| + 1
    ensures !Handle(st, d).1 <==> !d.readable || (Recorded(d) && d.eventID !in st.events)
  {
    hide NormalizeMessageFrom, SenderType, MessageRow;
    if Recorded(d) && d.eventID in st.events { assert |Handle(st, d).0.messages| == |st.messages| + 1; }
  }

  /** What a recorded delivery adds: one message about its event, from its source, carrying its key. */
  lemma RecordedSays(st: Store, d: Delivery)
    requires d.eventID in st.events
    ensures var (st', ok) := Handle(st, d);
            var recorded := d.readable && d.eventID != NO_ID && !("notifications.frontend." <= d.key) && !("event." <= d.key);
            && (recorded ==>
                  && ok && |st'.messages| == |st.messages| + 1 && st'.messages[..|st.messages|] == st.messages
                  && st' == st.(draws := st.draws + 1, messages := st'.messages)
                  && var m := st'.messages[|st.messages|];
                  && m.eventID == d.eventID && m.from == NormalizeMessageFrom(d.source) && m.kind == "queue_notification"
                  && m.content == Plain(d.key) && m.round == 1 && m.category == "agent"
                  && m.senderType == (if m.from == "user" then "user" else if m.from == "assistant" then "ai"
                                      else if m.from == "system" then "system" else "agent"))
            && (!recorded ==> st' == st)
  {
    NormalizeFromIdempotent(d.source);
    hide NormalizeMessageFrom;
    SenderOf(Receipt(d).(id := |st.messages| + 1, messageID := Drawn(st.draws)));
    hide NormalizeMessage;
  }

  lemma PublishedIsNotRecorded(p: Publication)
    ensures !Recorded(Deliver(p)) && Deliver(p).readable
  {
  }

  /** However often and in whatever order the queue redelivers what the services published, the store does
      not change, and every delivery is acknowledged. */
  lemma {:induction false} RedeliveryChangesNothing(st: Store, published: seq<Publication>, order: seq<nat>)
    requires forall i :: 0 <= i < |order| ==> order[i] < |published|
    ensures var deliveries := seq(|order|, i requires 0 <= i < |order| => Deliver(published[order[i]]));
            Consume(st, deliveries) == st && forall i :: 0 <= i < |order| ==> Handle(st, deliveries[i]).1
  {
    hide Handle, Recorded, Deliver;
    var deliveries := seq(|order|, i requires 0 <= i < |order| => Deliver(published[order[i]]));
    forall i | 0 <= i < |order| ensures Handle(st, deliveries[i]) == (st, true) {
      PublishedIsNotRecorded(published[order[i]]);
      HandledExactly(st, deliveries[i]);
    }
    if order != [] {
      var n := |order| - 1;
      RedeliveryChangesNothing(st, published, order[..n]);
      assert deliveries[..n] == seq(n, i requires 0 <= i < n => Deliver(published[order[..n][i]]));
    }
  }

  class EventWorker {
    const store: MemoryStore

    constructor (store: MemoryStore)
      ensures this.store == store
    {
      this.store := store;
    }

    method HandleEventMessage(d: Delivery) returns (ok: bool)
      requires store.Valid()
      modifies store
      ensures store.Valid() && (store.Model(), ok) == Handle(old(store.Model()), d)
    {
      hide MemoryStore.Valid, NormalizeMessageFrom, SenderType, MessageRow;
      if !d.readable { return false; }
      if d.eventID == NO_ID { return true; }
      if NOTIFICATIONS <= d.key { return true; }
      if EVENTS <= d.key { return true; }
      var row: Message;
      row, ok := store.AddMessage(Receipt(d));
    }
  }
}
