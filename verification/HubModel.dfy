/** The Socket.IO hub (internal/socketio/hub.go) as a state machine: every section under the hub's lock and
    every channel operation is one step, so a run is any interleaving of goroutines. A goroutine may hold
    a session after it was removed. */
module HubModel {

  const QUEUE_CAPACITY := 256
  const BATCH := 16

  /** A packet offered to a session, and how many were waiting then. */
  datatype Offer = Offer(packet: string, ahead: nat)

  /** The bounded channel of a session, with the history of what was offered and what was drained. */
  datatype Queue = Queue(waiting: seq<string>, offered: seq<Offer>, drained: seq<string>)

  const NEW_QUEUE := Queue([], [], [])

  /** `enqueue`: dropped when the channel is full. */
  function Put(q: Queue, packet: string): Queue {
    Queue(if |q.waiting| < QUEUE_CAPACITY then q.waiting + [packet] else q.waiting, q.offered + [Offer(packet, |q.waiting|)], q.drained)
  }

  /** One receive from the channel. */
  function Take(q: Queue): Queue {
    if q.waiting == [] then q else Queue(q.waiting[1..], q.offered, q.drained + [q.waiting[0]])
  }

  /** Every session ever made is known by its flags and its queue; `late` records who joined what after it
      was removed. */
  datatype Hub = Hub(live: set<string>, flags: map<string, set<string>>, rooms: map<string, set<string>>,
                     queues: map<string, Queue>, late: set<(string, string)>)

  const NEW_HUB := Hub({}, map[], map[], map[], {})

  function Members(h: Hub, room: string): set<string> { if room in h.rooms then h.rooms[room] else {} }

  function Flags(h: Hub, sid: string): set<string> { if sid in h.flags then h.flags[sid] else {} }

  /** A session with an identifier no session has had. */
  function NewSession(h: Hub, sid: string): Hub {
    if sid in h.flags then h
    else h.(live := h.live + {sid}, flags := h.flags[sid := {}], queues := h.queues[sid := NEW_QUEUE])
  }

  function JoinRoom(h: Hub, sid: string, room: string): Hub {
    if sid !in h.flags then h
    else
      h.(flags := h.flags[sid := h.flags[sid] + {room}], rooms := h.rooms[room := Members(h, room) + {sid}],
         late := if sid in h.live then h.late else h.late + {(sid, room)})
  }

  function LeaveRoom(h: Hub, sid: string, room: string): Hub {
    if sid !in h.flags then h
    else
      h.(flags := h.flags[sid := h.flags[sid] - {room}],
         rooms := if room in h.rooms then h.rooms[room := h.rooms[room] - {sid}] else h.rooms,
         late := h.late - {(sid, room)})
  }

  /** Leaves the rooms the session has flagged; its flags stay as they are. */
  function RemoveSession(h: Hub, sid: string): Hub {
    if sid !in h.live then h
    else
      h.(live := h.live - {sid},
         rooms := map room | room in h.rooms :: if room in Flags(h, sid) then h.rooms[room] - {sid} else h.rooms[room])
  }

  function Enqueue(h: Hub, sid: string, packet: string): Hub {
    if sid !in h.queues then h else h.(queues := h.queues[sid := Put(h.queues[sid], packet)])
  }

  function Receive(h: Hub, sid: string): Hub {
    if sid !in h.queues then h else h.(queues := h.queues[sid := Take(h.queues[sid])])
  }

  /** Offers the packet to every session in the room. */
  function Broadcast(h: Hub, room: string, packet: string): Hub {
    h.(queues := map sid | sid in h.queues :: if sid in Members(h, room) then Put(h.queues[sid], packet) else h.queues[sid])
  }

  datatype Label =
    | Made(sid: string) | Joined(sid: string, room: string) | Left(sid: string, room: string) | Removed(sid: string)
    | Sent(sid: string, packet: string) | Received(sid: string) | Shouted(room: string, packet: string)

  function Next(h: Hub, l: Label): Hub {
    match l
    case Made(sid) => NewSession(h, sid)
    case Joined(sid, room) => JoinRoom(h, sid, room)
    case Left(sid, room) => LeaveRoom(h, sid, room)
    case Removed(sid) => RemoveSession(h, sid)
    case Sent(sid, packet) => Enqueue(h, sid, packet)
    case Received(sid) => Receive(h, sid)
    case Shouted(room, packet) => Broadcast(h, room, packet)
  }

  function Execute(labels: seq<Label>): Hub {
    if labels == [] then NEW_HUB else Next(Execute(labels[..|labels| - 1]), labels[|labels| - 1])
  }

  // ---------------------------------------------------------------- membership

  ghost predicate KeysOk(h: Hub) { h.live <= h.flags.Keys && h.queues.Keys == h.flags.Keys }

  /** A member of a room has flagged it, and a live session that flagged a room is a member of it. */
  ghost predicate RoomsOk(h: Hub) {
    && (forall room, sid :: sid in Members(h, room) ==> sid in h.flags && room in Flags(h, sid))
    && (forall room, sid :: sid in h.live && room in Flags(h, sid) ==> sid in Members(h, room))
  }

  ghost predicate LateOk(h: Hub) {
    forall sid, room :: (sid, room) in h.late <==> sid !in h.live && sid in Members(h, room)
  }

  ghost predicate IndexOk(h: Hub) { KeysOk(h) && RoomsOk(h) && LateOk(h) }

  /** Who is in a room after each of the operations on rooms. */
  lemma {:induction false} MembersAfter(h: Hub, sid: string, room: string, room': string)
    ensures sid in h.flags ==> Members(JoinRoom(h, sid, room), room') == Members(h, room') + (if room' == room then {sid} else {})
    ensures sid in h.flags ==> Members(LeaveRoom(h, sid, room), room') == Members(h, room') - (if room' == room then {sid} else {})
    ensures sid in h.live ==> Members(RemoveSession(h, sid), room') == Members(h, room') - (if room' in Flags(h, sid) then {sid} else {})
  {
  }

  lemma {:induction false} FlagsAfter(h: Hub, sid: string, room: string, other: string)
    ensures sid in h.flags ==> Flags(JoinRoom(h, sid, room), other) == Flags(h, other) + (if other == sid then {room} else {})
    ensures sid in h.flags ==> Flags(LeaveRoom(h, sid, room), other) == Flags(h, other) - (if other == sid then {room} else {})
  {
  }

  lemma {:induction false} JoinKeepsIndex(h: Hub, sid: string, room: string)
    requires IndexOk(h) && sid in h.flags
    ensures IndexOk(JoinRoom(h, sid, room))
  {
    var h' := JoinRoom(h, sid, room);
    assert h'.flags.Keys == h.flags.Keys && KeysOk(h');
    forall room' { MembersAfter(h, sid, room, room'); }
    forall other { FlagsAfter(h, sid, room, other); }
    hide Members, Flags, KeysOk;
    assert RoomsOk(h') by { hide LateOk; }
    assert LateOk(h') by { hide RoomsOk; }
  }

  lemma {:induction false} LeaveKeepsRooms(h: Hub, sid: string, room: string)
    requires RoomsOk(h) && KeysOk(h) && sid in h.flags
    ensures RoomsOk(LeaveRoom(h, sid, room)) && KeysOk(LeaveRoom(h, sid, room))
  {
    var h' := LeaveRoom(h, sid, room);
    assert h'.live == h.live && h'.flags.Keys == h.flags.Keys && KeysOk(h');
    forall room' { MembersAfter(h, sid, room, room'); }
    forall other { FlagsAfter(h, sid, room, other); }
    hide Members, Flags, KeysOk, LeaveRoom;
  }

  lemma {:induction false} LeaveKeepsLate(h: Hub, sid: string, room: string)
    requires LateOk(h) && sid in h.flags
    ensures LateOk(LeaveRoom(h, sid, room))
  {
    var h' := LeaveRoom(h, sid, room);
    assert h'.live == h.live && h'.late == h.late - {(sid, room)};
    forall room' { MembersAfter(h, sid, room, room'); }
    hide Members, LeaveRoom;
  }

  lemma {:induction false} LeaveKeepsIndex(h: Hub, sid: string, room: string)
    requires IndexOk(h) && sid in h.flags
    ensures IndexOk(LeaveRoom(h, sid, room))
  {
    hide RoomsOk, KeysOk, LateOk, LeaveRoom;
    LeaveKeepsRooms(h, sid, room);
    LeaveKeepsLate(h, sid, room);
  }

  lemma {:induction false} RemoveKeepsIndex(h: Hub, sid: string)
    requires IndexOk(h) && sid in h.live
    ensures IndexOk(RemoveSession(h, sid))
  {
    var h' := RemoveSession(h, sid);
    forall room' { MembersAfter(h, sid, "", room'); }
    assert h'.flags == h.flags && h'.live == h.live - {sid} && h'.late == h.late && KeysOk(h');
    forall other ensures Flags(h', other) == Flags(h, other) {}
    hide Members, RemoveSession, Flags, KeysOk;
    assert RoomsOk(h') by { hide LateOk; }
  }

  lemma QueuesAside(h: Hub, h': Hub)
    requires IndexOk(h) && h' == h.(queues := h'.queues) && h'.queues.Keys == h.queues.Keys
    ensures IndexOk(h')
  {
    forall room ensures Members(h', room) == Members(h, room) {}
  }

  lemma NewKeepsIndex(h: Hub, sid: string)
    requires IndexOk(h)
    ensures IndexOk(NewSession(h, sid))
  {
    forall room ensures Members(NewSession(h, sid), room) == Members(h, room) {}
    hide Members;
  }

  lemma {:induction false} NextKeepsIndex(h: Hub, l: Label)
    requires IndexOk(h)
    ensures IndexOk(Next(h, l))
  {
    hide IndexOk, NewSession, Members;
    match l
    case Made(sid) =>
      NewKeepsIndex(h, sid);
    case Joined(sid, room) => if sid in h.flags { JoinKeepsIndex(h, sid, room); }
    case Left(sid, room) => if sid in h.flags { LeaveKeepsIndex(h, sid, room); }
    case Removed(sid) => if sid in h.live { RemoveKeepsIndex(h, sid); }
    case Sent(_, _) => QueuesAside(h, Next(h, l));
    case Received(_) => QueuesAside(h, Next(h, l));
    case Shouted(_, _) => QueuesAside(h, Next(h, l));
  }

  /** Over every interleaving: a member of a room has flagged it, and for live sessions the two agree. */
  lemma {:induction false} IndexAlwaysOk(labels: seq<Label>)
    ensures IndexOk(Execute(labels))
  {
    if labels != [] {
      IndexAlwaysOk(labels[..|labels| - 1]);
      NextKeepsIndex(Execute(labels[..|labels| - 1]), labels[|labels| - 1]);
      hide IndexOk, Next;
    }
  }

  /** Removing a live session leaves it in no room. */
  lemma {:induction false} RemovedFromEveryRoom(labels: seq<Label>, sid: string)
    ensures var h := Execute(labels);
            sid in h.live ==>
              var h' := RemoveSession(h, sid);
              && sid !in h'.live && (forall room :: sid !in Members(h', room))
              && (forall room, other :: other != sid ==> (other in Members(h', room) <==> other in Members(h, room)))
  {
    IndexAlwaysOk(labels);
    var h := Execute(labels);
    if sid in h.live {
      forall room { MembersAfter(h, sid, "", room); }
    }
    hide Execute, Members;
  }

  /** A broadcast is offered to exactly the live sessions that flagged the room and to those that joined it
      after they were removed; nobody else's queue changes. */
  lemma {:induction false} BroadcastReaches(labels: seq<Label>, room: string, packet: string, sid: string)
    ensures var h := Execute(labels);
            var h' := Broadcast(h, room, packet);
            sid in h.queues ==>
              h'.queues[sid] == if (sid in h.live && room in Flags(h, sid)) || (sid, room) in h.late then Put(h.queues[sid], packet)
                                else h.queues[sid]
  {
    IndexAlwaysOk(labels);
    hide Execute, Put;
    var h := Execute(labels);
    assert sid in Members(h, room) <==> (sid in h.live && room in Flags(h, sid)) || (sid, room) in h.late;
  }

  ghost predicate AllLive(h: Hub) { forall room, sid :: sid in Members(h, room) ==> sid in h.live }

  /** `joinRoom` has no guard; this is the one it would need: the session is live, or was never made. */
  predicate Guarded(h: Hub, l: Label) { l.Joined? ==> l.sid in h.live || l.sid !in h.flags }

  lemma {:induction false} JoinKeepsAllLive(h: Hub, sid: string, room: string)
    requires IndexOk(h) && AllLive(h)
    ensures AllLive(JoinRoom(h, sid, room)) <==> sid in h.live || sid !in h.flags
  {
    forall room' { MembersAfter(h, sid, room, room'); }
    var h' := JoinRoom(h, sid, room);
    assert h'.live == h.live;
    if sid in h.flags { assert sid in Members(h', room); }
    hide Members;
  }

  lemma {:induction false} NextKeepsAllLive(h: Hub, l: Label)
    requires IndexOk(h) && AllLive(h)
    ensures AllLive(Next(h, l)) <==> Guarded(h, l)
  {
    match l
    case Joined(sid, room) => JoinKeepsAllLive(h, sid, room);
    case Left(sid, room) =>
      if sid in h.flags { forall room' { MembersAfter(h, sid, room, room'); } }
      assert Next(h, l).live == h.live;
      hide Members, LeaveRoom;
    case Removed(sid) =>
      if sid in h.live {
        forall room' { MembersAfter(h, sid, "", room'); }
        assert Next(h, l).live == h.live - {sid};
        hide Members, RemoveSession;
      }
    case Made(sid) =>
      forall room ensures Members(NewSession(h, sid), room) == Members(h, room) {}
    case _ =>
      forall room ensures Members(Next(h, l), room) == Members(h, room) {}
  }

  ghost predicate AlwaysLive(labels: seq<Label>) { forall k :: 0 <= k <= |labels| ==> AllLive(Execute(labels[..k])) }

  ghost predicate AlwaysGuarded(labels: seq<Label>) { forall k :: 0 <= k < |labels| ==> Guarded(Execute(labels[..k]), labels[k]) }

  lemma {:induction false} AlwaysLiveSnoc(labels: seq<Label>)
    requires labels != []
    ensures AlwaysLive(labels) <==> AlwaysLive(labels[..|labels| - 1]) && AllLive(Execute(labels))
  {
    hide AllLive, Execute;
    var n := |labels| - 1;
    assert labels[..n + 1] == labels;
    forall k | 0 <= k <= n ensures labels[..n][..k] == labels[..k] {}
    if AlwaysLive(labels) {
      forall k | 0 <= k <= n ensures AllLive(Execute(labels[..n][..k])) { assert AllLive(Execute(labels[..k])); }
      assert AllLive(Execute(labels[..n + 1]));
    }
    if AlwaysLive(labels[..n]) && AllLive(Execute(labels)) {
      forall k | 0 <= k <= n + 1 ensures AllLive(Execute(labels[..k])) {
        if k <= n { assert AllLive(Execute(labels[..n][..k])); }
      }
    }
  }

  lemma {:induction false} AlwaysGuardedSnoc(labels: seq<Label>)
    requires labels != []
    ensures var n := |labels| - 1;
            AlwaysGuarded(labels) <==> AlwaysGuarded(labels[..n]) && Guarded(Execute(labels[..n]), labels[n])
  {
    hide Guarded, Execute;
    var n := |labels| - 1;
    forall k | 0 <= k < n ensures labels[..n][..k] == labels[..k] && labels[..n][k] == labels[k] {}
    if AlwaysGuarded(labels) {
      forall k | 0 <= k < n ensures Guarded(Execute(labels[..n][..k]), labels[..n][k]) { assert Guarded(Execute(labels[..k]), labels[k]); }
    }
    if AlwaysGuarded(labels[..n]) && Guarded(Execute(labels[..n]), labels[n]) {
      forall k | 0 <= k <= n ensures Guarded(Execute(labels[..k]), labels[k]) {
        if k < n { assert Guarded(Execute(labels[..n][..k]), labels[..n][k]); }
      }
    }
  }

  /** Over a whole schedule everyone in a room is a live session at every moment exactly when no session
      joins after it was removed. */
  lemma {:induction false} RoomsHoldLiveSessions(labels: seq<Label>)
    ensures AlwaysLive(labels) <==> AlwaysGuarded(labels)
  {
    if labels == [] {
      NobodyAnywhere();
      assert labels[..0] == [];
    } else {
      hide AllLive, Guarded, Next, AlwaysLive, AlwaysGuarded, Execute;
      RoomsHoldLiveSessions(labels[..|labels| - 1]);
      AlwaysLiveSnoc(labels);
      AlwaysGuardedSnoc(labels);
      LiveNow(labels[..|labels| - 1]);
      LastStep(labels);
    }
  }

  lemma LiveNow(labels: seq<Label>)
    ensures AlwaysLive(labels) ==> AllLive(Execute(labels))
  {
    hide AllLive, Execute;
    assert labels[..|labels|] == labels;
  }

  lemma NobodyAnywhere()
    ensures AllLive(NEW_HUB)
  {
  }

  lemma {:induction false} LastStep(labels: seq<Label>)
    requires labels != []
    ensures var (n, h) := (|labels| - 1, Execute(labels[..|labels| - 1]));
            AllLive(h) ==> (AllLive(Execute(labels)) <==> Guarded(h, labels[n]))
  {
    hide AllLive, Guarded, Next, IndexOk;
    IndexAlwaysOk(labels[..|labels| - 1]);
    if AllLive(Execute(labels[..|labels| - 1])) { NextKeepsAllLive(Execute(labels[..|labels| - 1]), labels[|labels| - 1]); }
  }

  /** A removed session that joins: its goroutine still held it. */
  lemma GhostMember(sid: string, room: string)
    ensures var h := Execute([Made(sid), Removed(sid), Joined(sid, room)]); sid !in h.live && sid in Members(h, room)
  {
    var l: seq<Label> := [Made(sid), Removed(sid), Joined(sid, room)];
    assert l[..2] == [Made(sid), Removed(sid)] && l[..2][..1] == [Made(sid)] && l[..2][..1][..0] == [];
    assert Execute([]) == NEW_HUB;
    assert Execute([Made(sid)]) == NewSession(NEW_HUB, sid);
    assert Execute([Made(sid), Removed(sid)]) == RemoveSession(NewSession(NEW_HUB, sid), sid);
  }

  // -------------------------------------------------------------------- delivery

  /** The packets that found room. */
  function Accepted(offered: seq<Offer>): seq<string> {
    if offered == [] then []
    else
      var last := offered[|offered| - 1];
      Accepted(offered[..|offered| - 1]) + (if last.ahead < QUEUE_CAPACITY then [last.packet] else [])
  }

  /** What was drained, followed by what is waiting, is what was accepted, in order; nobody is made to wait
      behind more than the capacity. */
  ghost predicate Delivers(q: Queue) {
    q.drained + q.waiting == Accepted(q.offered) && |q.waiting| <= QUEUE_CAPACITY
      && forall i :: 0 <= i < |q.offered| ==> q.offered[i].ahead <= QUEUE_CAPACITY
  }

  lemma {:induction false} PutDelivers(q: Queue, packet: string)
    requires Delivers(q)
    ensures Delivers(Put(q, packet))
  {
    var q' := Put(q, packet);
    assert q'.offered[..|q.offered|] == q.offered;
    assert q.drained + (q.waiting + [packet]) == (q.drained + q.waiting) + [packet];
  }

  /** A packet is lost exactly when 256 are waiting; otherwise it waits behind them. */
  lemma LostExactly(q: Queue, packet: string)
    ensures Put(q, packet).waiting == if |q.waiting| >= 256 then q.waiting else q.waiting + [packet]
    ensures Put(q, packet).drained == q.drained
  {
  }

  lemma TakeDelivers(q: Queue)
    requires Delivers(q)
    ensures Delivers(Take(q))
  {
    if q.waiting != [] {
      assert (q.drained + [q.waiting[0]]) + q.waiting[1..] == q.drained + q.waiting;
    }
  }

  /** Over every interleaving of senders, broadcasts and drains. */
  lemma {:induction false} AlwaysDelivers(labels: seq<Label>, sid: string)
    ensures sid in Execute(labels).queues ==> Delivers(Execute(labels).queues[sid])
  {
    hide Put, Take, Delivers, Members;
    if labels != [] {
      var h, l := Execute(labels[..|labels| - 1]), labels[|labels| - 1];
      AlwaysDelivers(labels[..|labels| - 1], sid);
      if sid in h.queues {
        TakeDelivers(h.queues[sid]);
        if l.Sent? { PutDelivers(h.queues[sid], l.packet); }
        if l.Shouted? { PutDelivers(h.queues[sid], l.packet); }
      }
      NewDelivers();
    }
  }

  lemma NewDelivers()
    ensures Delivers(NEW_QUEUE)
  {
  }
}
