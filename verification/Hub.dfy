/** internal/socketio/hub.go on objects: sessions are shared between the hub's two indexes and the goroutines
    that hold them, and are changed in place. Each method is proved to be one step of module HubModel, so
    what is proved there of every interleaving holds here. */
module SocketHub {
  import H = HubModel

  class Session {
    const sid: string
    var rooms: set<string>
    /** The channel: at most `QUEUE_CAPACITY` packets. */
    var queue: seq<string>
    ghost var offered: seq<H.Offer>
    ghost var drained: seq<string>

    constructor (sid: string)
      ensures this.sid == sid && rooms == {} && Channel() == H.NEW_QUEUE
    {
      this.sid, rooms, queue, offered, drained := sid, {}, [], [], [];
    }

    ghost function Channel(): H.Queue
      reads this`queue, this`offered, this`drained
    {
      H.Queue(queue, offered, drained)
    }

    /** `enqueue` */
    method Enqueue(packet: string)
      modifies this`queue, this`offered
      ensures Channel() == H.Put(old(Channel()), packet)
    {
      offered := offered + [H.Offer(packet, |queue|)];
      if |queue| < H.QUEUE_CAPACITY { queue := queue + [packet]; }
    }

    /** One receive, if there is a packet. */
    method Receive() returns (packet: string, ok: bool)
      modifies this`queue, this`drained
      ensures Channel() == H.Take(old(Channel())) && (ok <==> old(queue) != [])
      ensures ok ==> packet == old(queue)[0] && drained == old(drained) + [packet]
    {
      ok := queue != [];
      packet := "";
      if ok {
        packet := queue[0];
        queue := queue[1..];
        drained := drained + [packet];
      }
    }

    /** Packets other goroutines send meanwhile. */
    method Arrive(packets: seq<string>)
      requires H.Delivers(Channel())
      modifies this`queue, this`offered
      ensures H.Delivers(Channel()) && drained == old(drained) && old(queue) <= queue
    {
      var i := 0;
      while i < |packets|
        invariant 0 <= i <= |packets| && H.Delivers(Channel()) && old(queue) <= queue
      {
        H.PutDelivers(Channel(), packets[i]);
        Enqueue(packets[i]);
        i := i + 1;
      }
    }

    /** `drainPackets`: waits for a first packet until the deadline, then takes what there is, up to a batch;
        `arriving` is what others send before each poll. */
    method DrainPackets(arriving: nat -> seq<string>) returns (packets: seq<string>)
      requires H.Delivers(Channel())
      modifies this`queue, this`offered, this`drained
      ensures H.Delivers(Channel()) && |packets| <= 16
      ensures drained == old(drained) + packets
      ensures old(queue) != [] ==> packets != [] && packets[0] == old(queue)[0]
      ensures |packets| < 16 ==> queue == []
    {
      packets := [];
      assert queue != [] ==> queue[0] == old(queue)[0];
      Arrive(arriving(0));
      H.TakeDelivers(Channel());
      var p, ok := Receive();
      if !ok { return; }
      packets := [p];
      ghost var first := p;
      while |packets| < H.BATCH
        invariant 1 <= |packets| <= H.BATCH && H.Delivers(Channel())
        invariant drained == old(drained) + packets && packets[0] == first
      {
        Arrive(arriving(|packets|));
        H.TakeDelivers(Channel());
        p, ok := Receive();
        if !ok { return; }
        packets := packets + [p];
      }
    }
  }

  /** The index of rooms, by identifier. */
  function RoomSids(rooms: map<string, map<string, Session>>): map<string, set<string>> {
    map room | room in rooms :: rooms[room].Keys
  }

  class Hub {
    /** Live sessions. */
    var sessions: map<string, Session>
    var rooms: map<string, map<string, Session>>
    /** Every session ever made; a goroutine may hold any of them. */
    ghost var made: map<string, Session>
    ghost var late: set<(string, string)>

    ghost predicate Valid()
      reads this`made, this`sessions, this`rooms
    {
      && (forall sid :: sid in made ==> made[sid].sid == sid)
      && (forall sid :: sid in sessions ==> sid in made && sessions[sid] == made[sid])
      && (forall room, sid :: room in rooms && sid in rooms[room] ==> sid in made && rooms[room][sid] == made[sid])
    }

    ghost function AllFlags(): map<string, set<string>>
      reads this`made, made.Values`rooms
    {
      map sid | sid in made :: made[sid].rooms
    }

    ghost function AllQueues(): map<string, H.Queue>
      reads this`made, made.Values`queue, made.Values`offered, made.Values`drained
    {
      map sid | sid in made :: made[sid].Channel()
    }

    ghost function Model(): H.Hub
      reads this, made.Values
    {
      H.Hub(sessions.Keys, AllFlags(), RoomSids(rooms), AllQueues(), late)
    }

    constructor ()
      ensures Valid() && made == map[] && Model() == H.NEW_HUB
    {
      sessions, rooms, made, late := map[], map[], map[], {};
    }

    method NewSession(sid: string) returns (s: Session)
      requires Valid() && sid !in made
      modifies this
      ensures Valid() && fresh(s) && made == old(made)[sid := s] && Model() == H.NewSession(old(Model()), sid)
    {
      hide AllFlags, AllQueues, RoomSids, Valid;
      s := Register(sid);
      Enter(s);
    }

    method Enter(s: Session)
      requires Valid() && s.sid in made && made[s.sid] == s
      modifies this`sessions
      ensures Valid() && sessions.Keys == old(sessions.Keys) + {s.sid}
    {
      ghost var live := sessions.Keys;
      sessions := sessions[s.sid := s];
      assert sessions.Keys == live + {s.sid};
    }

    method Register(sid: string) returns (s: Session)
      requires Valid() && sid !in made
      modifies this`made
      ensures Valid() && fresh(s) && s.sid == sid && made == old(made)[sid := s]
      ensures AllFlags() == old(AllFlags())[sid := {}] && AllQueues() == old(AllQueues())[sid := H.NEW_QUEUE]
      ensures sid !in old(AllFlags())
    {
      s := new Session(sid);
      made := made[sid := s];
    }

    method GetSession(sid: string) returns (s: Session?)
      requires Valid()
      ensures s != null <==> sid in Model().live
      ensures s != null ==> sid in made && s == made[sid]
    {
      s := if sid in sessions then sessions[sid] else null;
    }

    method SetFlags(s: Session, flags: set<string>)
      requires Valid() && s.sid in made && made[s.sid] == s
      modifies s`rooms
      ensures Valid() && s.rooms == flags && AllFlags() == old(AllFlags())[s.sid := flags]
    {
      s.rooms := flags;
    }

    method PutMember(s: Session, room: string)
      requires Valid() && s.sid in made && made[s.sid] == s
      modifies this`rooms
      ensures Valid()
      ensures var was := RoomSids(old(rooms)); RoomSids(rooms) == was[room := (if room in was then was[room] else {}) + {s.sid}]
    {
      var members: map<string, Session> := if room in rooms then rooms[room] else map[];
      ghost var was := RoomSids(rooms);
      assert members.Keys == if room in was then was[room] else {};
      rooms := rooms[room := members[s.sid := s]];
      assert rooms[room].Keys == members.Keys + {s.sid};
      assert RoomSids(rooms) == was[room := members.Keys + {s.sid}];
    }

    method DropMember(sid: string, room: string)
      requires Valid()
      modifies this`rooms
      ensures Valid()
      ensures var was := RoomSids(old(rooms)); RoomSids(rooms) == if room in was then was[room := was[room] - {sid}] else was
    {
      if room in rooms { rooms := rooms[room := rooms[room] - {sid}]; }
    }

    lemma FlagsOf(s: Session)
      requires Valid() && s.sid in made && made[s.sid] == s
      ensures s.sid in AllFlags() && AllFlags()[s.sid] == s.rooms
    {
    }

    method JoinRoom(s: Session, room: string)
      requires Valid() && s.sid in made && made[s.sid] == s
      modifies this`rooms, this`late, s`rooms
      ensures Valid() && Model() == H.JoinRoom(old(Model()), s.sid, room)
    {
      hide AllFlags, AllQueues, RoomSids, Valid;
      FlagsOf(s);
      SetFlags(s, s.rooms + {room});
      PutMember(s, room);
      late := if s.sid in sessions then late else late + {(s.sid, room)};
    }

    method LeaveRoom(s: Session, room: string)
      requires Valid() && s.sid in made && made[s.sid] == s
      modifies this`rooms, this`late, s`rooms
      ensures Valid() && Model() == H.LeaveRoom(old(Model()), s.sid, room)
    {
      hide AllFlags, AllQueues, RoomSids, Valid;
      FlagsOf(s);
      SetFlags(s, s.rooms - {room});
      DropMember(s.sid, room);
      late := late - {(s.sid, room)};
    }

    /** Forgets the session in every room it has flagged, in any order. */
    method RemoveSession(sid: string)
      requires Valid()
      modifies this`sessions, this`rooms
      ensures Valid() && Model() == H.RemoveSession(old(Model()), sid)
    {
      if sid !in sessions { return; }
      FlagsOf(sessions[sid]);
      hide AllFlags, AllQueues, RoomSids;
      ForgetIn(sid, sessions[sid].rooms);
      ghost var live := sessions.Keys;
      sessions := sessions - {sid};
      assert sessions.Keys == live - {sid};
    }

    method ForgetIn(sid: string, flagged: set<string>)
      requires Valid()
      modifies this`rooms
      ensures Valid()
      ensures RoomSids(rooms) == map room | room in RoomSids(old(rooms)) ::
                if room in flagged then RoomSids(old(rooms))[room] - {sid} else RoomSids(old(rooms))[room]
    {
      hide Valid, RoomSids;
      ghost var was := RoomSids(rooms);
      var todo := flagged;
      while todo != {}
        invariant Valid() && todo <= flagged
        invariant RoomSids(rooms) == map room | room in was :: if room in flagged - todo then was[room] - {sid} else was[room]
      {
        var room :| room in todo;
        todo := todo - {room};
        DropMember(sid, room);
      }
    }

    /** Offers the packet to the members of the room, in any order. */
    method Broadcast(room: string, packet: string)
      requires Valid()
      modifies made.Values`queue, made.Values`offered
      ensures Valid() && Model() == H.Broadcast(old(Model()), room, packet)
    {
      ghost var was := Model();
      var members: map<string, Session> := if room in rooms then rooms[room] else map[];
      assert members.Keys == H.Members(was, room);
      EnqueueAll(members, packet);
      assert AllFlags() == was.flags;
      hide AllFlags, RoomSids, Valid;
      assert AllQueues() == H.Broadcast(was, room, packet).queues;
    }

    method EnqueueAll(members: map<string, Session>, packet: string)
      requires Valid() && forall sid :: sid in members ==> sid in made && members[sid] == made[sid]
      modifies made.Values`queue, made.Values`offered
      ensures forall sid :: sid in made ==>
                made[sid].Channel() == if sid in members.Keys then H.Put(old(made[sid].Channel()), packet) else old(made[sid].Channel())
    {
      hide H.Put, Session.Channel;
      var todo := members.Keys;
      while todo != {}
        invariant todo <= members.Keys
        invariant forall sid :: sid in made ==>
                    made[sid].Channel() == if sid in members.Keys - todo then H.Put(old(made[sid].Channel()), packet) else old(made[sid].Channel())
      {
        var sid :| sid in todo;
        todo := todo - {sid};
        members[sid].Enqueue(packet);
      }
    }
  }
}
