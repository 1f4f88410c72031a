/**
 The server process: the `rooms` object that every connection's handlers share,
 and one method per `socket.on(...)` handler, each changing the object in place
 the way the handler does. Each method is proved to make exactly the transition
 of module Session and to keep its invariant: at most two players per room.
 */
module ChessServer {
  import opened Session
  import opened Channels
  import opened SessionFacts

  /**
   The disconnect loop after `i` iterations: the rooms at the first `i` keys are
   filtered, the rest are as they were.
   */
  ghost predicate Visited(order: seq<RoomId>, i: nat, rooms: map<RoomId, Room>,
                          before: map<RoomId, Room>, after: map<RoomId, Room>)
  {
    && i <= |order|
    && rooms.Keys == before.Keys == after.Keys
    && (forall k :: k in order ==> k in rooms)
    && (forall j :: 0 <= j < i ==> rooms[order[j]] == after[order[j]])
    && (forall j :: i <= j < |order| ==> rooms[order[j]] == before[order[j]])
  }

  /**
   One iteration of the disconnect loop: filtering the room at the next key sets
   it to its final value, and adds that room's notice, if any, to the ones so far.
   */
  lemma VisitNext(order: seq<RoomId>, i: nat, rooms: map<RoomId, Room>, before: map<RoomId, Room>,
                  conn: ConnId, out: seq<Emission>)
    requires Distinct(order) && i < |order|
    requires Visited(order, i, rooms, before, Evict(before, conn))
    requires out == NewRoomNotices(order[..i], Evict(before, conn))
    ensures var room := order[i];
      var next := rooms[room := rooms[room].(players := Without(rooms[room].players, conn))];
      && Visited(order, i + 1, next, before, Evict(before, conn))
      && NewRoomNotices(order[..i + 1], Evict(before, conn))
         == out + (if |next[room].players| < Capacity then [Emit(WholeRoom(room), NewRoom(PeerLeftNotice))] else [])
  {
    var after := Evict(before, conn);
    var room := order[i];
    var next := rooms[room := rooms[room].(players := Without(rooms[room].players, conn))];
    assert next[room] == after[room];
    VisitOne(order, i, rooms, next, before, after);
    assert order[..i + 1][..i] == order[..i];
  }

  /** Setting the room at the next key to its final value, and nothing else, extends the visited prefix by one. */
  lemma VisitOne(order: seq<RoomId>, i: nat, rooms: map<RoomId, Room>, next: map<RoomId, Room>,
                 before: map<RoomId, Room>, after: map<RoomId, Room>)
    requires Distinct(order) && i < |order|
    requires Visited(order, i, rooms, before, after)
    requires next == rooms[order[i] := after[order[i]]]
    ensures Visited(order, i + 1, next, before, after)
  {
    forall j | i < j < |order| ensures next[order[j]] == before[order[j]] {
      assert order[j] != order[i];
    }
    forall j | 0 <= j < i ensures next[order[j]] == after[order[j]] {
      assert order[j] != order[i];
    }
  }

  lemma DisconnectUnfolds(s: Store, conn: ConnId)
    requires WellFormed(s)
    ensures var rooms := Evict(s.rooms, conn);
      Session.Disconnect(s, conn) == Step(Store(rooms, s.order), NewRoomNotices(s.order, rooms))
  {
  }

  /** Once every key is visited, every room holds its final value. */
  lemma AllVisited(order: seq<RoomId>, rooms: map<RoomId, Room>, before: map<RoomId, Room>, after: map<RoomId, Room>)
    requires forall k :: k in before ==> k in order
    requires Visited(order, |order|, rooms, before, after)
    ensures rooms == after
  {
    forall k | k in rooms ensures rooms[k] == after[k] {
      var j :| 0 <= j < |order| && order[j] == k;
    }
  }

  class RoomServer {
    /** The `rooms` object: room id to `{ players, moves }`. */
    var rooms: map<RoomId, Room>
    /** The order in which the keys of `rooms` were added. */
    var order: seq<RoomId>
    /**
     The Socket.IO room channels. A connection adds the socket to its own-id channel,
     `socket.join` adds it to a room's channel, and a disconnect takes it out of all of them.
     */
    ghost var channels: Subscriptions

    ghost predicate Valid()
      reads this
    {
      Invariant(Store(rooms, order))
    }

    function State(): Store
      reads this
    {
      Store(rooms, order)
    }

    /** `const rooms = {};` */
    constructor ()
      ensures Valid() && State() == Empty && channels == map[]
    {
      rooms, order := map[], [];
      channels := map[];
    }

    /** `io.on('connection', ...)`: Socket.IO first puts the socket in the room named by its own id. */
    method OnConnect(conn: ConnId)
      modifies this`channels
      ensures channels == Connect(old(channels), conn)
    {
      channels := Connect(channels, conn);
    }

    /** `socket.on('join-room', ...)`: subscribe, create the room if new, then seat or turn away. */
    method OnJoinRoom(conn: ConnId, room: RoomId) returns (out: seq<Emission>)
      requires Valid()
      modifies this
      ensures Valid()
      ensures Step(State(), out) == Join(old(State()), conn, room)
      ensures channels == Subscribe(old(channels), room, conn)
    {
      channels := Subscribe(channels, room, conn);
      ghost var before := State();
      if room !in rooms {
        rooms := rooms[room := Room([], [])];
        order := order + [room];
      }
      var r := rooms[room];
      if |r.players| < Capacity {
        var side := if |r.players| == 0 then White else Black;
        rooms := rooms[room := r.(players := r.players + [Player(conn, side)])];
        out := [Emit(Sender, PlayerSide(side))];
        if |rooms[room].players| == Capacity {
          out := out + [Emit(WholeRoom(room), StartGame(rooms[room].players))];
        }
      } else {
        out := [Emit(Sender, RoomFull(RoomFullNotice))];
      }
      JoinKeepsInvariant(before, conn, room);
    }

    /** `socket.on('move', ...)`: drop a move for an unknown room, else record and relay it. */
    method OnMove(roomId: RoomId, move: Move) returns (out: seq<Emission>)
      requires Valid()
      modifies this
      ensures Valid()
      ensures Step(State(), out) == PlayMove(old(State()), roomId, move)
      ensures channels == old(channels)
    {
      if roomId !in rooms {
        return [];
      }
      rooms := rooms[roomId := rooms[roomId].(moves := rooms[roomId].moves + [move])];
      out := [Emit(RoomExceptSender(roomId), MoveMade(move))];
    }

    /** `socket.on('requestRematch', ...)`: clear an existing room's moves and tell the room. */
    method OnRequestRematch(roomId: RoomId) returns (out: seq<Emission>)
      requires Valid()
      modifies this
      ensures Valid()
      ensures Step(State(), out) == Rematch(old(State()), roomId)
      ensures channels == old(channels)
    {
      out := [];
      if roomId in rooms {
        rooms := rooms[roomId := rooms[roomId].(moves := [])];
        out := [Emit(WholeRoom(roomId), RequestRematch), Emit(WholeRoom(roomId), Message(RestartedText))];
      }
    }

    /** `socket.on('gameEnd', ...)`: announce the result to the whole room. */
    method OnGameEnd(roomId: RoomId, status: Status) returns (out: seq<Emission>)
      ensures out == EndGame(roomId, status)
    {
      out := [Emit(WholeRoom(roomId), GameEnd(status))];
    }

    /** `socket.on('offer', ...)`: pass the offer to the rest of its room. */
    method OnOffer(signal: Signal) returns (out: seq<Emission>)
      ensures out == RelaySignal(Offer(signal))
    {
      out := [Emit(RoomExceptSender(signal.room), Offer(signal))];
    }

    /** `socket.on('answer', ...)`: pass the answer to the rest of its room. */
    method OnAnswer(signal: Signal) returns (out: seq<Emission>)
      ensures out == RelaySignal(Answer(signal))
    {
      out := [Emit(RoomExceptSender(signal.room), Answer(signal))];
    }

    /** `socket.on('ice-candidate', ...)`: pass the candidate to the rest of its room. */
    method OnIceCandidate(signal: Signal) returns (out: seq<Emission>)
      ensures out == RelaySignal(IceCandidate(signal))
    {
      out := [Emit(RoomExceptSender(signal.room), IceCandidate(signal))];
    }

    /**
     `socket.on('disconnect', ...)`: visit every room in key order, keep
     the players of every other connection, and broadcast `NewRoom` to it if it
     is left with fewer than two players.
     */
    method OnDisconnect(conn: ConnId) returns (out: seq<Emission>)
      requires Valid()
      modifies this
      ensures Valid()
      ensures Step(State(), out) == Session.Disconnect(old(State()), conn)
      ensures channels == LeaveAll(old(channels), conn)
    {
      channels := LeaveAll(channels, conn);
      ghost var before := State();
      out := EvictEverywhere(conn);
      DisconnectUnfolds(before, conn);
      DisconnectKeepsInvariant(before, conn);
    }

    /** The loop of the disconnect handler: filter `conn` out of every room, in key order, collecting the notices. */
    method EvictEverywhere(conn: ConnId) returns (out: seq<Emission>)
      requires WellFormed(State())
      modifies this`rooms
      ensures rooms == Evict(old(rooms), conn)
      ensures out == NewRoomNotices(order, rooms)
    {
      ghost var before := rooms;
      var keys, rs := order, rooms;
      out := [];
      var i := 0;
      while i < |keys|
        invariant 0 <= i <= |keys|
        invariant Visited(keys, i, rs, before, Evict(before, conn))
        invariant out == NewRoomNotices(keys[..i], Evict(before, conn))
      {
        var room := keys[i];
        VisitNext(keys, i, rs, before, conn, out);
        rs := rs[room := rs[room].(players := Without(rs[room].players, conn))];
        if |rs[room].players| < Capacity {
          out := out + [Emit(WholeRoom(room), NewRoom(PeerLeftNotice))];
        }
        i := i + 1;
      }
      AllVisited(keys, rs, before, Evict(before, conn));
      assert keys[..|keys|] == keys;
      rooms := rs;
    }
  }
}
