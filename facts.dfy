/**
 Properties of the handlers in module Session: what a join promises about the
 game start, that rematch and disconnect can be repeated harmlessly, that the
 filter of the disconnect handler keeps the order of the remaining players, and
 that every sequence of events keeps every room at two players or fewer.
 */
module SessionFacts {
  import opened Session

  // ---------------------------------------------------------------------------
  // join-room

  /** `startGame` goes out exactly when the joiner finds one player already seated. */
  lemma StartGameExactlyOnSecondSeat(s: Store, conn: ConnId, id: RoomId)
    ensures var r := Join(s, conn, id);
      (exists i :: 0 <= i < |r.out| && r.out[i].event.StartGame?) <==> |RoomOf(s, id).players| == 1
  {
    var r := Join(s, conn, id);
    var n := |RoomOf(s, id).players|;
    if n == 1 {
      assert r.out[1].event.StartGame?;
    } else {
      forall i | 0 <= i < |r.out| ensures !r.out[i].event.StartGame? {
        assert i == 0;
      }
    }
  }

  /** The first two joins of a fresh room: the first is seated White, the second Black, and the game starts. */
  lemma FirstTwoJoins(x: ConnId, y: ConnId, id: RoomId)
    ensures var one := Store(map[id := Room([Player(x, White)], [])], [id]);
      && Join(Empty, x, id) == Step(one, [Emit(Sender, PlayerSide(White))])
      && Join(one, y, id)
         == Step(Store(map[id := Room([Player(x, White), Player(y, Black)], [])], [id]),
                 [Emit(Sender, PlayerSide(Black)), Emit(WholeRoom(id), StartGame([Player(x, White), Player(y, Black)]))])
  {
    FirstJoin(Empty, x, id);
    assert Empty.rooms[id := Room([Player(x, White)], [])] == map[id := Room([Player(x, White)], [])];
    var one := Store(map[id := Room([Player(x, White)], [])], [id]);
    var both := [Player(x, White), Player(y, Black)];
    SecondJoin(one, Player(x, White), y, id);
    assert one.rooms[id := Room(both, [])] == map[id := Room(both, [])];
  }

  /** The first joiner of a new room is seated White, and the room is added after every existing one. */
  lemma FirstJoin(s: Store, x: ConnId, id: RoomId)
    requires id !in s.rooms
    ensures Join(s, x, id) == Step(Store(s.rooms[id := Room([Player(x, White)], [])], s.order + [id]),
                                   [Emit(Sender, PlayerSide(White))])
  {
    var s1 := Store(s.rooms[id := EmptyRoom], s.order + [id]);
    var seated := [Player(x, White)];
    assert Ensure(s, id) == s1;
    assert [] + seated == seated;
    assert s1.rooms[id := EmptyRoom.(players := seated)] == s.rooms[id := Room(seated, [])];
  }

  /** A joiner who finds one player seated is appended as Black, and the game starts with both seats. */
  lemma SecondJoin(s: Store, first: Player, y: ConnId, id: RoomId)
    requires id in s.rooms && s.rooms[id].players == [first]
    ensures Join(s, y, id)
         == Step(Store(s.rooms[id := Room([first, Player(y, Black)], s.rooms[id].moves)], s.order),
                 [Emit(Sender, PlayerSide(Black)), Emit(WholeRoom(id), StartGame([first, Player(y, Black)]))])
  {
    assert [first] + [Player(y, Black)] == [first, Player(y, Black)];
  }

  /** A full room turns the joiner away and keeps its players and moves as they were. */
  lemma JoinFullRoomChangesNothing(s: Store, conn: ConnId, id: RoomId)
    requires id in s.rooms && |s.rooms[id].players| >= Capacity
    ensures Join(s, conn, id) == Step(s, [Emit(Sender, RoomFull(RoomFullNotice))])
  {
    var r := Join(s, conn, id);
    assert r.store.rooms == s.rooms;
  }

  // ---------------------------------------------------------------------------
  // requestRematch

  /** Asking for a rematch twice leaves the store as asking once does. */
  lemma RematchIdempotent(s: Store, id: RoomId)
    ensures Rematch(Rematch(s, id).store, id).store == Rematch(s, id).store
  {
    var once := Rematch(s, id).store;
    var twice := Rematch(once, id).store;
    if id in s.rooms {
      assert twice.rooms == once.rooms;
    }
  }

  // ---------------------------------------------------------------------------
  // The filter of the disconnect handler

  /** Filtering keeps the relative order: it distributes over concatenation. */
  lemma {:induction false} WithoutDistributes(a: seq<Player>, b: seq<Player>, conn: ConnId)
    ensures Without(a + b, conn) == Without(a, conn) + Without(b, conn)
  {
    if a == [] {
      assert a + b == b;
    } else {
      assert (a + b)[1..] == a[1..] + b;
      WithoutDistributes(a[1..], b, conn);
    }
  }

  /** A connection that is not among the players leaves them exactly as they are. */
  lemma {:induction false} WithoutStranger(players: seq<Player>, conn: ConnId)
    requires forall p :: p in players ==> p.id != conn
    ensures Without(players, conn) == players
  {
    if players != [] {
      WithoutStranger(players[1..], conn);
      assert players == [players[0]] + players[1..];
    }
  }

  /** Filtering twice is filtering once. */
  lemma WithoutIdempotent(players: seq<Player>, conn: ConnId)
    ensures Without(Without(players, conn), conn) == Without(players, conn)
  {
    WithoutStranger(Without(players, conn), conn);
  }

  /** Filtering keeps every player after the first Black, so only the first may be White. */
  lemma WithoutKeepsBlackTail(ps: seq<Player>, conn: ConnId)
    requires forall i :: 1 <= i < |ps| ==> ps[i].side == Black
    ensures var w := Without(ps, conn); forall i :: 1 <= i < |w| ==> w[i].side == Black
  {
    if ps != [] {
      var rest := Without(ps[1..], conn);
      var w := Without(ps, conn);
      assert w == (if ps[0].id == conn then [] else [ps[0]]) + rest;
      forall p | p in rest ensures p.side == Black {
        var i :| 0 <= i < |ps[1..]| && ps[1..][i] == p;
      }
      forall i | 1 <= i < |w| ensures w[i].side == Black {
        assert w[i] in rest;
      }
    }
  }

  /** Filtering keeps a room within capacity, with only its first player possibly White. */
  lemma WithoutKeepsRoomOk(r: Room, conn: ConnId)
    requires RoomOk(r)
    ensures RoomOk(r.(players := Without(r.players, conn)))
  {
    WithoutKeepsBlackTail(r.players, conn);
  }

  // ---------------------------------------------------------------------------
  // disconnect

  /** Disconnecting the same connection twice leaves the store as disconnecting once does. */
  lemma DisconnectIdempotent(s: Store, conn: ConnId)
    requires WellFormed(s)
    ensures Disconnect(Disconnect(s, conn).store, conn).store == Disconnect(s, conn).store
  {
    var once := Disconnect(s, conn).store;
    assert once == Store(Evict(s.rooms, conn), s.order);
    assert Disconnect(once, conn).store == Store(Evict(once.rooms, conn), s.order);
    EvictIdempotent(s.rooms, conn);
  }

  /** Filtering every room twice is filtering every room once. */
  lemma EvictIdempotent(rooms: map<RoomId, Room>, conn: ConnId)
    ensures Evict(Evict(rooms, conn), conn) == Evict(rooms, conn)
  {
    var once := Evict(rooms, conn);
    forall k | k in once ensures Evict(once, conn)[k] == once[k] {
      WithoutIdempotent(rooms[k].players, conn);
    }
  }

  /** Disconnecting a connection that sits in no room changes no room. */
  lemma DisconnectStranger(s: Store, conn: ConnId)
    requires WellFormed(s)
    requires forall k, p :: k in s.rooms && p in s.rooms[k].players ==> p.id != conn
    ensures Disconnect(s, conn).store == s
  {
    var after := Disconnect(s, conn).store;
    forall k | k in s.rooms ensures after.rooms[k] == s.rooms[k] {
      WithoutStranger(s.rooms[k].players, conn);
    }
  }

  // ---------------------------------------------------------------------------
  // Every handler, and every trace of events

  /** gameEnd and the three signaling relays only emit, each one event, and leave the store alone. */
  lemma RelaysOnlyEmit(s: Store, conn: ConnId, req: Request)
    requires WellFormed(s)
    requires req.SendGameEnd? || req.SendOffer? || req.SendAnswer? || req.SendIceCandidate?
    ensures var r := Handle(s, conn, req);
      && r.store == s
      && |r.out| == 1
      && (req.SendGameEnd? ==> r.out[0] == Emit(WholeRoom(req.roomId), GameEnd(req.status)))
      && (!req.SendGameEnd? ==> r.out[0].target == RoomExceptSender(req.signal.room))
      && (req.SendOffer? ==> r.out[0].event == Offer(req.signal))
      && (req.SendAnswer? ==> r.out[0].event == Answer(req.signal))
      && (req.SendIceCandidate? ==> r.out[0].event == IceCandidate(req.signal))
  {
  }

  /** A room's move history only ever grows by the one move sent to it, or is cleared by a rematch. */
  lemma MovesAppendOnly(s: Store, conn: ConnId, req: Request, k: RoomId)
    requires WellFormed(s) && k in s.rooms
    ensures var moves := Handle(s, conn, req).store.rooms[k].moves;
      || moves == s.rooms[k].moves
      || (req.SendMove? && req.roomId == k && moves == s.rooms[k].moves + [req.move])
      || (req.AskRematch? && req.roomId == k && moves == [])
  {
  }

  /** A join keeps every room at two players or fewer, with only the first one White. */
  lemma JoinKeepsInvariant(s: Store, conn: ConnId, id: RoomId)
    requires Invariant(s)
    ensures Invariant(Join(s, conn, id).store)
  {
    var after := Join(s, conn, id).store;
    assert RoomOk(after.rooms[id]);
  }

  /** A disconnect keeps every room at two players or fewer, with only the first one White. */
  lemma DisconnectKeepsInvariant(s: Store, conn: ConnId)
    requires Invariant(s)
    ensures Invariant(Disconnect(s, conn).store)
  {
    var after := Disconnect(s, conn).store;
    forall k | k in after.rooms ensures RoomOk(after.rooms[k]) {
      WithoutKeepsRoomOk(s.rooms[k], conn);
    }
  }

  /** Every handler keeps every room at two players or fewer, with only the first one White. */
  lemma HandleKeepsInvariant(s: Store, conn: ConnId, req: Request)
    requires Invariant(s)
    ensures Invariant(Handle(s, conn, req).store)
  {
    match req
    case JoinRoom(id) => JoinKeepsInvariant(s, conn, id);
    case Disconnected => DisconnectKeepsInvariant(s, conn);
    case _ =>
  }

  /** However the events of all connections interleave, no room ever seats more than two players. */
  lemma {:induction false} RunKeepsInvariant(s: Store, trace: seq<(ConnId, Request)>)
    requires Invariant(s)
    ensures Invariant(Run(s, trace))
    decreases |trace|
  {
    if trace != [] {
      HandleKeepsInvariant(s, trace[0].0, trace[0].1);
      RunKeepsInvariant(Handle(s, trace[0].0, trace[0].1).store, trace[1..]);
    }
  }

  /**
   Seats are not unique. White and Black fill a room; White leaves; the next joiner
   finds one player seated and is told Black too, and the game starts a second time
   in the same room, between two Black players.
   */
  lemma TwoBlackPlayers()
    ensures
      var s1 := Join(Empty, "a", "r").store;
      var s2 := Join(s1, "b", "r").store;
      var s3 := Disconnect(s2, "a").store;
      var last := Join(s3, "c", "r");
      && s2.rooms["r"].players == [Player("a", White), Player("b", Black)]
      && s3.rooms["r"].players == [Player("b", Black)]
      && last.store.rooms["r"].players == [Player("b", Black), Player("c", Black)]
      && last.out == [Emit(Sender, PlayerSide(Black)),
                      Emit(WholeRoom("r"), StartGame([Player("b", Black), Player("c", Black)]))]
  {
    var a, b, c := Player("a", White), Player("b", Black), Player("c", Black);
    var s2 := Store(map["r" := Room([a, b], [])], ["r"]);
    var s3 := Store(map["r" := Room([b], [])], ["r"]);
    BlackFillsRoom(a, b, s2);
    WhiteLeaves(a, b, s2, s3);
    BlackJoinsBlack(b, c, s3);
  }

  lemma BlackFillsRoom(a: Player, b: Player, s2: Store)
    requires a == Player("a", White) && b == Player("b", Black)
    requires s2 == Store(map["r" := Room([a, b], [])], ["r"])
    ensures Join(Join(Empty, "a", "r").store, "b", "r").store == s2
  {
    FirstTwoJoins("a", "b", "r");
  }

  lemma WhiteLeaves(a: Player, b: Player, s2: Store, s3: Store)
    requires a == Player("a", White) && b == Player("b", Black)
    requires s2 == Store(map["r" := Room([a, b], [])], ["r"])
    requires s3 == Store(map["r" := Room([b], [])], ["r"])
    ensures Disconnect(s2, "a").store == s3
  {
    assert Without([a, b], "a") == [b];
    var rooms := Evict(s2.rooms, "a");
    assert rooms.Keys == {"r"} && rooms["r"] == Room([b], []);
    assert rooms == s3.rooms;
    assert Disconnect(s2, "a").store == Store(rooms, ["r"]);
  }

  lemma BlackJoinsBlack(b: Player, c: Player, s3: Store)
    requires b == Player("b", Black) && c == Player("c", Black)
    requires s3 == Store(map["r" := Room([b], [])], ["r"])
    ensures var last := Join(s3, "c", "r");
      && last.store.rooms["r"].players == [b, c]
      && last.out == [Emit(Sender, PlayerSide(Black)), Emit(WholeRoom("r"), StartGame([b, c]))]
  {
    assert [b] + [c] == [b, c];
  }
}
