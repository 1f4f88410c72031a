/**
 The Socket.IO room channels, as far as they decide who receives an emission.
 A join subscribes the socket to the room's channel before anything else happens,
 whether or not the join is then turned away; on disconnect Socket.IO takes the
 socket out of every channel before the disconnect handler runs.
 */
module Channels {
  import opened Session
  import opened SessionFacts

  /** Which connections listen on each room channel. */
  type Subscriptions = map<RoomId, set<ConnId>>

  function Members(ch: Subscriptions, id: RoomId): set<ConnId> {
    if id in ch then ch[id] else {}
  }

  /** `socket.join(room)` */
  function Subscribe(ch: Subscriptions, id: RoomId, conn: ConnId): (r: Subscriptions)
    ensures Members(r, id) == Members(ch, id) + {conn}
    ensures forall k :: k != id ==> Members(r, k) == Members(ch, k)
  {
    ch[id := Members(ch, id) + {conn}]
  }

  /** A new connection: Socket.IO puts the socket in the room named by its own id. */
  function Connect(ch: Subscriptions, conn: ConnId): (r: Subscriptions)
    ensures Members(r, conn) == Members(ch, conn) + {conn}
    ensures forall k :: k != conn ==> Members(r, k) == Members(ch, k)
  {
    Subscribe(ch, conn, conn)
  }

  /** The socket leaving every channel when its connection closes. */
  function LeaveAll(ch: Subscriptions, conn: ConnId): (r: Subscriptions)
    ensures forall k :: Members(r, k) == Members(ch, k) - {conn}
  {
    map k | k in ch :: ch[k] - {conn}
  }

  /** The channels once Socket.IO has done its part of handling `req` from `conn`. */
  function Tune(ch: Subscriptions, conn: ConnId, req: Request): Subscriptions {
    match req
    case JoinRoom(id) => Subscribe(ch, id, conn)
    case Disconnected => LeaveAll(ch, conn)
    case _ => ch
  }

  /**
   The connections an emission made on behalf of `sender` reaches. `socket.to(room)`
   leaves out every socket on the channel named by the sender's own id, not only
   the sender.
   */
  function Recipients(ch: Subscriptions, sender: ConnId, e: Emission): set<ConnId> {
    match e.target
    case Sender => {sender}
    case RoomExceptSender(id) => Members(ch, id) - Members(ch, sender) - {sender}
    case WholeRoom(id) => Members(ch, id)
  }

  /**
   A relayed move reaches the room's channel except the sockets on the sender's
   own-id channel, and never comes back to its sender.
   */
  lemma MoveNeverEchoes(ch: Subscriptions, s: Store, conn: ConnId, id: RoomId, m: Move)
    ensures forall e :: e in PlayMove(s, id, m).out ==>
      && e.event == MoveMade(m)
      && (forall k :: k in Recipients(ch, conn, e) <==>
            k in Members(ch, id) && k !in Members(ch, conn) && k != conn)
      && conn !in Recipients(ch, conn, e)
  {
  }

  /**
   A joiner turned away from a full room still sits on its channel: it hears
   `roomfull`, and then a move another player makes there reaches it exactly
   when it is not on that player's own-id channel.
   */
  lemma RejectedJoinerOverhears(ch: Subscriptions, s: Store, conn: ConnId, id: RoomId,
                                player: ConnId, m: Move)
    requires id in s.rooms && |s.rooms[id].players| >= Capacity
    requires player != conn
    ensures var joined := Join(s, conn, id);
      var ch' := Tune(ch, conn, JoinRoom(id));
      && joined.store == s
      && joined.out == [Emit(Sender, RoomFull(RoomFullNotice))]
      && conn in Members(ch', id)
      && (conn in Recipients(ch', player, PlayMove(s, id, m).out[0])
          <==> conn !in Members(ch, player) && id != player)
  {
    var joined := Join(s, conn, id);
    assert joined.store.rooms == s.rooms;
  }

  /**
   A whole game between two connections, as the handlers see it: A joins "r1" and
   is told White; B joins and is told Black, and `startGame` carries both seats;
   A's move is recorded and relayed; B leaves, `NewRoom` goes to "r1", and A sits
   alone in "r1" as White. MatchDeliveries says who receives each of these.
   */
  lemma MatchScenario()
    ensures
      var j1 := Join(Empty, "A", "r1");
      var j2 := Join(j1.store, "B", "r1");
      var mv := PlayMove(j2.store, "r1", Move("e4"));
      var gone := Disconnect(mv.store, "B");
      && j1.out == [Emit(Sender, PlayerSide(White))]
      && j2.out == [Emit(Sender, PlayerSide(Black)),
                    Emit(WholeRoom("r1"), StartGame([Player("A", White), Player("B", Black)]))]
      && mv.out == [Emit(RoomExceptSender("r1"), MoveMade(Move("e4")))]
      && gone.out == [Emit(WholeRoom("r1"), NewRoom(PeerLeftNotice))]
      && gone.store.rooms["r1"] == Room([Player("A", White)], [Move("e4")])
  {
    var white, black := Player("A", White), Player("B", Black);
    var s1 := Store(map["r1" := Room([white], [])], ["r1"]);
    var s2 := Store(map["r1" := Room([white, black], [])], ["r1"]);
    var s3 := Store(map["r1" := Room([white, black], [Move("e4")])], ["r1"]);
    ScenarioSeats(white, black, s1, s2);
    ScenarioPlay(white, black, s2, s3);
    ScenarioLeave(white, black, s3);
  }

  lemma ScenarioSeats(white: Player, black: Player, s1: Store, s2: Store)
    requires white == Player("A", White) && black == Player("B", Black)
    requires s1 == Store(map["r1" := Room([white], [])], ["r1"])
    requires s2 == Store(map["r1" := Room([white, black], [])], ["r1"])
    ensures Join(Empty, "A", "r1") == Step(s1, [Emit(Sender, PlayerSide(White))])
    ensures Join(s1, "B", "r1")
         == Step(s2, [Emit(Sender, PlayerSide(Black)), Emit(WholeRoom("r1"), StartGame([white, black]))])
  {
    FirstTwoJoins("A", "B", "r1");
  }

  lemma ScenarioPlay(white: Player, black: Player, s2: Store, s3: Store)
    requires s2 == Store(map["r1" := Room([white, black], [])], ["r1"])
    requires s3 == Store(map["r1" := Room([white, black], [Move("e4")])], ["r1"])
    ensures PlayMove(s2, "r1", Move("e4")) == Step(s3, [Emit(RoomExceptSender("r1"), MoveMade(Move("e4")))])
  {
    assert [] + [Move("e4")] == [Move("e4")];
    assert PlayMove(s2, "r1", Move("e4")).store.rooms == s3.rooms;
  }

  lemma ScenarioLeave(white: Player, black: Player, s3: Store)
    requires white == Player("A", White) && black == Player("B", Black)
    requires s3 == Store(map["r1" := Room([white, black], [Move("e4")])], ["r1"])
    ensures var gone := Disconnect(s3, "B");
      && gone.store.rooms["r1"] == Room([white], [Move("e4")])
      && gone.out == [Emit(WholeRoom("r1"), NewRoom(PeerLeftNotice))]
  {
    assert Without([white, black], "B") == [white];
    var rooms := Evict(s3.rooms, "B");
    assert rooms["r1"] == Room([white], [Move("e4")]);
    assert NoticeFor(rooms, "r1") == [Emit(WholeRoom("r1"), NewRoom(PeerLeftNotice))];
    assert ["r1"][..0] == [];
    assert NewRoomNotices(["r1"], rooms) == NewRoomNotices([], rooms) + NoticeFor(rooms, "r1");
    assert Disconnect(s3, "B") == Step(Store(rooms, ["r1"]), NewRoomNotices(["r1"], rooms));
  }

  /**
   A room named like a connection id shares that connection's own channel: when
   B and C fill room "xyz" and "xyz" is A's id, A receives `startGame` too,
   without ever having joined.
   */
  lemma IdNamedRoomReachesOwner()
    ensures
      var ch := Tune(Tune(Connect(map[], "xyz"), "B", JoinRoom("xyz")), "C", JoinRoom("xyz"));
      var start := Join(Join(Empty, "B", "xyz").store, "C", "xyz").out[1];
      && start.target == WholeRoom("xyz")
      && start.event.StartGame?
      && Recipients(ch, "C", start) == {"xyz", "B", "C"}
  {
    FirstTwoJoins("B", "C", "xyz");
    var ch := Tune(Tune(Connect(map[], "xyz"), "B", JoinRoom("xyz")), "C", JoinRoom("xyz"));
    assert Members(ch, "xyz") == {"xyz", "B", "C"};
  }

  /**
   A connection on the mover's own-id channel misses the move even when it sits in
   the room: C joins the room named "A", then A and C both join "r", and A's move
   in "r" reaches nobody.
   */
  lemma MoverIdChannelHidesMove()
    ensures
      var ch0 := Connect(Connect(map[], "A"), "C");
      var ch := Tune(Tune(Tune(ch0, "C", JoinRoom("A")), "A", JoinRoom("r")), "C", JoinRoom("r"));
      && "C" in Members(ch, "r")
      && Recipients(ch, "A", Emit(RoomExceptSender("r"), MoveMade(Move("e4")))) == {}
  {
    var ch0 := Connect(Connect(map[], "A"), "C");
    var ch := Tune(Tune(Tune(ch0, "C", JoinRoom("A")), "A", JoinRoom("r")), "C", JoinRoom("r"));
    assert Members(ch, "r") == {"A", "C"};
    assert Members(ch, "A") == {"A", "C"};
  }

  /**
   Who receives what in MatchScenario: `startGame` reaches both A and B, A's move
   reaches B only, and once B has left `NewRoom` reaches A only.
   */
  lemma MatchDeliveries()
    ensures
      var ch1 := Tune(map[], "A", JoinRoom("r1"));
      var ch2 := Tune(ch1, "B", JoinRoom("r1"));
      var ch3 := Tune(ch2, "B", Disconnected);
      && Recipients(ch2, "B", Emit(WholeRoom("r1"), StartGame([Player("A", White), Player("B", Black)])))
         == {"A", "B"}
      && Recipients(ch2, "A", Emit(RoomExceptSender("r1"), MoveMade(Move("e4")))) == {"B"}
      && Recipients(ch3, "B", Emit(WholeRoom("r1"), NewRoom(PeerLeftNotice))) == {"A"}
  {
    var ch1 := Tune(map[], "A", JoinRoom("r1"));
    var ch2 := Tune(ch1, "B", JoinRoom("r1"));
    assert Members(ch2, "r1") == {"A", "B"};
    assert "A" != "B";
    assert Members(ch2, "r1") - {"A"} == {"B"};
    var ch3 := Tune(ch2, "B", Disconnected);
    assert Members(ch3, "r1") == {"A"};
  }
}
