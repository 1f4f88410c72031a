/**
 The room store of the chess relay server and what each Socket.IO event handler
 does to it, as pure transitions: every handler takes the store and the sender,
 and yields the new store together with the emissions it makes, in order.
 The class in server.dfy runs the same transitions in place.
 */
module Session {

  /** A Socket.IO connection id (`socket.id`). */
  type ConnId = string

  /** A caller-chosen room name; it is also the name of the Socket.IO channel. */
  type RoomId = string

  /** The colour a player is told it plays: 'white' or 'black'. */
  datatype Side = White | Black

  /** One `{ id, side }` entry of a room's `players` array. */
  datatype Player = Player(id: ConnId, side: Side)

  /** A chess move as a client sends it; the server never looks inside. */
  datatype Move = Move(notation: string)

  /** The `status` of a `gameEnd` event; relayed, never inspected. */
  datatype Status = Status(text: string)

  /** A WebRTC offer, answer or ICE candidate; only its `room` field is read. */
  datatype Signal = Signal(room: RoomId, body: string)

  /** A room object `{ players, moves }`. */
  datatype Room = Room(players: seq<Player>, moves: seq<Move>)

  const EmptyRoom := Room([], [])

  /** The number of players a room seats. */
  const Capacity := 2

  /**
   The module-level `rooms` object: its own properties, and the order in which
   they were added, which is the order `for..in` visits them.
   */
  datatype Store = Store(rooms: map<RoomId, Room>, order: seq<RoomId>)

  const Empty := Store(map[], [])

  /** Whom an emission is addressed to, relative to the connection whose event is handled. */
  datatype Target =
    | Sender                      // socket.emit(...)
    | RoomExceptSender(room: RoomId)  // socket.to(room).emit(...)
    | WholeRoom(room: RoomId)         // io.to(room).emit(...)

  /** The outbound events, one constructor per event name. */
  datatype Event =
    | PlayerSide(side: Side)
    | RoomFull(notice: string)
    | StartGame(players: seq<Player>)
    | GameEnd(status: Status)
    | RequestRematch
    | Message(text: string)
    | MoveMade(move: Move)
    | Offer(signal: Signal)
    | Answer(signal: Signal)
    | IceCandidate(signal: Signal)
    | NewRoom(notice: string)

  datatype Emission = Emit(target: Target, event: Event)

  /** What handling one inbound event yields: the new store and the emissions, in order. */
  datatype Step = Step(store: Store, out: seq<Emission>)

  const RoomFullNotice := "Room is full. Please try another room."
  const RestartedText := "Match Restarted"
  const PeerLeftNotice := "The other player has left. please Join New Room"

  /** The inbound events, each handled on behalf of one sending connection. */
  datatype Request =
    | JoinRoom(room: RoomId)
    | SendMove(roomId: RoomId, move: Move)
    | SendGameEnd(roomId: RoomId, status: Status)
    | AskRematch(roomId: RoomId)
    | SendOffer(signal: Signal)
    | SendAnswer(signal: Signal)
    | SendIceCandidate(signal: Signal)
    | Disconnected

  // ---------------------------------------------------------------------------
  // Invariants of the store

  predicate Distinct(ids: seq<RoomId>) {
    forall i, j :: 0 <= i < j < |ids| ==> ids[i] != ids[j]
  }

  /** The key order lists every room exactly once. */
  predicate WellFormed(s: Store) {
    && Distinct(s.order)
    && (forall k :: k in s.rooms ==> k in s.order)
    && (forall k :: k in s.order ==> k in s.rooms)
  }

  /** What the handlers keep true of every room: at most two players, and only the first may be White. */
  predicate RoomOk(r: Room) {
    && |r.players| <= Capacity
    && (forall i :: 1 <= i < |r.players| ==> r.players[i].side == Black)
  }

  predicate Invariant(s: Store) {
    && WellFormed(s)
    && (forall k :: k in s.rooms ==> RoomOk(s.rooms[k]))
  }

  /** `rooms[id]`, reading a missing room as the empty room the join handler would create. */
  function RoomOf(s: Store, id: RoomId): Room {
    if id in s.rooms then s.rooms[id] else EmptyRoom
  }

  // ---------------------------------------------------------------------------
  // join-room

  /** The lazy initialisation at the top of the join handler. */
  function Ensure(s: Store, id: RoomId): (r: Store)
    ensures id in r.rooms && r.rooms[id] == RoomOf(s, id)
    ensures r.rooms.Keys == s.rooms.Keys + {id}
    ensures forall k :: k in s.rooms ==> r.rooms[k] == s.rooms[k]
    ensures r.order == if id in s.rooms then s.order else s.order + [id]
    ensures WellFormed(s) ==> WellFormed(r)
  {
    if id in s.rooms then s else Store(s.rooms[id := EmptyRoom], s.order + [id])
  }

  /**
   The join handler: create the room if it is new, then seat the joiner if fewer
   than two players are there (White when the room is empty, Black otherwise) and
   start the game when this join fills the room; otherwise answer `roomfull`.
   */
  function Join(s: Store, conn: ConnId, id: RoomId): (r: Step)
    ensures r.store.rooms.Keys == s.rooms.Keys + {id}
    ensures r.store.order == if id in s.rooms then s.order else s.order + [id]
    ensures forall k :: k in s.rooms && k != id ==> r.store.rooms[k] == s.rooms[k]
    ensures r.store.rooms[id].moves == RoomOf(s, id).moves
    ensures |r.out| >= 1 && r.out[0].target == Sender
    ensures
      var before := RoomOf(s, id).players;
      var after := r.store.rooms[id].players;
      if |before| < Capacity then
        && |after| == |before| + 1
        && after[..|before|] == before
        && after[|before|].id == conn
        && (after[|before|].side == White <==> before == [])
        && r.out[0].event == PlayerSide(after[|before|].side)
        && |r.out| <= 2
        && (|r.out| == 2 <==> |after| == Capacity)
        && (|r.out| == 2 ==> r.out[1] == Emit(WholeRoom(id), StartGame(after)))
      else
        && after == before
        && r.out == [Emit(Sender, RoomFull(RoomFullNotice))]
  {
    var s1 := Ensure(s, id);
    var room := s1.rooms[id];
    if |room.players| < Capacity then
      var side := if |room.players| == 0 then White else Black;
      var players := room.players + [Player(conn, side)];
      var seated := Emit(Sender, PlayerSide(side));
      Step(Store(s1.rooms[id := room.(players := players)], s1.order),
           if |players| == Capacity then [seated, Emit(WholeRoom(id), StartGame(players))] else [seated])
    else
      Step(s1, [Emit(Sender, RoomFull(RoomFullNotice))])
  }

  // ---------------------------------------------------------------------------
  // move, requestRematch, gameEnd and the signaling relays

  /** The move handler: drop the move for an unknown room, else record it and pass it on. */
  function PlayMove(s: Store, id: RoomId, m: Move): (r: Step)
    ensures id !in s.rooms ==> r == Step(s, [])
    ensures id in s.rooms ==>
      && r.store.order == s.order
      && r.store.rooms.Keys == s.rooms.Keys
      && (forall k :: k in s.rooms && k != id ==> r.store.rooms[k] == s.rooms[k])
      && r.store.rooms[id].players == s.rooms[id].players
      && r.store.rooms[id].moves == s.rooms[id].moves + [m]
      && r.out == [Emit(RoomExceptSender(id), MoveMade(m))]
  {
    if id !in s.rooms then Step(s, [])
    else
      var room := s.rooms[id];
      Step(Store(s.rooms[id := room.(moves := room.moves + [m])], s.order),
           [Emit(RoomExceptSender(id), MoveMade(m))])
  }

  /** The requestRematch handler: forget the moves of an existing room and tell the room. */
  function Rematch(s: Store, id: RoomId): (r: Step)
    ensures id !in s.rooms ==> r == Step(s, [])
    ensures id in s.rooms ==>
      && r.store.order == s.order
      && r.store.rooms.Keys == s.rooms.Keys
      && (forall k :: k in s.rooms && k != id ==> r.store.rooms[k] == s.rooms[k])
      && r.store.rooms[id].players == s.rooms[id].players
      && r.store.rooms[id].moves == []
      && r.out == [Emit(WholeRoom(id), RequestRematch), Emit(WholeRoom(id), Message(RestartedText))]
  {
    if id !in s.rooms then Step(s, [])
    else
      Step(Store(s.rooms[id := s.rooms[id].(moves := [])], s.order),
           [Emit(WholeRoom(id), RequestRematch), Emit(WholeRoom(id), Message(RestartedText))])
  }

  /** The gameEnd handler: pass the status to everyone in the room. */
  function EndGame(id: RoomId, status: Status): seq<Emission> {
    [Emit(WholeRoom(id), GameEnd(status))]
  }

  /** The offer, answer and ice-candidate handlers: pass the payload to the rest of its room. */
  function RelaySignal(e: Event): seq<Emission>
    requires e.Offer? || e.Answer? || e.IceCandidate?
  {
    [Emit(RoomExceptSender(e.signal.room), e)]
  }

  // ---------------------------------------------------------------------------
  // disconnect

  /** `players.filter(player => player.id !== conn)` */
  function Without(players: seq<Player>, conn: ConnId): (r: seq<Player>)
    ensures |r| <= |players|
    ensures forall p :: p in r <==> p in players && p.id != conn
  {
    if players == [] then []
    else (if players[0].id == conn then [] else [players[0]]) + Without(players[1..], conn)
  }

  /** Every room with `conn` filtered out of its players. */
  function Evict(rooms: map<RoomId, Room>, conn: ConnId): map<RoomId, Room> {
    map k | k in rooms :: rooms[k].(players := Without(rooms[k].players, conn))
  }

  /** The `NewRoom` broadcast, if any, that the disconnect loop makes for room `id`. */
  function NoticeFor(rooms: map<RoomId, Room>, id: RoomId): seq<Emission>
  {
    if id in rooms && |rooms[id].players| < Capacity then [Emit(WholeRoom(id), NewRoom(PeerLeftNotice))] else []
  }

  /** The `NewRoom` broadcasts of the disconnect loop over `ids`, in that order. */
  function NewRoomNotices(ids: seq<RoomId>, rooms: map<RoomId, Room>): seq<Emission>
  {
    if ids == [] then []
    else NewRoomNotices(ids[..|ids| - 1], rooms) + NoticeFor(rooms, ids[|ids| - 1])
  }

  /** The loop notifies every visited room left under capacity, and nothing else. */
  lemma {:induction false} NewRoomNoticesExact(ids: seq<RoomId>, rooms: map<RoomId, Room>)
    requires forall k :: k in ids ==> k in rooms
    ensures var r := NewRoomNotices(ids, rooms);
      && |r| <= |ids|
      && (forall e :: e in r ==>
           && e.event == NewRoom(PeerLeftNotice)
           && e.target.WholeRoom?
           && e.target.room in ids
           && |rooms[e.target.room].players| < Capacity)
      && (forall k :: k in ids && |rooms[k].players| < Capacity ==>
           Emit(WholeRoom(k), NewRoom(PeerLeftNotice)) in r)
  {
    if ids != [] {
      var init, last := ids[..|ids| - 1], ids[|ids| - 1];
      assert ids == init + [last];
      NewRoomNoticesExact(init, rooms);
    }
  }

  /** Emission `x` goes to a room listed in `ids` before the room that `y` goes to. */
  ghost predicate Precedes(x: Emission, y: Emission, ids: seq<RoomId>) {
    exists a, b :: 0 <= a < b < |ids| && x.target == WholeRoom(ids[a]) && y.target == WholeRoom(ids[b])
  }

  /** Every emission of `out` goes to a room listed in `ids` before the rooms of all later emissions. */
  ghost predicate InKeyOrder(out: seq<Emission>, ids: seq<RoomId>) {
    forall i, j :: 0 <= i < j < |out| ==> Precedes(out[i], out[j], ids)
  }

  /** Over keys that are each listed once, the loop notifies rooms in key order. */
  lemma {:induction false} NewRoomNoticesInKeyOrder(ids: seq<RoomId>, rooms: map<RoomId, Room>)
    requires Distinct(ids)
    requires forall k :: k in ids ==> k in rooms
    ensures InKeyOrder(NewRoomNotices(ids, rooms), ids)
  {
    if ids != [] {
      var init, last := ids[..|ids| - 1], ids[|ids| - 1];
      assert ids == init + [last];
      assert Distinct(init) by {
        forall i, j | 0 <= i < j < |init| ensures init[i] != init[j] {
          assert init[i] == ids[i] && init[j] == ids[j];
        }
      }
      NewRoomNoticesInKeyOrder(init, rooms);
      NewRoomNoticesExact(init, rooms);
      KeyOrderExtends(NewRoomNotices(init, rooms), NoticeFor(rooms, last), init, last);
    }
  }

  /** Appending at most one emission, to a room listed after all others, keeps the key order. */
  lemma KeyOrderExtends(before: seq<Emission>, next: seq<Emission>, init: seq<RoomId>, last: RoomId)
    requires InKeyOrder(before, init)
    requires forall e :: e in before ==> e.target.WholeRoom? && e.target.room in init
    requires |next| <= 1 && forall e :: e in next ==> e.target == WholeRoom(last)
    ensures InKeyOrder(before + next, init + [last])
  {
    var r, ids := before + next, init + [last];
    forall i, j | 0 <= i < j < |r| ensures Precedes(r[i], r[j], ids) {
      if j < |before| {
        assert Precedes(before[i], before[j], init);
        var a, b :| 0 <= a < b < |init| && before[i].target == WholeRoom(init[a]) && before[j].target == WholeRoom(init[b]);
        assert ids[a] == init[a] && ids[b] == init[b];
        assert r[i] == before[i] && r[j] == before[j];
      } else {
        assert r[i] == before[i] && before[i] in before;
        var a :| 0 <= a < |init| && init[a] == before[i].target.room;
        assert ids[a] == init[a] && ids[|ids| - 1] == last;
        assert r[j] == next[0];
      }
    }
  }

  /** Emissions in the order of keys that are each listed once never go to the same room twice. */
  lemma KeyOrderNoRepeats(out: seq<Emission>, ids: seq<RoomId>)
    requires Distinct(ids) && InKeyOrder(out, ids)
    ensures forall i, j :: 0 <= i < j < |out| ==> out[i].target != out[j].target
  {
    forall i, j | 0 <= i < j < |out| ensures out[i].target != out[j].target {
      assert Precedes(out[i], out[j], ids);
      var a, b :| 0 <= a < b < |ids| && out[i].target == WholeRoom(ids[a]) && out[j].target == WholeRoom(ids[b]);
    }
  }

  /**
   The disconnect handler: filter the connection out of every room, and tell every
   room left with fewer than two players, in key order.
   */
  function Disconnect(s: Store, conn: ConnId): (r: Step)
    requires WellFormed(s)
    ensures r.store.order == s.order && r.store.rooms.Keys == s.rooms.Keys
    ensures forall k :: k in s.rooms ==>
      && r.store.rooms[k].moves == s.rooms[k].moves
      && r.store.rooms[k].players == Without(s.rooms[k].players, conn)
    ensures forall k, p :: k in r.store.rooms && p in r.store.rooms[k].players ==> p.id != conn
    ensures forall e :: e in r.out ==>
      && e == Emit(e.target, NewRoom(PeerLeftNotice))
      && e.target.WholeRoom?
      && e.target.room in r.store.rooms
      && |r.store.rooms[e.target.room].players| < Capacity
    ensures forall k :: k in r.store.rooms && |r.store.rooms[k].players| < Capacity ==>
      Emit(WholeRoom(k), NewRoom(PeerLeftNotice)) in r.out
    ensures InKeyOrder(r.out, s.order)
    ensures forall i, j :: 0 <= i < j < |r.out| ==> r.out[i].target != r.out[j].target
  {
    var rooms := Evict(s.rooms, conn);
    NewRoomNoticesExact(s.order, rooms);
    NewRoomNoticesInKeyOrder(s.order, rooms);
    KeyOrderNoRepeats(NewRoomNotices(s.order, rooms), s.order);
    Step(Store(rooms, s.order), NewRoomNotices(s.order, rooms))
  }

  // ---------------------------------------------------------------------------
  // Dispatch and traces

  /** Route an inbound event from `conn` to its handler. */
  function Handle(s: Store, conn: ConnId, req: Request): (r: Step)
    requires WellFormed(s)
    ensures WellFormed(r.store)
  {
    match req
    case JoinRoom(id) => Join(s, conn, id)
    case SendMove(id, m) => PlayMove(s, id, m)
    case SendGameEnd(id, status) => Step(s, EndGame(id, status))
    case AskRematch(id) => Rematch(s, id)
    case SendOffer(sig) => Step(s, RelaySignal(Offer(sig)))
    case SendAnswer(sig) => Step(s, RelaySignal(Answer(sig)))
    case SendIceCandidate(sig) => Step(s, RelaySignal(IceCandidate(sig)))
    case Disconnected => Disconnect(s, conn)
  }

  /** The store after handling `trace`, one event after another, each run to completion. */
  function Run(s: Store, trace: seq<(ConnId, Request)>): (r: Store)
    requires WellFormed(s)
    ensures WellFormed(r)
    decreases |trace|
  {
    if trace == [] then s else Run(Handle(s, trace[0].0, trace[0].1).store, trace[1..])
  }
}
