/**
 How the join handler's `rooms[room]` reads a plain JavaScript object. Besides
 the rooms it holds, every plain object answers to the names it inherits from
 Object.prototype, and those values are truthy. For such a name the handler's
 "create the room if it is missing" test fails, no room is created, and reading
 `.players.length` of the inherited value throws a TypeError. The rematch handler
 has the same test: for an inherited name it writes `moves` on the inherited
 value, and for "__proto__" that value is Object.prototype itself, whose new
 enumerable `moves` every later `for..in` over `rooms` visits. Module Session
 reads only the object's own keys, as the handlers evidently intend; this
 module models the handlers as written and shows where the two part.
 */
module ObjectLookup {
  import opened Session

  /** The names a plain object inherits from Object.prototype. */
  const InheritedNames: set<RoomId> := {
    "__proto__", "constructor", "hasOwnProperty", "isPrototypeOf",
    "propertyIsEnumerable", "toLocaleString", "toString", "valueOf",
    "__defineGetter__", "__defineSetter__", "__lookupGetter__", "__lookupSetter__"
  }

  /** What `rooms[id]` yields. */
  datatype Lookup = OwnRoom(room: Room) | InheritedMember | Missing

  /** The outcome of one run of the join handler: it finishes, or it throws a TypeError. */
  datatype Outcome = Finished(step: Step) | ThrewTypeError

  function LookupAsWritten(s: Store, id: RoomId): (r: Lookup)
    ensures r.OwnRoom? <==> id in s.rooms
    ensures r.Missing? <==> id !in s.rooms && id !in InheritedNames
    ensures r.OwnRoom? ==> r.room == s.rooms[id]
  {
    if id in s.rooms then OwnRoom(s.rooms[id])
    else if id in InheritedNames then InheritedMember
    else Missing
  }

  /**
   The join handler as written: `if (!rooms[room])` creates the room only when the
   lookup is falsy; an inherited member is truthy, so nothing is created and the
   next line reads `.players.length` of undefined.
   */
  function JoinAsWritten(s: Store, conn: ConnId, id: RoomId): (r: Outcome)
    ensures r.ThrewTypeError? <==> id !in s.rooms && id in InheritedNames
    ensures r.Finished? ==> r.step == Join(s, conn, id)
  {
    match LookupAsWritten(s, id)
    case InheritedMember => ThrewTypeError
    case _ => Finished(Join(s, conn, id))
  }

  /**
   The first connection to join a room called "constructor" makes the handler
   throw, where it should have been seated as White in a new room.
   */
  lemma ConstructorRoomThrows()
    ensures JoinAsWritten(Empty, "a", "constructor") == ThrewTypeError
    ensures var seated := Join(Empty, "a", "constructor");
      && seated.store.rooms["constructor"].players == [Player("a", White)]
      && seated.out == [Emit(Sender, PlayerSide(White))]
  {
    assert "constructor" in InheritedNames;
  }

  /** For every name outside InheritedNames the handler as written is the join of module Session. */
  lemma AsWrittenAgreesElsewhere(s: Store, conn: ConnId, id: RoomId)
    requires id !in InheritedNames
    ensures JoinAsWritten(s, conn, id) == Finished(Join(s, conn, id))
  {
  }

  /** The outcome of one run of the disconnect handler: it finishes, or it throws after its loop has done `step`. */
  datatype Interrupted = Completed(step: Step) | ThrewAfter(step: Step)

  /**
   The rematch handler as written, with `polluted` recording whether Object.prototype
   already carries a `moves` property. An inherited name passes the `if (room)`
   test: both events go out, and the write lands on the inherited value. Once
   Object.prototype carries `moves`, the name "moves" is inherited too: its value
   is that array, which is truthy.
   */
  function RematchAsWritten(s: Store, polluted: bool, id: RoomId): (r: (Step, bool))
    ensures id in s.rooms ==> r == (Rematch(s, id), polluted)
    ensures id !in s.rooms ==> r.0.store == s
    ensures id !in s.rooms ==>
      (r.0.out == [Emit(WholeRoom(id), RequestRematch), Emit(WholeRoom(id), Message(RestartedText))]
       <==> id in InheritedNames || (polluted && id == "moves"))
    ensures id !in s.rooms && !(id in InheritedNames || (polluted && id == "moves")) ==> r.0.out == []
    ensures r.1 <==> polluted || (id == "__proto__" && id !in s.rooms)
  {
    var events := [Emit(WholeRoom(id), RequestRematch), Emit(WholeRoom(id), Message(RestartedText))];
    match LookupAsWritten(s, id)
    case OwnRoom(_) => (Rematch(s, id), polluted)
    case InheritedMember => (Step(s, events), polluted || id == "__proto__")
    case Missing => if polluted && id == "moves" then (Step(s, events), polluted) else (Step(s, []), polluted)
  }

  /** With Object.prototype polluted, a rematch of "moves" finds the inherited array and announces a restart. */
  lemma PollutedMovesRematch(s: Store)
    requires "moves" !in s.rooms
    ensures RematchAsWritten(s, true, "moves")
         == (Step(s, [Emit(WholeRoom("moves"), RequestRematch), Emit(WholeRoom("moves"), Message(RestartedText))]), true)
    ensures Rematch(s, "moves") == Step(s, [])
  {
    assert "moves" !in InheritedNames;
  }

  /**
   The disconnect handler as written. `for..in` visits the own keys first, then an
   inherited enumerable `moves` unless an own key shadows it; `rooms["moves"]` is
   then an array, and reading `.players.filter` of it throws.
   */
  function DisconnectAsWritten(s: Store, polluted: bool, conn: ConnId): (r: Interrupted)
    requires WellFormed(s)
    ensures r.ThrewAfter? <==> polluted && "moves" !in s.rooms
    ensures r.step == Disconnect(s, conn)
  {
    if polluted && "moves" !in s.rooms then ThrewAfter(Disconnect(s, conn)) else Completed(Disconnect(s, conn))
  }

  /**
   One `requestRematch("__proto__")` on a server with no rooms of those names makes
   every later disconnect throw, while the corrected rematch leaves the store alone
   and emits nothing.
   */
  lemma ProtoRematchBreaksDisconnect(s: Store, conn: ConnId)
    requires WellFormed(s) && "__proto__" !in s.rooms && "moves" !in s.rooms
    ensures var (after, polluted) := RematchAsWritten(s, false, "__proto__");
      && after.store == s
      && |after.out| == 2
      && polluted
      && DisconnectAsWritten(after.store, polluted, conn).ThrewAfter?
    ensures Rematch(s, "__proto__") == Step(s, [])
  {
    assert "__proto__" in InheritedNames;
  }

  /** Without a polluted Object.prototype, the handlers as written are those of module Session. */
  lemma UnpollutedAgrees(s: Store, conn: ConnId, id: RoomId)
    requires WellFormed(s) && id !in InheritedNames
    ensures RematchAsWritten(s, false, id) == (Rematch(s, id), false)
    ensures DisconnectAsWritten(s, false, conn) == Completed(Disconnect(s, conn))
  {
  }
}
