/** The backend's collaboration store (`rooms` in backend/server.js): a map from
    room id to the room's last known code, language and stdin, and what the
    socket events do to it. The store is only ever written by the three edit
    events; a join reads it and a disconnect does not touch it. */
module RoomStore {
  import opened JsValues

  type RoomId = string
  type SocketId = string

  /** One room record. A field is absent until the first edit of that field,
      and a snapshot of the record carries only the fields that are present. */
  datatype Room = Room(code: Option<string>, language: Option<string>, input: Option<string>)

  /** `rooms[roomId] = {}`: the record an edit creates for an unseen room. */
  const EmptyRoom := Room(None, None, None)

  /** The three edit channels; each has its own socket event and its own field. */
  datatype Field = Code | Language | Input

  function EventName(f: Field): string {
    match f
    case Code => "code-change"
    case Language => "language-change"
    case Input => "input-change"
  }

  function Get(r: Room, f: Field): Option<string> {
    match f
    case Code => r.code
    case Language => r.language
    case Input => r.input
  }

  /** Overwrites one field of a record and keeps the other two. */
  function Put(r: Room, f: Field, v: string): (r': Room)
    ensures Get(r', f) == Some(v)
    ensures forall g :: g != f ==> Get(r', g) == Get(r, g)
  {
    match f
    case Code => r.(code := Some(v))
    case Language => r.(language := Some(v))
    case Input => r.(input := Some(v))
  }

  type Store = map<RoomId, Room>

  /** What one edit event does to the store: the room is created (empty) when
      it is absent, then the edited field is overwritten, the last write
      winning. Nothing else changes. */
  function ApplyEdit(rooms: Store, id: RoomId, f: Field, v: string): (r: Store)
    ensures r.Keys == rooms.Keys + {id}
    ensures Get(r[id], f) == Some(v)
    ensures forall g :: g != f ==> Get(r[id], g) == (if id in rooms then Get(rooms[id], g) else None)
    ensures forall k :: k in rooms && k != id ==> r[k] == rooms[k]
  {
    var room := if id in rooms then rooms[id] else EmptyRoom;
    rooms[id := Put(room, f, v)]
  }

  /** The socket events the backend handles. `hasAck` says whether the joining
      client passed an acknowledgment callback. */
  datatype Event =
    | Connect(socket: SocketId)
    | Join(socket: SocketId, room: RoomId, role: string, hasAck: bool)
    | Edit(socket: SocketId, room: RoomId, field: Field, value: string)
    | Disconnect(socket: SocketId)

  /** The store after one event: only an edit changes it. */
  function StoreStep(rooms: Store, e: Event): Store {
    if e.Edit? then ApplyEdit(rooms, e.room, e.field, e.value) else rooms
  }

  /** The store after a whole trace of events, applied in order. */
  function StoreAfter(rooms: Store, events: seq<Event>): Store
    decreases |events|
  {
    if events == [] then rooms
    else StoreStep(StoreAfter(rooms, events[..|events| - 1]), events[|events| - 1])
  }

  /** The value of the last edit of field `f` of room `id` in the trace, if any. */
  function LastEdit(events: seq<Event>, id: RoomId, f: Field): Option<string>
    decreases |events|
  {
    if events == [] then None
    else
      var e := events[|events| - 1];
      if e.Edit? && e.room == id && e.field == f then Some(e.value)
      else LastEdit(events[..|events| - 1], id, f)
  }

  /** Whether the trace edits room `id` at all. */
  predicate EditsRoom(events: seq<Event>, id: RoomId) {
    exists i :: 0 <= i < |events| && events[i].Edit? && events[i].room == id
  }

  /** Last write wins: whatever joins, disconnects and edits of other fields or
      rooms are interleaved, a field holds the value of its last edit, and a
      field never edited keeps what it had (absent for a room the trace
      created). */
  lemma {:induction false} LastWriteWins(rooms: Store, events: seq<Event>, id: RoomId, f: Field)
    ensures var after := StoreAfter(rooms, events);
            && (id in rooms ==> id in after)
            && (LastEdit(events, id, f).Some? ==> id in after && Get(after[id], f) == LastEdit(events, id, f))
            && (LastEdit(events, id, f).None? && id in after ==>
                  Get(after[id], f) == (if id in rooms then Get(rooms[id], f) else None))
    decreases |events|
  {
    if events != [] {
      var prefix := events[..|events| - 1];
      var last := events[|events| - 1];
      LastWriteWins(rooms, prefix, id, f);
      var before := StoreAfter(rooms, prefix);
      if last.Edit? && last.room == id && last.field != f {
        var r := ApplyEdit(before, id, last.field, last.value);
        assert Get(r[id], f) == (if id in before then Get(before[id], f) else None);
      }
    }
  }

  /** Rooms are created only by edits and never removed: after a trace the
      store holds exactly the rooms it held before plus the rooms edited. */
  lemma {:induction false} RoomsOnlyGrow(rooms: Store, events: seq<Event>)
    ensures forall id :: id in StoreAfter(rooms, events) <==> id in rooms || EditsRoom(events, id)
    decreases |events|
  {
    if events != [] {
      var prefix := events[..|events| - 1];
      var last := events[|events| - 1];
      RoomsOnlyGrow(rooms, prefix);
      forall id ensures id in StoreAfter(rooms, events) <==> id in rooms || EditsRoom(events, id) {
        if EditsRoom(prefix, id) {
          var i :| 0 <= i < |prefix| && prefix[i].Edit? && prefix[i].room == id;
          assert events[i] == prefix[i];
        }
        if EditsRoom(events, id) && !(last.Edit? && last.room == id) {
          var i :| 0 <= i < |events| && events[i].Edit? && events[i].room == id;
          assert i < |prefix| && prefix[i] == events[i];
        }
      }
    }
  }

  // ---------------------------------------------------------------------------
  // The store as written is a plain JavaScript object, so `rooms[roomId]` also
  // finds the properties every object inherits from Object.prototype.

  /** The property names a plain object `{}` inherits from Object.prototype. */
  const InheritedKeys: set<string> := {
    "constructor", "__proto__", "hasOwnProperty", "isPrototypeOf",
    "propertyIsEnumerable", "toString", "toLocaleString", "valueOf",
    "__defineGetter__", "__defineSetter__", "__lookupGetter__", "__lookupSetter__"
  }

  /** `if (rooms[roomId])` on the object as written: true for a room that was
      created, and also for every inherited name. */
  predicate RoomTruthyAsWritten(rooms: Store, id: RoomId): (b: bool)
    ensures id in rooms ==> b
    ensures b != (id in rooms) <==> id in InheritedKeys && id !in rooms
  {
    id in rooms || id in InheritedKeys
  }

  /** An edit as written: for an inherited name the room is taken to exist, and
      the assignment lands on the inherited object, so the store is unchanged. */
  function ApplyEditAsWritten(rooms: Store, id: RoomId, f: Field, v: string): (r: Store)
    ensures id !in InheritedKeys || id in rooms ==> r == ApplyEdit(rooms, id, f, v)
    ensures id in InheritedKeys && id !in rooms ==> r == rooms
  {
    if RoomTruthyAsWritten(rooms, id) && id !in rooms then rooms else ApplyEdit(rooms, id, f, v)
  }

  /** The discrepancy: on a fresh server, room "constructor" already counts as
      existing (a joiner would be sent a snapshot) and an edit of it is not
      stored, while the intended store creates it holding the edited value. */
  lemma InheritedRoomIdCounterexample()
    ensures RoomTruthyAsWritten(map[], "constructor")
    ensures "constructor" !in ApplyEditAsWritten(map[], "constructor", Code, "x=1")
    ensures ApplyEdit(map[], "constructor", Code, "x=1")["constructor"] == Room(Some("x=1"), None, None)
  {
  }
}
