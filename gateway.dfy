/** The backend's socket gateway (the `io.on("connection")` handlers of
    backend/server.js): which rooms each connected socket has joined, the role
    each socket declared, the room store, and everything the server has sent,
    in order. */
module SocketGateway {
  import opened JsValues
  import opened RoomStore

  /** What the server sends: a relayed edit value or a full room snapshot. */
  datatype Payload = Value(text: string) | Snapshot(room: Room)

  /** One send: an event to a set of sockets, or the call of a join's
      acknowledgment callback. */
  datatype Delivery =
    | Emit(to: set<SocketId>, event: string, payload: Payload)
    | Ack(socket: SocketId)

  /** The sockets a delivery reaches. */
  function Recipients(d: Delivery): set<SocketId> {
    match d
    case Emit(to, _, _) => to
    case Ack(s) => {s}
  }

  /** `socket.to(roomId)`: every connected socket that joined the room, the
      sender excluded. */
  function Relay(members: map<SocketId, set<RoomId>>, id: RoomId, sender: SocketId): (r: set<SocketId>)
    ensures r <= members.Keys && sender !in r
    ensures forall s :: s in members && s != sender ==> (s in r <==> id in members[s])
  {
    set s | s in members && id in members[s] && s != sender
  }

  /** What a `join-room` sends: the stored record to the joiner alone when the
      room exists, then the acknowledgment once when the client gave one. */
  function JoinOutput(rooms: Store, joiner: SocketId, id: RoomId, hasAck: bool): (out: seq<Delivery>)
    ensures |out| == (if id in rooms then 1 else 0) + (if hasAck then 1 else 0)
    ensures forall i :: 0 <= i < |out| ==> Recipients(out[i]) == {joiner}
    ensures id in rooms ==> out[0] == Emit({joiner}, "sync-code", Snapshot(rooms[id]))
    ensures id !in rooms ==> forall i :: 0 <= i < |out| ==> out[i].Ack?
    ensures hasAck ==> out[|out| - 1] == Ack(joiner)
    ensures !hasAck ==> forall i :: 0 <= i < |out| ==> !out[i].Ack?
  {
    (if id in rooms then [Emit({joiner}, "sync-code", Snapshot(rooms[id]))] else [])
      + (if hasAck then [Ack(joiner)] else [])
  }

  class Gateway {
    /** `rooms`: the store. */
    var rooms: Store
    /** The rooms each connected socket has joined. */
    var members: map<SocketId, set<RoomId>>
    /** `socket.data.role`: recorded on join, never read by any handler. */
    var roles: map<SocketId, string>
    /** Everything sent so far, in order. */
    var outbox: seq<Delivery>

    constructor ()
      ensures rooms == map[] && members == map[] && roles == map[] && outbox == []
    {
      rooms := map[];
      members := map[];
      roles := map[];
      outbox := [];
    }

    /** A new connection: a socket in no room. */
    method Connect(s: SocketId)
      requires s !in members
      modifies this
      ensures members == old(members)[s := {}]
      ensures rooms == old(rooms) && roles == old(roles) && outbox == old(outbox)
    {
      members := members[s := {}];
    }

    /** `join-room`: joins the room, records the declared role, sends the
        snapshot when the room exists and calls the acknowledgment. The store
        is only read. */
    method JoinRoom(s: SocketId, id: RoomId, role: string, hasAck: bool)
      requires s in members
      modifies this
      ensures members == old(members)[s := old(members)[s] + {id}]
      ensures roles == old(roles)[s := role]
      ensures rooms == old(rooms)
      ensures outbox == old(outbox) + JoinOutput(old(rooms), s, id, hasAck)
    {
      members := members[s := members[s] + {id}];
      roles := roles[s := role];
      if id in rooms {
        outbox := outbox + [Emit({s}, "sync-code", Snapshot(rooms[id]))];
      }
      if hasAck {
        outbox := outbox + [Ack(s)];
      }
    }

    /** `code-change`, `language-change` and `input-change`: create the room
        when absent, overwrite the one field, relay the value to the rest of
        the room. Neither the sender's role nor its own membership is checked. */
    method Edit(s: SocketId, id: RoomId, f: Field, v: string)
      requires s in members
      modifies this
      ensures rooms == ApplyEdit(old(rooms), id, f, v)
      ensures outbox == old(outbox) + [Emit(Relay(old(members), id, s), EventName(f), Value(v))]
      ensures members == old(members) && roles == old(roles)
    {
      if id !in rooms {
        rooms := rooms[id := EmptyRoom];
      }
      rooms := rooms[id := Put(rooms[id], f, v)];
      outbox := outbox + [Emit(Relay(members, id, s), EventName(f), Value(v))];
    }

    /** `disconnect`: the socket leaves its rooms (done by socket.io); the
        handler itself only logs, and the store is untouched. */
    method Disconnect(s: SocketId)
      requires s in members
      modifies this
      ensures members == old(members) - {s} && roles == old(roles) - {s}
      ensures rooms == old(rooms) && outbox == old(outbox)
    {
      members := members - {s};
      roles := roles - {s};
    }
  }
}
