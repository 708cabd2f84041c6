/** The socket relay: sockets join rooms named by a chat or group id, and a message is
    emitted to every socket in the room it names. Chat ids and group ids share one room
    namespace. Nothing checks who joins or who sends. */
module Relay {
  import opened Records
  import opened Lists

  type SocketId = string
  type RoomId = string

  /** What the server emits to a client. The payload is forwarded unchanged. */
  datatype Event = ReceiveMessage(chatMessage: ChatMessage) | ReceiveGroupMessage(groupMessage: GroupMessage)

  datatype Delivery = Delivery(to: SocketId, event: Event)

  /** The sockets in a room; a room nobody joined has none. */
  function Members(rooms: map<RoomId, set<SocketId>>, room: RoomId): set<SocketId> {
    if room in rooms then rooms[room] else {}
  }

  /** `socket.join(room)`: set insertion. */
  function Join(rooms: map<RoomId, set<SocketId>>, room: RoomId, socket: SocketId): (r: map<RoomId, set<SocketId>>)
    ensures Members(r, room) == Members(rooms, room) + {socket}
    ensures forall other :: other != room ==> Members(r, other) == Members(rooms, other)
  {
    rooms[room := Members(rooms, room) + {socket}]
  }

  /** The recipients of a batch of deliveries, in order. */
  function Recipients(ds: seq<Delivery>): (r: seq<SocketId>)
    ensures |r| == |ds|
    ensures forall i :: 0 <= i < |ds| ==> r[i] == ds[i].to
  {
    if ds == [] then [] else [ds[0].to] + Recipients(ds[1..])
  }

  /** `io.to(room).emit(event)`: every socket of `members` gets `event` exactly once and no
      other socket gets anything. */
  ghost predicate IsFanOut(ds: seq<Delivery>, members: set<SocketId>, event: Event) {
    && (forall i :: 0 <= i < |ds| ==> ds[i].event == event)
    && (forall c :: Count(Recipients(ds), c) == if c in members then 1 else 0)
  }

  lemma RecipientsAppend(a: seq<Delivery>, b: seq<Delivery>)
    ensures Recipients(a + b) == Recipients(a) + Recipients(b)
  {
  }

  class Server {
    var rooms: map<RoomId, set<SocketId>>
    /** Every emission so far, oldest first. */
    var outbox: seq<Delivery>

    constructor ()
      ensures rooms == map[] && outbox == []
    {
      rooms := map[];
      outbox := [];
    }

    /** The `join-chat` handler. */
    method JoinChat(socket: SocketId, chatId: Id)
      modifies this
      ensures rooms == Join(old(rooms), chatId, socket)
      ensures outbox == old(outbox)
    {
      rooms := Join(rooms, chatId, socket);
    }

    /** The `join-group` handler: the same room namespace as chats, with no prefix. */
    method JoinGroup(socket: SocketId, groupId: Id)
      modifies this
      ensures rooms == Join(old(rooms), groupId, socket)
      ensures outbox == old(outbox)
    {
      rooms := Join(rooms, groupId, socket);
    }

    /** Appends one delivery of `event` to each socket in `room`, in some order. */
    method EmitToRoom(room: RoomId, event: Event)
      modifies this
      ensures rooms == old(rooms)
      ensures |outbox| >= |old(outbox)| && outbox[..|old(outbox)|] == old(outbox)
      ensures IsFanOut(outbox[|old(outbox)|..], Members(rooms, room), event)
    {
      var pending := Members(rooms, room);
      ghost var sent: set<SocketId> := {};
      var batch: seq<Delivery> := [];
      while pending != {}
        invariant pending !! sent && pending + sent == Members(rooms, room)
        invariant forall i :: 0 <= i < |batch| ==> batch[i].event == event
        invariant forall c :: Count(Recipients(batch), c) == if c in sent then 1 else 0
        decreases pending
      {
        var socket :| socket in pending;
        forall c ensures Count(Recipients(batch + [Delivery(socket, event)]), c) == if c in sent + {socket} then 1 else 0 {
          RecipientsAppend(batch, [Delivery(socket, event)]);
          CountAppend(Recipients(batch), [socket], c);
          assert Recipients([Delivery(socket, event)]) == [socket];
          assert Count([socket], c) == if c == socket then 1 else 0 by {
            assert [socket][1..] == [];
          }
        }
        batch := batch + [Delivery(socket, event)];
        pending := pending - {socket};
        sent := sent + {socket};
      }
      outbox := outbox + batch;
      assert outbox[|old(outbox)|..] == batch;
    }

    /** The `send-message` handler: `receive-message` with the payload unchanged to every
        socket in room `msg.chatId`, the sender included when it joined. `sender` is not
        consulted: a socket may send into a room it never joined. */
    method SendMessage(sender: SocketId, msg: ChatMessage)
      modifies this
      ensures rooms == old(rooms)
      ensures |outbox| >= |old(outbox)| && outbox[..|old(outbox)|] == old(outbox)
      ensures IsFanOut(outbox[|old(outbox)|..], Members(rooms, msg.chatId), ReceiveMessage(msg))
    {
      EmitToRoom(msg.chatId, ReceiveMessage(msg));
    }

    /** The `send-group-message` handler: `receive-group-message` to every socket in room
        `msg.groupId`. */
    method SendGroupMessage(sender: SocketId, msg: GroupMessage)
      modifies this
      ensures rooms == old(rooms)
      ensures |outbox| >= |old(outbox)| && outbox[..|old(outbox)|] == old(outbox)
      ensures IsFanOut(outbox[|old(outbox)|..], Members(rooms, msg.groupId), ReceiveGroupMessage(msg))
    {
      EmitToRoom(msg.groupId, ReceiveGroupMessage(msg));
    }

    /** The `disconnect` handler only logs. */
    method Disconnect(socket: SocketId)
      ensures unchanged(this)
    {
    }
  }

  /** Joining a room twice is the same as joining it once. */
  lemma JoinIdempotent(rooms: map<RoomId, set<SocketId>>, room: RoomId, socket: SocketId)
    ensures Join(Join(rooms, room, socket), room, socket) == Join(rooms, room, socket)
  {
    var once := Join(rooms, room, socket);
    assert Members(once, room) + {socket} == Members(once, room);
  }

  /** A fan-out reaches each member once, and a socket outside the room not at all. */
  lemma FanOutReach(ds: seq<Delivery>, members: set<SocketId>, event: Event, socket: SocketId)
    requires IsFanOut(ds, members, event)
    ensures socket in members <==> exists i :: 0 <= i < |ds| && ds[i].to == socket
  {
    CountZeroIffAbsent(Recipients(ds), socket);
    if socket !in members {
      assert socket !in Recipients(ds);
      forall i | 0 <= i < |ds| ensures ds[i].to != socket {
        assert Recipients(ds)[i] == ds[i].to;
      }
    } else {
      var i :| 0 <= i < |Recipients(ds)| && Recipients(ds)[i] == socket;
      assert ds[i].to == socket;
    }
  }

  /** Two clients join `chat-42`, a third does not; the first sends. The second gets the
      message exactly once, the third nothing, and the sender its own copy. */
  method EndToEndScenario(m: ChatMessage)
    requires m.chatId == "chat-42"
  {
    var server := new Server();
    server.JoinChat("u1", "chat-42");
    server.JoinChat("u2", "chat-42");
    server.JoinChat("u2", "chat-42");
    assert Members(server.rooms, "chat-42") == {"u1", "u2"};
    server.SendMessage("u1", m);
    var batch := server.outbox;
    assert Count(Recipients(batch), "u2") == 1;
    assert Count(Recipients(batch), "u1") == 1;
    assert Count(Recipients(batch), "u3") == 0;
  }
}
