/** The WebSocket server with a Socket.IO-like surface (server.ts): the tables of
    connected clients, their socket wrappers and the room registry, kept in step as
    clients connect, join and leave rooms, and disconnect; and the frames each client
    is sent. Handing a frame to `client.send` is modelled by appending it to that
    client's `outbox`. */
module Server {
  import opened Wire
  import opened ClientIds

  /** `WebSocket.readyState`; only an `Open` socket takes a frame. */
  datatype ReadyState = Connecting | Open | Closing | Closed

  /** One call of the application's handlers for `event` on a socket: the spread
      arguments and, when the inbound frame carried an ackId, the reply callback,
      represented by the ackId it answers. */
  datatype Dispatch = Dispatch(event: string, args: seq<Value>, reply: Option<int>)

  /** What the server's own listeners were given: the `connection` notice for a new
      socket, or a call of `emit('connection', ...args)`. */
  datatype LocalEvent = NewConnection(socketId: string) | Local(event: string, args: seq<Value>)

  /** The empty set when the room has no entry. */
  function Members(rooms: map<string, set<string>>, room: string): set<string>
  {
    if room in rooms then rooms[room] else {}
  }

  /** The registry after `id` leaves `room`: the member set loses `id`, and the
      entry goes when the set becomes empty. */
  function RemoveMember(rooms: map<string, set<string>>, room: string, id: string): (r: map<string, set<string>>)
    ensures forall x :: x in r ==> x in rooms && r[x] == (if x == room then rooms[x] - {id} else rooms[x])
    ensures forall x :: x in rooms && x != room ==> x in r
    ensures room in r <==> room in rooms && rooms[room] - {id} != {}
  {
    if room !in rooms then rooms
    else if rooms[room] - {id} == {} then rooms - {room}
    else rooms[room := rooms[room] - {id}]
  }

  /** The registry after `id` leaves every room in `left`. */
  function RemoveFrom(rooms: map<string, set<string>>, left: set<string>, id: string): map<string, set<string>>
  {
    map x | x in rooms && (x !in left || rooms[x] - {id} != {}) :: if x in left then rooms[x] - {id} else rooms[x]
  }

  /** The registry with `id` taken out of every room. */
  function WithoutMember(rooms: map<string, set<string>>, id: string): map<string, set<string>>
  {
    map x | x in rooms && rooms[x] - {id} != {} :: rooms[x] - {id}
  }

  /** One more room left equals leaving it after the others. */
  lemma RemoveFromStep(rooms: map<string, set<string>>, left: set<string>, room: string, id: string)
    requires room !in left
    ensures RemoveFrom(rooms, left + {room}, id) == RemoveMember(RemoveFrom(rooms, left, id), room, id)
  {
    var a := RemoveFrom(rooms, left + {room}, id);
    var b := RemoveMember(RemoveFrom(rooms, left, id), room, id);
    assert a.Keys == b.Keys;
    forall x | x in a
      ensures a[x] == b[x]
    {
    }
  }

  /** Leaving the rooms a member is in takes it out of all rooms. */
  lemma RemoveFromAll(rooms: map<string, set<string>>, left: set<string>, id: string)
    requires forall x :: x in rooms ==> rooms[x] != {}
    requires forall x :: x in rooms && id in rooms[x] ==> x in left
    ensures RemoveFrom(rooms, left, id) == WithoutMember(rooms, id)
  {
    var a := RemoveFrom(rooms, left, id);
    var b := WithoutMember(rooms, id);
    forall x | x in rooms && x !in left
      ensures rooms[x] - {id} == rooms[x]
    {
    }
    assert a.Keys == b.Keys;
  }

  /** A connection as the `ws` library hands it over, with the fields server.ts adds. */
  class Client {
    const id: string
    const token: Option<string>
    const userID: Option<string>
    var rooms: set<string>
    var readyState: ReadyState
    var outbox: seq<Envelope>

    constructor (id: string, token: Option<string>, userID: Option<string>)
      ensures this.id == id && this.token == token && this.userID == userID
      ensures rooms == {} && readyState == Open && outbox == []
    {
      this.id := id;
      this.token := token;
      this.userID := userID;
      rooms := {};
      readyState := Open;
      outbox := [];
    }

    /** `client.close()`: an open socket starts its closing handshake; the `close`
        event that follows is `WSServer.HandleDisconnect`. */
    method Close()
      modifies this`readyState
      ensures readyState == if old(readyState) == Open then Closing else old(readyState)
    {
      if readyState == Open {
        readyState := Closing;
      }
    }
  }

  /** The per-connection object handed to the application, which shares the client's
      id and room set. Its EventEmitter listeners are counted per event name. */
  class SocketWrapper {
    const id: string
    const client: Client
    const server: WSServer
    var listenerCounts: map<string, nat>
    var dispatched: seq<Dispatch>

    constructor (client: Client, server: WSServer)
      ensures this.client == client && this.server == server && id == client.id
      ensures listenerCounts == map[] && dispatched == []
    {
      id := client.id;
      this.client := client;
      this.server := server;
      listenerCounts := map[];
      dispatched := [];
    }

    function ListenerCount(event: string): nat
      reads this
    {
      if event in listenerCounts then listenerCounts[event] else 0
    }

    /** EventEmitter's `on`: one more listener for `event`. */
    method On(event: string)
      modifies this`listenerCounts
      ensures listenerCounts == old(listenerCounts)[event := old(ListenerCount(event)) + 1]
    {
      listenerCounts := listenerCounts[event := ListenerCount(event) + 1];
    }

    /** `_emitInternal`: the listeners for `event`, if any, are called with `args`. */
    method EmitInternal(event: string, args: seq<Value>, reply: Option<int>)
      modifies this`dispatched
      ensures dispatched == old(dispatched) + (if ListenerCount(event) > 0 then [Dispatch(event, args, reply)] else [])
    {
      if ListenerCount(event) > 0 {
        dispatched := dispatched + [Dispatch(event, args, reply)];
      }
    }

    /** `socket.emit`: an event the application listens to is handled locally;
        any other event goes to the client with only its first argument. */
    method Emit(event: string, args: seq<Value>)
      modifies this`dispatched, client`outbox
      ensures ListenerCount(event) > 0 ==>
        dispatched == old(dispatched) + [Dispatch(event, args, None)] && client.outbox == old(client.outbox)
      ensures ListenerCount(event) == 0 ==>
        dispatched == old(dispatched) &&
        client.outbox == old(client.outbox) + (if client.readyState == Open then [Envelope(event, FirstArg(args), None)] else [])
    {
      if ListenerCount(event) > 0 {
        EmitInternal(event, args, None);
      } else {
        server.EmitToClient(client, event, FirstArg(args));
      }
    }

    method Join(room: string)
      requires server.Valid() && server.Accepted(client)
      modifies server`rooms, client`rooms
      ensures server.Valid()
      ensures client.rooms == old(client.rooms) + {room}
      ensures server.rooms == old(server.rooms)[room := Members(old(server.rooms), room) + {client.id}]
    {
      server.JoinRoom(client, room);
    }

    method Leave(room: string)
      requires server.Valid() && server.Accepted(client)
      modifies server`rooms, client`rooms
      ensures server.Valid()
      ensures client.rooms == old(client.rooms) - {room}
      ensures server.rooms == RemoveMember(old(server.rooms), room, client.id)
    {
      server.LeaveRoom(client, room);
    }

    method Disconnect()
      modifies client`readyState
      ensures client.readyState == if old(client.readyState) == Open then Closing else old(client.readyState)
    {
      client.Close();
    }
  }

  class WSServer {
    var clients: map<string, Client>
    var sockets: map<string, SocketWrapper>
    var rooms: map<string, set<string>>
    var clientIdCounter: nat
    var localEvents: seq<LocalEvent>
    /** Every client this server has accepted, by id, including those since closed. */
    ghost var accepted: map<string, Client>

    /** Each accepted client is filed under its own id, and that id was made from a
        counter value already handed out. */
    ghost predicate Ids()
      reads this`accepted, this`clientIdCounter
    {
      forall id :: id in accepted ==> accepted[id].id == id && SerialOf(id) <= clientIdCounter
    }

    /** The connected clients are accepted ones, each with its wrapper in `sockets`. */
    ghost predicate Tables()
      reads this`accepted, this`clients, this`sockets
    {
      && (forall id :: id in clients ==> id in accepted && clients[id] == accepted[id] && id in sockets)
      && (forall id :: id in sockets ==>
            id in clients && sockets[id].client == clients[id] && sockets[id].id == id && sockets[id].server == this)
    }

    /** No empty room is kept, every member is an accepted client, and each client's
        room set agrees with the registry, both ways. */
    ghost predicate RoomsAgree()
      reads this`rooms, this`accepted, accepted.Values`rooms
    {
      && (forall r :: r in rooms ==> rooms[r] != {})
      && (forall r, id :: r in rooms && id in rooms[r] ==> id in accepted && r in accepted[id].rooms)
      && (forall id, r :: id in accepted && r in accepted[id].rooms ==> r in rooms && id in rooms[r])
    }

    ghost predicate Valid()
      reads this`accepted, this`clientIdCounter, this`clients, this`sockets
      reads this`rooms, accepted.Values`rooms
    {
      Ids() && Tables() && RoomsAgree()
    }

    /** `client` is one this server accepted. */
    ghost predicate Accepted(client: Client)
      reads this
    {
      client.id in accepted && accepted[client.id] == client
    }

    constructor ()
      ensures Valid()
      ensures clients == map[] && sockets == map[] && rooms == map[]
      ensures clientIdCounter == 0 && localEvents == []
    {
      clients := map[];
      sockets := map[];
      rooms := map[];
      clientIdCounter := 0;
      localEvents := [];
      accepted := map[];
    }

    /** The next id, `client_{counter + 1}`, was never handed out, so it is in no
        table and no room. */
    lemma FreshIdUnused()
      requires Valid()
      ensures ClientId(clientIdCounter + 1) !in accepted
      ensures ClientId(clientIdCounter + 1) !in clients
      ensures forall r :: r in rooms ==> ClientId(clientIdCounter + 1) !in rooms[r]
    {
      var next := ClientId(clientIdCounter + 1);
      SerialOfClientId(clientIdCounter + 1);
    }

    /** The upgrade callback and `handleConnection`: a fresh id from the counter, an
        identity from the token when it verifies, registration in both tables, the
        `connection` notice to the server's listeners and a `connect` frame to the
        client. `verify` stands for JWT validation (None when it throws). */
    method HandleConnection(token: Option<string>, verify: string -> Option<string>)
      returns (client: Client, socket: SocketWrapper)
      requires Valid()
      modifies this`clientIdCounter, this`accepted, this`clients, this`sockets, this`localEvents
      ensures Valid()
      ensures fresh(client) && fresh(socket)
      ensures clientIdCounter == old(clientIdCounter) + 1
      ensures client.id == ClientId(clientIdCounter)
      ensures client.id !in old(accepted) && client.id !in old(clients)
      ensures accepted == old(accepted)[client.id := client]
      ensures client.userID == (if token.Some? && token.value != "" then verify(token.value) else None)
      ensures client.rooms == {} && client.readyState == Open
      ensures client.outbox == [Envelope("connect", Null, None)]
      ensures socket.client == client && socket.id == client.id
      ensures clients == old(clients)[client.id := client]
      ensures sockets == old(sockets)[client.id := socket]
      ensures rooms == old(rooms)
      ensures localEvents == old(localEvents) + [NewConnection(client.id)]
    {
      var userID: Option<string> := None;
      if token.Some? && token.value != "" {
        userID := verify(token.value);
      }
      client, socket := Accept(token, userID);
      Announce(client);
    }

    /** `emit('connection', socket)` to the server's own listeners, then the
        `connect` frame to the client. */
    method Announce(client: Client)
      modifies this`localEvents, client`outbox
      ensures localEvents == old(localEvents) + [NewConnection(client.id)]
      ensures client.outbox == old(client.outbox) + (if client.readyState == Open then [Envelope("connect", Null, None)] else [])
    {
      localEvents := localEvents + [NewConnection(client.id)];
      EmitToClient(client, "connect", Null);
    }

    /** The bookkeeping of `handleConnection`: `client_${++clientIdCounter}`, an id
        never handed out before, for a new client and its wrapper, filed under that
        id in `clients` and `sockets`. */
    method Accept(token: Option<string>, userID: Option<string>) returns (client: Client, socket: SocketWrapper)
      requires Valid()
      modifies this`clientIdCounter, this`accepted, this`clients, this`sockets
      ensures Valid()
      ensures fresh(client) && fresh(socket)
      ensures clientIdCounter == old(clientIdCounter) + 1
      ensures client.id == ClientId(clientIdCounter)
      ensures client.id !in old(accepted) && client.id !in old(clients)
      ensures accepted == old(accepted)[client.id := client]
      ensures client.token == token && client.userID == userID
      ensures client.rooms == {} && client.readyState == Open && client.outbox == []
      ensures socket.client == client && socket.id == client.id
      ensures clients == old(clients)[client.id := client]
      ensures sockets == old(sockets)[client.id := socket]
    {
      var id := NextId();
      client := new Client(id, token, userID);
      socket := new SocketWrapper(client, this);
      Register(client, socket);
    }

    /** `client_${++clientIdCounter}`: an id never handed out before. */
    method NextId() returns (id: string)
      requires Valid()
      modifies this`clientIdCounter
      ensures Valid()
      ensures clientIdCounter == old(clientIdCounter) + 1 && id == ClientId(clientIdCounter)
      ensures id !in accepted && id !in clients
      ensures forall r :: r in rooms ==> id !in rooms[r]
    {
      FreshIdUnused();
      clientIdCounter := clientIdCounter + 1;
      id := ClientId(clientIdCounter);
    }

    /** The new client, under its fresh id, joins the accepted ones and is filed in
        `clients`, its wrapper in `sockets`. */
    method Register(client: Client, socket: SocketWrapper)
      requires Valid()
      requires client.id == ClientId(clientIdCounter) && client.id !in accepted
      requires forall r :: r in rooms ==> client.id !in rooms[r]
      requires client.rooms == {}
      requires socket.client == client && socket.id == client.id && socket.server == this
      modifies this`accepted, this`clients, this`sockets
      ensures Valid()
      ensures accepted == old(accepted)[client.id := client]
      ensures clients == old(clients)[client.id := client]
      ensures sockets == old(sockets)[client.id := socket]
    {
      Remember(client);
      clients := clients[client.id := client];
      sockets := sockets[client.id := socket];
    }

    /** The new client joins the accepted ones; its id is the current counter's. */
    method Remember(client: Client)
      requires Valid()
      requires client.id == ClientId(clientIdCounter) && client.id !in accepted
      requires forall r :: r in rooms ==> client.id !in rooms[r]
      requires client.rooms == {}
      modifies this`accepted
      ensures Valid()
      ensures accepted == old(accepted)[client.id := client]
    {
      SerialOfClientId(clientIdCounter);
      accepted := accepted[client.id := client];
    }

    /** An inbound frame goes to the socket's listeners with its data spread into the
        argument list, followed by a reply callback exactly when the frame carries an
        ackId. Data that cannot be spread throws, and the frame is dropped. */
    method HandleMessage(socket: SocketWrapper, frame: Envelope)
      modifies socket`dispatched
      ensures Spread(frame.data).None? ==> socket.dispatched == old(socket.dispatched)
      ensures Spread(frame.data).Some? ==>
        socket.dispatched == old(socket.dispatched) +
          (if socket.ListenerCount(frame.event) > 0
           then [Dispatch(frame.event, Spread(frame.data).value, frame.ackId)]
           else [])
    {
      var args := Spread(frame.data);
      if args.Some? {
        socket.EmitInternal(frame.event, args.value, frame.ackId);
      }
    }

    /** The connection's `close` event: `ws` has already moved the socket to CLOSED,
        so nothing is sent to it afterwards; the client leaves every room and is
        dropped from both tables. */
    method HandleDisconnect(client: Client)
      requires Valid() && Accepted(client)
      modifies this`rooms, this`clients, this`sockets, client`rooms, client`readyState
      ensures Valid()
      ensures client.readyState == Closed
      ensures client.rooms == {}
      ensures forall r :: r in rooms ==> client.id !in rooms[r]
      ensures rooms == WithoutMember(old(rooms), client.id)
      ensures clients == old(clients) - {client.id}
      ensures sockets == old(sockets) - {client.id}
      ensures forall id :: id in accepted && id != client.id ==> accepted[id].rooms == old(accepted[id].rooms)
    {
      client.readyState := Closed;
      LeaveAll(client);
      clients := clients - {client.id};
      sockets := sockets - {client.id};
    }

    /** The `forEach` over a snapshot of the client's rooms, leaving each. */
    method LeaveAll(client: Client)
      requires Valid() && Accepted(client)
      modifies this`rooms, client`rooms
      ensures Valid()
      ensures client.rooms == {}
      ensures rooms == WithoutMember(old(rooms), client.id)
    {
      var todo := client.rooms;
      ghost var left: set<string> := {};
      while todo != {}
        invariant Valid()
        invariant client.rooms == todo
        invariant left == old(client.rooms) - todo && todo <= old(client.rooms)
        invariant rooms == RemoveFrom(old(rooms), left, client.id)
        decreases todo
      {
        var room :| room in todo;
        RemoveFromStep(old(rooms), left, room, client.id);
        LeaveRoom(client, room);
        todo := todo - {room};
        left := left + {room};
      }
      RemoveFromAll(old(rooms), left, client.id);
    }

    /** The reply frame to an ackId: empty event, the response as data. */
    method SendAck(client: Client, ackId: int, data: Value)
      modifies client`outbox
      ensures client.outbox == old(client.outbox) + (if client.readyState == Open then [Envelope("", data, Some(ackId))] else [])
    {
      SendToClient(client, Envelope("", data, Some(ackId)));
    }

    /** A frame reaches only an open socket; otherwise it is dropped without error. */
    method SendToClient(client: Client, frame: Envelope)
      modifies client`outbox
      ensures client.readyState == Open ==> client.outbox == old(client.outbox) + [frame]
      ensures client.readyState != Open ==> client.outbox == old(client.outbox)
    {
      if client.readyState == Open {
        client.outbox := client.outbox + [frame];
      }
    }

    method EmitToClient(client: Client, event: string, data: Value)
      modifies client`outbox
      ensures client.outbox == old(client.outbox) + (if client.readyState == Open then [Envelope(event, data, None)] else [])
    {
      SendToClient(client, Envelope(event, data, None));
    }

    /** `to(room).emit(event, ...args)` (and `in(room)`, the same selector): every
        member of the room that is still a connected client is sent the event with the
        first argument; nobody else is sent anything. */
    method ToEmit(room: string, event: string, args: seq<Value>)
      requires Valid()
      modifies clients.Values`outbox
      ensures Valid()
      ensures forall id :: id in clients ==>
        clients[id].outbox == old(clients[id].outbox) +
          (if id in Members(rooms, room) && clients[id].readyState == Open
           then [Envelope(event, FirstArg(args), None)] else [])
    {
      var members := Members(rooms, room);
      SendToEach(members, Envelope(event, FirstArg(args), None));
    }

    /** `emit`: the `connection` meta-event goes to the server's own listeners; any
        other event is broadcast to every connected client. */
    method Emit(event: string, args: seq<Value>)
      requires Valid()
      modifies this`localEvents, clients.Values`outbox
      ensures Valid()
      ensures event == "connection" ==>
        localEvents == old(localEvents) + [Local(event, args)] &&
        forall id :: id in clients ==> clients[id].outbox == old(clients[id].outbox)
      ensures event != "connection" ==>
        localEvents == old(localEvents) &&
        forall id :: id in clients ==>
          clients[id].outbox == old(clients[id].outbox) +
            (if clients[id].readyState == Open then [Envelope(event, FirstArg(args), None)] else [])
    {
      if event == "connection" {
        localEvents := localEvents + [Local(event, args)];
        return;
      }
      SendToEach(clients.Keys, Envelope(event, FirstArg(args), None));
    }

    /** Each connected client is filed under its own id, so distinct keys are
        distinct connections. */
    predicate KeyedById()
      reads this`clients
    {
      forall id :: id in clients ==> clients[id].id == id
    }

    /** The `forEach` of a fan-out: `frame` to each id of `ids` that is a client. */
    method SendToEach(ids: set<string>, frame: Envelope)
      requires KeyedById()
      modifies clients.Values`outbox
      ensures forall id :: id in clients ==>
        clients[id].outbox == old(clients[id].outbox) +
          (if id in ids && clients[id].readyState == Open then [frame] else [])
    {
      var todo := ids;
      while todo != {}
        invariant todo <= ids
        invariant forall id :: id in clients ==>
          clients[id].outbox == old(clients[id].outbox) +
            (if id in ids - todo && clients[id].readyState == Open then [frame] else [])
        decreases todo
      {
        var id :| id in todo;
        if id in clients {
          SendToClient(clients[id], frame);
        }
        todo := todo - {id};
      }
    }

    method JoinRoom(client: Client, room: string)
      requires Valid() && Accepted(client)
      modifies this`rooms, client`rooms
      ensures Valid()
      ensures client.rooms == old(client.rooms) + {room}
      ensures rooms == old(rooms)[room := Members(old(rooms), room) + {client.id}]
      ensures room in old(client.rooms) ==> rooms == old(rooms) && client.rooms == old(client.rooms)
    {
      if room in client.rooms {
        assert room in rooms && client.id in rooms[room];
        assert rooms[room] + {client.id} == rooms[room];
        assert rooms[room := rooms[room]] == rooms;
      }
      client.rooms := client.rooms + {room};
      rooms := rooms[room := Members(rooms, room) + {client.id}];
    }

    method LeaveRoom(client: Client, room: string)
      requires Valid() && Accepted(client)
      modifies this`rooms, client`rooms
      ensures Valid()
      ensures client.rooms == old(client.rooms) - {room}
      ensures rooms == RemoveMember(old(rooms), room, client.id)
      ensures room !in rooms || client.id !in rooms[room]
      ensures room !in old(client.rooms) ==> rooms == old(rooms)
    {
      assert room in rooms && client.id in rooms[room] <==> room in client.rooms;
      client.rooms := client.rooms - {room};
      if room in rooms {
        var remaining := rooms[room] - {client.id};
        if remaining == {} {
          assert rooms[room] == {client.id};
          rooms := rooms - {room};
        } else {
          if client.id !in rooms[room] {
            assert remaining == rooms[room];
            assert rooms[room := remaining] == rooms;
          }
          rooms := rooms[room := remaining];
        }
      }
    }

    /** The wrappers of a room's members that still have one, each once. */
    method GetSocketsInRoom(room: string) returns (r: seq<SocketWrapper>)
      requires Valid()
      ensures forall k :: 0 <= k < |r| ==>
        r[k].id in Members(rooms, room) && r[k].id in sockets && sockets[r[k].id] == r[k]
      ensures forall id :: id in Members(rooms, room) && id in sockets ==> sockets[id] in r
      ensures forall i, j :: 0 <= i < j < |r| ==> r[i] != r[j]
    {
      var members := Members(rooms, room);
      var todo := members;
      r := [];
      while todo != {}
        invariant todo <= members
        invariant forall k :: 0 <= k < |r| ==>
          r[k].id in members - todo && r[k].id in sockets && sockets[r[k].id] == r[k]
        invariant forall id :: id in members - todo && id in sockets ==> sockets[id] in r
        invariant forall i, j :: 0 <= i < j < |r| ==> r[i].id != r[j].id
        decreases todo
      {
        var id :| id in todo;
        if id in sockets {
          r := r + [sockets[id]];
        }
        todo := todo - {id};
      }
    }
  }

  /** A reply to an ack that the application sends after the client closed is
      dropped: the connection only ever received its `connect` frame. */
  method NothingSentAfterClose() returns (outbox: seq<Envelope>)
    ensures outbox == [Envelope("connect", Null, None)]
  {
    var server := new WSServer();
    var client, socket := server.HandleConnection(None, t => None);
    server.HandleDisconnect(client);
    server.SendAck(client, 7, Null);
    socket.Emit("state", [Text("x")]);
    outbox := client.outbox;
  }
}
