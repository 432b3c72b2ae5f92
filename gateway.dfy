/** The chat gateway: presence maps, the room directory and one handler per
    inbound event. Each handler checks its preconditions and fails before
    changing anything, then updates the maps in place, and returns what it
    emits as delivery instructions. */
module Gateway {
  import opened ChatTypes
  import opened Ordered
  import opened Presence
  import opened Directory

  class ChatGateway {
    var users: map<string, ConnId>    // identity -> connection
    var sockets: map<ConnId, string>  // connection -> identity
    var rooms: map<string, Room>      // room name -> room
    var order: seq<string>            // the room names, in the directory's insertion order

    ghost predicate Valid()
      reads this
    {
      && Indexed(order, rooms)
      && (forall c :: c in sockets ==> sockets[c] != "")
    }

    /** Every room in the directory has a member. */
    ghost predicate RoomsOccupied()
      reads this
    {
      Occupied(rooms)
    }

    constructor ()
      ensures Valid()
      ensures users == map[] && sockets == map[] && rooms == map[] && order == []
    {
      users, sockets, rooms, order := map[], map[], map[], [];
    }

    /** `register`: binds identity and connection in both maps. Neither
        stale reverse entry is removed. */
    method HandleRegister(userId: string, client: ConnId) returns (resp: Response)
      requires Valid()
      modifies this
      ensures Valid()
      ensures rooms == old(rooms) && order == old(order)
      ensures userId == "" ==> resp == Response(Err(InvalidUserId), []) && users == old(users) && sockets == old(sockets)
      ensures userId != "" ==>
        && resp == Response(Ok(NoReply), [])
        && users == old(users)[userId := client]
        && sockets == old(sockets)[client := userId]
        && Resolve(sockets, client) == userId
    {
      if userId == "" {
        return Response(Err(InvalidUserId), []);
      }
      users := users[userId := client];
      sockets := sockets[client := userId];
      resp := Response(Ok(NoReply), []);
    }

    /** `create-room`: a new room whose only member is its creator. */
    method HandleCreateRoom(name: string, isPrivate: bool, password: Option<string>, client: ConnId, now: Timestamp)
      returns (resp: Response)
      requires Valid()
      modifies this
      ensures Valid()
      ensures users == old(users) && sockets == old(sockets)
      ensures resp.result.Ok? <==> name != "" && name !in old(rooms) && !(isPrivate && !Truthy(password))
      ensures name == "" ==> resp.result == Err(RoomNameRequired)
      ensures name != "" && name in old(rooms) ==> resp.result == Err(RoomExists)
      ensures name != "" && name !in old(rooms) && isPrivate && !Truthy(password) ==> resp.result == Err(PasswordRequired)
      ensures resp.result.Err? ==> rooms == old(rooms) && order == old(order) && resp.deliveries == []
      ensures resp.result.Ok? ==>
        var room := Room(name, Resolve(old(sockets), client), now, isPrivate, password, [client]);
        && rooms == old(rooms)[name := room]
        && order == old(order) + [name]
        && resp.result.value == RoomReply(Details(room))
        && Details(room).members == 1
        && resp.deliveries == [ToSocket(client, RoomJoined(name, true, Details(room)))]
      ensures old(RoomsOccupied()) ==> RoomsOccupied()
    {
      var userId := Resolve(sockets, client);
      if name == "" {
        return Response(Err(RoomNameRequired), []);
      }
      if name in rooms {
        return Response(Err(RoomExists), []);
      }
      if isPrivate && !Truthy(password) {
        return Response(Err(PasswordRequired), []);
      }
      var room := Room(name, userId, now, isPrivate, password, [client]);
      rooms := rooms[name := room];
      order := order + [name];
      resp := Response(Ok(RoomReply(Details(room))), [ToSocket(client, RoomJoined(name, true, Details(room)))]);
    }

    /** `send-to-user`: one `private-message` to the connection bound to the
        target identity, carrying the sender's name. */
    function HandlePrivateMsg(toUserId: string, message: string, client: ConnId): (resp: Response)
      reads this
      ensures resp.result.Ok? <==> toUserId in users
      ensures resp.result.Err? ==> resp.result.error == TargetNotConnected && resp.deliveries == []
      ensures resp.result.Ok? ==>
        && resp.result.value == NoReply
        && |resp.deliveries| == 1
        && resp.deliveries[0] == ToRoom(users[toUserId], Some(client), PrivateMessage(Resolve(sockets, client), message))
    {
      if toUserId !in users then Response(Err(TargetNotConnected), [])
      else Response(Ok(NoReply), [ToRoom(users[toUserId], Some(client), PrivateMessage(Resolve(sockets, client), message))])
    }

    /** `send-to-all`: one `broadcast-message` to every connection but the
        sender. It never fails. */
    function HandleBroadcast(message: string, client: ConnId): (resp: Response)
      reads this
      ensures resp.result == Ok(NoReply)
      ensures resp.deliveries == [BroadcastExcept(client, BroadcastMessage(Resolve(sockets, client), message))]
    {
      Response(Ok(NoReply), [BroadcastExcept(client, BroadcastMessage(Resolve(sockets, client), message))])
    }

    /** `join-room`: adds the sender to an existing room it may enter. */
    method HandleJoinRoom(room: string, password: Option<string>, client: ConnId, now: Timestamp)
      returns (resp: Response)
      requires Valid()
      modifies this
      ensures Valid()
      ensures users == old(users) && sockets == old(sockets) && order == old(order)
      ensures resp.result.Ok? <==>
        && room != "" && room in old(rooms)
        && !(old(rooms)[room].isPrivate && old(rooms)[room].password != password)
        && client !in old(rooms)[room].members
      ensures room == "" ==> resp.result == Err(RoomNameRequired)
      ensures room != "" && room !in old(rooms) ==> resp.result == Err(RoomNotFound)
      ensures (room != "" && room in old(rooms) && old(rooms)[room].isPrivate && old(rooms)[room].password != password)
        ==> resp.result == Err(WrongPassword)
      ensures (&& room != "" && room in old(rooms)
               && !(old(rooms)[room].isPrivate && old(rooms)[room].password != password)
               && client in old(rooms)[room].members)
        ==> resp.result == Err(AlreadyMember)
      ensures resp.result.Err? ==> rooms == old(rooms) && resp.deliveries == []
      ensures resp.result.Ok? ==>
        var joined := old(rooms)[room].(members := old(rooms)[room].members + [client]);
        && rooms == old(rooms)[room := joined]
        && |joined.members| == |old(rooms)[room].members| + 1
        && resp.result.value == RoomReply(Details(joined))
        && resp.deliveries == [
             ToSocket(client, RoomJoined(room, false, Details(joined))),
             ToRoom(room, Some(client), RoomNotification(room, UserJoined(Resolve(sockets, client)), now))]
      ensures old(RoomsOccupied()) ==> RoomsOccupied()
    {
      var userId := Resolve(sockets, client);
      if room == "" {
        return Response(Err(RoomNameRequired), []);
      }
      if room !in rooms {
        return Response(Err(RoomNotFound), []);
      }
      var info := rooms[room];
      if info.isPrivate && info.password != password {
        return Response(Err(WrongPassword), []);
      }
      if client in info.members {
        return Response(Err(AlreadyMember), []);
      }
      info := info.(members := info.members + [client]);
      rooms := rooms[room := info];
      var notices := NotifyRoomMembers(room, UserJoined(userId), now, Some(client));
      resp := Response(Ok(RoomReply(Details(info))), [ToSocket(client, RoomJoined(room, false, Details(info)))] + notices);
    }

    /** `leave-room`: removes the sender from a room it is in, tells the
        others, and deletes the room if nobody is left. */
    method HandleLeaveRoom(room: string, client: ConnId, now: Timestamp) returns (resp: Response)
      requires Valid()
      modifies this
      ensures Valid()
      ensures users == old(users) && sockets == old(sockets)
      ensures resp.result.Ok? <==> room != "" && room in old(rooms) && client in old(rooms)[room].members
      ensures room == "" ==> resp.result == Err(RoomNameRequired)
      ensures room != "" && room !in old(rooms) ==> resp.result == Err(RoomNotFound)
      ensures room != "" && room in old(rooms) && client !in old(rooms)[room].members ==> resp.result == Err(NotMember)
      ensures resp.result.Err? ==> rooms == old(rooms) && order == old(order) && resp.deliveries == []
      ensures resp.result.Ok? ==>
        var left := Strip(old(rooms)[room], client);
        && resp.result.value == LeftReply(room)
        && |left.members| == |old(rooms)[room].members| - 1
        && client !in left.members
        && (left.members == [] ==> rooms == old(rooms) - {room} && order == Remove(old(order), room))
        && (left.members != [] ==> rooms == old(rooms)[room := left] && order == old(order))
        && resp.deliveries == [ToRoom(room, Some(client), RoomNotification(room, UserLeft(Resolve(sockets, client)), now))]
      ensures old(RoomsOccupied()) ==> RoomsOccupied()
    {
      var userId := Resolve(sockets, client);
      if room == "" {
        return Response(Err(RoomNameRequired), []);
      }
      if room !in rooms {
        return Response(Err(RoomNotFound), []);
      }
      if client !in rooms[room].members {
        return Response(Err(NotMember), []);
      }
      LeaveRoomSilently(client, room);
      var notices := NotifyRoomMembers(room, UserLeft(userId), now, Some(client));
      if rooms[room].members == [] {
        DeleteRoom(order, rooms, room);
        UpdateThenDelete(old(rooms), room, rooms[room]);
        rooms := rooms - {room};
        order := Remove(order, room);
      }
      resp := Response(Ok(LeftReply(room)), notices);
    }

    /** `list-rooms`: a summary of every public room, answered to the
        requester. Read-only. */
    function HandleListRooms(client: ConnId): (resp: Response)
      reads this
      requires Valid()
      ensures resp.result.Ok? && resp.result.value.RoomsReply?
      ensures var listed := resp.result.value.rooms;
        && (forall p :: p in listed ==> p.name in rooms && !rooms[p.name].isPrivate && p == Summary(rooms[p.name]))
        && (forall n :: n in rooms && !rooms[n].isPrivate ==> Summary(rooms[n]) in listed)
        && NoDup(listed)
        && resp.deliveries == [ToSocket(client, RoomList(listed))]
    {
      var listed := PublicSummaries(order, rooms);
      Response(Ok(RoomsReply(listed)), [ToSocket(client, RoomList(listed))])
    }

    /** `room-members`: the names of a room's members, for a member of it.
        Read-only. */
    function HandleRoomMembers(room: string, client: ConnId): (resp: Response)
      reads this
      ensures resp.result.Ok? <==> room != "" && room in rooms && client in rooms[room].members
      ensures room == "" ==> resp.result == Err(RoomNameRequired)
      ensures room != "" && room !in rooms ==> resp.result == Err(RoomNotFound)
      ensures room != "" && room in rooms && client !in rooms[room].members ==> resp.result == Err(NoAccess)
      ensures resp.result.Err? ==> resp.deliveries == []
      ensures resp.result.Ok? ==>
        && resp.result.value.MembersReply?
        && resp.result.value.room == room
        && var names := resp.result.value.members;
        && |names| == |rooms[room].members|
        && (forall i :: 0 <= i < |names| ==> names[i] == Resolve(sockets, rooms[room].members[i]))
        && Resolve(sockets, client) in names
        && resp.deliveries == [ToSocket(client, RoomMembersList(room, names, |names|))]
    {
      if room == "" then Response(Err(RoomNameRequired), [])
      else if room !in rooms then Response(Err(RoomNotFound), [])
      else if client !in rooms[room].members then Response(Err(NoAccess), [])
      else
        var ids, socks := rooms[room].members, sockets;
        var names := seq(|ids|, i requires 0 <= i < |ids| => Resolve(socks, ids[i]));
        assert Resolve(socks, client) in names by {
          var k :| 0 <= k < |ids| && ids[k] == client;
          assert names[k] == Resolve(socks, client);
        }
        Response(Ok(MembersReply(room, names)), [ToSocket(client, RoomMembersList(room, names, |names|))])
    }

    /** `send-to-room`: one `room-message` to the whole room, sender
        included, from a member. Read-only. */
    function HandleRoomMessage(room: string, message: string, client: ConnId, now: Timestamp): (resp: Response)
      reads this
      ensures resp.result.Ok? <==> room != "" && message != "" && room in rooms && client in rooms[room].members
      ensures room == "" || message == "" ==> resp.result == Err(IncompleteData)
      ensures room != "" && message != "" && room !in rooms ==> resp.result == Err(RoomNotFound)
      ensures room != "" && message != "" && room in rooms && client !in rooms[room].members ==> resp.result == Err(NotMember)
      ensures resp.result.Err? ==> resp.deliveries == []
      ensures resp.result.Ok? ==>
        && resp.result.value == MessageReply(room, message)
        && resp.deliveries == [ToRoom(room, None, RoomMessage(Resolve(sockets, client), room, message, now))]
    {
      if room == "" || message == "" then Response(Err(IncompleteData), [])
      else if room !in rooms then Response(Err(RoomNotFound), [])
      else if client !in rooms[room].members then Response(Err(NotMember), [])
      else Response(Ok(MessageReply(room, message)), [ToRoom(room, None, RoomMessage(Resolve(sockets, client), room, message, now))])
    }

    /** Client disconnect: forgets the connection and its identity, and
        takes the connection out of every room, announcing the departure to
        each. Rooms left empty stay in the directory. */
    method HandleDisconnect(client: ConnId, now: Timestamp) returns (out: seq<Delivery>)
      requires Valid()
      modifies this
      ensures Valid()
      ensures sockets == old(sockets) - {client}
      ensures users == if client in old(sockets) then old(users) - {old(sockets)[client]} else old(users)
      ensures rooms == WithoutMember(old(rooms), client) && order == old(order)
      ensures forall n :: n in rooms ==> client !in rooms[n].members
      ensures out == DepartureNotices(order, old(rooms), client,
                       UserDisconnected(if client in old(sockets) then Some(old(sockets)[client]) else None), now)
    {
      var who: Option<string> := None;
      if client in sockets && sockets[client] != "" {
        who := Some(sockets[client]);
        users := users - {sockets[client]};
      }
      sockets := sockets - {client};
      var notice := UserDisconnected(who);
      out := [];
      var i := 0;
      while i < |order|
        invariant 0 <= i <= |order|
        invariant Valid()
        invariant order == old(order) && users == old(users) - (if who.Some? then {who.value} else {})
        invariant sockets == old(sockets) - {client}
        invariant StrippedUpTo(old(rooms), rooms, order[..i], client)
        invariant out == DepartureNotices(order[..i], old(rooms), client, notice, now)
      {
        var name := order[i];
        DepartureStep(order, i, old(rooms), client, notice, now);
        PrefixStep(order, i);
        StrippedStep(old(rooms), rooms, order, i, client);
        if client in rooms[name].members {
          LeaveRoomSilently(client, name);
          out := out + NotifyRoomMembers(name, notice, now, None);
        }
        i := i + 1;
      }
      assert order[..i] == order;
      StrippedAll(old(rooms), rooms, order, client);
    }

    /** Takes `client` out of the named room if it exists; no checks, no
        deletion of an emptied room. */
    method LeaveRoomSilently(client: ConnId, room: string)
      requires Valid()
      modifies this
      ensures Valid()
      ensures users == old(users) && sockets == old(sockets) && order == old(order)
      ensures room in old(rooms) ==> rooms == old(rooms)[room := Strip(old(rooms)[room], client)]
      ensures room !in old(rooms) ==> rooms == old(rooms)
    {
      if room in rooms {
        rooms := rooms[room := Strip(rooms[room], client)];
      }
    }

    /** A system `room-notification` to the members of a room, skipping
        `exclude` when one is given; nothing if the room does not exist. */
    function NotifyRoomMembers(room: string, notice: Notice, now: Timestamp, exclude: Option<ConnId>): (out: seq<Delivery>)
      reads this
      ensures room !in rooms ==> out == []
      ensures room in rooms ==> |out| == 1
      ensures forall d :: d in out ==> d == ToRoom(room, exclude, RoomNotification(room, notice, now))
    {
      if room !in rooms then [] else [ToRoom(room, exclude, RoomNotification(room, notice, now))]
    }
  }
}
