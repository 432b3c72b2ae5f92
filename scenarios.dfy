/** Runs of the gateway through several handlers. Each method is a client
    of the handlers' contracts: what its ensures states follows from those
    contracts alone. */
module Scenarios {
  import opened ChatTypes
  import opened Gateway
  import opened Directory

  const S1: ConnId := "s1"
  const S2: ConnId := "s2"
  const S3: ConnId := "s3"

  /** "alice" opens the password-protected room "team". */
  method AliceOpensTeam() returns (g: ChatGateway, created: Response)
    ensures fresh(g) && g.Valid()
    ensures g.sockets == map[S1 := "alice"]
    ensures g.rooms == map["team" := Room("team", "alice", 0, true, Some("p"), [S1])]
    ensures created.result == Ok(RoomReply(RoomDetails("team", "alice", true, 1, 0)))
  {
    g := new ChatGateway();
    var r := g.HandleRegister("alice", S1);
    created := g.HandleCreateRoom("team", true, Some("p"), S1, 0);
  }

  /** "bob" registers on s2. */
  method BobArrives() returns (g: ChatGateway)
    ensures fresh(g) && g.Valid()
    ensures g.sockets == map[S1 := "alice", S2 := "bob"]
    ensures g.rooms == map["team" := Room("team", "alice", 0, true, Some("p"), [S1])]
  {
    var created;
    g, created := AliceOpensTeam();
    var r := g.HandleRegister("bob", S2);
  }

  /** "bob" joins the room: a wrong password is refused and the right one
      admits. */
  method TeamRoom() returns (g: ChatGateway, wrong: Response, joined: Response)
    ensures fresh(g) && g.Valid()
    ensures g.sockets == map[S1 := "alice", S2 := "bob"]
    ensures g.rooms == map["team" := Room("team", "alice", 0, true, Some("p"), [S1, S2])]
    ensures wrong == Response(Err(WrongPassword), [])
    ensures joined.result == Ok(RoomReply(RoomDetails("team", "alice", true, 2, 0)))
  {
    g := BobArrives();
    wrong := g.HandleJoinRoom("team", Some("wrong"), S2, 1);
    joined := g.HandleJoinRoom("team", Some("p"), S2, 2);
    assert [S1] + [S2] == [S1, S2];
  }

  /** A message to the room reaches both members under the sender's
      identity, and the member list names both. */
  method TeamConversation() returns (sent: Response, listed: Response)
    ensures sent.result == Ok(MessageReply("team", "hi"))
    ensures sent.deliveries == [ToRoom("team", None, RoomMessage("alice", "team", "hi", 3))]
    ensures listed.result == Ok(MembersReply("team", ["alice", "bob"]))
  {
    var g, wrong, joined := TeamRoom();
    sent := g.HandleRoomMessage("team", "hi", S1, 3);
    listed := g.HandleRoomMembers("team", S2);
    var names := listed.result.value.members;
    assert names == ["alice", "bob"];
  }

  /** "alice" on connection s1 opens the public room "solo"; then
      connection s2 registers as "alice" too. */
  method TakeOver() returns (g: ChatGateway)
    ensures fresh(g) && g.Valid()
    ensures g.users == map["alice" := S2]
    ensures g.sockets == map[S1 := "alice", S2 := "alice"]
    ensures g.rooms == map["solo" := Room("solo", "alice", 0, false, None, [S1])]
  {
    g := new ChatGateway();
    var r := g.HandleRegister("alice", S1);
    var created := g.HandleCreateRoom("solo", false, None, S1, 0);
    r := g.HandleRegister("alice", S2);
  }

  /** s1 disconnects after the takeover: the identity "alice" is unbound
      although its new owner s2 is still connected, and "solo" is left with
      no members but is not deleted. */
  method DisconnectAfterTakeover() returns (g: ChatGateway, notices: seq<Delivery>)
    ensures fresh(g) && g.Valid()
    ensures "alice" !in g.users
    ensures S1 !in g.sockets && S2 in g.sockets && g.sockets[S2] == "alice"
    ensures "solo" in g.rooms && g.rooms["solo"] == Room("solo", "alice", 0, false, None, [])
    ensures notices == [ToRoom("solo", None, RoomNotification("solo", UserDisconnected(Some("alice")), 1))]
  {
    g := TakeOver();
    DepartureNoticesSingle("solo", g.rooms, S1, UserDisconnected(Some("alice")), 1);
    notices := g.HandleDisconnect(S1, 1);
  }

  /** After that disconnect, a message to "alice" fails and the empty room
      is still listed. */
  method TakeoverThenDisconnect() returns (toAlice: Response, rooms: Response)
    ensures toAlice == Response(Err(TargetNotConnected), [])
    ensures rooms.result.Ok? && rooms.result.value.RoomsReply? && PublicRoom("solo", "alice", 0, 0) in rooms.result.value.rooms
  {
    var g, notices := DisconnectAfterTakeover();
    toAlice := g.HandlePrivateMsg("alice", "hello", S3);
    rooms := g.HandleListRooms(S3);
    assert Summary(g.rooms["solo"]) == PublicRoom("solo", "alice", 0, 0);
  }

  /** Registering a connection under a second identity leaves the first
      identity bound to it: messages to either name still reach it. */
  method ReRegistration() returns (toOld: Response, toNew: Response)
    ensures toOld == Response(Ok(NoReply), [ToRoom(S1, Some(S2), PrivateMessage("bob", "hi"))])
    ensures toNew == Response(Ok(NoReply), [ToRoom(S1, Some(S2), PrivateMessage("bob", "hi"))])
  {
    var g := new ChatGateway();
    var r := g.HandleRegister("alice", S1);
    r := g.HandleRegister("carol", S1);
    r := g.HandleRegister("bob", S2);
    toOld := g.HandlePrivateMsg("alice", "hi", S2);
    toNew := g.HandlePrivateMsg("carol", "hi", S2);
  }
}
