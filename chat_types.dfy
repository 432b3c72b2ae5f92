/** The values the chat gateway stores, answers with and hands to the
    transport: rooms, replies, failures and delivery instructions. */
module ChatTypes {

  datatype Option<+T> = None | Some(value: T)

  datatype Result<+T, +E> = Ok(value: T) | Err(error: E)

  /** A connection id (`client.id`). The transport never issues an empty
      id, so the gateway's truthiness tests on ids amount to presence. */
  type ConnId = id: string | id != "" witness "0"

  /** A wall-clock reading (`new Date()`), supplied by the caller. */
  type Timestamp = int

  /** A JavaScript truthiness test on an optional string: present and non-empty. */
  predicate Truthy(s: Option<string>)
  {
    s.Some? && s.value != ""
  }

  /** `RoomInfo`: one entry of the room directory. `members` is the room's
      set of connection ids, in insertion order. */
  datatype Room = Room(
    name: string,
    creator: string,
    createdAt: Timestamp,
    isPrivate: bool,
    password: Option<string>,
    members: seq<ConnId>)

  /** The room description returned by create-room and join-room and sent with `room-joined`. */
  datatype RoomDetails = RoomDetails(name: string, creator: string, isPrivate: bool, members: nat, createdAt: Timestamp)

  /** One entry of the list-rooms answer. */
  datatype PublicRoom = PublicRoom(name: string, creator: string, members: nat, createdAt: Timestamp)

  function Details(r: Room): RoomDetails
  {
    RoomDetails(r.name, r.creator, r.isPrivate, |r.members|, r.createdAt)
  }

  function Summary(r: Room): PublicRoom
  {
    PublicRoom(r.name, r.creator, |r.members|, r.createdAt)
  }

  /** The system announcements sent as `room-notification`; only who did
      what is modelled, not the wording. */
  datatype Notice =
    | UserJoined(user: string)
    | UserLeft(user: string)
    | UserDisconnected(who: Option<string>)  // None: the connection never registered

  /** The events the gateway emits, with their payloads. */
  datatype Event =
    | RoomJoined(room: string, created: bool, info: RoomDetails)
    | RoomNotification(room: string, notice: Notice, timestamp: Timestamp)
    | PrivateMessage(from: string, message: string)
    | BroadcastMessage(from: string, message: string)
    | RoomList(rooms: seq<PublicRoom>)
    | RoomMembersList(room: string, members: seq<string>, count: nat)
    | RoomMessage(from: string, room: string, message: string, timestamp: Timestamp)

  /** Delivery instructions for the transport.
      `ToRoom` reaches all connections in the named transport room except
      `except`. Each connection is in the transport room named by its own
      id, so `client.to(target)`, which skips the sending connection, is
      `ToRoom(target, Some(client), _)`. Chat rooms share that namespace:
      a chat room named after a connection id is the same transport room. */
  datatype Delivery =
    | ToSocket(socket: ConnId, event: Event)                      // client.emit
    | ToRoom(room: string, except: Option<ConnId>, event: Event)  // server.to(room), .except(id), client.to(room)
    | BroadcastExcept(socket: ConnId, event: Event)               // client.broadcast.emit

  /** Why a handler refused; each is a distinct `WsException` of the gateway. */
  datatype Failure =
    | InvalidUserId       // register: empty identity
    | RoomNameRequired    // create-room, join-room, leave-room, room-members: empty room name
    | RoomExists          // create-room: the name is taken
    | PasswordRequired    // create-room: private room without a password
    | TargetNotConnected  // send-to-user: no connection bound to the identity
    | RoomNotFound        // join-room, leave-room, room-members, send-to-room
    | WrongPassword       // join-room: private room, passwords differ
    | AlreadyMember       // join-room
    | NotMember           // leave-room, send-to-room
    | NoAccess            // room-members: requester is not a member
    | IncompleteData      // send-to-room: empty room name or message

  /** What a handler returns to the requesting connection on success. */
  datatype Reply =
    | NoReply
    | RoomReply(details: RoomDetails)
    | LeftReply(room: string)
    | RoomsReply(rooms: seq<PublicRoom>)
    | MembersReply(room: string, members: seq<string>)
    | MessageReply(room: string, message: string)

  /** The outcome of one handler: its result and what it emitted. */
  datatype Response = Response(result: Result<Reply, Failure>, deliveries: seq<Delivery>)
}
