/** The room directory: the map from room name to room, with the queries and
    bulk updates that the gateway's handlers are specified by. */
module Directory {
  import opened ChatTypes
  import opened Ordered

  /** What every handler keeps: each entry is filed under its own name, has
      no repeated member, and a private room holds a non-empty password. */
  ghost predicate WellFormed(rooms: map<string, Room>)
  {
    forall n :: n in rooms ==>
      && rooms[n].name == n
      && NoDup(rooms[n].members)
      && (rooms[n].isPrivate ==> Truthy(rooms[n].password))
  }

  /** The directory and its name order agree, and the directory is well formed. */
  ghost predicate Indexed(order: seq<string>, rooms: map<string, Room>)
  {
    NoDup(order) && (forall n :: n in order <==> n in rooms) && WellFormed(rooms)
  }

  /** Every room has at least one member. */
  ghost predicate Occupied(rooms: map<string, Room>)
  {
    forall n :: n in rooms ==> rooms[n].members != []
  }

  /** The room after `client` left it (the update of `leaveRoomSilently`). */
  function Strip(room: Room, client: ConnId): (r: Room)
    ensures r == room.(members := r.members)
    ensures client !in room.members ==> r == room
    ensures client in room.members ==> |r.members| == |room.members| - 1
    ensures forall c :: c in room.members && c != client ==> c in r.members
    ensures forall c :: c in r.members ==> c in room.members
    ensures NoDup(room.members) ==> NoDup(r.members) && client !in r.members
  {
    room.(members := Remove(room.members, client))
  }

  /** The directory after `client` left every room it was in; no entry is
      added or deleted. */
  function WithoutMember(rooms: map<string, Room>, client: ConnId): (r: map<string, Room>)
    ensures r.Keys == rooms.Keys
    ensures forall n :: n in r ==> r[n] == Strip(rooms[n], client)
    ensures WellFormed(rooms) ==> WellFormed(r) && forall n :: n in r ==> client !in r[n].members
  {
    map n | n in rooms :: Strip(rooms[n], client)
  }

  /** After a disconnect the directory is still occupied exactly when no
      room had the departing connection as its only member. */
  lemma WithoutMemberOccupied(rooms: map<string, Room>, client: ConnId)
    requires Occupied(rooms)
    ensures Occupied(WithoutMember(rooms, client)) <==> forall n :: n in rooms ==> rooms[n].members != [client]
  {
    var r := WithoutMember(rooms, client);
    if forall n :: n in rooms ==> rooms[n].members != [client] {
      forall n | n in r
        ensures r[n].members != []
      {
      }
    } else {
      var n :| n in rooms && rooms[n].members == [client];
      assert |r[n].members| == 0;
    }
  }

  /** `Array.from(rooms.values()).filter(!isPrivate).map(summary)` over the
      rooms named by `order`, in that order. */
  function PublicSummaries(order: seq<string>, rooms: map<string, Room>): (r: seq<PublicRoom>)
    requires forall n :: n in order ==> n in rooms
    ensures |r| <= |order|
    ensures forall p :: p in r ==> exists n :: n in order && !rooms[n].isPrivate && p == Summary(rooms[n])
    ensures forall n :: n in order && !rooms[n].isPrivate ==> Summary(rooms[n]) in r
    ensures (forall n :: n in order ==> rooms[n].name == n) ==> forall p :: p in r ==> p.name in order
    ensures NoDup(order) && (forall n :: n in order ==> rooms[n].name == n) ==> NoDup(r)
  {
    if order == [] then []
    else
      var rest := PublicSummaries(order[1..], rooms);
      var head := rooms[order[0]];
      NoDupTail(order);
      if head.isPrivate then rest else [Summary(head)] + rest
  }

  /** The `room-notification`s a disconnect sends: one to each room of
      `order` that had `client` as a member, addressed to the whole room,
      in the order of `order`. */
  function DepartureNotices(order: seq<string>, rooms: map<string, Room>, client: ConnId, notice: Notice, now: Timestamp): (out: seq<Delivery>)
    ensures |out| <= |order|
    ensures forall d :: d in out ==>
      d.ToRoom? && d.room in order && d.room in rooms && client in rooms[d.room].members
      && d == ToRoom(d.room, None, RoomNotification(d.room, notice, now))
    ensures forall n :: n in order && n in rooms && client in rooms[n].members ==>
      ToRoom(n, None, RoomNotification(n, notice, now)) in out
    ensures NoDup(order) ==> NoDup(out)
  {
    if order == [] then []
    else
      var last := order[|order| - 1];
      var prefix := order[..|order| - 1];
      assert order == prefix + [last];
      var earlier := DepartureNotices(prefix, rooms, client, notice, now);
      if last in rooms && client in rooms[last].members then
        var d := ToRoom(last, None, RoomNotification(last, notice, now));
        assert NoDup(order) ==> d !in earlier;
        earlier + [d]
      else
        earlier
  }

  /** Extending the processed prefix of `order` by one name adds that
      room's notice, if it had `client`. */
  lemma DepartureStep(order: seq<string>, i: nat, rooms: map<string, Room>, client: ConnId, notice: Notice, now: Timestamp)
    requires i < |order|
    ensures DepartureNotices(order[..i + 1], rooms, client, notice, now)
         == DepartureNotices(order[..i], rooms, client, notice, now)
            + if order[i] in rooms && client in rooms[order[i]].members
              then [ToRoom(order[i], None, RoomNotification(order[i], notice, now))] else []
  {
    assert order[..i + 1][..i] == order[..i];
  }

  /** A directory of one room sends at most one departure notice. */
  lemma DepartureNoticesSingle(name: string, rooms: map<string, Room>, client: ConnId, notice: Notice, now: Timestamp)
    ensures DepartureNotices([name], rooms, client, notice, now)
         == if name in rooms && client in rooms[name].members
            then [ToRoom(name, None, RoomNotification(name, notice, now))] else []
  {
    assert [name][..0] == [];
  }

  /** `rooms` is `rooms0` with `client` taken out of the rooms named in `done`. */
  ghost predicate StrippedUpTo(rooms0: map<string, Room>, rooms: map<string, Room>, done: seq<string>, client: ConnId)
  {
    && rooms.Keys == rooms0.Keys
    && forall n :: n in rooms ==> rooms[n] == if n in done then Strip(rooms0[n], client) else rooms0[n]
  }

  /** One more room visited: it is stripped if it had `client`, and left alone otherwise. */
  lemma StrippedStep(rooms0: map<string, Room>, rooms: map<string, Room>, order: seq<string>, i: nat, client: ConnId)
    requires i < |order| && order[i] in rooms && order[i] !in order[..i]
    requires StrippedUpTo(rooms0, rooms, order[..i], client)
    ensures order[..i + 1] == order[..i] + [order[i]]
    ensures var name := order[i];
      StrippedUpTo(rooms0, if client in rooms[name].members then rooms[name := Strip(rooms[name], client)] else rooms,
                   order[..i + 1], client)
  {
    assert order[..i + 1] == order[..i] + [order[i]];
  }

  /** Once every room has been visited, the result is `WithoutMember`. */
  lemma StrippedAll(rooms0: map<string, Room>, rooms: map<string, Room>, order: seq<string>, client: ConnId)
    requires forall n :: n in order <==> n in rooms0
    requires StrippedUpTo(rooms0, rooms, order, client)
    ensures rooms == WithoutMember(rooms0, client)
  {
  }

  /** Deleting a room from the directory and from its name order keeps the
      two in step and keeps the directory well formed. */
  lemma DeleteRoom(order: seq<string>, rooms: map<string, Room>, room: string)
    requires Indexed(order, rooms)
    ensures Indexed(Remove(order, room), rooms - {room})
    ensures Occupied(rooms) ==> Occupied(rooms - {room})
  {
  }

  /** Deleting a key forgets any value just written under it. */
  lemma UpdateThenDelete(rooms: map<string, Room>, name: string, room: Room)
    ensures rooms[name := room] - {name} == rooms - {name}
  {
  }
}
