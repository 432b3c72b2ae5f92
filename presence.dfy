/** The two presence maps of the gateway: `users` (identity to connection)
    and `sockets` (connection to identity). The gateway updates them with
    single-key writes and deletes; nothing keeps them mutually consistent. */
module Presence {
  import opened ChatTypes

  /** The name a connection goes by: the identity it registered, or its own
      id when it has none. */
  function Resolve(sockets: map<ConnId, string>, client: ConnId): (who: string)
    ensures who != ""
    ensures client in sockets && sockets[client] != "" ==> who == sockets[client]
    ensures client !in sockets ==> who == client
  {
    if client in sockets && sockets[client] != "" then sockets[client] else client
  }

  /** The forward and reverse maps describe the same bindings. */
  ghost predicate Agree(users: map<string, ConnId>, sockets: map<ConnId, string>)
  {
    && (forall id :: id in users ==> users[id] in sockets && sockets[users[id]] == id)
    && (forall c :: c in sockets ==> sockets[c] in users && users[sockets[c]] == c)
  }

  /** Registration writes both directions but removes neither stale entry,
      so from agreeing maps it yields agreeing maps exactly when neither the
      identity nor the connection was bound to something else before. */
  lemma RegisterAgreement(users: map<string, ConnId>, sockets: map<ConnId, string>, client: ConnId, id: string)
    requires Agree(users, sockets)
    ensures Agree(users[id := client], sockets[client := id])
        <==> (id in users ==> users[id] == client) && (client in sockets ==> sockets[client] == id)
  {
    var users', sockets' := users[id := client], sockets[client := id];
    if id in users && users[id] != client {
      var stale := users[id];
      assert stale in sockets' && sockets'[stale] == id && users'[id] != stale;
    } else if client in sockets && sockets[client] != id {
      var old_id := sockets[client];
      assert old_id in users && users[old_id] == client;
      assert old_id in users' && users'[old_id] == client && sockets'[client] != old_id;
    }
  }

  /** Disconnect deletes the connection and the identity it was bound to.
      On agreeing maps that removes exactly one binding and keeps agreement. */
  lemma DisconnectAgreement(users: map<string, ConnId>, sockets: map<ConnId, string>, client: ConnId)
    requires Agree(users, sockets)
    ensures Agree(if client in sockets then users - {sockets[client]} else users, sockets - {client})
  {
    if client in sockets {
      var id := sockets[client];
      var users', sockets' := users - {id}, sockets - {client};
      forall u | u in users'
        ensures users'[u] in sockets' && sockets'[users'[u]] == u
      {
        assert users[u] != client;
      }
    }
  }

  /** Disconnect deletes by identity: when the identity has since been
      taken over by another connection, the new owner's binding is the one
      that disappears, while the new owner keeps its reverse entry. */
  lemma DisconnectDropsRebinding(users: map<string, ConnId>, sockets: map<ConnId, string>, client: ConnId, other: ConnId)
    requires client != other && client in sockets
    requires sockets[client] in users && users[sockets[client]] == other
    requires other in sockets && sockets[other] == sockets[client]
    ensures sockets[client] !in users - {sockets[client]}
    ensures other in sockets - {client}
    ensures !Agree(users - {sockets[client]}, sockets - {client})
  {
    var id := sockets[client];
    var sockets' := sockets - {client};
    assert other in sockets' && sockets'[other] == id;
  }
}
