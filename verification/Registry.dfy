/** The server's registry of connections: who is connected from which device, through which stream,
    what each user edits, and who subscribes to which document group. */
module Registry {
  import opened Common

  type ObjectId = string
  type SessionId = string
  type ConnectionId = nat

  datatype UserDevice = UserDevice(deviceId: string, uid: int)

  /** A user as the server sees one: the connect id tells two connections of one device apart. */
  datatype User = User(uid: int, deviceId: string, connectId: string)

  function DeviceOf(u: User): UserDevice {
    UserDevice(u.deviceId, u.uid)
  }

  datatype Editing = Editing(objectId: ObjectId, origin: string)

  /** A group's subscription, with the connection whose channel it was made from. */
  datatype Subscription = Subscription(origin: string, connection: ConnectionId)

  type Group = map<User, Subscription>

  datatype Server = Server(
    sessions: map<User, SessionId>,
    devices: map<UserDevice, User>,
    streams: map<User, ConnectionId>,
    editing: map<User, set<Editing>>,
    groups: map<ObjectId, Group>)

  const NewServer := Server(map[], map[], map[], map[], map[])

  /** A client message as the registry sees it: is it an init, about which object, from which origin. */
  datatype Message = Message(isInit: bool, objectId: ObjectId, origin: string)

  // ---------------------------------------------------------------- the handlers, on values

  /** remove_user: forget what the user edits and take it out of those groups. */
  function RemoveUser(s: Server, u: User): Server {
    if u !in s.editing then s
    else s.(editing := s.editing - {u},
            groups := map oid | oid in s.groups ::
                        if exists e <- s.editing[u] :: e.objectId == oid then s.groups[oid] - {u} else s.groups[oid])
  }

  function Connect(s: Server, u: User, session: SessionId, conn: ConnectionId): Server {
    var s1 := s.(sessions := s.sessions[u := session], devices := s.devices[DeviceOf(u) := u]);
    var s2 :=
      if DeviceOf(u) in s.devices then
        var before := s.devices[DeviceOf(u)];
        RemoveUser(s1.(streams := s1.streams - {before}), before)
      else s1;
    s2.(streams := s2.streams[u := conn])
  }

  function Disconnect(s: Server, u: User, session: SessionId): Server {
    if u in s.sessions && s.sessions[u] != session then s
    else
      var s1 := RemoveUser(s, u);
      s1.(streams := s1.streams - {u})
  }

  /** SubscribeGroupIfNeed::run for a user whose stream exists. */
  function SubscribeIfNeeded(s: Server, u: User, m: Message): Server
    requires u in s.streams
  {
    if m.objectId !in s.groups && !m.isInit then s
    else
      var s1 := if m.objectId in s.groups then s else s.(groups := s.groups[m.objectId := map[]]);
      var group := s1.groups[m.objectId];
      if !m.isInit && u in group then s1
      else
        var group' := group[u := Subscription(m.origin, s.streams[u])];
        var edits := (if u in s1.editing then s1.editing[u] else {}) + {Editing(m.objectId, m.origin)};
        s1.(groups := s1.groups[m.objectId := group'], editing := s1.editing[u := edits])
  }

  /** process_realtime_message: a user without a stream is refused. */
  function ClientMessage(s: Server, u: User, m: Message): Server {
    if u !in s.streams then s else SubscribeIfNeeded(s, u, m)
  }

  /** The eviction loop drops whole groups. */
  function Evict(s: Server, oids: set<ObjectId>): Server {
    s.(groups := s.groups - oids)
  }

  datatype Event =
    | DoConnect(user: User, session: SessionId, connection: ConnectionId)
    | DoDisconnect(user: User, session: SessionId)
    | DoMessage(user: User, message: Message)
    | DoStreamMessage(device: UserDevice, message: Message)   // a message sent over http, found by device
    | DoEvict(oids: set<ObjectId>)

  function Apply(s: Server, e: Event): Server {
    match e
    case DoConnect(u, session, conn) => Connect(s, u, session, conn)
    case DoDisconnect(u, session) => Disconnect(s, u, session)
    case DoMessage(u, m) => ClientMessage(s, u, m)
    case DoStreamMessage(d, m) => if d in s.devices then ClientMessage(s, s.devices[d], m) else s
    case DoEvict(oids) => Evict(s, oids)
  }

  function Run(events: seq<Event>): Server {
    if events == [] then NewServer
    else Apply(Run(events[..|events| - 1]), events[|events| - 1])
  }

  // ---------------------------------------------------------------- consistency

  /** Every live stream belongs to the current user of its device; every subscriber has a record of
      editing that object and a live stream, and is subscribed through that very stream. */
  ghost predicate Consistent(s: Server) {
    && (forall u <- s.streams :: DeviceOf(u) in s.devices && s.devices[DeviceOf(u)] == u)
    && (forall d <- s.devices :: DeviceOf(s.devices[d]) == d)
    && (forall oid, u | oid in s.groups && u in s.groups[oid] ::
          && u in s.streams && s.groups[oid][u].connection == s.streams[u]
          && u in s.editing && exists e <- s.editing[u] :: e.objectId == oid)
  }

  predicate InAnyGroup(s: Server, u: User) {
    exists oid <- s.groups :: u in s.groups[oid]
  }

  lemma RemoveUserLeavesNoGroup(s: Server, u: User)
    requires Consistent(s)
    ensures !InAnyGroup(RemoveUser(s, u), u)
    ensures forall oid <- s.groups :: RemoveUser(s, u).groups[oid] == s.groups[oid] - {u}
    ensures RemoveUser(s, u).groups.Keys == s.groups.Keys
  {
    forall oid | oid in s.groups ensures RemoveUser(s, u).groups[oid] == s.groups[oid] - {u} {
      if u !in s.groups[oid] {
        assert s.groups[oid] - {u} == s.groups[oid];
      }
    }
  }

  lemma ApplyKeeps(s: Server, e: Event)
    requires Consistent(s)
    ensures Consistent(Apply(s, e))
  {
    match e
    case DoConnect(u, session, conn) =>
      if DeviceOf(u) in s.devices {
        ReplaceKeeps(s, u, session, conn);
      }
    case DoDisconnect(u, session) =>
      RemoveUserLeavesNoGroup(s, u);
    case DoMessage(u, m) =>
      MessageKeeps(s, u, m);
    case DoStreamMessage(d, m) =>
      if d in s.devices {
        MessageKeeps(s, s.devices[d], m);
      }
    case DoEvict(oids) =>
  }

  lemma ReplaceKeeps(s: Server, u: User, session: SessionId, conn: ConnectionId)
    requires Consistent(s) && DeviceOf(u) in s.devices
    ensures Consistent(Connect(s, u, session, conn))
  {
    var before := s.devices[DeviceOf(u)];
    RemoveUserLeavesNoGroup(s, before);
    var s1 := s.(sessions := s.sessions[u := session], devices := s.devices[DeviceOf(u) := u]);
    assert RemoveUser(s1.(streams := s1.streams - {before}), before).groups == RemoveUser(s, before).groups;
  }

  lemma MessageKeeps(s: Server, u: User, m: Message)
    requires Consistent(s)
    ensures Consistent(ClientMessage(s, u, m))
  {
    if u in s.streams {
      var s' := SubscribeIfNeeded(s, u, m);
      RegistryUnchanged(s, u, m);
      hide SubscribeIfNeeded;
      forall oid, v | oid in s'.groups && v in s'.groups[oid]
        ensures && v in s'.streams && s'.groups[oid][v].connection == s'.streams[v]
                && v in s'.editing && exists e <- s'.editing[v] :: e.objectId == oid
      {
        if (oid, v) == (m.objectId, u) {
          OwnSubscriptionRecorded(s, u, m);
        } else {
          OtherSubscriptionRecorded(s, u, m, oid, v);
        }
        assert Records(s', v, oid);
      }
    }
  }

  /** The user has a record of editing the object. */
  predicate Records(s: Server, u: User, oid: ObjectId) {
    u in s.editing && exists e <- s.editing[u] :: e.objectId == oid
  }

  lemma RegistryUnchanged(s: Server, u: User, m: Message)
    requires u in s.streams
    ensures var s' := SubscribeIfNeeded(s, u, m);
            s'.streams == s.streams && s'.devices == s.devices && s'.sessions == s.sessions
  {
  }

  lemma OwnSubscriptionRecorded(s: Server, u: User, m: Message)
    requires Consistent(s) && u in s.streams
    ensures var s' := SubscribeIfNeeded(s, u, m);
            m.objectId in s'.groups && u in s'.groups[m.objectId] ==>
              && s'.groups[m.objectId][u].connection == s'.streams[u] && Records(s', u, m.objectId)
  {
    var s' := SubscribeIfNeeded(s, u, m);
    if m.objectId in s.groups && u in s.groups[m.objectId] && !m.isInit {
      assert s' == s;
    } else if m.objectId in s.groups || m.isInit {
      assert Editing(m.objectId, m.origin) in s'.editing[u];
    }
  }

  lemma OtherSubscriptionRecorded(s: Server, u: User, m: Message, oid: ObjectId, v: User)
    requires Consistent(s) && u in s.streams && (oid, v) != (m.objectId, u)
    requires var s' := SubscribeIfNeeded(s, u, m); oid in s'.groups && v in s'.groups[oid]
    ensures var s' := SubscribeIfNeeded(s, u, m);
            v in s'.streams && s'.groups[oid][v].connection == s'.streams[v] && Records(s', v, oid)
  {
    var s' := SubscribeIfNeeded(s, u, m);
    assert oid in s.groups && v in s.groups[oid] && s'.groups[oid][v] == s.groups[oid][v];
    assert s.editing[v] <= s'.editing[v];
  }

  /** The registry is consistent after any sequence of connects, disconnects, messages and evictions. */
  lemma {:induction false} AlwaysConsistent(events: seq<Event>)
    ensures Consistent(Run(events))
  {
    if events == [] {
    } else {
      AlwaysConsistent(events[..|events| - 1]);
      ApplyKeeps(Run(events[..|events| - 1]), events[|events| - 1]);
    }
  }

  /** One device has at most one live stream, and at most one subscription per document. */
  lemma OneSubscriptionPerDevice(events: seq<Event>, u: User, v: User)
    requires DeviceOf(u) == DeviceOf(v)
    ensures var s := Run(events);
            && (u in s.streams && v in s.streams ==> u == v)
            && (forall oid <- s.groups :: u in s.groups[oid] && v in s.groups[oid] ==> u == v)
  {
    hide Run;
    AlwaysConsistent(events);
  }

  lemma ConnectGroups(s: Server, u: User, session: SessionId, conn: ConnectionId)
    ensures Connect(s, u, session, conn).groups ==
            if DeviceOf(u) in s.devices then RemoveUser(s, s.devices[DeviceOf(u)]).groups else s.groups
  {
  }

  lemma NobodyLeftBehind(s: Server, u: User, session: SessionId, conn: ConnectionId, v: User)
    requires Consistent(s) && DeviceOf(v) == DeviceOf(u)
    ensures !InAnyGroup(Connect(s, u, session, conn), v)
  {
    hide Connect; hide RemoveUser;
    ConnectGroups(s, u, session, conn);
    if DeviceOf(u) in s.devices {
      RemoveUserLeavesNoGroup(s, s.devices[DeviceOf(u)]);
    }
  }

  /** A new connection starts clean: it is the device's user with the new stream, and neither it nor
      whoever was connected from that device before is left in any group. */
  lemma ConnectStartsClean(events: seq<Event>, u: User, session: SessionId, conn: ConnectionId)
    ensures var s := Connect(Run(events), u, session, conn);
            && u in s.streams && s.streams[u] == conn
            && DeviceOf(u) in s.devices && s.devices[DeviceOf(u)] == u
            && (forall v | DeviceOf(v) == DeviceOf(u) :: !InAnyGroup(s, v) && (v in s.streams ==> v == u))
  {
    hide RemoveUser; hide InAnyGroup; hide Run;
    AlwaysConsistent(events);
    var s := Run(events);
    if DeviceOf(u) in s.devices {
      ReplaceKeeps(s, u, session, conn);
      var before := s.devices[DeviceOf(u)];
      var s1 := s.(sessions := s.sessions[u := session], devices := s.devices[DeviceOf(u) := u]);
      RemoveKeepsRest(s1.(streams := s.streams - {before}), before);
    }
    forall v | DeviceOf(v) == DeviceOf(u) ensures !InAnyGroup(Connect(s, u, session, conn), v) {
      NobodyLeftBehind(s, u, session, conn, v);
    }
  }

  lemma RemoveKeepsRest(s: Server, u: User)
    ensures RemoveUser(s, u).streams == s.streams && RemoveUser(s, u).devices == s.devices
  {
  }

  /** A late disconnect of a replaced session changes nothing; a disconnect of the current session
      takes the user's stream and all its subscriptions, and leaves everyone else's as they were. */
  lemma DisconnectIsExact(events: seq<Event>, u: User, session: SessionId)
    ensures var s, s' := Run(events), Disconnect(Run(events), u, session);
            if u in s.sessions && s.sessions[u] != session then s' == s
            else
              && u !in s'.streams && !InAnyGroup(s', u)
              && (forall v <- s.streams :: v != u ==> v in s'.streams && s'.streams[v] == s.streams[v])
              && (forall oid <- s.groups :: oid in s'.groups && s'.groups[oid] == s.groups[oid] - {u})
  {
    AlwaysConsistent(events);
    RemoveUserLeavesNoGroup(Run(events), u);
  }

  predicate Subscribed(s: Server, u: User, oid: ObjectId) {
    oid in s.groups && u in s.groups[oid]
  }

  /** The events that end a subscription: a connect from the same device, a disconnect that is not of a
      replaced session, and the eviction of the group. */
  predicate Ends(s: Server, e: Event, u: User, oid: ObjectId) {
    match e
    case DoConnect(v, _, _) => DeviceOf(v) == DeviceOf(u)
    case DoDisconnect(v, session) => v == u && !(u in s.sessions && s.sessions[u] != session)
    case DoMessage(_, _) => false
    case DoStreamMessage(_, _) => false
    case DoEvict(oids) => oid in oids
  }

  lemma MessageKeepsSubscription(s: Server, v: User, m: Message, u: User, oid: ObjectId)
    requires Subscribed(s, u, oid)
    ensures Subscribed(ClientMessage(s, v, m), u, oid) && ClientMessage(s, v, m).streams == s.streams
  {
  }

  /** A subscription ends with exactly these events; until then its stream stays too. */
  lemma SubscriptionEndsIff(s: Server, e: Event, u: User, oid: ObjectId)
    requires Consistent(s) && Subscribed(s, u, oid)
    ensures Subscribed(Apply(s, e), u, oid) <==> !Ends(s, e, u, oid)
    ensures !Ends(s, e, u, oid) ==> u in Apply(s, e).streams && Apply(s, e).streams[u] == s.streams[u]
  {
    hide SubscribeIfNeeded;
    match e
    case DoConnect(v, session, conn) => ConnectEndsIff(s, v, session, conn, u, oid);
    case DoDisconnect(v, _) => RemoveUserLeavesNoGroup(s, v);
    case DoMessage(v, m) => MessageKeepsSubscription(s, v, m, u, oid);
    case DoStreamMessage(d, m) =>
      if d in s.devices { MessageKeepsSubscription(s, s.devices[d], m, u, oid); }
    case DoEvict(_) =>
  }

  lemma ConnectEndsIff(s: Server, v: User, session: SessionId, conn: ConnectionId, u: User, oid: ObjectId)
    requires Consistent(s) && Subscribed(s, u, oid)
    ensures var s' := Connect(s, v, session, conn);
            && (Subscribed(s', u, oid) <==> DeviceOf(v) != DeviceOf(u))
            && (DeviceOf(v) != DeviceOf(u) ==> u in s'.streams && s'.streams[u] == s.streams[u])
  {
    assert s.devices[DeviceOf(u)] == u;
    ConnectGroups(s, v, session, conn);
    if DeviceOf(v) in s.devices {
      var before := s.devices[DeviceOf(v)];
      RemoveUserLeavesNoGroup(s, before);
      var s1 := s.(sessions := s.sessions[v := session], devices := s.devices[DeviceOf(v) := v]);
      RemoveKeepsRest(s1.(streams := s1.streams - {before}), before);
    }
  }

  /** None of the later events ends the subscription. */
  predicate Outlasts(events: seq<Event>, later: seq<Event>, u: User, oid: ObjectId) {
    later == [] ||
    (&& Outlasts(events, later[..|later| - 1], u, oid)
     && !Ends(Run(events + later[..|later| - 1]), later[|later| - 1], u, oid))
  }

  /** Subscribed through the connection of the user's live stream. */
  predicate SubscribedThrough(s: Server, u: User, oid: ObjectId, conn: ConnectionId) {
    Subscribed(s, u, oid) && s.groups[oid][u].connection == conn && u in s.streams && s.streams[u] == conn
  }

  lemma LastsOneMore(s: Server, e: Event, u: User, oid: ObjectId, conn: ConnectionId)
    requires Consistent(s) && SubscribedThrough(s, u, oid, conn) && !Ends(s, e, u, oid)
    ensures SubscribedThrough(Apply(s, e), u, oid, conn)
  {
    hide Apply; hide Ends;
    ApplyKeeps(s, e);
    SubscriptionEndsIff(s, e, u, oid);
  }

  lemma {:induction false} SubscriptionLasts(events: seq<Event>, later: seq<Event>, u: User, oid: ObjectId,
                                             conn: ConnectionId)
    requires SubscribedThrough(Run(events), u, oid, conn) && Outlasts(events, later, u, oid)
    ensures SubscribedThrough(Run(events + later), u, oid, conn)
    decreases |later|
  {
    hide Apply; hide Ends; hide SubscribedThrough; hide Consistent;
    if later == [] {
      assert events + later == events;
    } else {
      var most := later[..|later| - 1];
      assert (events + later)[..|events + later| - 1] == events + most;
      SubscriptionLasts(events, most, u, oid, conn);
      AlwaysConsistent(events + most);
      LastsOneMore(Run(events + most), later[|later| - 1], u, oid, conn);
    }
  }

  /** An init of a connected user subscribes it through its current connection, whatever subscription
      it had before, and whatever else happens, that subscription lasts until one of the events that
      end it. */
  lemma InitSubscribesUntilEnded(events: seq<Event>, u: User, m: Message, later: seq<Event>)
    requires m.isInit && u in Run(events).streams
    requires Outlasts(events + [DoMessage(u, m)], later, u, m.objectId)
    ensures SubscribedThrough(Run(events + [DoMessage(u, m)] + later), u, m.objectId, Run(events).streams[u])
  {
    hide *;
    InitRun(events, u, m);
    InitSubscribes(Run(events), u, m);
    SubscriptionLasts(events + [DoMessage(u, m)], later, u, m.objectId, Run(events).streams[u]);
  }

  lemma InitRun(events: seq<Event>, u: User, m: Message)
    ensures Run(events + [DoMessage(u, m)]) == ClientMessage(Run(events), u, m)
  {
    hide ClientMessage;
    assert (events + [DoMessage(u, m)])[..|events|] == events;
  }

  lemma InitSubscribes(s: Server, u: User, m: Message)
    requires m.isInit && u in s.streams
    ensures SubscribedThrough(ClientMessage(s, u, m), u, m.objectId, s.streams[u])
  {
  }

  // ---------------------------------------------------------------- the actor

  class CollabServer {
    var sessionIdByUser: map<User, SessionId>
    var userByDevice: map<UserDevice, User>
    var clientStreamByUser: map<User, ConnectionId>
    var editingCollabByUser: map<User, set<Editing>>
    var groupByObjectId: map<ObjectId, Group>

    function View(): Server
      reads this
    {
      Server(sessionIdByUser, userByDevice, clientStreamByUser, editingCollabByUser, groupByObjectId)
    }

    constructor ()
      ensures View() == NewServer
    {
      sessionIdByUser, userByDevice, clientStreamByUser := map[], map[], map[];
      editingCollabByUser, groupByObjectId := map[], map[];
    }

    /** Take the user's editing records, then leave the group of each of them. */
    method RemoveUserEverywhere(u: User)
      modifies this
      ensures View() == RemoveUser(old(View()), u)
    {
      if u !in editingCollabByUser {
        return;
      }
      var records := editingCollabByUser[u];
      editingCollabByUser := editingCollabByUser - {u};
      var todo := records;
      while todo != {}
        invariant todo <= records
        invariant sessionIdByUser == old(sessionIdByUser) && userByDevice == old(userByDevice)
        invariant clientStreamByUser == old(clientStreamByUser)
        invariant editingCollabByUser == old(editingCollabByUser) - {u}
        invariant groupByObjectId.Keys == old(groupByObjectId).Keys
        invariant forall oid <- groupByObjectId ::
                    groupByObjectId[oid] ==
                      if exists e <- records - todo :: e.objectId == oid then old(groupByObjectId)[oid] - {u}
                      else old(groupByObjectId)[oid]
        decreases todo
      {
        var editing :| editing in todo;
        ghost var was := todo;
        todo := todo - {editing};
        assert records - todo == (records - was) + {editing};
        if editing.objectId in groupByObjectId {
          groupByObjectId := groupByObjectId[editing.objectId := groupByObjectId[editing.objectId] - {u}];
        }
      }
      assert records - {} == records;
    }

    method HandleConnect(u: User, session: SessionId, conn: ConnectionId)
      modifies this
      ensures View() == Connect(old(View()), u, session, conn)
    {
      sessionIdByUser := sessionIdByUser[u := session];
      var device := DeviceOf(u);
      var oldUser := if device in userByDevice then Some(userByDevice[device]) else None;
      userByDevice := userByDevice[device := u];
      if oldUser.Some? {
        clientStreamByUser := clientStreamByUser - {oldUser.value};
        RemoveUserEverywhere(oldUser.value);
      }
      clientStreamByUser := clientStreamByUser[u := conn];
    }

    method HandleDisconnect(u: User, session: SessionId)
      modifies this
      ensures View() == Disconnect(old(View()), u, session)
    {
      if u in sessionIdByUser && sessionIdByUser[u] != session {
        return;
      }
      RemoveUserEverywhere(u);
      clientStreamByUser := clientStreamByUser - {u};
    }

    method HandleClientMessage(u: User, m: Message) returns (ok: bool)
      modifies this
      ensures ok == (u in old(clientStreamByUser))
      ensures View() == ClientMessage(old(View()), u, m)
    {
      if u !in clientStreamByUser {
        return false;
      }
      Subscribe(u, m);
      return true;
    }

    method Subscribe(u: User, m: Message)
      requires u in clientStreamByUser
      modifies this
      ensures View() == SubscribeIfNeeded(old(View()), u, m)
    {
      var oid := m.objectId;
      if oid !in groupByObjectId {
        if m.isInit {
          groupByObjectId := groupByObjectId[oid := map[]];
        } else {
          return;
        }
      }
      ghost var group := groupByObjectId[oid];
      if m.isInit {
        groupByObjectId := groupByObjectId[oid := groupByObjectId[oid] - {u}];
      } else if u in groupByObjectId[oid] {
        return;
      }
      var known := if u in editingCollabByUser then editingCollabByUser[u] else {};
      editingCollabByUser := editingCollabByUser[u := known + {Editing(oid, m.origin)}];
      var subscription := Subscription(m.origin, clientStreamByUser[u]);
      assert (group - {u})[u := subscription] == group[u := subscription];
      groupByObjectId := groupByObjectId[oid := groupByObjectId[oid][u := subscription]];
    }

    /** tick: inactive groups are collected first and removed afterwards, six at most. */
    method Tick(inactive: seq<ObjectId>)
      requires |inactive| <= 6
      modifies this
      ensures View() == Evict(old(View()), set oid | oid in inactive)
    {
      var i := 0;
      while i < |inactive|
        invariant i <= |inactive|
        invariant View() == Evict(old(View()), set oid | oid in inactive[..i])
      {
        assert inactive[..i + 1] == inactive[..i] + [inactive[i]];
        groupByObjectId := groupByObjectId - {inactive[i]};
        i := i + 1;
      }
      assert inactive[..i] == inactive;
    }
  }
}
