/** What the registry holds, told by the events alone: who is connected, what each session, stream and
    group is, and which message made each subscription. The handlers compute exactly this. */
module RegistryHistory {
  import opened Common
  import opened Registry

  function Before(events: seq<Event>): seq<Event>
    requires events != []
  {
    events[..|events| - 1]
  }

  function Latest(events: seq<Event>): Event
    requires events != []
  {
    events[|events| - 1]
  }

  /** The session of the user's latest connect. */
  function SessionOf(events: seq<Event>, u: User): Option<SessionId> {
    if events == [] then None
    else if Latest(events).DoConnect? && Latest(events).user == u then Some(Latest(events).session)
    else SessionOf(Before(events), u)
  }

  /** The user of the latest connect from the device. */
  function UserOf(events: seq<Event>, d: UserDevice): Option<User> {
    if events == [] then None
    else if Latest(events).DoConnect? && DeviceOf(Latest(events).user) == d then Some(Latest(events).user)
    else UserOf(Before(events), d)
  }

  /** The event takes the user off the server: a connect from its device, or a disconnect of its session. */
  predicate Leaves(events: seq<Event>, e: Event, u: User) {
    match e
    case DoConnect(v, _, _) => DeviceOf(v) == DeviceOf(u)
    case DoDisconnect(v, session) => v == u && (SessionOf(events, u) == None || SessionOf(events, u) == Some(session))
    case _ => false
  }

  /** The connection of the user's latest connect, until it leaves. */
  function StreamOf(events: seq<Event>, u: User): Option<ConnectionId> {
    if events == [] then None
    else if Latest(events).DoConnect? && Latest(events).user == u then Some(Latest(events).connection)
    else if Leaves(Before(events), Latest(events), u) then None
    else StreamOf(Before(events), u)
  }

  /** The event is a message of this connected user about the object. */
  predicate Speaks(events: seq<Event>, e: Event, u: User, oid: ObjectId) {
    && (e.DoMessage? || e.DoStreamMessage?) && e.message.objectId == oid && StreamOf(events, u).Some?
    && if e.DoMessage? then e.user == u else UserOf(events, e.device) == Some(u)
  }

  /** A group is made by an init and lasts until it is evicted. */
  ghost predicate GroupExists(events: seq<Event>, oid: ObjectId) {
    events != [] &&
    var before, e := Before(events), Latest(events);
    || (exists u :: Speaks(before, e, u, oid) && e.message.isInit)
    || (GroupExists(before, oid) && !(e.DoEvict? && oid in e.oids))
  }

  /** The message makes a subscription: an init always does, any other message only if the group is there
      and the user is not subscribed yet. */
  ghost predicate Subscribes(events: seq<Event>, e: Event, u: User, oid: ObjectId)
    decreases |events|, 1
  {
    Speaks(events, e, u, oid) &&
    (e.message.isInit || (GroupExists(events, oid) && SubscriptionOf(events, u, oid) == None))
  }

  /** The subscription is the one its latest subscribing message made, with that message's origin, until the
      user leaves or the group is evicted. */
  ghost function SubscriptionOf(events: seq<Event>, u: User, oid: ObjectId): Option<Subscription>
    decreases |events|, 0
  {
    if events == [] then None
    else
      var before, e := Before(events), Latest(events);
      if Subscribes(before, e, u, oid) then Some(Subscription(e.message.origin, StreamOf(before, u).value))
      else if Leaves(before, e, u) || (e.DoEvict? && oid in e.oids) then None
      else SubscriptionOf(before, u, oid)
  }

  /** What the user has begun to edit since it came, with the origins it did so under. */
  ghost function EditingOf(events: seq<Event>, u: User): set<Editing> {
    if events == [] then {}
    else
      var before, e := Before(events), Latest(events);
      if Leaves(before, e, u) then {}
      else if (e.DoMessage? || e.DoStreamMessage?) && Subscribes(before, e, u, e.message.objectId) then
        EditingOf(before, u) + {Editing(e.message.objectId, e.message.origin)}
      else EditingOf(before, u)
  }

  // ---------------------------------------------------------------- the handlers compute it

  function Known<K, V>(m: map<K, V>, k: K): Option<V> {
    if k in m then Some(m[k]) else None
  }

  lemma MessageKeepsOthers(s: Server, u: User, m: Message)
    ensures var s' := ClientMessage(s, u, m);
            s'.sessions == s.sessions && s'.devices == s.devices && s'.streams == s.streams
  {
  }

  lemma RemoveKeepsOthers(s: Server, u: User)
    ensures var s' := RemoveUser(s, u);
            s'.sessions == s.sessions && s'.devices == s.devices && s'.streams == s.streams
  {
  }

  /** Only connects name sessions and devices. */
  lemma StepNames(s: Server, e: Event)
    ensures var s' := Apply(s, e);
            && s'.sessions == (if e.DoConnect? then s.sessions[e.user := e.session] else s.sessions)
            && s'.devices == (if e.DoConnect? then s.devices[DeviceOf(e.user) := e.user] else s.devices)
  {
    hide ClientMessage; hide RemoveUser;
    match e
    case DoConnect(u, session, conn) =>
      if DeviceOf(u) in s.devices {
        var s1 := s.(sessions := s.sessions[u := session], devices := s.devices[DeviceOf(u) := u]);
        var before := s.devices[DeviceOf(u)];
        RemoveKeepsOthers(s1.(streams := s1.streams - {before}), before);
      }
    case DoDisconnect(u, _) => RemoveKeepsOthers(s, u);
    case DoMessage(u, m) => MessageKeepsOthers(s, u, m);
    case DoStreamMessage(d, m) => if d in s.devices { MessageKeepsOthers(s, s.devices[d], m); }
    case DoEvict(_) =>
  }

  lemma {:induction false} SessionsMean(events: seq<Event>, u: User)
    ensures Known(Run(events).sessions, u) == SessionOf(events, u)
  {
    hide Apply;
    if events != [] {
      SessionsMean(Before(events), u);
      StepNames(Run(Before(events)), Latest(events));
    }
  }

  lemma {:induction false} DevicesMean(events: seq<Event>, d: UserDevice)
    ensures Known(Run(events).devices, d) == UserOf(events, d)
  {
    hide Apply;
    if events != [] {
      DevicesMean(Before(events), d);
      StepNames(Run(Before(events)), Latest(events));
    }
  }

  /** Whether a disconnect finds its session replaced. */
  lemma StepStreams(events: seq<Event>, e: Event, u: User)
    requires Consistent(Run(events)) && Known(Run(events).sessions, u) == SessionOf(events, u)
    ensures var s, s' := Run(events), Apply(Run(events), e);
            Known(s'.streams, u) ==
              if e.DoConnect? && e.user == u then Some(e.connection)
              else if Leaves(events, e, u) then None else Known(s.streams, u)
  {
    hide ClientMessage; hide RemoveUser; hide Run;
    var s := Run(events);
    match e
    case DoConnect(v, session, conn) =>
      if DeviceOf(v) in s.devices {
        var s1 := s.(sessions := s.sessions[v := session], devices := s.devices[DeviceOf(v) := v]);
        var before := s.devices[DeviceOf(v)];
        RemoveKeepsOthers(s1.(streams := s1.streams - {before}), before);
      }
    case DoDisconnect(v, _) => RemoveKeepsOthers(s, v);
    case DoMessage(v, m) => MessageKeepsOthers(s, v, m);
    case DoStreamMessage(d, m) => if d in s.devices { MessageKeepsOthers(s, s.devices[d], m); }
    case DoEvict(_) =>
  }

  lemma {:induction false} StreamsMean(events: seq<Event>, u: User)
    ensures Known(Run(events).streams, u) == StreamOf(events, u)
  {
    hide Apply; hide Consistent; hide Leaves;
    if events != [] {
      StreamsMean(Before(events), u);
      SessionsMean(Before(events), u);
      AlwaysConsistent(Before(events));
      StepStreams(Before(events), Latest(events), u);
    }
  }

  // ---------------------------------------------------------------- groups, subscriptions and records

  function SubscriptionAt(s: Server, u: User, oid: ObjectId): Option<Subscription> {
    if oid in s.groups && u in s.groups[oid] then Some(s.groups[oid][u]) else None
  }

  function EditingAt(s: Server, u: User): set<Editing> {
    if u in s.editing then s.editing[u] else {}
  }

  /** The message makes a subscription, as the registry sees it. */
  predicate SubscribesAt(s: Server, v: User, m: Message, u: User, oid: ObjectId) {
    && v == u && u in s.streams && m.objectId == oid
    && (m.isInit || (oid in s.groups && SubscriptionAt(s, u, oid) == None))
  }

  lemma MessageStep(s: Server, v: User, m: Message, u: User, oid: ObjectId)
    ensures var s' := ClientMessage(s, v, m);
            && (oid in s'.groups <==> oid in s.groups || (v in s.streams && m.isInit && m.objectId == oid))
            && SubscriptionAt(s', u, oid) ==
                 (if SubscribesAt(s, v, m, u, oid) then Some(Subscription(m.origin, s.streams[u]))
                  else SubscriptionAt(s, u, oid))
            && EditingAt(s', u) ==
                 (if SubscribesAt(s, v, m, u, m.objectId) then EditingAt(s, u) + {Editing(m.objectId, m.origin)}
                  else EditingAt(s, u))
            && (u in s'.editing ==> u in s.editing || (u == v && u in s.streams))
  {
  }

  /** Whose message an event is. */
  function SenderAt(s: Server, e: Event): Option<User> {
    match e
    case DoMessage(u, _) => Some(u)
    case DoStreamMessage(d, _) => Known(s.devices, d)
    case _ => None
  }

  lemma MessageApplies(s: Server, e: Event)
    requires e.DoMessage? || e.DoStreamMessage?
    ensures Apply(s, e) == match SenderAt(s, e) case Some(v) => ClientMessage(s, v, e.message) case None => s
  {
    hide ClientMessage;
  }

  lemma SpeaksAt(events: seq<Event>, e: Event, u: User, oid: ObjectId)
    ensures var s := Run(events);
            Speaks(events, e, u, oid) <==>
              && (e.DoMessage? || e.DoStreamMessage?) && SenderAt(s, e) == Some(u) && u in s.streams
              && e.message.objectId == oid
  {
    StreamsMean(events, u);
    if e.DoStreamMessage? { DevicesMean(events, e.device); }
    hide Run; hide StreamOf; hide UserOf;
  }

  /** Whoever edits something is the user of its device. */
  ghost predicate EditorsAreUsers(s: Server) {
    forall u <- s.editing :: DeviceOf(u) in s.devices && s.devices[DeviceOf(u)] == u
  }

  /** What is left of groups, subscriptions and records when `before` is removed from a consistent state. */
  lemma RemovedStep(s: Server, before: User, u: User, oid: ObjectId)
    requires Consistent(s)
    ensures var s' := RemoveUser(s, before);
            && (oid in s'.groups <==> oid in s.groups)
            && SubscriptionAt(s', u, oid) == (if u == before then None else SubscriptionAt(s, u, oid))
            && EditingAt(s', u) == (if u == before then {} else EditingAt(s, u))
            && (u in s'.editing <==> u in s.editing && u != before)
  {
    RemoveUserLeavesNoGroup(s, before);
    RemoveAt(s, before, u);
    hide RemoveUser; hide Consistent;
    if oid in s.groups { assert RemoveUser(s, before).groups[oid] == s.groups[oid] - {before}; }
  }

  lemma ConnectStep(s: Server, v: User, session: SessionId, conn: ConnectionId, u: User, oid: ObjectId)
    requires Consistent(s) && EditorsAreUsers(s)
    ensures var s', gone := Connect(s, v, session, conn), DeviceOf(v) == DeviceOf(u);
            && (oid in s'.groups <==> oid in s.groups)
            && SubscriptionAt(s', u, oid) == (if gone then None else SubscriptionAt(s, u, oid))
            && EditingAt(s', u) == (if gone then {} else EditingAt(s, u))
            && (u in s'.editing <==> u in s.editing && !gone)
  {
    OneUserOfDevice(s, u, oid);
    if DeviceOf(v) in s.devices {
      var before := s.devices[DeviceOf(v)];
      assert DeviceOf(before) == DeviceOf(v);
      RemovedStep(s, before, u, oid);
      ConnectAt(s, v, session, conn);
      hide Connect; hide RemoveUser; hide Consistent; hide EditorsAreUsers;
    } else {
      hide Consistent; hide EditorsAreUsers;
    }
  }

  lemma OneUserOfDevice(s: Server, u: User, oid: ObjectId)
    requires Consistent(s) && EditorsAreUsers(s)
    ensures u in s.editing || SubscriptionAt(s, u, oid).Some? ==>
              DeviceOf(u) in s.devices && s.devices[DeviceOf(u)] == u
  {
  }

  /** What a departure leaves of groups, subscriptions and records. */
  lemma DepartureStep(events: seq<Event>, e: Event, u: User, oid: ObjectId)
    requires Consistent(Run(events)) && EditorsAreUsers(Run(events)) && (e.DoConnect? || e.DoDisconnect?)
    requires Known(Run(events).sessions, u) == SessionOf(events, u)
    ensures var s, s' := Run(events), Apply(Run(events), e);
            && (oid in s'.groups <==> oid in s.groups)
            && SubscriptionAt(s', u, oid) == (if Leaves(events, e, u) then None else SubscriptionAt(s, u, oid))
            && EditingAt(s', u) == (if Leaves(events, e, u) then {} else EditingAt(s, u))
            && (u in s'.editing <==> u in s.editing && !Leaves(events, e, u))
  {
    var s := Run(events);
    match e
    case DoConnect(v, session, conn) =>
      ConnectStep(s, v, session, conn, u, oid);
      hide Connect; hide Run; hide SessionOf; hide Consistent; hide EditorsAreUsers;
    case DoDisconnect(v, session) =>
      RemovedStep(s, v, u, oid);
      hide RemoveUser; hide Run; hide SessionOf; hide Consistent; hide EditorsAreUsers;
  }

  lemma RemoveAt(s: Server, v: User, u: User)
    ensures RemoveUser(s, v).editing == s.editing - {v}
  {
  }

  lemma ConnectAt(s: Server, v: User, session: SessionId, conn: ConnectionId)
    requires DeviceOf(v) in s.devices
    ensures var before := s.devices[DeviceOf(v)];
            && Connect(s, v, session, conn).groups == RemoveUser(s, before).groups
            && Connect(s, v, session, conn).editing == RemoveUser(s, before).editing
  {
  }

  lemma EvictStep(s: Server, oids: set<ObjectId>, u: User, oid: ObjectId)
    ensures var s' := Apply(s, DoEvict(oids));
            && (oid in s'.groups <==> oid in s.groups && oid !in oids) && s'.editing == s.editing
            && SubscriptionAt(s', u, oid) == (if oid in oids then None else SubscriptionAt(s, u, oid))
  {
  }

  lemma {:induction false} EditorsStayUsers(events: seq<Event>)
    ensures EditorsAreUsers(Run(events))
  {
    if events != [] {
      var before, e := Before(events), Latest(events);
      EditorsStayUsers(before);
      AlwaysConsistent(before);
      AlwaysConsistent(events);
      var s, s' := Run(before), Run(events);
      StepNames(s, e);
      forall u <- s'.editing ensures DeviceOf(u) in s'.devices && s'.devices[DeviceOf(u)] == u {
        EditorStep(before, e, u);
      }
    }
  }

  lemma EditorStep(events: seq<Event>, e: Event, u: User)
    requires Consistent(Run(events)) && EditorsAreUsers(Run(events))
    ensures var s, s' := Run(events), Apply(Run(events), e);
            u in s'.editing ==>
              && (u in s.editing || u in s.streams)
              && (e.DoConnect? ==> DeviceOf(e.user) != DeviceOf(u))
  {
    SessionsMean(events, u);
    if e.DoConnect? || e.DoDisconnect? {
      hide Apply; hide Run;
      DepartureStep(events, e, u, "");
    } else if e.DoEvict? {
      EvictStep(Run(events), e.oids, u, "");
    } else {
      MessageApplies(Run(events), e);
      if SenderAt(Run(events), e).Some? { MessageStep(Run(events), SenderAt(Run(events), e).value, e.message, u, ""); }
      hide Apply; hide Run; hide ClientMessage;
    }
  }

  lemma {:induction false} GroupsMean(events: seq<Event>, oid: ObjectId)
    ensures oid in Run(events).groups <==> GroupExists(events, oid)
  {
    if events != [] {
      var before, e := Before(events), Latest(events);
      GroupsMean(before, oid);
      hide Run; hide Speaks;
      GroupStep(before, e, oid);
      assert Run(events) == Apply(Run(before), e) by { RunStep(events); }
    }
  }

  lemma RunStep(events: seq<Event>)
    requires events != []
    ensures Run(events) == Apply(Run(Before(events)), Latest(events))
  {
  }

  lemma GroupStep(events: seq<Event>, e: Event, oid: ObjectId)
    ensures var s, s' := Run(events), Apply(Run(events), e);
            oid in s'.groups <==>
              || (exists u :: Speaks(events, e, u, oid) && e.message.isInit)
              || (oid in s.groups && !(e.DoEvict? && oid in e.oids))
  {
    var s := Run(events);
    AlwaysConsistent(events);
    EditorsStayUsers(events);
    hide Run;
    if e.DoConnect? || e.DoDisconnect? {
      SessionsMean(events, e.user);
      hide Apply;
      DepartureStep(events, e, e.user, oid);
    } else if e.DoEvict? {
      EvictStep(s, e.oids, User(0, "", ""), oid);
    } else {
      MessageApplies(s, e);
      var sender := SenderAt(s, e);
      if sender.Some? {
        MessageStep(s, sender.value, e.message, sender.value, oid);
        SpeaksAt(events, e, sender.value, oid);
      }
      forall u ensures Speaks(events, e, u, oid) ==> sender == Some(u) && u in s.streams {
        SpeaksAt(events, e, u, oid);
      }
    }
  }

  /** A subscription is there exactly if a message made it and nothing has ended it since, and it has the
      origin of the latest message that made one and the connection that message came through. */
  lemma {:induction false} SubscriptionsMean(events: seq<Event>, u: User, oid: ObjectId)
    ensures SubscriptionAt(Run(events), u, oid) == SubscriptionOf(events, u, oid)
    ensures EditingAt(Run(events), u) == EditingOf(events, u)
    decreases |events|
  {
    if events != [] {
      var before, e := Before(events), Latest(events);
      SubscriptionsMean(before, u, oid);
      if e.DoMessage? || e.DoStreamMessage? { SubscriptionsMean(before, u, e.message.objectId); }
      RunStep(events);
      AlwaysConsistent(before);
      EditorsStayUsers(before);
      SessionsMean(before, u);
      hide Run; hide Leaves; hide Speaks; hide Consistent; hide EditorsAreUsers;
      SubscriptionStep(before, e, u, oid);
    }
  }

  lemma SubscriptionStep(events: seq<Event>, e: Event, u: User, oid: ObjectId)
    requires Consistent(Run(events)) && EditorsAreUsers(Run(events))
    requires Known(Run(events).sessions, u) == SessionOf(events, u)
    requires SubscriptionAt(Run(events), u, oid) == SubscriptionOf(events, u, oid)
    requires EditingAt(Run(events), u) == EditingOf(events, u)
    requires e.DoMessage? || e.DoStreamMessage? ==>
               SubscriptionAt(Run(events), u, e.message.objectId) == SubscriptionOf(events, u, e.message.objectId)
    ensures var s, s' := Run(events), Apply(Run(events), e);
            && SubscriptionAt(s', u, oid) ==
                 (if Subscribes(events, e, u, oid) then Some(Subscription(e.message.origin, StreamOf(events, u).value))
                  else if Leaves(events, e, u) || (e.DoEvict? && oid in e.oids) then None
                  else SubscriptionAt(s, u, oid))
            && EditingAt(s', u) ==
                 (if Leaves(events, e, u) then {}
                  else if (e.DoMessage? || e.DoStreamMessage?) && Subscribes(events, e, u, e.message.objectId) then
                    EditingAt(s, u) + {Editing(e.message.objectId, e.message.origin)}
                  else EditingAt(s, u))
  {
    var s := Run(events);
    hide Run; hide SubscriptionOf; hide EditingOf; hide StreamOf; hide SessionOf; hide GroupExists;
    if e.DoConnect? || e.DoDisconnect? {
      hide Apply;
      DepartureStep(events, e, u, oid);
    } else if e.DoEvict? {
      EvictStep(s, e.oids, u, oid);
    } else {
      hide Consistent; hide EditorsAreUsers;
      StreamsMean(events, u);
      GroupsMean(events, e.message.objectId);
      SpeaksAt(events, e, u, oid);
      SpeaksAt(events, e, u, e.message.objectId);
      MessageApplies(s, e);
      if SenderAt(s, e).Some? { MessageStep(s, SenderAt(s, e).value, e.message, u, oid); }
      hide Apply; hide ClientMessage; hide Speaks;
    }
  }

  // ---------------------------------------------------------------- what follows

  /** In every run a subscriber's record of editing names the origin it is subscribed under: that of the
      message that made the subscription. */
  lemma {:induction false} RecordNamesOrigin(events: seq<Event>, u: User, oid: ObjectId)
    requires SubscriptionOf(events, u, oid).Some?
    ensures Editing(oid, SubscriptionOf(events, u, oid).value.origin) in EditingOf(events, u)
    decreases |events|
  {
    var before, e := Before(events), Latest(events);
    hide Speaks; hide Leaves; hide StreamOf;
    if Subscribes(before, e, u, oid) {
      SpeakersStay(before, e, u, oid);
    } else {
      RecordNamesOrigin(before, u, oid);
    }
  }

  lemma SpeakersStay(events: seq<Event>, e: Event, u: User, oid: ObjectId)
    requires Speaks(events, e, u, oid)
    ensures !Leaves(events, e, u) && e.message.objectId == oid && (e.DoMessage? || e.DoStreamMessage?)
  {
  }

  lemma SubscriberIsRecorded(events: seq<Event>, u: User, oid: ObjectId)
    requires Subscribed(Run(events), u, oid)
    ensures var s := Run(events);
            && SubscriptionOf(events, u, oid) == Some(s.groups[oid][u])
            && u in s.editing && Editing(oid, s.groups[oid][u].origin) in s.editing[u]
  {
    SubscriptionsMean(events, u, oid);
    RecordNamesOrigin(events, u, oid);
  }

  /** A disconnect of a session that is not the user's latest changes nothing, however many the user had;
      one of the latest session takes the stream. */
  lemma LateDisconnect(events: seq<Event>, u: User, session: SessionId)
    ensures SessionOf(events, u).Some? && SessionOf(events, u) != Some(session) ==>
              Run(events + [DoDisconnect(u, session)]) == Run(events)
    ensures SessionOf(events, u) == Some(session) ==> u !in Run(events + [DoDisconnect(u, session)]).streams
  {
    var all := events + [DoDisconnect(u, session)];
    assert Before(all) == events;
    RunStep(all);
    SessionsMean(events, u);
    StreamsMean(all, u);
    hide Run; hide RemoveUser;
  }
}
