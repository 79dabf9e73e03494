/** The two ends of the sync protocol as the program runs them: the server's broadcast group, which
    works through a client's payload and fans out what it learns, and the client's stream task, which
    works through a reply. Both are tied to the steps of the whole-system machine. */
module SyncEndpoints {
  import opened CrdtDocument
  import opened SyncMachine

  // ---------------------------------------------------------------- the server's broadcast group

  /** A subscriber's sink: which subscription it belongs to, and what it still has to deliver. */
  datatype Sink = Sink(sub: SubId, pending: seq<Downstream>)

  datatype Group = Group(doc: set<Op>, sinks: map<ClientId, Sink>)

  function Sent(sink: Sink, down: Downstream): Sink {
    sink.(pending := sink.pending + [down])
  }

  function FanOut(sinks: map<ClientId, Sink>, origin: ClientId, news: Update): map<ClientId, Sink> {
    map d | d in sinks ::
      if d == origin || news == {} then sinks[d] else Sent(sinks[d], Broadcast(news, sinks[d].sub))
  }

  function HandleOne(g: Group, origin: ClientId, id: MsgId, m: Message): Group
    requires origin in g.sinks
  {
    var sinks := FanOut(g.sinks, origin, News(g.doc, m));
    var ack := Ack(id, ServerReply(g.doc, m), sinks[origin].sub);
    Group(g.doc + Effect(m), sinks[origin := Sent(sinks[origin], ack)])
  }

  function HandleAll(g: Group, origin: ClientId, id: MsgId, ms: seq<Message>): Group
    requires origin in g.sinks
    decreases |ms|
  {
    if ms == [] then g else HandleAll(HandleOne(g, origin, id, ms[0]), origin, id, ms[1..])
  }

  class CollabBroadcast {
    var doc: set<Op>
    var sinks: map<ClientId, Sink>

    function View(): Group
      reads this
    {
      Group(doc, sinks)
    }

    /** A group is made from the stored document, without subscribers. */
    constructor (stored: set<Op>)
      ensures View() == Group(stored, map[])
    {
      doc, sinks := stored, map[];
    }

    /** A new subscription takes the place of an old one; `backlog` is what the client's stream still
        carries from before. */
    method Subscribe(c: ClientId, sub: SubId, backlog: seq<Downstream>)
      modifies this
      ensures View() == old(View()).(sinks := old(sinks)[c := Sink(sub, backlog)])
    {
      sinks := sinks - {c};
      sinks := sinks[c := Sink(sub, backlog)];
      assert sinks == old(sinks)[c := Sink(sub, backlog)];
    }

    /** Apply an update under its origin; the document observer then forwards the change to every
        subscriber whose origin differs. */
    method ApplyUpdate(origin: ClientId, m: Message)
      modifies this
      ensures View() == Group(old(doc) + Effect(m), FanOut(old(sinks), origin, News(old(doc), m)))
    {
      var news := News(doc, m);
      doc := doc + Effect(m);
      if news == {} {
        assert FanOut(sinks, origin, news) == sinks;
        return;
      }
      var todo := sinks.Keys;
      while todo != {}
        invariant todo <= sinks.Keys == old(sinks).Keys
        invariant doc == old(doc) + Effect(m)
        invariant forall d <- todo :: sinks[d] == old(sinks)[d]
        invariant forall d | d in sinks && d !in todo ::
                    sinks[d] == if d == origin then old(sinks)[d]
                      else Sent(old(sinks)[d], Broadcast(news, old(sinks)[d].sub))
        decreases todo
      {
        var d :| d in todo;
        todo := todo - {d};
        if d != origin {
          sinks := sinks[d := Sent(sinks[d], Broadcast(news, sinks[d].sub))];
        }
      }
    }

    /** handle_collab_message under the server's protocol. */
    method HandleCollabMessage(origin: ClientId, m: Message) returns (reply: seq<Message>)
      modifies this
      ensures reply == ServerReply(old(doc), m)
      ensures View() == Group(old(doc) + Effect(m), FanOut(old(sinks), origin, News(old(doc), m)))
    {
      match m {
        case Step1(sv) =>
          var step2 := EncodeStateAsUpdate(doc, sv);
          var step1 := StateVectorOf(doc);
          reply := [Step2(step2), Step1(step1)];
          NoEffectNoNews(doc, m);
          assert FanOut(sinks, origin, {}) == sinks;
        case Step2(u) =>
          ApplyUpdate(origin, m);
          reply := [];
        case Changes(u) =>
          ApplyUpdate(origin, m);
          reply := [];
        case Presence =>
          reply := [];
          NoEffectNoNews(doc, m);
          assert FanOut(sinks, origin, {}) == sinks;
      }
    }

    /** handle_user_collab_message: every message of the payload is handled and acknowledged. */
    method HandleUserCollabMessage(origin: ClientId, up: Upstream)
      requires origin in sinks
      modifies this
      ensures View() == HandleAll(old(View()), origin, up.id, up.payload)
    {
      var i := 0;
      while i < |up.payload|
        invariant i <= |up.payload| && origin in sinks
        invariant HandleAll(old(View()), origin, up.id, up.payload) == HandleAll(View(), origin, up.id, up.payload[i..])
      {
        var m := up.payload[i];
        assert up.payload[i..][1..] == up.payload[i + 1..];
        ghost var before := View();
        var reply := HandleCollabMessage(origin, m);
        sinks := sinks[origin := Sent(sinks[origin], Ack(up.id, reply, sinks[origin].sub))];
        assert View() == HandleOne(before, origin, up.id, m);
        i := i + 1;
      }
    }
  }

  lemma NoEffectNoNews(doc: set<Op>, m: Message)
    requires Effect(m) == {}
    ensures doc + Effect(m) == doc && News(doc, m) == {}
  {
    assert doc + {} == doc;
  }

  /** The part of the system its group holds. */
  function GroupOf(s: System): Group {
    Group(s.server, map d | d in s.clients && d in s.subs :: Sink(s.subs[d], s.clients[d].fromServer))
  }

  /** Subscribing is the group's Subscribe, with the client's channel for backlog: an init, or a message of
      a client without a subscription, makes a new one; any other message keeps the one there is. */
  lemma SubscribedIsSubscribe(s: System, c: ClientId)
    requires HasHead(s, c)
    ensures var s' := Subscribed(s, c);
            GroupOf(s') == GroupOf(s).(sinks := GroupOf(s).sinks[c := Sink(s'.subs[c], s.clients[c].fromServer)])
    ensures var s', anew := Subscribed(s, c), c !in s.subs || HeadMessage(s.clients[c]).Step1?;
            && (anew ==> s'.live && s'.subs[c] == s.nextSub && s'.nextSub == s.nextSub + 1)
            && (!anew ==> s' == s)
            && s' == s.(live := s'.live, subs := s'.subs, nextSub := s'.nextSub)
  {
    var s' := Subscribed(s, c);
    var sinks := GroupOf(s).sinks[c := Sink(s'.subs[c], s.clients[c].fromServer)];
    assert GroupOf(s').sinks.Keys == sinks.Keys;
  }

  /** The machine's server step, once the client is subscribed, is the group's handling of one message. */
  lemma HandleIsHandleOne(s: System, c: ClientId)
    requires HasHead(s, c) && c in s.subs
    ensures var up := s.clients[c].toServer[0];
            GroupOf(Handle(s, c)) == HandleOne(GroupOf(s), c, up.id, up.payload[0])
  {
    var up := s.clients[c].toServer[0];
    var g, g' := HandleOne(GroupOf(s), c, up.id, up.payload[0]), GroupOf(Handle(s, c));
    assert g.sinks.Keys == g'.sinks.Keys;
    assert forall d <- g.sinks :: g.sinks[d] == g'.sinks[d];
  }

  /** `n` server steps for client `c` in a row. */
  ghost function ServeMany(s: System, c: ClientId, n: nat): System
    decreases n
  {
    if n == 0 || !CanServe(s, c) then s else ServeMany(Serve(s, c), c, n - 1)
  }

  /** Taking up a whole payload, which holds an init only at its start, is to subscribe the client once
      and then as many server steps in a row as there are messages; it consumes the upstream message. */
  lemma {:induction false} HandleAllIsServes(s: System, c: ClientId)
    requires CanServe(s, c)
    requires forall m <- s.clients[c].toServer[0].payload[1..] :: !m.Step1?
    ensures var up := s.clients[c].toServer[0];
            var s' := ServeMany(s, c, |up.payload|);
            && GroupOf(s') == HandleAll(GroupOf(Subscribed(s, c)), c, up.id, up.payload)
            && c in s'.clients && s'.clients[c].toServer == s.clients[c].toServer[1..]
    decreases |s.clients[c].toServer[0].payload|
  {
    hide HandleOne; hide GroupOf; hide Handle;
    var up := s.clients[c].toServer[0];
    var s0 := Subscribed(s, c);
    assert c in s0.subs && HasHead(s0, c) && s0.clients == s.clients;
    HandleIsHandleOne(s0, c);
    HandleConsumes(s0, c);
    var s1 := Serve(s, c);
    if |up.payload| == 1 {
      assert up.payload[1..] == [];
      assert ServeMany(s1, c, 0) == s1;
    } else {
      assert s1.clients[c].toServer[0].payload[1..] == up.payload[1..][1..];
      assert up.payload[1] in up.payload[1..];
      assert Subscribed(s1, c) == s1;
      HandleAllIsServes(s1, c);
    }
  }

  /** What a client queues holds an init at the start of its payload only. */
  lemma PayloadStartsWithInit(item: Item)
    ensures Payload(item) != [] && forall m <- Payload(item)[1..] :: !m.Step1?
  {
  }

  /** A server step consumes one message of the origin's first payload and keeps the subscription. */
  lemma HandleConsumes(s: System, c: ClientId)
    requires HasHead(s, c) && c in s.subs
    ensures var up, s' := s.clients[c].toServer[0], Handle(s, c);
            && c in s'.clients && s'.subs == s.subs && s'.live == s.live
            && var left := s'.clients[c].toServer;
               if |up.payload| == 1 then left == s.clients[c].toServer[1..]
               else left == [Upstream(up.id, up.payload[1..])] + s.clients[c].toServer[1..]
                    && left[1..] == s.clients[c].toServer[1..] && HasHead(s', c)
  {
  }

  // ---------------------------------------------------------------- the client's stream task

  /** A reply worked through to its end. */
  function ProcessAll(cl: Client): Client
    decreases |cl.processing|
  {
    if cl.processing == [] then cl else ProcessAll(ProcessReply(cl))
  }

  /** A reply brings the document all it carries; only a Step1 in it queues anything. */
  lemma {:induction false} ProcessAllMeaning(cl: Client)
    ensures ProcessAll(cl).doc == cl.doc + Carried(cl.processing)
    ensures (forall m <- cl.processing :: !m.Step1?) ==>
              ProcessAll(cl).queue == cl.queue && ProcessAll(cl).nextId == cl.nextId
    decreases |cl.processing|
  {
    if cl.processing != [] {
      assert cl.processing[0] in cl.processing && forall m <- cl.processing[1..] :: m in cl.processing;
      ProcessAllMeaning(ProcessReply(cl));
    }
  }

  class SyncStream {
    var doc: set<Op>
    var queue: Queue
    var nextId: MsgId
    ghost var phase: Phase   // bookkeeping: where the handshake stands

    ghost predicate Is(cl: Client)
      reads this
    {
      doc == cl.doc && queue == cl.queue && nextId == cl.nextId && phase == cl.phase
    }

    constructor ()
      ensures Is(NewClient)
    {
      doc, queue, nextId, phase := {}, map[], 0, Offline;
    }

    method QueueItem(item: Item)
      modifies this
      ensures queue == old(queue)[old(nextId) := Queued(item, false)] && nextId == old(nextId) + 1
      ensures doc == old(doc) && phase == old(phase)
    {
      queue, nextId := queue[nextId := Queued(item, false)], nextId + 1;
    }

    /** init_sync, through the sink's queue_init_sync. */
    method InitSync(ghost cl: Client)
      requires Is(cl)
      modifies this
      ensures Is(StartHandshake(cl))
    {
      var item := Item.InitSync(StateVectorOf(doc));
      phase := AwaitingReply(nextId);
      queue := map[];
      QueueItem(item);
    }

    /** process_message: `cl` is the machine's client whose channel delivers `down`. */
    method ProcessMessage(ghost cl: Client, down: Downstream, accepted: bool)
      requires Is(cl) && cl.processing == [] && cl.fromServer != [] && cl.fromServer[0] == down
      modifies this
      ensures Is(ProcessAll(Receive(cl, accepted)))
      ensures down.Broadcast? ==> doc == old(doc) + down.update && queue == old(queue) && nextId == old(nextId)
      ensures down.Ack? && !accepted ==> doc == old(doc) && queue == old(queue) && nextId == old(nextId)
      ensures down.Ack? && accepted ==> doc == old(doc) + Carried(down.reply)
    {
      match down {
        case Broadcast(u, _) =>
          doc := doc + u;
        case Ack(id, reply, _) =>
          if accepted {
            ProcessPayload(Receive(cl, accepted), id, reply);
          }
      }
    }

    /** process_payload: apply each message, and queue the answer to the server's SyncStep1. */
    method ProcessPayload(ghost cl: Client, id: MsgId, reply: seq<Message>)
      requires Is(cl) && cl.processing == reply && cl.processingId == id
      modifies this
      ensures Is(ProcessAll(cl))
      ensures doc == old(doc) + Carried(reply)
      ensures (forall m <- reply :: !m.Step1?) ==> queue == old(queue) && nextId == old(nextId)
    {
      ghost var c := cl;
      var i := 0;
      while i < |reply|
        invariant i <= |reply| && Is(c) && c.processing == reply[i..]
        invariant c.processingId == id && c.processingSub == cl.processingSub
        invariant ProcessAll(c) == ProcessAll(cl)
      {
        assert c.processing[0] == reply[i] && c.processing[1..] == reply[i + 1..];
        c := ProcessReply(c);
        match reply[i] {
          case Step1(sv) =>
            var diff := EncodeStateAsUpdate(doc, sv);
            QueueItem(ServerInit(diff));
            if phase == AwaitingReply(id) {
              phase := Synced(cl.processingSub);
            }
          case Step2(u) =>
            doc := doc + u;
          case Changes(u) =>
            doc := doc + u;
          case Presence =>
        }
        i := i + 1;
      }
      ProcessAllMeaning(cl);
    }
  }

  // ---------------------------------------------------------------- the handshake

  /** The three messages on their own. `c0 <= c1 <= c2` is the client's document when it starts, when
      the reply arrives and when it answers; `s1 <= s2` is the server's when it replies and when the
      answer arrives. Afterwards the client has all the server had when it replied, and the server has
      all the client had when it answered; without edits in between both hold the union. */
  lemma Handshake(c0: set<Op>, c1: set<Op>, c2: set<Op>, s1: set<Op>, s2: set<Op>)
    requires c0 <= c1 && s1 <= s2
    requires c1 + EncodeStateAsUpdate(s1, StateVectorOf(c0)) <= c2
    ensures var toServer := EncodeStateAsUpdate(c2, StateVectorOf(s1));
            && s1 <= c2 && c2 <= s2 + toServer && toServer <= c2
            && (c2 == c1 + EncodeStateAsUpdate(s1, StateVectorOf(c0)) && c1 == c0 && s2 == s1 ==>
                  c2 == c0 + s1 && s2 + toServer == c0 + s1)
  {
    StateVectorBelow(c0);
    StateVectorBelow(s1);
    EncodeCovers(s1, StateVectorOf(c0), c0);
    EncodeCovers(c2, StateVectorOf(s1), s1);
  }
}
