/** When attached clients can settle without a new handshake: exactly when no queue must run over the
    limit. A client whose queue must is stuck: it never comes to rest attached again until it handshakes. */
module SyncStuck {
  import opened Common
  import opened SendQueue
  import opened SendQueueRuns
  import opened SendQueueDrains
  import opened SendQueueRefinement
  import opened SyncWithQueues
  import opened SyncSteps
  import opened SyncSettles
  import M = SyncMachine

  // ---------------------------------------------------------------- what every run keeps

  /** Of the queued updates only the oldest was ever given to a send; a pending message was never handed
      to the socket; and only what was handed to the socket is in flight or acknowledged. */
  ghost predicate Orderly(p: Peer) {
    && (forall i, j | i in p.sink.queue && j in p.sink.queue && i < j ::
          p.sink.queue[i].msg.ClientUpdateSync? && p.sink.queue[j].msg.ClientUpdateSync? ==>
            p.sink.queue[j].state == Pending)
    && (forall id <- p.sink.queue :: p.sink.queue[id].state == Pending ==> !SentOnce(p.sink, id))
    && AcksSent(p)
  }

  /** The queue's part of it. */
  ghost predicate OrderlySink(s: Sink) {
    && (forall i, j | i in s.queue && j in s.queue && i < j ::
          s.queue[i].msg.ClientUpdateSync? && s.queue[j].msg.ClientUpdateSync? ==> s.queue[j].state == Pending)
    && (forall id <- s.queue :: s.queue[id].state == Pending ==> !SentOnce(s, id))
  }

  lemma PushOrderly(yrs: Yrs, s: Sink, m: CollabMessage)
    requires OrderlySink(s) && SinkInv(yrs, s)
    ensures OrderlySink(Push(s, m)) && forall id :: SentOnce(Push(s, m), id) <==> SentOnce(s, id)
  {
    hide OnlyGrows; hide ClientQueue;
    assert forall id :: SentOnce(Push(s, m), id) <==> SentOnce(s, id);
    assert !SentOnce(s, s.counter);
  }

  lemma FewerOrderly(s: Sink, ids: set<MsgId>, runner: Runner)
    requires OrderlySink(s)
    ensures var s' := s.(queue := s.queue - ids, runner := runner);
            OrderlySink(s') && forall id :: SentOnce(s', id) <==> SentOnce(s, id)
  {
    var s' := s.(queue := s.queue - ids, runner := runner);
    assert forall id :: SentOnce(s', id) <==> SentOnce(s, id);
  }

  /** No older update is queued behind the head. */
  lemma TopIsOldestUpdate(cfg: Config, yrs: Yrs, s: Sink)
    requires ValidConfig(cfg) && ClientQueue(yrs, s.queue) && s.queue != map[]
    ensures var id := cfg.pop(s.queue);
            && id in s.queue
            && (s.queue[id].msg.ClientUpdateSync? ==>
                  forall j <- s.queue :: s.queue[j].msg.ClientUpdateSync? ==> id <= j)
  {
    hide AsUpdate;
    assert IsTop(s.queue, cfg.pop(s.queue));
  }

  lemma MarkOrderly(cfg: Config, yrs: Yrs, s: Sink, state: MessageState, tx: Option<Token>, runner: Runner)
    requires ValidConfig(cfg) && ClientQueue(yrs, s.queue) && s.queue != map[] && OrderlySink(s) && state != Pending
    requires cfg.pop(s.queue) in s.queue
    ensures var id := cfg.pop(s.queue);
            var s' := s.(queue := s.queue[id := PendingMessage(s.queue[id].msg, state, tx)], runner := runner);
            OrderlySink(s') && forall j :: SentOnce(s', j) <==> SentOnce(s, j)
  {
    TopIsOldestUpdate(cfg, yrs, s);
    hide ClientQueue; hide ValidConfig;
    var id := cfg.pop(s.queue);
    var s' := s.(queue := s.queue[id := PendingMessage(s.queue[id].msg, state, tx)], runner := runner);
    assert forall j :: SentOnce(s', j) <==> SentOnce(s, j);
  }

  lemma AfterSendOrderly(cfg: Config, yrs: Yrs, s: Sink, out: Outcome, sendOk: bool)
    requires ValidConfig(cfg) && ClientQueue(yrs, s.queue) && s.queue != map[] && OrderlySink(s)
    requires cfg.pop(s.queue) in s.queue && IdOf(out.head) == Some(cfg.pop(s.queue))
    requires out.head.ClientUpdateSync? <==> s.queue[cfg.pop(s.queue)].msg.ClientUpdateSync?
    requires cfg.pop(s.queue) !in out.queue && forall j <- out.queue :: j in s.queue && out.queue[j] == s.queue[j]
    ensures var s' := AfterSend(s, cfg.pop(s.queue), out, sendOk);
            && OrderlySink(s') && (forall j :: SentOnce(s, j) ==> SentOnce(s', j))
            && (sendOk ==> SentOnce(s', cfg.pop(s.queue)))
  {
    TopIsOldestUpdate(cfg, yrs, s);
    hide ClientQueue; hide ValidConfig;
    var id := cfg.pop(s.queue);
    var s' := AfterSend(s, id, out, sendOk);
    assert forall x :: x in s'.socket <==> x in s.socket || (sendOk && x == out.head);
    assert forall j :: SentOnce(s', j) <==> SentOnce(s, j) || (sendOk && j == id);
  }

  lemma AbsorbLeaves(cfg: Config, s: Sink)
    requires ValidConfig(cfg) && SinkInv(cfg.yrs, s) && s.queue != map[] && cfg.pop(s.queue) in s.queue
    ensures var id := cfg.pop(s.queue);
            var out := Absorb(cfg, s.queue, id);
            && IdOf(out.head) == Some(id) && id !in out.queue
            && (out.head.ClientUpdateSync? <==> s.queue[id].msg.ClientUpdateSync?)
            && forall j <- out.queue :: j in s.queue && out.queue[j] == s.queue[j]
  {
    hide Overflows; hide Ops; hide OpsOf; hide OnlyGrows; hide AsUpdate;
    AbsorbIs(cfg, s.queue);
  }

  lemma ProcessOrderly(cfg: Config, item: CollabMessage -> M.Item, c: M.ClientId, p: Peer, e: PeerEvent)
    requires ValidConfig(cfg) && SinkInv(cfg.yrs, p.sink) && Orderly(p)
    requires Possible(cfg, item, p, e) && e.Runs? && e.e.Process?
    ensures Orderly(Next(cfg, item, c, p, e))
  {
    hide Loses; hide AcksSent; hide OnlyGrows;
    var s, p' := p.sink, Next(cfg, item, c, p, e);
    assert OrderlySink(s);
    if s.queue != map[] {
      var id := cfg.pop(s.queue);
      assert IsTop(s.queue, id);
      if Sends(cfg, s, e.e.tooEarly) {
        AbsorbLeaves(cfg, s);
        TrySendIs(cfg, s, e.e.sendOk);
        AfterSendOrderly(cfg, cfg.yrs, s, Absorb(cfg, s.queue, id), e.e.sendOk);
        hide Absorb; hide TrySend; hide IsTop; hide ClientQueue; hide SentOnce; hide Upstreamed;
        SendAcksSent(item, p, p', Absorb(cfg, s.queue, id).head, e.e.sendOk);
      } else {
        FewerOrderly(s, {id}, s.runner);
        hide IsTop; hide ClientQueue; hide SentOnce;
        SameAcksSent(p, p');
      }
    } else {
      SameAcksSent(p, p');
    }
  }

  lemma SendAcksSent(item: CollabMessage -> M.Item, p: Peer, p': Peer, head: CollabMessage, sendOk: bool)
    requires AcksSent(p) && IdOf(head).Some?
    requires p'.sink.socket == (if sendOk then p.sink.socket + [head] else p.sink.socket)
    requires sendOk ==> SentOnce(p'.sink, IdOf(head).value)
    requires forall id :: SentOnce(p.sink, id) ==> SentOnce(p'.sink, id)
    requires p'.rest.toServer == p.rest.toServer + Upstreamed(item, p.sink, p'.sink)
    requires p'.rest.fromServer == p.rest.fromServer
    ensures AcksSent(p')
  {
    hide SentOnce; hide M.Payload;
  }

  lemma SameAcksSent(p: Peer, p': Peer)
    requires AcksSent(p) && p'.sink.socket == p.sink.socket && p'.rest.toServer == p.rest.toServer
    requires p'.rest.fromServer == p.rest.fromServer
        || (p.rest.fromServer != [] && p'.rest.fromServer == p.rest.fromServer[1..])
    ensures AcksSent(p')
  {
    assert forall id :: SentOnce(p'.sink, id) <==> SentOnce(p.sink, id);
    hide SentOnce;
  }

  lemma PeerOrderly(cfg: Config, item: CollabMessage -> M.Item, c: M.ClientId, p: Peer, e: PeerEvent)
    requires ValidConfig(cfg) && SinkInv(cfg.yrs, p.sink) && Orderly(p) && Possible(cfg, item, p, e)
    ensures Orderly(Next(cfg, item, c, p, e))
  {
    var s, p' := p.sink, Next(cfg, item, c, p, e);
    assert OrderlySink(s);
    if e.Runs? && e.e.Process? {
      hide *;
      ProcessOrderly(cfg, item, c, p, e);
    } else {
      OtherSinkOrderly(cfg, item, c, p, e);
      OtherChannels(cfg, item, c, p, e);
      SameAcksSent(p, p');
    }
  }

  lemma OtherSinkOrderly(cfg: Config, item: CollabMessage -> M.Item, c: M.ClientId, p: Peer, e: PeerEvent)
    requires ValidConfig(cfg) && SinkInv(cfg.yrs, p.sink) && OrderlySink(p.sink) && Possible(cfg, item, p, e)
    requires !(e.Runs? && e.e.Process?)
    ensures OrderlySink(Next(cfg, item, c, p, e).sink)
  {
    hide OnlyGrows; hide IsUpdate; hide Loses;
    var s := p.sink;
    match e {
      case QueuesEdit(_, m) => PushOrderly(cfg.yrs, s, m);
      case AnswersReply(m) => PushOrderly(cfg.yrs, s, m);
      case StartsHandshake(m) =>
        FewerOrderly(s, s.queue.Keys, s.runner);
        assert s.queue - s.queue.Keys == map[];
        Cleared(cfg.yrs, s);
        PushOrderly(cfg.yrs, s.(queue := map[]), m);
      case Receives =>
        if s.queue != map[] && p.rest.fromServer[0].Ack? && cfg.pop(s.queue) == p.rest.fromServer[0].id {
          assert IsTop(s.queue, cfg.pop(s.queue));
          MarkOrderly(cfg, cfg.yrs, s, Done, None, AckMsg(cfg, s, p.rest.fromServer[0].id).0.runner);
        }
      case Runs(r) =>
        if s.queue != map[] && !r.SetPaused? {
          assert IsTop(s.queue, cfg.pop(s.queue));
          if r.RunnerAcked? {
            FewerOrderly(s, {cfg.pop(s.queue)}, Idle);
          } else {
            MarkOrderly(cfg, cfg.yrs, s, Timeout, s.queue[cfg.pop(s.queue)].tx, Idle);
          }
        } else {
          FewerOrderly(s, {}, Next(cfg, item, c, p, e).sink.runner);
          assert s.queue - {} == s.queue;
          PausedOrderly(s.(runner := Next(cfg, item, c, p, e).sink.runner), Next(cfg, item, c, p, e).sink.paused);
        }
      case Cancelled =>
        FewerOrderly(s, {}, Idle);
        assert s.queue - {} == s.queue;
      case _ =>
    }
  }

  lemma PausedOrderly(s: Sink, paused: bool)
    requires OrderlySink(s)
    ensures OrderlySink(s.(paused := paused))
  {
    assert forall id :: SentOnce(s.(paused := paused), id) <==> SentOnce(s, id);
  }

  lemma Cleared(yrs: Yrs, s: Sink)
    requires SinkInv(yrs, s)
    ensures SinkInv(yrs, s.(queue := map[]))
  {
  }

  lemma OtherChannels(cfg: Config, item: CollabMessage -> M.Item, c: M.ClientId, p: Peer, e: PeerEvent)
    requires ValidConfig(cfg) && Possible(cfg, item, p, e) && !(e.Runs? && e.e.Process?)
    ensures var p' := Next(cfg, item, c, p, e);
            && p'.sink.socket == p.sink.socket && p'.rest.toServer == p.rest.toServer
            && (p'.rest.fromServer == p.rest.fromServer
                || (p.rest.fromServer != [] && p'.rest.fromServer == p.rest.fromServer[1..]))
  {
    hide Loses; hide M.CrdtDocument.EncodeStateAsUpdate; hide M.Effect; hide ValidConfig;
    if e.Runs? {
      assert Apply(cfg, p.sink, e.e).socket == p.sink.socket;
      assert p.rest.toServer + [] == p.rest.toServer;
    }
  }

  ghost predicate AllOrderly(n: Network) {
    Paired(n) && forall c <- n.core.clients :: Orderly(PeerOf(n, c))
  }

  lemma MoveOrderly(cfg: Config, item: CollabMessage -> M.Item, n: Network, a: Act, n': Network)
    requires SinksInv(cfg.yrs, n) && AllOrderly(n) && Paired(n') && Moves(cfg, item, n, a, n')
    ensures AllOrderly(n')
  {
    if a.Local? {
      hide Orderly; hide SinkInv; hide Possible; hide Next;
      PeerOrderly(cfg.(pop := a.heap), item, a.c, PeerOf(n, a.c), a.e);
    } else {
      hide SinksInv; hide Moves;
      OutsideIsServerStep(cfg, item, n, a, n');
      ServerOrderly(n, n');
    }
  }

  lemma OrderlyAcks(p: Peer)
    requires Orderly(p)
    ensures AcksSent(p) && forall rest :: AcksSent(Peer(rest, p.sink)) ==> Orderly(Peer(rest, p.sink))
  {
    hide AcksSent; hide SentOnce;
  }

  lemma ServerOrderly(n: Network, n': Network)
    requires AllOrderly(n) && Paired(n') && n'.sinks == n.sinks && M.ServerStep(n.core, n'.core)
    ensures AllOrderly(n')
  {
    var s, s' := n.core, n'.core;
    ServesOrShrinks(s, s');
    hide AcksSent; hide M.ServerStep; hide M.CanServe; hide M.Serve; hide SentOnce; hide Orderly;
    if c :| M.CanServe(s, c) && s' == M.Serve(s, c) {
      forall d <- s'.clients ensures Orderly(PeerOf(n', d)) {
        OrderlyAcks(PeerOf(n, d));
        ServedAcksSent(s, c, d, n.sinks[d]);
      }
    } else {
      forall d <- s'.clients ensures Orderly(PeerOf(n', d)) {
        OrderlyAcks(PeerOf(n, d));
        ShrinkingKeepsAcksSent(PeerOf(n, d), s'.clients[d]);
      }
    }
  }

  /** The run without its last step. */
  function Shorter(h: History): History
    requires |h.run| == |h.acts| + 1 && h.acts != []
  {
    History(h.run[..|h.acts|], h.acts[..|h.acts| - 1])
  }

  lemma LastStep(w: World, h: History)
    requires Valid(w, h) && h.acts != []
    ensures |h.run| == |h.acts| + 1 && Valid(w, Shorter(h)) && Paired(End(h)) && Paired(End(Shorter(h)))
    ensures Moves(w.cfg, w.item, End(Shorter(h)), h.acts[|h.acts| - 1], End(h))
  {
    var k := |h.acts| - 1;
    assert End(Shorter(h)) == h.run[k] && End(h) == h.run[k + 1];
    assert Moves(w.cfg, w.item, h.run[k], h.acts[k], h.run[k + 1]) && Paired(h.run[k + 1]);
  }

  lemma {:induction false} IsOrderly(w: World, h: History)
    requires Valid(w, h) && Reads(w.cfg.yrs, w.item)
    ensures AllOrderly(End(h))
    decreases |h.acts|
  {
    if h.acts == [] {
    } else {
      LastStep(w, h);
      hide Valid; hide AllOrderly; hide SinksInv; hide Moves; hide Reads;
      var most := Shorter(h);
      IsReached(w, most);
      IsOrderly(w, most);
      MoveOrderly(w.cfg, w.item, End(most), h.acts[|h.acts| - 1], End(h));
    }
  }

  // ---------------------------------------------------------------- a queue that must run over the limit

  /** No message asks for a handshake and no ack brings a reply. */
  predicate NoReplies(rest: M.Client) {
    && rest.processing == []
    && (forall up <- rest.toServer, m <- up.payload :: !m.Step1?)
    && forall down <- rest.fromServer :: down.Ack? ==> down.reply == []
  }

  /** An ack of the message is on its way, or will be. */
  predicate AckComes(rest: M.Client, id: MsgId) {
    || (exists up <- rest.toServer :: up.id == id)
    || (exists down <- rest.fromServer :: down.Ack? && down.id == id)
  }

  /** The head cannot merge the message behind it. */
  predicate Stops(cfg: Config, head: CollabMessage, rest: Queue) {
    rest != map[] && cfg.pop(rest) in rest
    && !Merge(cfg.yrs, cfg.maximumPayloadSize, head, rest[cfg.pop(rest)].msg).Continue?
  }

  predicate Unsent(p: PendingMessage) {
    p.state == Pending || p.state == Timeout
  }

  /** The head must still be sent, and sending runs over the limit sooner or later; or it has been sent and
      what waits behind it does; or it was given up and is about to be popped unsent. */
  ghost predicate Blocked(cfg: Config, p: Peer)
    requires ValidConfig(cfg) && p.sink.queue != map[]
  {
    var s, id := p.sink, cfg.pop(p.sink.queue);
    id in s.queue &&
    var head, rest := s.queue[id], s.queue - {id};
    || (s.runner == Idle && Unsent(head) && !AckComes(p.rest, id) && !Drains(cfg, s.queue))
    || (!Drains(cfg, rest) && Stops(cfg, head.msg, rest))
    || (s.runner == Idle && !Unsent(head) && (head.msg !in s.socket || !Drains(cfg, rest)))
  }

  ghost predicate Stuck(cfg: Config, p: Peer)
    requires ValidConfig(cfg)
  {
    && p.rest.phase.Synced? && NoReplies(p.rest)
    && UpdatesOnly(cfg.yrs, p.sink.queue) && p.sink.queue != map[] && Blocked(cfg, p)
  }

  /** Out of step until its next handshake. */
  predicate Lost(p: Peer) {
    p.rest.phase.Offline? || p.rest.phase.Lossy?
  }

  ghost predicate StuckOrLost(cfg: Config, p: Peer)
    requires ValidConfig(cfg)
  {
    Stuck(cfg, p) || Lost(p)
  }

  lemma StopsOverflows(cfg: Config, head: CollabMessage, rest: Queue)
    requires ValidConfig(cfg) && IsUpdate(cfg.yrs, head) && UpdatesOnly(cfg.yrs, rest) && Stops(cfg, head, rest)
    ensures Overflows(cfg, head, rest) || MergeLoop(cfg, head, rest) == Outcome(head, rest, [], None)
  {
    MergeHalts(cfg, head, rest[cfg.pop(rest)].msg);
    hide Merge; hide AsUpdate;
  }

  /** The queue after its head was sent, or failed to be, without running over the limit. */
  lemma BlockedAfterSend(cfg: Config, queue: Queue, id: MsgId, p: PendingMessage)
    requires ValidConfig(cfg) && UpdatesOnly(cfg.yrs, queue) && queue != map[] && cfg.pop(queue) == id
    requires !Overflows(cfg, queue[id].msg, queue - {id})
    requires !Drains(cfg, queue) || (!Drains(cfg, queue - {id}) && Stops(cfg, queue[id].msg, queue - {id}))
    requires p.msg == MergeLoop(cfg, queue[id].msg, queue - {id}).head
    ensures var out := MergeLoop(cfg, queue[id].msg, queue - {id});
            && UpdatesOnly(cfg.yrs, out.queue[id := p]) && cfg.pop(out.queue[id := p]) == id
            && out.queue[id := p] - {id} == out.queue
            && !Drains(cfg, out.queue) && Stops(cfg, out.head, out.queue)
  {
    var head, rest := queue[id].msg, queue - {id};
    TopIsOldest(cfg, queue);
    SentAgain(cfg, queue, id, p);
    DroppedIffOverflows(cfg, head, rest);
    LoopStopsAtError(cfg, head, rest);
    NothingDrains(cfg);
    if Stops(cfg, head, rest) { StopsOverflows(cfg, head, rest); }
    hide Merge; hide AsUpdate; hide Overflows; hide MergeLoop; hide Drains;
    var left := MergeLoop(cfg, head, rest).queue;
    if left != map[] { assert IsTop(left, cfg.pop(left)); }
  }

  /** After the pop the next message is pending, and no ack of it can come. */
  lemma NextUnsent(cfg: Config, p: Peer, id: MsgId)
    requires ValidConfig(cfg) && Orderly(p) && UpdatesOnly(cfg.yrs, p.sink.queue)
    requires id in p.sink.queue && cfg.pop(p.sink.queue) == id && p.sink.queue - {id} != map[]
    ensures var rest := p.sink.queue - {id};
            && cfg.pop(rest) in rest && UpdatesOnly(cfg.yrs, rest)
            && rest[cfg.pop(rest)].state == Pending && !AckComes(p.rest, cfg.pop(rest))
  {
    hide AsUpdate; hide SentOnce;
    var rest := p.sink.queue - {id};
    TopIsOldest(cfg, p.sink.queue);
    TopIsOldest(cfg, rest);
    var next := cfg.pop(rest);
    assert next in p.sink.queue && id < next && rest[next] == p.sink.queue[next];
    assert p.sink.queue[id].msg.ClientUpdateSync? && p.sink.queue[next].msg.ClientUpdateSync?;
  }

  lemma PopStaysStuck(cfg: Config, p: Peer, p': Peer, id: MsgId)
    requires ValidConfig(cfg) && Orderly(p) && Stuck(cfg, p) && cfg.pop(p.sink.queue) == id && id in p.sink.queue
    requires !Drains(cfg, p.sink.queue - {id})
    requires p'.rest == p.rest && p'.sink == p.sink.(queue := p.sink.queue - {id}, runner := Idle)
    ensures Stuck(cfg, p')
  {
    NothingDrains(cfg);
    hide Drains; hide AsUpdate; hide Stops;
    NextUnsent(cfg, p, id);
  }

  /** A step of the runner, or of processing the next message. */
  lemma ProcessStaysStuck(w: World, c: M.ClientId, p: Peer, e: PeerEvent)
    requires ValidConfig(w.cfg) && Reads(w.cfg.yrs, w.item) && SinkInv(w.cfg.yrs, p.sink) && Orderly(p)
    requires Stuck(w.cfg, p) && Possible(w.cfg, w.item, p, e) && e.Runs? && e.e.Process?
    ensures StuckOrLost(w.cfg, Next(w.cfg, w.item, c, p, e))
  {
    hide AsUpdate; hide OnlyGrows;
    var s, p' := p.sink, Next(w.cfg, w.item, c, p, e);
    var id := w.cfg.pop(s.queue);
    TopIsOldest(w.cfg, s.queue);
    if Sends(w.cfg, s, e.e.tooEarly) {
      SendStaysStuck(w, c, p, e);
    } else if PopsHead(w.cfg, s, e.e) {
      hide Drains;
      if s.queue[id].msg in s.socket {
        hide Overflows;
        assert !Loses(w.cfg, s, e.e);
        assert p'.rest.toServer == p.rest.toServer + [] == p.rest.toServer;
        PopStaysStuck(w.cfg, p, p', id);
      } else {
        assert Loses(w.cfg, s, e.e);
      }
    } else {
      hide Drains; hide Overflows; hide Merge;
      assert p'.sink == s;
      assert p'.rest.toServer == p.rest.toServer + [] == p.rest.toServer;
      assert !Loses(w.cfg, s, e.e);
      assert p' == p;
    }
  }

  /** What a send within the limit does. */
  lemma SendIs(w: World, c: M.ClientId, p: Peer, e: PeerEvent)
    requires ValidConfig(w.cfg) && Reads(w.cfg.yrs, w.item) && SinkInv(w.cfg.yrs, p.sink)
    requires UpdatesOnly(w.cfg.yrs, p.sink.queue) && p.rest.phase.Synced?
    requires Possible(w.cfg, w.item, p, e) && e.Runs? && e.e.Process? && Sends(w.cfg, p.sink, e.e.tooEarly)
    requires var id := w.cfg.pop(p.sink.queue);
             id in p.sink.queue && !Overflows(w.cfg, p.sink.queue[id].msg, p.sink.queue - {id})
    ensures var s, p' := p.sink, Next(w.cfg, w.item, c, p, e);
            var id := w.cfg.pop(s.queue);
            var out := MergeLoop(w.cfg, s.queue[id].msg, s.queue - {id});
            && p'.sink == AfterSend(s, id, out, e.e.sendOk)
            && p'.rest.phase == p.rest.phase && p'.rest.processing == p.rest.processing
            && p'.rest.fromServer == p.rest.fromServer
            && (p'.rest.toServer == p.rest.toServer
                || exists m: M.Message :: !m.Step1? && p'.rest.toServer == p.rest.toServer + [M.Upstream(id, [m])])
  {
    hide AsUpdate; hide OnlyGrows;
    var s, p' := p.sink, Next(w.cfg, w.item, c, p, e);
    var id := w.cfg.pop(s.queue);
    assert !Loses(w.cfg, s, e.e);
    var out := MergeLoop(w.cfg, s.queue[id].msg, s.queue - {id});
    TrySendIs(w.cfg, s, e.e.sendOk);
    AbsorbLeaves(w.cfg, s);
    PayloadOf(w, out.head);
    hide MergeLoop; hide Overflows; hide TrySend; hide Loses; hide M.Payload; hide Reads; hide SinkInv; hide IsTop;
    var ms := M.Payload(w.item(out.head));
    var sent := if e.e.sendOk then [M.Upstream(id, ms)] else [];
    assert Upstreamed(w.item, s, p'.sink) == sent;
    assert p'.rest.toServer == p.rest.toServer + sent;
    if e.e.sendOk { assert ms == [ms[0]]; } else { assert p.rest.toServer + [] == p.rest.toServer; }
  }

  lemma SendStaysStuck(w: World, c: M.ClientId, p: Peer, e: PeerEvent)
    requires ValidConfig(w.cfg) && Reads(w.cfg.yrs, w.item) && SinkInv(w.cfg.yrs, p.sink) && Orderly(p)
    requires Stuck(w.cfg, p) && Possible(w.cfg, w.item, p, e) && e.Runs? && e.e.Process?
    requires Sends(w.cfg, p.sink, e.e.tooEarly)
    ensures StuckOrLost(w.cfg, Next(w.cfg, w.item, c, p, e))
  {
    hide AsUpdate; hide OnlyGrows; hide Orderly; hide Drains; hide Stops;
    var s, p' := p.sink, Next(w.cfg, w.item, c, p, e);
    var id := w.cfg.pop(s.queue);
    TopIsOldest(w.cfg, s.queue);
    var head, rest := s.queue[id].msg, s.queue - {id};
    if Overflows(w.cfg, head, rest) {
      assert Loses(w.cfg, s, e.e);
    } else {
      SendIs(w, c, p, e);
      hide Next; hide Possible; hide SinkInv; hide Reads; hide Overflows; hide MergeLoop; hide ValidConfig;
      var pending := PendingMessage(MergeLoop(w.cfg, head, rest).head, Processing, Some(s.nextToken));
      BlockedAfterSend(w.cfg, s.queue, id, pending);
    }
  }

  /** A change of the head's state while the runner is not idle, or of the runner alone. */
  lemma RunnerStaysStuck(w: World, c: M.ClientId, p: Peer, e: PeerEvent)
    requires ValidConfig(w.cfg) && Orderly(p)
    requires Stuck(w.cfg, p) && Possible(w.cfg, w.item, p, e) && ((e.Runs? && !e.e.Process?) || e.Cancelled?)
    ensures StuckOrLost(w.cfg, Next(w.cfg, w.item, c, p, e))
  {
    hide AsUpdate; hide Drains; hide Merge; hide Overflows;
    var s, p' := p.sink, Next(w.cfg, w.item, c, p, e);
    var id := w.cfg.pop(s.queue);
    TopIsOldest(w.cfg, s.queue);
    if e.Runs? {
      assert p'.sink.socket == s.socket;
      assert p'.rest.toServer == p.rest.toServer + [] == p.rest.toServer;
    }
    if e.Runs? && e.e.RunnerAcked? {
      if s.queue[id].msg in s.socket {
        assert !Loses(w.cfg, s, e.e);
        PopStaysStuck(w.cfg, p, p', id);
      } else {
        assert Loses(w.cfg, s, e.e);
      }
    } else if e.Runs? && e.e.RunnerTimeout? {
      assert !Loses(w.cfg, s, e.e);
      DrainsAnyState(w.cfg, s.queue, id, Timeout, s.queue[id].tx);
      assert p'.sink.queue - {id} == s.queue - {id};
    } else if e.Runs? {
      assert !Loses(w.cfg, s, e.e);
    }
  }

  lemma AckStaysStuck(w: World, c: M.ClientId, p: Peer)
    requires ValidConfig(w.cfg) && Stuck(w.cfg, p) && Possible(w.cfg, w.item, p, Receives)
    ensures Stuck(w.cfg, Next(w.cfg, w.item, c, p, Receives))
  {
    hide AsUpdate; hide Drains; hide Merge;
    var s, p' := p.sink, Next(w.cfg, w.item, c, p, Receives);
    var id, down := w.cfg.pop(s.queue), p.rest.fromServer[0];
    assert down in p.rest.fromServer;
    TopIsOldest(w.cfg, s.queue);
    assert AckComes(p'.rest, id) ==> AckComes(p.rest, id);
    if down.Ack? && down.id == id {
      DrainsAnyState(w.cfg, s.queue, id, Done, None);
      assert p'.sink.queue - {id} == s.queue - {id};
    } else {
      assert p'.sink == s;
    }
  }

  /** A message queued behind the others makes no difference to what is blocked. */
  lemma LaterChangesNothing(cfg: Config, queue: Queue, more: MsgId, pending: PendingMessage)
    requires ValidConfig(cfg) && UpdatesOnly(cfg.yrs, queue[more := pending]) && queue != map[]
    requires forall j <- queue :: j < more
    ensures var id, queue' := cfg.pop(queue), queue[more := pending];
            && id in queue && cfg.pop(queue') == id && queue'[id] == queue[id]
            && (Drains(cfg, queue') ==> Drains(cfg, queue))
            && (Drains(cfg, queue' - {id}) ==> Drains(cfg, queue - {id}))
            && forall head :: Stops(cfg, head, queue - {id}) ==> Stops(cfg, head, queue' - {id})
  {
    hide AsUpdate; hide Merge;
    var id, queue' := cfg.pop(queue), queue[more := pending];
    SameFirst(cfg, queue, more, pending);
    if Drains(cfg, queue') { DrainsWithLess(cfg, queue, more, pending); }
    var rest := queue - {id};
    if rest == map[] {
      NothingDrains(cfg);
    } else {
      RestUpdates(cfg.yrs, queue', id);
      SameFirst(cfg, rest, more, pending);
      if Drains(cfg, rest[more := pending]) { DrainsWithLess(cfg, rest, more, pending); }
    }
  }

  lemma PushStaysStuck(cfg: Config, p: Peer, p': Peer, m: CollabMessage)
    requires ValidConfig(cfg) && Stuck(cfg, p) && IsUpdate(cfg.yrs, m) && m.msgId == p.sink.counter
    requires forall id <- p.sink.queue :: id < p.sink.counter
    requires p'.sink == Push(p.sink, m) && p'.rest == p.rest.(unqueued := p'.rest.unqueued)
    ensures Stuck(cfg, p')
  {
    hide IsUpdate; hide Drains; hide Stops; hide ValidConfig;
    var s, pending := p.sink, PendingMessage(m, Pending, None);
    assert UpdatesOnly(cfg.yrs, p'.sink.queue);
    hide UpdatesOnly;
    LaterChangesNothing(cfg, s.queue, s.counter, pending);
    assert forall id :: AckComes(p'.rest, id) <==> AckComes(p.rest, id);
    hide AckComes;
  }

  lemma EditStaysStuck(w: World, c: M.ClientId, p: Peer, i: nat, m: CollabMessage)
    requires ValidConfig(w.cfg) && Reads(w.cfg.yrs, w.item) && SinkInv(w.cfg.yrs, p.sink) && Stuck(w.cfg, p)
    requires Possible(w.cfg, w.item, p, QueuesEdit(i, m))
    ensures Stuck(w.cfg, Next(w.cfg, w.item, c, p, QueuesEdit(i, m)))
  {
    hide OnlyGrows; hide Stuck; hide ClientQueue; hide ValidConfig;
    assert m.ClientUpdateSync? by { assert w.item(m).UpdateSync?; }
    hide Reads;
    PushStaysStuck(w.cfg, p, Next(w.cfg, w.item, c, p, QueuesEdit(i, m)), m);
  }

  lemma RestUpdates(yrs: Yrs, queue: Queue, id: MsgId)
    requires UpdatesOnly(yrs, queue)
    ensures UpdatesOnly(yrs, queue - {id})
  {
    hide AsUpdate;
  }

  /** Whatever the client does but handshake, it stays stuck or is out of step. */
  lemma PeerStaysStuck(w: World, c: M.ClientId, p: Peer, e: PeerEvent)
    requires ValidConfig(w.cfg) && Reads(w.cfg.yrs, w.item) && SinkInv(w.cfg.yrs, p.sink) && Orderly(p)
    requires StuckOrLost(w.cfg, p) && Possible(w.cfg, w.item, p, e) && !e.StartsHandshake?
    ensures StuckOrLost(w.cfg, Next(w.cfg, w.item, c, p, e))
  {
    if Lost(p) {
      LostStays(w, c, p, e);
    } else if e.Runs? && e.e.Process? {
      hide *;
      ProcessStaysStuck(w, c, p, e);
    } else if e.Runs? || e.Cancelled? {
      hide *;
      RunnerStaysStuck(w, c, p, e);
    } else if e.Receives? {
      AckStaysStuck(w, c, p);
    } else if e.QueuesEdit? {
      EditStaysStuck(w, c, p, e.i, e.m);
    } else {
      hide Drains; hide Orderly; hide SinkInv; hide Reads; hide AsUpdate; hide Merge;
      assert e.Edits?;
      var p' := Next(w.cfg, w.item, c, p, e);
      assert p'.sink == p.sink && (forall id :: AckComes(p'.rest, id) <==> AckComes(p.rest, id));
    }
  }

  lemma LostStays(w: World, c: M.ClientId, p: Peer, e: PeerEvent)
    requires ValidConfig(w.cfg) && Lost(p) && Possible(w.cfg, w.item, p, e) && !e.StartsHandshake?
    ensures Lost(Next(w.cfg, w.item, c, p, e))
  {
    hide Loses; hide AckMsg; hide Apply; hide M.CrdtDocument.EncodeStateAsUpdate; hide M.Effect; hide Upstreamed;
  }

  // ---------------------------------------------------------------- in every run

  /** Another choice among equals changes nothing. */
  lemma StuckAnyHeap(cfg: Config, other: Config, p: Peer)
    requires ValidConfig(cfg) && ValidConfig(other) && other == cfg.(pop := other.pop) && Stuck(cfg, p)
    ensures Stuck(other, p)
  {
    hide AsUpdate; hide Merge;
    var s := p.sink;
    SameHead(cfg, other, s.queue);
    SameDrains(cfg, other, s.queue);
    var rest := s.queue - {cfg.pop(s.queue)};
    RestUpdates(cfg.yrs, s.queue, cfg.pop(s.queue));
    SameDrains(cfg, other, rest);
    if rest != map[] { SameHead(cfg, other, rest); }
    hide Drains;
  }

  /** What the server and the network do to a client's channels: nothing new but acks of what was sent,
      without a reply unless it asked for a handshake, and broadcasts. */
  ghost predicate ChannelsFrom(rest: M.Client, rest': M.Client) {
    && rest' == rest.(toServer := rest'.toServer, fromServer := rest'.fromServer)
    && (forall up' <- rest'.toServer :: exists up <- rest.toServer ::
          up.id == up'.id && forall m <- up'.payload :: m in up.payload)
    && forall down <- rest'.fromServer :: down.Ack? ==>
         || down in rest.fromServer
         || (exists up <- rest.toServer :: up.id == down.id
               && ((forall m <- up.payload :: !m.Step1?) ==> down.reply == []))
  }

  lemma ChannelsStayStuck(cfg: Config, p: Peer, p': Peer)
    requires ValidConfig(cfg) && Stuck(cfg, p) && p'.sink == p.sink && ChannelsFrom(p.rest, p'.rest)
    ensures Stuck(cfg, p')
  {
    hide Drains; hide AsUpdate; hide Merge; hide ValidConfig; hide Stops;
    forall up' <- p'.rest.toServer, m <- up'.payload ensures !m.Step1? {
      var up :| up in p.rest.toServer && up.id == up'.id && forall m <- up'.payload :: m in up.payload;
    }
    forall id ensures AckComes(p'.rest, id) ==> AckComes(p.rest, id) {
    }
  }

  lemma ServeChannels(s: M.System, c: M.ClientId, d: M.ClientId)
    requires M.CanServe(s, c) && d in s.clients
    ensures d in M.Serve(s, c).clients && ChannelsFrom(s.clients[d], M.Serve(s, c).clients[d])
  {
    hide M.News; hide M.Effect;
    var cl, cl' := s.clients[d], M.Serve(s, c).clients[d];
    if d == c {
      var up := cl.toServer[0];
      assert up in cl.toServer && up.payload[0] in up.payload;
      forall up' <- cl'.toServer
        ensures exists x <- cl.toServer :: x.id == up'.id && forall m <- up'.payload :: m in x.payload
      {
        if up' !in cl.toServer {
          assert up'.id == up.id && up'.payload == up.payload[1..];
          assert forall m <- up'.payload :: m in up.payload;
        }
      }
      hide M.ServerReply;
      var ack := cl'.fromServer[|cl'.fromServer| - 1];
      assert forall down <- cl'.fromServer :: down in cl.fromServer || down == ack;
    } else {
      assert forall down <- cl'.fromServer :: down.Ack? ==> down in cl.fromServer;
      assert cl'.toServer == cl.toServer;
    }
  }

  lemma ShrinksChannels(rest: M.Client, rest': M.Client)
    requires rest' == rest.(toServer := rest'.toServer, fromServer := rest'.fromServer)
    requires (forall up <- rest'.toServer :: up in rest.toServer)
    requires (forall down <- rest'.fromServer :: down in rest.fromServer)
    ensures ChannelsFrom(rest, rest')
  {
  }

  /** A step anywhere, other than a handshake of `c`, leaves `c` stuck or out of step. */
  lemma MoveStaysStuck(w: World, n: Network, a: Act, n': Network, c: M.ClientId)
    requires ValidConfig(w.cfg) && Reads(w.cfg.yrs, w.item) && SinksInv(w.cfg.yrs, n) && AllOrderly(n) && Paired(n')
    requires Moves(w.cfg, w.item, n, a, n') && c in n.sinks && StuckOrLost(w.cfg, PeerOf(n, c))
    requires !(a.Local? && a.c == c && a.e.StartsHandshake?)
    ensures c in n'.sinks && StuckOrLost(w.cfg, PeerOf(n', c))
  {
    if a.Local? {
      if a.c == c {
        hide *;
        OwnMoveStaysStuck(w, n, a, n', c);
      } else {
        MoveElsewhere(w, n, a, n', c);
        hide *;
        assert PeerOf(n', c) == PeerOf(n, c);
      }
    } else {
      hide *;
      OutsideStaysStuck(w, n, a, n', c);
    }
  }

  lemma MoveElsewhere(w: World, n: Network, a: Act, n': Network, c: M.ClientId)
    requires Paired(n) && Paired(n') && Moves(w.cfg, w.item, n, a, n') && a.Local? && a.c != c && c in n.sinks
    ensures c in n'.sinks && PeerOf(n', c) == PeerOf(n, c)
  {
    hide Next; hide Possible; hide ValidConfig;
  }

  lemma OwnMoveStaysStuck(w: World, n: Network, a: Act, n': Network, c: M.ClientId)
    requires ValidConfig(w.cfg) && Reads(w.cfg.yrs, w.item) && SinksInv(w.cfg.yrs, n) && AllOrderly(n) && Paired(n')
    requires Moves(w.cfg, w.item, n, a, n') && c in n.sinks && StuckOrLost(w.cfg, PeerOf(n, c))
    requires a.Local? && a.c == c && !a.e.StartsHandshake?
    ensures c in n'.sinks && StuckOrLost(w.cfg, PeerOf(n', c))
  {
    var v := w.(cfg := w.cfg.(pop := a.heap));
    var p := PeerOf(n, c);
    assert Orderly(p) && SinkInv(w.cfg.yrs, p.sink);
    assert PeerOf(n', c) == Next(v.cfg, w.item, c, p, a.e);
    hide Orderly; hide SinkInv; hide Stuck; hide Lost; hide Possible; hide Next; hide Reads;
    if Stuck(w.cfg, p) { StuckAnyHeap(w.cfg, v.cfg, p); }
    PeerStaysStuck(v, c, p, a.e);
    if Stuck(v.cfg, PeerOf(n', c)) { StuckAnyHeap(v.cfg, w.cfg, PeerOf(n', c)); }
  }

  lemma OutsideStaysStuck(w: World, n: Network, a: Act, n': Network, c: M.ClientId)
    requires ValidConfig(w.cfg) && Paired(n) && Paired(n')
    requires Moves(w.cfg, w.item, n, a, n') && c in n.sinks && StuckOrLost(w.cfg, PeerOf(n, c)) && !a.Local?
    ensures c in n'.sinks && StuckOrLost(w.cfg, PeerOf(n', c))
  {
    var p := PeerOf(n, c);
    if a == Drops(c) {
      hide Stuck;
      assert Lost(PeerOf(n', c));
    } else {
      OutsideChannels(w, n, a, n', c);
      hide ChannelsFrom; hide Moves; hide Stuck;
      if Stuck(w.cfg, p) {
        ChannelsStayStuck(w.cfg, p, PeerOf(n', c));
      } else {
        SamePhase(p.rest, PeerOf(n', c).rest);
      }
    }
  }

  lemma SamePhase(rest: M.Client, rest': M.Client)
    requires ChannelsFrom(rest, rest')
    ensures rest'.phase == rest.phase
  {
  }

  lemma OutsideChannels(w: World, n: Network, a: Act, n': Network, c: M.ClientId)
    requires Paired(n) && Paired(n') && Moves(w.cfg, w.item, n, a, n') && c in n.sinks && !a.Local? && a != Drops(c)
    ensures c in n'.sinks && n'.sinks == n.sinks && ChannelsFrom(n.core.clients[c], n'.core.clients[c])
  {
    hide ChannelsFrom;
    if a.Serves? {
      hide M.Serve; hide M.CanServe;
      ServeChannels(n.core, a.c, c);
    } else {
      ShrinksChannels(n.core.clients[c], n'.core.clients[c]);
    }
  }

  /** `h` goes on as `more` in any way, but `c` starts no handshake. */
  ghost predicate WithoutHandshake(w: World, h: History, more: History, c: M.ClientId) {
    && Valid(w, h) && Valid(w, more) && h.run <= more.run && h.acts <= more.acts
    && forall a <- more.acts[|h.acts|..] :: !(a.Local? && a.c == c && a.e.StartsHandshake?)
  }

  lemma {:induction false} StaysStuck(w: World, h: History, more: History, c: M.ClientId)
    requires ValidConfig(w.cfg) && Reads(w.cfg.yrs, w.item) && WithoutHandshake(w, h, more, c)
    requires c in End(h).sinks && StuckOrLost(w.cfg, PeerOf(End(h), c))
    ensures c in End(more).sinks && StuckOrLost(w.cfg, PeerOf(End(more), c))
    decreases |more.acts|
  {
    if |more.acts| == |h.acts| {
      assert End(more) == more.run[|h.acts|] == End(h);
    } else {
      LastStep(w, more);
      ShorterToo(w, h, more, c);
      hide StuckOrLost; hide Moves; hide SinksInv; hide AllOrderly; hide Reads; hide Valid; hide WithoutHandshake;
      var most := Shorter(more);
      IsReached(w, most);
      IsOrderly(w, most);
      StaysStuck(w, h, most, c);
      MoveStaysStuck(w, End(most), more.acts[|more.acts| - 1], End(more), c);
    }
  }

  lemma ShorterToo(w: World, h: History, more: History, c: M.ClientId)
    requires WithoutHandshake(w, h, more, c) && |more.acts| > |h.acts|
    requires |more.run| == |more.acts| + 1 && |h.run| == |h.acts| + 1 && Valid(w, Shorter(more))
    ensures WithoutHandshake(w, h, Shorter(more), c) && |Shorter(more).acts| < |more.acts|
    ensures var a := more.acts[|more.acts| - 1]; !(a.Local? && a.c == c && a.e.StartsHandshake?)
  {
    hide Valid;
    var k, most := |more.acts| - 1, Shorter(more);
    assert more.acts[k] in more.acts[|h.acts|..];
    assert most.acts[|h.acts|..] == more.acts[|h.acts|..][..k - |h.acts|];
  }

  // ---------------------------------------------------------------- attached clients with updates queued

  /** Attached, with updates queued and edits to be queued, and nothing else under way but news. */
  predicate Steady(w: World, n: Network, c: M.ClientId)
    requires Paired(n)
  {
    && c in n.sinks && M.Attached(n.core, c) && n.sinks[c].runner == Idle && UpdatesOnly(w.cfg.yrs, n.sinks[c].queue)
    && var rest := n.core.clients[c];
       rest.processing == [] && rest.toServer == [] && forall down <- rest.fromServer :: down.Broadcast?
  }

  /** The guard: an unsent head must not run over the limit, nor what it leaves; a head that was given to
      a send must have been handed over as it stands, and what waits behind it must not run over. */
  ghost predicate CanFlush(cfg: Config, s: Sink)
    requires ValidConfig(cfg)
  {
    s.queue == map[] ||
    var id := cfg.pop(s.queue);
    id in s.queue &&
    if Unsent(s.queue[id]) then Drains(cfg, s.queue)
    else s.queue[id].msg in s.socket && Drains(cfg, s.queue - {id})
  }

  lemma SteadyIsStuck(w: World, n: Network, c: M.ClientId)
    requires ValidConfig(w.cfg) && Paired(n) && Steady(w, n, c) && !CanFlush(w.cfg, n.sinks[c])
    ensures Stuck(w.cfg, PeerOf(n, c))
  {
    hide AsUpdate; hide Drains;
    TopIsOldest(w.cfg, n.sinks[c].queue);
  }

  /** A steady client whose queue must run over the limit never comes to rest attached again, whatever
      anyone does, unless it starts a new handshake. */
  lemma StuckNeedsHandshake(w: World, h: History, more: History, c: M.ClientId)
    requires ValidConfig(w.cfg) && Reads(w.cfg.yrs, w.item) && WithoutHandshake(w, h, more, c)
    requires c in End(h).sinks && Steady(w, End(h), c) && !CanFlush(w.cfg, End(h).sinks[c])
    ensures c in End(more).sinks && !(End(more).sinks[c].queue == map[] && M.Attached(End(more).core, c))
  {
    SteadyIsStuck(w, End(h), c);
    StaysStuck(w, h, more, c);
  }

  /** The situation in which the merge loses the next message: an update over the limit that must still be
      sent, and another behind it. */
  lemma OversizedNeedsHandshake(w: World, h: History, more: History, c: M.ClientId)
    requires ValidConfig(w.cfg) && Reads(w.cfg.yrs, w.item) && WithoutHandshake(w, h, more, c)
    requires c in End(h).sinks && Steady(w, End(h), c)
    requires var queue := End(h).sinks[c].queue;
             var id := w.cfg.pop(queue);
             && id in queue && queue - {id} != map[] && Unsent(queue[id])
             && |queue[id].msg.payload| > w.cfg.maximumPayloadSize
    ensures c in End(more).sinks && !(End(more).sinks[c].queue == map[] && M.Attached(End(more).core, c))
  {
    var queue := End(h).sinks[c].queue;
    assert queue != map[];
    DrainsIs(w.cfg, queue);
    assert Overflows(w.cfg, queue[w.cfg.pop(queue)].msg, queue - {w.cfg.pop(queue)});
    hide Drains; hide Overflows;
    StuckNeedsHandshake(w, h, more, c);
  }

  // ---------------------------------------------------------------- a queue that need not run over empties

  lemma CanSendNext(w: World, s: Sink)
    requires ValidConfig(w.cfg) && UpdatesOnly(w.cfg.yrs, s.queue) && s.queue != map[] && Drains(w.cfg, s.queue)
    requires w.cfg.pop(s.queue) in s.queue && Unsent(s.queue[w.cfg.pop(s.queue)])
    ensures CanSendHead(w, s)
    ensures var id := w.cfg.pop(s.queue);
            var left := Absorb(w.cfg, s.queue, id).queue;
            && Drains(w.cfg, left) && |left| < |s.queue| && UpdatesOnly(w.cfg.yrs, left)
            && forall j <- left :: j in s.queue && j != id && left[j] == s.queue[j]
  {
    UpdatesDoNotTie(w.cfg.yrs, s.queue);
    DrainsIs(w.cfg, s.queue);
    var id := w.cfg.pop(s.queue);
    var head, rest := s.queue[id].msg, s.queue - {id};
    MergeLoopShrinks(w.cfg, head, rest);
    MergeLoopConserves(w.cfg, head, rest);
    hide AsUpdate; hide Ops; hide HeapOps; hide Drains; hide Overflows; hide MergeLoop;
    assert rest.Keys == s.queue.Keys - {id} && |rest.Keys| < |s.queue.Keys|;
  }

  /** Unsent updates, and none that must run over the limit. */
  ghost predicate Light(cfg: Config, queue: Queue)
    requires ValidConfig(cfg)
  {
    UpdatesOnly(cfg.yrs, queue) && Drains(cfg, queue) && forall id <- queue :: Unsent(queue[id])
  }

  ghost predicate Flushable(w: World, n: Network, c: M.ClientId)
    requires ValidConfig(w.cfg) && Paired(n)
  {
    c in n.sinks && M.Attached(n.core, c) && Resting(PeerOf(n, c)) && Light(w.cfg, n.sinks[c].queue)
  }

  lemma {:induction false} EmptyQueue(w: World, h: History, c: M.ClientId) returns (h': History)
    requires Valid(w, h) && ValidConfig(w.cfg) && Reads(w.cfg.yrs, w.item) && Flushable(w, End(h), c)
    ensures Goes(w, h, h', c, false) && Valid(w, h')
    ensures M.Attached(End(h').core, c) && Resting(PeerOf(End(h'), c)) && End(h').sinks[c].queue == map[]
    ensures PeerOf(End(h'), c).rest.unqueued == PeerOf(End(h), c).rest.unqueued
    decreases |End(h).sinks[c].queue|
  {
    var s := End(h).sinks[c];
    if s.queue == map[] {
      Stays(w, h, c, false);
      h' := h;
    } else {
      assert IsTop(s.queue, w.cfg.pop(s.queue));
      CanSendNext(w, s);
      hide Valid; hide Goes; hide ValidConfig; hide Reads; hide Drains; hide Absorb; hide CanSendHead; hide IsTop;
      hide UpdatesOnly; hide M.ItemOps;
      var a := SyncSettles.Round(w, h, c, false);
      EditsStay(w, h, a, c, false);
      h' := EmptyQueue(w, a, c);
      EditsStay(w, a, h', c, false);
      GoesAgain(w, h, a, h', c, false);
    }
  }

  lemma PopIs(w: World, c: M.ClientId, p: Peer)
    requires ValidConfig(w.cfg) && Resting(p) && p.rest.phase != M.Offline && p.sink.queue != map[]
    requires w.cfg.pop(p.sink.queue) in p.sink.queue && !Unsent(p.sink.queue[w.cfg.pop(p.sink.queue)])
    requires p.sink.queue[w.cfg.pop(p.sink.queue)].msg in p.sink.socket
    ensures Possible(w.cfg, w.item, p, SENDS)
    ensures Next(w.cfg, w.item, c, p, SENDS)
         == p.(sink := p.sink.(queue := p.sink.queue - {w.cfg.pop(p.sink.queue)}))
  {
    hide Absorb; hide ValidConfig; hide Overflows;
    assert p.rest.toServer + [] == p.rest.toServer;
  }

  /** News received, and not paused. */
  lemma ComeToRest(w: World, h: History, c: M.ClientId) returns (h': History)
    requires Valid(w, h) && ValidConfig(w.cfg) && c in End(h).sinks && Steady(w, End(h), c)
    ensures Goes(w, h, h', c, false) && Valid(w, h') && c in End(h').sinks && Paired(End(h'))
    ensures M.Attached(End(h').core, c) && Resting(PeerOf(End(h'), c))
    ensures End(h').sinks[c].queue == End(h).sinks[c].queue && End(h').sinks[c].socket == End(h).sinks[c].socket
    ensures PeerOf(End(h'), c).rest.unqueued == PeerOf(End(h), c).rest.unqueued
  {
    hide Valid; hide Goes; hide ValidConfig; hide UpdatesOnly;
    Lengths(w, h);
    var a := ReceiveNews(w, h, c);
    EditsStay(w, h, a, c, false);
    h' := SyncSettles.FreeRunner(w, a, c, false);
    EditsStay(w, a, h', c, false);
    GoesAgain(w, h, a, h', c, false);
  }

  /** A head that was handed over and left in the queue, with light ones behind it. */
  ghost predicate LightBehind(cfg: Config, s: Sink)
    requires ValidConfig(cfg)
  {
    && s.queue != map[] && cfg.pop(s.queue) in s.queue && !Unsent(s.queue[cfg.pop(s.queue)])
    && s.queue[cfg.pop(s.queue)].msg in s.socket && Light(cfg, s.queue - {cfg.pop(s.queue)})
  }

  lemma SplitQueue(w: World, n: Network, c: M.ClientId)
    requires ValidConfig(w.cfg) && Paired(n) && c in n.sinks && Orderly(PeerOf(n, c))
    requires Steady(w, n, c) && CanFlush(w.cfg, n.sinks[c])
    ensures Light(w.cfg, n.sinks[c].queue) || LightBehind(w.cfg, n.sinks[c])
  {
    hide AsUpdate; hide Drains; hide AcksSent; hide SentOnce;
    var s := n.sinks[c];
    if s.queue == map[] {
      NothingDrains(w.cfg);
    } else {
      OthersUnsent(w.cfg, PeerOf(n, c));
      RestUpdates(w.cfg.yrs, s.queue, w.cfg.pop(s.queue));
    }
  }

  lemma PopHandled(w: World, h: History, c: M.ClientId) returns (h': History)
    requires Valid(w, h) && ValidConfig(w.cfg) && c in End(h).sinks
    requires M.Attached(End(h).core, c) && Resting(PeerOf(End(h), c)) && LightBehind(w.cfg, End(h).sinks[c])
    ensures Goes(w, h, h', c, false) && Valid(w, h') && Paired(End(h')) && Flushable(w, End(h'), c)
    ensures PeerOf(End(h'), c).rest.unqueued == PeerOf(End(h), c).rest.unqueued
  {
    PopIs(w, c, PeerOf(End(h), c));
    hide Valid; hide Goes; hide ValidConfig; hide Light; hide Next; hide Possible; hide Unsent;
    h' := DoLocal(w, h, c, SENDS, false);
    EditsStay(w, h, h', c, false);
  }

  /** And no head left that was already given to a send. */
  lemma MakeFlushable(w: World, h: History, c: M.ClientId) returns (h': History)
    requires Valid(w, h) && ValidConfig(w.cfg) && Reads(w.cfg.yrs, w.item) && c in End(h).sinks
    requires Steady(w, End(h), c) && CanFlush(w.cfg, End(h).sinks[c])
    ensures Goes(w, h, h', c, false) && Valid(w, h') && Paired(End(h')) && Flushable(w, End(h'), c)
    ensures PeerOf(End(h'), c).rest.unqueued == PeerOf(End(h), c).rest.unqueued
  {
    IsOrderly(w, h);
    Lengths(w, h);
    SplitQueue(w, End(h), c);
    hide Valid; hide Goes; hide ValidConfig; hide Reads; hide AllOrderly; hide CanFlush; hide Steady; hide Light;
    var b := ComeToRest(w, h, c);
    if Light(w.cfg, End(h).sinks[c].queue) {
      h' := b;
    } else {
      h' := PopHandled(w, b, c);
      EditsStay(w, b, h', c, false);
      GoesAgain(w, h, b, h', c, false);
    }
  }

  lemma OthersUnsent(cfg: Config, p: Peer)
    requires ValidConfig(cfg) && Orderly(p) && UpdatesOnly(cfg.yrs, p.sink.queue) && p.sink.queue != map[]
    ensures cfg.pop(p.sink.queue) in p.sink.queue
    ensures forall j <- p.sink.queue :: j != cfg.pop(p.sink.queue) ==> Unsent(p.sink.queue[j])
  {
    hide AsUpdate; hide AcksSent; hide SentOnce;
    TopIsOldest(cfg, p.sink.queue);
    var id := cfg.pop(p.sink.queue);
    forall j <- p.sink.queue | j != id ensures Unsent(p.sink.queue[j]) {
      assert id < j && p.sink.queue[id].msg.ClientUpdateSync? && p.sink.queue[j].msg.ClientUpdateSync?;
    }
  }

  lemma {:induction false} SendEdits(w: World, h: History, c: M.ClientId) returns (h': History)
    requires Valid(w, h) && Sound(w) && c in End(h).sinks && M.AllEdits(End(h).core) <= w.ops
    requires M.Attached(End(h).core, c) && Resting(PeerOf(End(h), c)) && End(h).sinks[c].queue == map[]
    ensures Goes(w, h, h', c, false) && Valid(w, h') && Paired(End(h')) && AtPeace(End(h'), c)
    decreases |PeerOf(End(h), c).rest.unqueued|
  {
    if PeerOf(End(h), c).rest.unqueued == [] {
      Stays(w, h, c, false);
      h' := h;
    } else {
      hide Valid; hide Goes; hide Sound; hide M.AllEdits; hide AtPeace;
      var a := UpdateArrives(w, h, c);
      EditsStay(w, h, a, c, false);
      h' := SendEdits(w, a, c);
      EditsStay(w, a, h', c, false);
      GoesAgain(w, h, a, h', c, false);
    }
  }

  lemma FlushOne(w: World, h: History, c: M.ClientId) returns (h': History)
    requires Valid(w, h) && Sound(w) && c in End(h).sinks && M.AllEdits(End(h).core) <= w.ops
    requires Flushes(w, End(h), c)
    ensures Goes(w, h, h', c, false) && Valid(w, h') && Paired(End(h')) && AtPeace(End(h'), c)
  {
    SoundConfig(w);
    assert Steady(w, End(h), c) && CanFlush(w.cfg, End(h).sinks[c]);
    hide *;
    var a := MakeFlushable(w, h, c);
    EditsStay(w, h, a, c, false);
    var b := EmptyQueue(w, a, c);
    EditsStay(w, a, b, c, false);
    h' := SendEdits(w, b, c);
    EditsStay(w, b, h', c, false);
    GoesAgain(w, h, a, b, c, false);
    GoesAgain(w, h, b, h', c, false);
  }

  ghost predicate Flushes(w: World, n: Network, c: M.ClientId)
    requires ValidConfig(w.cfg) && Paired(n)
  {
    c in n.sinks && Steady(w, n, c) && CanFlush(w.cfg, n.sinks[c])
  }

  lemma FlushesStill(w: World, n: Network, n': Network, c: M.ClientId)
    requires ValidConfig(w.cfg) && Paired(n) && Paired(n') && OthersUndisturbed(n, n', c)
    ensures forall d <- n.sinks :: d != c && Flushes(w, n, d) ==> Flushes(w, n', d)
  {
    hide UpdatesOnly; hide CanFlush;
    forall d <- n.sinks | d != c ensures Flushes(w, n, d) ==> Flushes(w, n', d) {
      assert Undisturbed(n, n', d);
      assert d in n.core.subs ==> d in n'.core.subs && n'.core.subs[d] == n.core.subs[d];
    }
  }

  lemma {:induction false} FlushAll(w: World, h: History, todo: set<M.ClientId>) returns (h': History)
    requires Valid(w, h) && Sound(w) && M.AllEdits(End(h).core) <= w.ops && todo <= End(h).sinks.Keys
    requires forall d <- todo :: Flushes(w, End(h), d)
    requires forall d <- End(h).sinks :: d !in todo ==> AtPeace(End(h), d)
    ensures SyncSteps.GoesOn(w, h, h', false) && Valid(w, h') && forall d <- End(h').sinks :: AtPeace(End(h'), d)
    decreases todo
  {
    if todo == {} {
      h' := h;
    } else {
      SoundConfig(w);
      hide *;
      Lengths(w, h);
      var c :| c in todo;
      var a := FlushOne(w, h, c);
      OthersStay(w, h, a, c, false);
      Lengths(w, a);
      PeaceGrows(End(h), End(a), todo, c);
      FlushesStill(w, End(h), End(a), c);
      h' := FlushAll(w, a, todo - {c});
      SyncSteps.GoesOnAgain(w, h, a, h', false);
    }
  }

  lemma FlushSettles(w: World, h: History) returns (h': History)
    requires Valid(w, h) && Sound(w) && M.AllEdits(End(h).core) <= w.ops
    requires forall c <- End(h).sinks :: Flushes(w, End(h), c)
    ensures SyncSteps.GoesOn(w, h, h', false) && Agreed(End(h'))
  {
    SoundConfig(w);
    hide *;
    Lengths(w, h);
    var a := FlushAll(w, h, End(h).sinks.Keys);
    Lengths(w, a);
    h' := NewsSettles(w, a);
    SyncSteps.GoesOnAgain(w, h, a, h', false);
  }

  lemma SettlingFlushes(w: World, h: History, more: History, c: M.ClientId)
    requires ValidConfig(w.cfg) && Reads(w.cfg.yrs, w.item) && SyncSteps.GoesOn(w, h, more, false) && Agreed(End(more))
    requires c in End(h).sinks && Steady(w, End(h), c)
    ensures CanFlush(w.cfg, End(h).sinks[c])
  {
    forall a <- more.acts[|h.acts|..] ensures !(a.Local? && a.c == c && a.e.StartsHandshake?) {
      var i :| |h.acts| <= i < |more.acts| && more.acts[i] == a;
      assert Benign(more.run[i], more.acts[i], false);
    }
    assert WithoutHandshake(w, h, more, c);
    hide Valid; hide CanFlush; hide Steady;
    if !CanFlush(w.cfg, End(h).sinks[c]) {
      StuckNeedsHandshake(w, h, more, c);
      assert false;
    }
  }

  /** Attached clients with updates queued settle with no new handshake, each queue in the heap's order
      with its merges, if and only if no queue must run over the limit; and then everyone holds exactly
      the union of all edits made so far. */
  lemma ConnectedClientsSettleIff(w: World, h: History)
    requires Valid(w, h) && Sound(w) && M.AllEdits(End(h).core) <= w.ops
    requires forall c <- End(h).sinks :: Steady(w, End(h), c)
    ensures (exists more :: SyncSteps.GoesOn(w, h, more, false) && Agreed(End(more))) <==>
            forall c <- End(h).sinks :: CanFlush(w.cfg, End(h).sinks[c])
  {
    SoundConfig(w);
    hide *;
    if more :| SyncSteps.GoesOn(w, h, more, false) && Agreed(End(more)) {
      forall c <- End(h).sinks ensures CanFlush(w.cfg, End(h).sinks[c]) {
        SettlingFlushes(w, h, more, c);
      }
    } else if forall c <- End(h).sinks :: CanFlush(w.cfg, End(h).sinks[c]) {
      var more := FlushSettles(w, h);
    }
  }
}
