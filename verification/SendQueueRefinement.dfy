/** A client whose queue is the heap-based one, with its merge loop, acks, timeouts, re-sends, failed
    sends and losses, does nothing that the whole-system machine's client may not do. */
module SendQueueRefinement {
  import opened Common
  import opened SendQueue
  import opened SendQueueRuns
  import M = SyncMachine

  /** How messages read as protocol items; an update reads as the operations it carries. */
  ghost predicate Reads(yrs: Yrs, item: CollabMessage -> M.Item) {
    forall m :: (item(m).UpdateSync? <==> m.ClientUpdateSync?) && (item(m).InitSync? <==> m.ClientInitSync?)
             && (m.ClientUpdateSync? ==> item(m).update == Ops(yrs, m))
  }

  /** What a client queues: its init, its answer to the server's init, and updates. */
  predicate ClientMessage(yrs: Yrs, m: CollabMessage, id: MsgId) {
    (m.ClientInitSync? || m.ServerInitSync? || IsUpdate(yrs, m)) && m.msgId == id
  }

  predicate ClientQueue(yrs: Yrs, queue: Queue) {
    forall id <- queue :: ClientMessage(yrs, queue[id].msg, id)
  }

  // ---------------------------------------------------------------- the client with its real queue

  /** A client of the machine, whose own queue is unused, and its sink. */
  datatype Peer = Peer(rest: M.Client, sink: Sink)

  /** Was the message handed to the socket with the contents it has now? */
  ghost predicate HandedOver(item: CollabMessage -> M.Item, socket: seq<CollabMessage>, m: CollabMessage) {
    exists x <- socket :: IdOf(x) == IdOf(m) && item(x) == item(m)
  }

  ghost function Abs(item: CollabMessage -> M.Item, s: Sink): M.Queue {
    map id | id in s.queue :: M.Queued(item(s.queue[id].msg), HandedOver(item, s.socket, s.queue[id].msg))
  }

  /** The machine's client that a peer amounts to. */
  ghost function View(item: CollabMessage -> M.Item, p: Peer): M.Client {
    p.rest.(queue := Abs(item, p.sink), nextId := p.sink.counter)
  }

  datatype PeerEvent =
    | Edits(n: nat)
    | QueuesEdit(i: nat, m: CollabMessage)
    | StartsHandshake(m: CollabMessage)
    | Receives
    | AppliesReply
    | AnswersReply(m: CollabMessage)
    | Runs(e: Event)
    | Cancelled

  /** The runner's completion is gone: no queued message holds it any more. */
  predicate CompletionGone(s: Sink) {
    s.runner.Waiting? && forall id <- s.queue :: s.queue[id].tx != Some(s.runner.token)
  }

  /** The message `m` is queued under the next id and reads as `i`. */
  ghost predicate Carries(yrs: Yrs, item: CollabMessage -> M.Item, s: Sink, m: CollabMessage, i: M.Item) {
    ClientMessage(yrs, m, s.counter) && item(m) == i
  }

  ghost predicate Possible(cfg: Config, item: CollabMessage -> M.Item, p: Peer, e: PeerEvent) {
    match e
    case Edits(_) => true
    case QueuesEdit(i, m) =>
      i < |p.rest.unqueued| && Carries(cfg.yrs, item, p.sink, m, M.UpdateSync(p.rest.unqueued[i]))
    case StartsHandshake(m) =>
      Carries(cfg.yrs, item, p.sink, m, M.InitSync(M.CrdtDocument.StateVectorOf(p.rest.doc)))
    case Receives => p.rest.fromServer != [] && p.rest.processing == []
    case AppliesReply => p.rest.processing != [] && !p.rest.processing[0].Step1?
    case AnswersReply(m) =>
      && p.rest.processing != [] && p.rest.processing[0].Step1?
      && var diff := M.CrdtDocument.EncodeStateAsUpdate(p.rest.doc, p.rest.processing[0].sv);
         Carries(cfg.yrs, item, p.sink, m, M.ServerInit(diff))
    case Runs(r) =>
      && Enabled(p.sink, r) && !r.QueueUpdate? && !r.AckArrives?
      && (r.Process? && r.sendOk ==> p.rest.phase != M.Offline)
    case Cancelled => CompletionGone(p.sink)
  }

  /** What a queue step handed to the socket travels to the server. */
  ghost function Upstreamed(item: CollabMessage -> M.Item, before: Sink, after: Sink): seq<M.Upstream> {
    var n := |after.socket|;
    if n <= |before.socket| || IdOf(after.socket[n - 1]) == None then []
    else [M.Upstream(IdOf(after.socket[n - 1]).value, M.Payload(item(after.socket[n - 1])))]
  }

  /** The two ways in which the queue loses a message: a merge over the limit, and popping a head that
      was not handed over as it stands. */
  ghost predicate Loses(cfg: Config, s: Sink, e: Event)
    requires ValidConfig(cfg)
  {
    Overflowing(cfg, s, e) || Abandons(cfg, s, e)
  }

  ghost function Next(cfg: Config, item: CollabMessage -> M.Item, c: M.ClientId, p: Peer, e: PeerEvent): Peer
    requires ValidConfig(cfg) && Possible(cfg, item, p, e)
  {
    var Peer(rest, s) := p;
    match e
    case Edits(n) => Peer(M.Edit(c, rest, n), s)
    case QueuesEdit(i, m) =>
      Peer(rest.(unqueued := rest.unqueued[..i] + rest.unqueued[i + 1..]), Push(s, m))
    case StartsHandshake(m) =>
      Peer(rest.(phase := M.AwaitingReply(s.counter)), Push(s.(queue := map[]), m))
    case Receives =>
      if rest.fromServer[0].Ack? then
        var (s', accepted) := AckMsg(cfg, s, rest.fromServer[0].id);
        Peer(M.Receive(rest, accepted), s')
      else Peer(M.Receive(rest, true), s)
    case AppliesReply => Peer(M.ProcessReply(rest), s)
    case AnswersReply(m) =>
      var synced := rest.phase == M.AwaitingReply(rest.processingId);
      Peer(rest.(processing := rest.processing[1..],
                 phase := if synced then M.Synced(rest.processingSub) else rest.phase),
           Push(s, m))
    case Runs(r) =>
      var s' := Apply(cfg, s, r);
      Peer(rest.(toServer := rest.toServer + Upstreamed(item, s, s'),
                 phase := if Loses(cfg, s, r) then M.AfterLoss(rest.phase) else rest.phase),
           s')
    case Cancelled => Peer(rest, s.(runner := Idle))
  }

  // ---------------------------------------------------------------- what every run of the queue keeps

  /** A message only grows after it was handed over. */
  ghost predicate OnlyGrows(yrs: Yrs, s: Sink) {
    forall x <- s.socket :: IdOf(x).Some? && IdOf(x).value in s.queue ==>
      Ops(yrs, x) <= Ops(yrs, s.queue[IdOf(x).value].msg)
  }

  ghost predicate SinkInv(yrs: Yrs, s: Sink) {
    && ClientQueue(yrs, s.queue)
    && (forall id <- s.queue :: id < s.counter)
    && (forall x <- s.socket :: IdOf(x).Some? && IdOf(x).value < s.counter)
    && OnlyGrows(yrs, s)
  }

  // ---------------------------------------------------------------- the merge loop, as absorbed ids

  /** If an update is at the head, only updates are queued. */
  lemma UpdateHeadMeansUpdatesOnly(cfg: Config, queue: Queue)
    requires ValidConfig(cfg) && ClientQueue(cfg.yrs, queue) && queue != map[]
    requires cfg.pop(queue) in queue && queue[cfg.pop(queue)].msg.ClientUpdateSync?
    ensures UpdatesOnly(cfg.yrs, queue)
  {
    assert IsTop(queue, cfg.pop(queue));
  }

  function SetOf(ids: seq<MsgId>): set<MsgId> {
    set id | id in ids
  }

  /** The operations of the queued messages with these ids. */
  function OpsOf(yrs: Yrs, queue: Queue, ids: set<MsgId>): set<Op>
    requires ids <= queue.Keys
  {
    set a, op | a in ids && op in Ops(yrs, queue[a].msg) :: op
  }

  lemma OpsOfOneMore(yrs: Yrs, queue: Queue, id: MsgId, ids: set<MsgId>)
    requires id in queue && ids <= (queue - {id}).Keys
    ensures OpsOf(yrs, queue, {id} + ids) == Ops(yrs, queue[id].msg) + OpsOf(yrs, queue - {id}, ids)
  {
    hide Ops;
    var rest := queue - {id};
    assert forall a <- ids :: a in rest && rest[a] == queue[a];
    assert id in {id} + ids;
    assert forall a <- ids :: a in {id} + ids;
  }

  /** The message that the merge loop pops and does not put back, as a set. */
  function Gone(dropped: Option<MsgId>): set<MsgId> {
    if dropped.Some? then {dropped.value} else {}
  }

  /** What the merge loop did to the heap: one message gone at most, some absorbed into the head. */
  ghost predicate Absorbed(yrs: Yrs, head: CollabMessage, queue: Queue, out: Outcome) {
    var gone, absorbed := Gone(out.dropped), SetOf(out.absorbed);
    && gone <= queue.Keys
    && absorbed <= (queue - gone).Keys && out.queue == queue - gone - absorbed
    && out.head.ClientUpdateSync? && IdOf(out.head) == IdOf(head)
    && Ops(yrs, out.head) == Ops(yrs, head) + OpsOf(yrs, queue, absorbed)
  }

  lemma {:induction false} MergeLoopAbsorbs(cfg: Config, head: CollabMessage, queue: Queue)
    requires ValidConfig(cfg) && IsUpdate(cfg.yrs, head) && UpdatesOnly(cfg.yrs, queue)
    ensures Absorbed(cfg.yrs, head, queue, MergeLoop(cfg, head, queue))
    decreases |queue|
  {
    hide Ops;
    hide AsUpdate;
    hide Merge;
    hide IsTop;
    hide Lawful;
    hide Absorbed;
    NoneAbsorbed(cfg.yrs, head, queue);
    if queue != map[] {
      TopIsOldest(cfg, queue);
      var id := cfg.pop(queue);
      var rest := queue - {id};
      MergeMeaning(cfg.yrs, cfg.maximumPayloadSize, head, queue[id].msg);
      var r := Merge(cfg.yrs, cfg.maximumPayloadSize, head, queue[id].msg);
      match r {
        case Error =>
        case Halt => OneGone(cfg.yrs, head, queue, id);
        case Continue(merged) =>
          assert rest.Keys == queue.Keys - {id} && |rest.Keys| < |queue.Keys|;
          MergeLoopAbsorbs(cfg, merged, rest);
          OneMoreAbsorbed(cfg.yrs, head, merged, queue, id, MergeLoop(cfg, merged, rest));
      }
    }
  }

  lemma NoneAbsorbed(yrs: Yrs, head: CollabMessage, queue: Queue)
    requires head.ClientUpdateSync?
    ensures Absorbed(yrs, head, queue, Outcome(head, queue, [], None))
  {
    hide Ops;
    NoOps(yrs, queue);
  }

  lemma OneGone(yrs: Yrs, head: CollabMessage, queue: Queue, id: MsgId)
    requires head.ClientUpdateSync? && id in queue
    ensures Absorbed(yrs, head, queue, Outcome(head, queue - {id}, [], Some(id)))
  {
    hide Ops;
    NoOps(yrs, queue);
    NoOps(yrs, queue - {id});
  }

  lemma OneMoreAbsorbed(yrs: Yrs, head: CollabMessage, merged: CollabMessage, queue: Queue, id: MsgId, out: Outcome)
    requires id in queue && Absorbed(yrs, merged, queue - {id}, out) && merged.ClientUpdateSync?
    requires head.ClientUpdateSync? && IdOf(merged) == IdOf(head)
    requires Ops(yrs, merged) == Ops(yrs, head) + Ops(yrs, queue[id].msg)
    ensures Absorbed(yrs, head, queue, out.(absorbed := [id] + out.absorbed))
  {
    hide Ops;
    hide OpsOf;
    OpsOfOneMore(yrs, queue, id, SetOf(out.absorbed));
    assert SetOf([id] + out.absorbed) == {id} + SetOf(out.absorbed);
    hide SetOf;
    assert queue - {id} - Gone(out.dropped) - SetOf(out.absorbed)
        == queue - Gone(out.dropped) - ({id} + SetOf(out.absorbed));
  }

  lemma NoOps(yrs: Yrs, queue: Queue)
    ensures OpsOf(yrs, queue, {}) == {} && SetOf([]) == {} && queue - {} == queue
  {
  }

  lemma OpsOfAgree(yrs: Yrs, queue: Queue, id: MsgId, gone: set<MsgId>, ids: set<MsgId>)
    requires ids <= (queue - {id} - gone).Keys
    ensures queue - {id} - gone == queue - gone - {id}
    ensures OpsOf(yrs, queue - {id}, ids) == OpsOf(yrs, queue - gone - {id}, ids)
  {
    hide Ops;
    assert forall a <- ids :: (queue - {id})[a] == (queue - gone - {id})[a];
  }

  /** The head after the merge loop, and what is left, in terms of the lost and the absorbed ids. */
  lemma AbsorbIs(cfg: Config, queue: Queue)
    requires ValidConfig(cfg) && ClientQueue(cfg.yrs, queue) && queue != map[] && cfg.pop(queue) in queue
    ensures var id := cfg.pop(queue);
            var out := Absorb(cfg, queue, id);
            var left, absorbed := queue - Gone(out.dropped), SetOf(out.absorbed);
            && (out.dropped.Some? <==> queue[id].msg.ClientUpdateSync? && Overflows(cfg, queue[id].msg, queue - {id}))
            && Gone(out.dropped) <= (queue - {id}).Keys && id in left
            && absorbed <= (left - {id}).Keys && out.queue == left - {id} - absorbed
            && ((out.head == queue[id].msg && absorbed == {})
                || (&& UpdatesOnly(cfg.yrs, queue) && IsUpdate(cfg.yrs, out.head) && out.head.msgId == id
                    && Ops(cfg.yrs, out.head) == Ops(cfg.yrs, queue[id].msg) + OpsOf(cfg.yrs, left - {id}, absorbed)))
  {
    hide Ops;
    hide AsUpdate;
    hide OpsOf;
    hide MergeLoop;
    hide Overflows;
    var id := cfg.pop(queue);
    if queue[id].msg.ClientUpdateSync? {
      var out := Absorb(cfg, queue, id);
      UpdateHeadMeansUpdatesOnly(cfg, queue);
      DroppedIffOverflows(cfg, queue[id].msg, queue - {id});
      MergeLoopAbsorbs(cfg, queue[id].msg, queue - {id});
      MergeLoopConserves(cfg, queue[id].msg, queue - {id});
      OpsOfAgree(cfg.yrs, queue, id, Gone(out.dropped), SetOf(out.absorbed));
    } else {
      assert SetOf([]) == {};
    }
  }

  lemma MergedReads(yrs: Yrs, item: CollabMessage -> M.Item, s: Sink, id: MsgId, head: CollabMessage,
                    absorbed: set<MsgId>)
    requires Reads(yrs, item) && id in s.queue && absorbed <= (s.queue - {id}).Keys
    requires || (head == s.queue[id].msg && absorbed == {})
             || (&& UpdatesOnly(yrs, s.queue) && head.ClientUpdateSync?
                 && Ops(yrs, head) == Ops(yrs, s.queue[id].msg) + OpsOf(yrs, s.queue - {id}, absorbed))
    ensures var q := Abs(item, s);
            M.CanAbsorb(q, id, absorbed) && M.MergedItem(q, id, absorbed) == item(head)
  {
    hide Ops;
    hide AsUpdate;
    hide HandedOver;
    var q := Abs(item, s);
    if UpdatesOnly(yrs, s.queue) && head.ClientUpdateSync? {
      assert forall a <- absorbed :: q[a].item.update == Ops(yrs, (s.queue - {id})[a].msg);
      assert item(head).update == M.MergedItem(q, id, absorbed).update;
    }
  }

  /** What a send puts on the socket changes nothing for the other messages. */
  lemma OthersAsBefore(item: CollabMessage -> M.Item, socket: seq<CollabMessage>, sent: CollabMessage, m: CollabMessage)
    requires IdOf(sent) != IdOf(m)
    ensures HandedOver(item, socket + [sent], m) <==> HandedOver(item, socket, m)
  {
    assert forall x :: x in socket + [sent] <==> x in socket || x == sent;
  }

  /** The head counts as handed over if the send worked, or if it had been handed over with what it
      still holds. */
  lemma HeadHandedOver(yrs: Yrs, item: CollabMessage -> M.Item, s: Sink, id: MsgId, head: CollabMessage)
    requires Reads(yrs, item) && SinkInv(yrs, s) && id in s.queue && IdOf(head) == Some(id)
    requires head == s.queue[id].msg || (head.ClientUpdateSync? && s.queue[id].msg.ClientUpdateSync?)
    requires Ops(yrs, s.queue[id].msg) <= Ops(yrs, head)
    ensures HandedOver(item, s.socket + [head], head)
    ensures HandedOver(item, s.socket, head) <==>
            HandedOver(item, s.socket, s.queue[id].msg) && item(head) == item(s.queue[id].msg)
  {
    hide Ops;
    hide AsUpdate;
    assert head in s.socket + [head];
    if HandedOver(item, s.socket, head) {
      var x :| x in s.socket && IdOf(x) == IdOf(head) && item(x) == item(head);
      assert item(head) == item(s.queue[id].msg);
    }
  }

  lemma AbsUpdated(item: CollabMessage -> M.Item, s: Sink, s': Sink, id: MsgId, absorbed: set<MsgId>, p: PendingMessage)
    requires id in s.queue && id !in absorbed && s'.queue == (s.queue - {id} - absorbed)[id := p]
    requires forall j | j in s.queue - {id} - absorbed ::
               HandedOver(item, s'.socket, s.queue[j].msg) <==> HandedOver(item, s.socket, s.queue[j].msg)
    ensures Abs(item, s') ==
            (Abs(item, s) - absorbed)[id := M.Queued(item(p.msg), HandedOver(item, s'.socket, p.msg))]
  {
    hide HandedOver;
  }

  /** After the send, in terms of the machine's queue. */
  lemma AbsAfterSend(yrs: Yrs, item: CollabMessage -> M.Item, s: Sink, id: MsgId, out: Outcome, absorbed: set<MsgId>,
                     sendOk: bool)
    requires Reads(yrs, item) && SinkInv(yrs, s) && id in s.queue
    requires absorbed <= (s.queue - {id}).Keys && out.queue == s.queue - {id} - absorbed
    requires ClientMessage(yrs, out.head, id)
    requires out.head == s.queue[id].msg || (out.head.ClientUpdateSync? && s.queue[id].msg.ClientUpdateSync?)
    requires Ops(yrs, s.queue[id].msg) <= Ops(yrs, out.head)
    ensures var same := item(out.head) == item(s.queue[id].msg);
            Abs(item, AfterSend(s, id, out, sendOk))
            == (Abs(item, s) - absorbed)[id := M.Queued(item(out.head), sendOk || (Abs(item, s)[id].sent && same))]
  {
    hide Ops;
    hide AsUpdate;
    assert IdOf(out.head) == Some(id);
    HeadHandedOver(yrs, item, s, id, out.head);
    forall j | j in out.queue
      ensures HandedOver(item, s.socket + [out.head], s.queue[j].msg) <==> HandedOver(item, s.socket, s.queue[j].msg)
    {
      OthersAsBefore(item, s.socket, out.head, s.queue[j].msg);
    }
    hide HandedOver; hide Reads; hide SinkInv; hide ClientMessage;
    AbsUpdated(item, s, AfterSend(s, id, out, sendOk), id, absorbed,
               PendingMessage(out.head, Processing, Some(s.nextToken)));
  }

  lemma SendKeepsSink(yrs: Yrs, s: Sink, id: MsgId, out: Outcome, absorbed: set<MsgId>, sendOk: bool)
    requires SinkInv(yrs, s) && id in s.queue
    requires out.queue == s.queue - {id} - absorbed
    requires ClientMessage(yrs, out.head, id)
    requires Ops(yrs, s.queue[id].msg) <= Ops(yrs, out.head)
    ensures SinkInv(yrs, AfterSend(s, id, out, sendOk))
  {
    hide Ops;
    hide AsUpdate;
    var s' := AfterSend(s, id, out, sendOk);
    assert forall x :: x in s'.socket <==> x in s.socket || (sendOk && x == out.head);
  }

  /** What a send merges from: the queue without the message that the merge drops. */
  ghost function Remaining(s: Sink, out: Outcome): Sink {
    s.(queue := s.queue - Gone(out.dropped))
  }

  /** Sending the head, whether the send works or fails, is the machine's send or merge, with the
      absorbed messages made explicit, once the message that the merge drops is lost. */
  lemma SendRefines(cfg: Config, item: CollabMessage -> M.Item, s: Sink, sendOk: bool)
    requires ValidConfig(cfg) && Reads(cfg.yrs, item) && SinkInv(cfg.yrs, s)
    requires s.queue != map[] && cfg.pop(s.queue) in s.queue
    requires var p := s.queue[cfg.pop(s.queue)]; p.state == Pending || p.state == Timeout
    ensures var id := cfg.pop(s.queue);
            var out := Absorb(cfg, s.queue, id);
            var s', q, absorbed := TrySend(cfg, s, sendOk), Abs(item, Remaining(s, out)), SetOf(out.absorbed);
            && SinkInv(cfg.yrs, s')
            && q == Abs(item, s) - Gone(out.dropped) && Gone(out.dropped) <= Abs(item, s).Keys
            && M.CanAbsorb(q, id, absorbed)
            && M.MergedItem(q, id, absorbed) == item(out.head) && IdOf(out.head) == Some(id)
            && s'.counter == s.counter
            && s'.socket == (if sendOk then s.socket + [out.head] else s.socket)
            && Abs(item, s') == M.MergeInto(q, id, absorbed, sendOk || (q[id].sent && item(out.head) == q[id].item))
  {
    hide Ops;
    hide AsUpdate;
    hide Overflows;
    var id := cfg.pop(s.queue);
    var out := Absorb(cfg, s.queue, id);
    var absorbed := SetOf(out.absorbed);
    AbsorbIs(cfg, s.queue);
    TrySendIs(cfg, s, sendOk);
    var s1 := Remaining(s, out);
    assert AfterSend(s1, id, out, sendOk) == AfterSend(s, id, out, sendOk);
    RemainingIs(cfg.yrs, item, s, Gone(out.dropped));
    hide Absorb; hide TrySend; hide HandedOver; hide OpsOf; hide OnlyGrows;
    MergedReads(cfg.yrs, item, s1, id, out.head, absorbed);
    assert ClientMessage(cfg.yrs, out.head, id);
    AbsAfterSend(cfg.yrs, item, s1, id, out, absorbed, sendOk);
    SendKeepsSink(cfg.yrs, s1, id, out, absorbed, sendOk);
  }

  lemma RemainingIs(yrs: Yrs, item: CollabMessage -> M.Item, s: Sink, gone: set<MsgId>)
    requires SinkInv(yrs, s)
    ensures var s' := s.(queue := s.queue - gone);
            SinkInv(yrs, s') && Abs(item, s') == Abs(item, s) - gone
    ensures UpdatesOnly(yrs, s.queue) ==> UpdatesOnly(yrs, s.queue - gone)
  {
    hide Ops;
    hide AsUpdate;
    hide HandedOver;
  }

  // ---------------------------------------------------------------- pushes, pops and marks

  lemma PushRefines(yrs: Yrs, item: CollabMessage -> M.Item, s: Sink, m: CollabMessage)
    requires SinkInv(yrs, s) && ClientMessage(yrs, m, s.counter)
    ensures SinkInv(yrs, Push(s, m))
    ensures Abs(item, Push(s, m)) == Abs(item, s)[s.counter := M.Queued(item(m), false)]
  {
    hide Ops;
    hide AsUpdate;
    assert !HandedOver(item, s.socket, m);
    assert Push(s, m).queue.Keys == s.queue.Keys + {s.counter};
  }

  lemma ClearRefines(yrs: Yrs, item: CollabMessage -> M.Item, s: Sink)
    requires SinkInv(yrs, s)
    ensures SinkInv(yrs, s.(queue := map[])) && Abs(item, s.(queue := map[])) == map[]
  {
  }

  lemma PopRefines(yrs: Yrs, item: CollabMessage -> M.Item, s: Sink, id: MsgId, runner: Runner)
    requires SinkInv(yrs, s) && id in s.queue
    ensures var s' := s.(queue := s.queue - {id}, runner := runner);
            SinkInv(yrs, s') && Abs(item, s') == Abs(item, s) - {id}
    ensures s.queue[id].msg in s.socket ==> Abs(item, s)[id].sent
  {
    hide Ops;
    hide AsUpdate;
  }

  /** A change of state or completion, or of the runner, is no step of the machine. */
  lemma MarkRefines(yrs: Yrs, item: CollabMessage -> M.Item, s: Sink, id: MsgId, state: MessageState,
                    tx: Option<Token>, runner: Runner)
    requires SinkInv(yrs, s) && id in s.queue
    ensures var s' := s.(queue := s.queue[id := PendingMessage(s.queue[id].msg, state, tx)], runner := runner);
            SinkInv(yrs, s') && Abs(item, s') == Abs(item, s)
  {
    hide Ops;
    hide AsUpdate;
    hide HandedOver;
  }

  // ---------------------------------------------------------------- every step refines

  ghost predicate OneStep(c: M.ClientId, cl: M.Client, cl': M.Client) {
    exists l | M.Enabled(cl, l) :: cl' == M.LocalStep(c, cl, l)
  }

  /** No step of the machine's client, one, or two: a loss and then a send. */
  ghost predicate LocalSteps(c: M.ClientId, cl: M.Client, cl': M.Client) {
    cl' == cl || OneStep(c, cl, cl') || exists mid :: OneStep(c, cl, mid) && OneStep(c, mid, cl')
  }

  /** On the machine's side: a loss, if there is one, and then a send or a merge. */
  lemma LossThenSend(c: M.ClientId, cl: M.Client, cl': M.Client, dropped: Option<MsgId>, id: MsgId,
                     absorbed: set<MsgId>, sendOk: bool)
    requires Gone(dropped) <= cl.queue.Keys && M.CanAbsorb(cl.queue - Gone(dropped), id, absorbed)
    requires sendOk ==> cl.phase != M.Offline
    requires var q := cl.queue - Gone(dropped);
             var merged := M.MergedItem(q, id, absorbed);
             cl' == cl.(queue := M.MergeInto(q, id, absorbed, sendOk || (q[id].sent && merged == q[id].item)),
                        phase := if dropped.Some? then M.AfterLoss(cl.phase) else cl.phase,
                        toServer := cl.toServer + if sendOk then [M.Upstream(id, M.Payload(merged))] else [])
    ensures LocalSteps(c, cl, cl')
  {
    hide M.MergedItem; hide M.MergeInto; hide M.Payload; hide M.CanAbsorb;
    assert cl.queue - {} == cl.queue && cl.toServer + [] == cl.toServer;
    var mid := if dropped.Some? then M.Lose(cl, dropped.value) else cl;
    var l := if sendOk then M.DoSend(id, absorbed) else M.DoMerge(id, absorbed);
    assert M.Enabled(mid, l) && cl' == M.LocalStep(c, mid, l);
    if dropped.Some? {
      var loss := M.DoLose(dropped.value);
      assert M.Enabled(cl, loss) && mid == M.LocalStep(c, cl, loss);
      assert OneStep(c, cl, mid);
    }
    assert OneStep(c, mid, cl');
  }

  lemma SendSteps(cfg: Config, item: CollabMessage -> M.Item, c: M.ClientId, p: Peer, e: PeerEvent)
    requires ValidConfig(cfg) && Reads(cfg.yrs, item) && SinkInv(cfg.yrs, p.sink)
    requires Possible(cfg, item, p, e) && e.Runs? && e.e.Process? && Sends(cfg, p.sink, e.e.tooEarly)
    ensures var p' := Next(cfg, item, c, p, e);
            SinkInv(cfg.yrs, p'.sink) && LocalSteps(c, View(item, p), View(item, p'))
  {
    hide Ops;
    hide AsUpdate;
    hide OnlyGrows;
    hide Abs;
    var s := p.sink;
    var p' := Next(cfg, item, c, p, e);
    var id := cfg.pop(s.queue);
    assert IsTop(s.queue, id);
    var out := Absorb(cfg, s.queue, id);
    assert Loses(cfg, s, e.e) <==> out.dropped.Some? by { AbsorbIs(cfg, s.queue); }
    SendRefines(cfg, item, s, e.e.sendOk);
    hide Absorb; hide TrySend; hide IsTop; hide ClientQueue; hide Loses; hide SetOf; hide LocalSteps;
    hide M.MergedItem; hide M.MergeInto; hide M.Payload; hide M.CanAbsorb; hide M.AfterLoss; hide SinkInv; hide Gone;
    LossThenSend(c, View(item, p), View(item, p'), out.dropped, id, SetOf(out.absorbed), e.e.sendOk);
  }

  lemma PopStep(cfg: Config, c: M.ClientId, item: CollabMessage -> M.Item, p: Peer, p': Peer, e: Event, id: MsgId)
    requires ValidConfig(cfg) && id in p.sink.queue && Abs(item, p'.sink) == Abs(item, p.sink) - {id}
    requires Loses(cfg, p.sink, e) || Abs(item, p.sink)[id].sent
    requires p'.rest == p.rest.(phase := if Loses(cfg, p.sink, e) then M.AfterLoss(p.rest.phase) else p.rest.phase)
    requires p'.sink.counter == p.sink.counter
    ensures LocalSteps(c, View(item, p), View(item, p'))
  {
    hide Loses;
    var l := if Loses(cfg, p.sink, e) then M.DoLose(id) else M.DoForget(id);
    assert M.Enabled(View(item, p), l);
    assert View(item, p') == M.LocalStep(c, View(item, p), l);
  }

  lemma ProcessRefines(cfg: Config, item: CollabMessage -> M.Item, c: M.ClientId, p: Peer, e: PeerEvent)
    requires ValidConfig(cfg) && Reads(cfg.yrs, item) && SinkInv(cfg.yrs, p.sink)
    requires Possible(cfg, item, p, e) && e.Runs? && e.e.Process?
    ensures var p' := Next(cfg, item, c, p, e);
            SinkInv(cfg.yrs, p'.sink) && LocalSteps(c, View(item, p), View(item, p'))
  {
    hide Ops;
    hide AsUpdate;
    hide OnlyGrows;
    hide ClientQueue;
    hide Abs;
    var s := p.sink;
    var p' := Next(cfg, item, c, p, e);
    if s.queue != map[] {
      var id := cfg.pop(s.queue);
      assert IsTop(s.queue, id);
      if Sends(cfg, s, e.e.tooEarly) {
        hide *;
        SendSteps(cfg, item, c, p, e);
      } else if PopsHead(cfg, s, e.e) {
        PopRefines(cfg.yrs, item, s, id, s.runner);
        PopStep(cfg, c, item, p, p', e.e, id);
      }
    }
  }

  lemma RunnerRefines(cfg: Config, item: CollabMessage -> M.Item, c: M.ClientId, p: Peer, e: PeerEvent)
    requires ValidConfig(cfg) && Reads(cfg.yrs, item) && SinkInv(cfg.yrs, p.sink)
    requires Possible(cfg, item, p, e)
    requires (e.Runs? && !e.e.Process?) || e.Cancelled?
    ensures var p' := Next(cfg, item, c, p, e);
            SinkInv(cfg.yrs, p'.sink) && LocalSteps(c, View(item, p), View(item, p'))
  {
    hide Ops;
    hide AsUpdate;
    hide ClientQueue;
    hide HandedOver;
    hide OneStep;
    var s := p.sink;
    var p' := Next(cfg, item, c, p, e);
    if s.queue != map[] && e.Runs? && !e.e.SetPaused? {
      var id := cfg.pop(s.queue);
      assert IsTop(s.queue, id);
      if e.e.RunnerAcked? {
        PopRefines(cfg.yrs, item, s, id, Idle);
        PopStep(cfg, c, item, p, p', e.e, id);
      } else {
        MarkRefines(cfg.yrs, item, s, id, Timeout, s.queue[id].tx, Idle);
      }
    } else {
      assert Abs(item, p'.sink) == Abs(item, s);
    }
  }

  lemma ReceiveRefines(cfg: Config, item: CollabMessage -> M.Item, c: M.ClientId, p: Peer)
    requires ValidConfig(cfg) && Reads(cfg.yrs, item) && SinkInv(cfg.yrs, p.sink) && Possible(cfg, item, p, Receives)
    ensures var p' := Next(cfg, item, c, p, Receives);
            SinkInv(cfg.yrs, p'.sink) && LocalSteps(c, View(item, p), View(item, p'))
  {
    hide Ops;
    hide AsUpdate;
    hide OnlyGrows;
    hide ClientQueue;
    hide Abs;
    var s := p.sink;
    var ack := p.rest.fromServer[0].Ack?;
    var accepted := true;
    if ack {
      var id := p.rest.fromServer[0].id;
      accepted := AckMsg(cfg, s, id).1;
      if s.queue != map[] && cfg.pop(s.queue) == id {
        assert IsTop(s.queue, id);
        MarkRefines(cfg.yrs, item, s, id, Done, None, AckMsg(cfg, s, id).0.runner);
      }
    }
    var l := M.DoReceive(accepted);
    assert M.Enabled(View(item, p), l);
    assert View(item, Next(cfg, item, c, p, Receives)) == M.LocalStep(c, View(item, p), l);
  }

  /** What the client does besides running its queue, pushes included. */
  lemma OutsideRefines(cfg: Config, item: CollabMessage -> M.Item, c: M.ClientId, p: Peer, e: PeerEvent)
    requires ValidConfig(cfg) && Reads(cfg.yrs, item) && SinkInv(cfg.yrs, p.sink) && Possible(cfg, item, p, e)
    requires !e.Runs? && !e.Cancelled? && !e.Receives?
    ensures var p' := Next(cfg, item, c, p, e);
            SinkInv(cfg.yrs, p'.sink) && LocalSteps(c, View(item, p), View(item, p'))
  {
    hide Ops;
    hide AsUpdate;
    hide ClientMessage;
    var s := p.sink;
    var l;
    match e {
      case Edits(n) => l := M.DoEdit(n);
      case QueuesEdit(i, m) =>
        PushRefines(cfg.yrs, item, s, m);
        l := M.DoQueueEdit(i);
      case StartsHandshake(m) =>
        ClearRefines(cfg.yrs, item, s);
        PushRefines(cfg.yrs, item, s.(queue := map[]), m);
        l := M.DoStartHandshake;
      case AppliesReply => l := M.DoProcessReply;
      case AnswersReply(m) =>
        PushRefines(cfg.yrs, item, s, m);
        l := M.DoProcessReply;
    }
    hide Abs; hide SinkInv;
    assert M.Enabled(View(item, p), l);
    assert View(item, Next(cfg, item, c, p, e)) == M.LocalStep(c, View(item, p), l);
  }

  /** Every step of a client with the real queue is a step of the machine's client, or none; only a send
      that drops a message is two, the loss and the send. It keeps what the next step needs. */
  lemma SinkRefinesMachine(cfg: Config, item: CollabMessage -> M.Item, c: M.ClientId, p: Peer, e: PeerEvent)
    requires ValidConfig(cfg) && Reads(cfg.yrs, item) && SinkInv(cfg.yrs, p.sink)
    requires Possible(cfg, item, p, e)
    ensures var p' := Next(cfg, item, c, p, e);
            SinkInv(cfg.yrs, p'.sink) && LocalSteps(c, View(item, p), View(item, p'))
  {
    hide *;
    if e.Receives? {
      ReceiveRefines(cfg, item, c, p);
    } else if e.Cancelled? || (e.Runs? && !e.e.Process?) {
      RunnerRefines(cfg, item, c, p, e);
    } else if e.Runs? {
      ProcessRefines(cfg, item, c, p, e);
    } else {
      OutsideRefines(cfg, item, c, p, e);
    }
  }
}
