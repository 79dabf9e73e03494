/** The order in which updates leave the queue, what an ack can complete, and the runs in which an
    edit is lost. */
module SendQueueOrder {
  import opened Common
  import opened MessageCodec
  import opened SendQueue
  import opened SendQueueRuns

  // ---------------------------------------------------------------- order and head stability

  /** A new update never displaces the head of a queue of updates; a client init always does. */
  lemma HeadAfterPush(cfg: Config, s: Sink, update: Bytes, init: Bytes)
    requires ValidConfig(cfg) && QueueInv(cfg, s) && s.queue != map[]
    ensures cfg.pop(Push(s, ClientUpdateSync(s.counter, update)).queue) == cfg.pop(s.queue)
    ensures cfg.pop(Push(s, ClientInitSync(s.counter, init)).queue) == s.counter
  {
    hide AsUpdate;
    TopIsOldest(cfg, s.queue);
    var id := cfg.pop(s.queue);
    var q1 := Push(s, ClientUpdateSync(s.counter, update)).queue;
    var q2 := Push(s, ClientInitSync(s.counter, init)).queue;
    assert IsTop(q1, cfg.pop(q1)) && id in q1 && q1[id] == s.queue[id];
    assert IsTop(q2, cfg.pop(q2)) && s.counter in q2;
  }

  predicate Ascending(socket: seq<CollabMessage>) {
    forall i, j | 0 <= i <= j < |socket| ::
      socket[i].ClientUpdateSync? && socket[j].ClientUpdateSync? ==> socket[i].msgId <= socket[j].msgId
  }

  /** A step hands at most one message to the socket, and it carries the id of the head. */
  lemma StepSocket(cfg: Config, s: Sink, e: Event)
    requires ValidConfig(cfg) && QueueInv(cfg, s)
    ensures var s' := Apply(cfg, s, e);
            || s'.socket == s.socket
            || (&& s.queue != map[] && cfg.pop(s.queue) in s.queue
                && |s'.socket| == |s.socket| + 1 && s'.socket[..|s.socket|] == s.socket
                && s'.socket[|s.socket|].ClientUpdateSync?
                && s'.socket[|s.socket|].msgId == cfg.pop(s.queue))
  {
    hide Ops;
    hide AsUpdate;
    if e.Process? && Sends(cfg, s, e.tooEarly) {
      var id := cfg.pop(s.queue);
      assert id in s.queue && IsUpdate(cfg.yrs, s.queue[id].msg);
      MergeLoopConserves(cfg, s.queue[id].msg, s.queue - {id});
      TrySendIs(cfg, s, e.sendOk);
      hide TrySend; hide MergeLoop; hide QueueInv;
    } else {
      hide QueueInv; hide Absorb;
    }
  }

  lemma StepAscends(cfg: Config, s: Sink, e: Event)
    requires ValidConfig(cfg) && QueueInv(cfg, s)
    requires Ascending(s.socket)
    ensures Ascending(Apply(cfg, s, e).socket)
  {
    StepSocket(cfg, s, e);
    if s.queue != map[] && cfg.pop(s.queue) in s.queue { SentBelow(cfg, s, cfg.pop(s.queue)); }
    hide *;
    var s' := Apply(cfg, s, e);
    if s'.socket != s.socket { AscendsOn(s.socket, s'.socket); }
  }

  lemma SentBelow(cfg: Config, s: Sink, id: MsgId)
    requires QueueInv(cfg, s) && id in s.queue
    ensures forall m <- s.socket :: m.ClientUpdateSync? && m.msgId <= id
  {
    hide UpdatesOnly;
  }

  lemma AscendsOn(socket: seq<CollabMessage>, socket': seq<CollabMessage>)
    requires Ascending(socket) && |socket'| == |socket| + 1 && socket'[..|socket|] == socket
    requires var last := socket'[|socket|];
             last.ClientUpdateSync? && forall m <- socket :: m.ClientUpdateSync? && m.msgId <= last.msgId
    ensures Ascending(socket')
  {
    assert forall i | 0 <= i < |socket| :: socket'[i] == socket'[..|socket|][i] && socket[i] in socket;
  }

  /** Updates leave in the order they were queued; only the last one sent is ever sent again. */
  lemma {:induction false} UpdatesLeaveInOrder(cfg: Config, events: seq<Event>)
    requires ValidConfig(cfg) && Feasible(cfg, events)
    ensures Ascending(After(cfg, events).socket)
  {
    hide Apply;
    hide QueueInv;
    hide Ascending;
    if events == [] {
      EmptyAscends();
    } else {
      UpdatesLeaveInOrder(cfg, Init(events));
      RunKeeps(cfg, Init(events));
      StepAscends(cfg, After(cfg, Init(events)), Last(events));
    }
  }

  lemma EmptyAscends()
    ensures Ascending([])
  {
  }

  // ---------------------------------------------------------------- acks

  /** The sends that the acks of a run completed, in order; each send has a token of its own. */
  ghost function CompletedSends(cfg: Config, events: seq<Event>): seq<Token>
    requires ValidConfig(cfg)
  {
    if events == [] then []
    else
      var s, e := After(cfg, Init(events)), Last(events);
      CompletedSends(cfg, Init(events)) +
      if e.AckArrives? && AckMsg(cfg, s, e.id).1 && s.runner.Waiting? then [s.runner.token] else []
  }

  /** Tokens are given out in order, a runner waits only for one given out, and an accepted ack ends
      the wait. */
  lemma StepTokens(cfg: Config, s: Sink, e: Event)
    requires ValidConfig(cfg) && Enabled(s, e)
    ensures var s' := Apply(cfg, s, e);
            && s.nextToken <= s'.nextToken
            && (s'.runner.Waiting? ==>
                  s'.runner == s.runner || (s'.runner == Waiting(s.nextToken) && s.nextToken < s'.nextToken))
            && (e.AckArrives? && AckMsg(cfg, s, e.id).1 ==> s'.runner == Acked)
  {
    hide Absorb;
  }

  /** Each send is completed at most once, whatever acks arrive, late or repeated; and a send whose
      runner still waits has not been completed. */
  lemma {:induction false} AckCompletesAtMostOncePerSend(cfg: Config, events: seq<Event>)
    requires ValidConfig(cfg) && Feasible(cfg, events)
    ensures var s, done := After(cfg, events), CompletedSends(cfg, events);
            && (forall i, j | 0 <= i < j < |done| :: done[i] != done[j])
            && (forall t <- done :: t < s.nextToken && s.runner != Waiting(t))
            && (s.runner.Waiting? ==> s.runner.token < s.nextToken)
  {
    hide Apply; hide AckMsg; hide Enabled;
    if events == [] {
    } else {
      var s, done := After(cfg, Init(events)), CompletedSends(cfg, Init(events));
      AckCompletesAtMostOncePerSend(cfg, Init(events));
      StepTokens(cfg, s, Last(events));
      if CompletedSends(cfg, events) == done {
      } else {
        assert s.runner.Waiting? && CompletedSends(cfg, events) == done + [s.runner.token];
        assert s.runner.token !in done;
      }
    }
  }

  /** What an accepted ack means: its id is the head's, the runner was waiting for this very send,
      and the pop that follows removes that message and no other. */
  lemma AcceptedAckPopsItsMessage(cfg: Config, s: Sink, id: MsgId)
    requires ValidConfig(cfg) && AckMsg(cfg, s, id).1
    ensures var s' := AckMsg(cfg, s, id).0;
            && id in s.queue && cfg.pop(s.queue) == id && s.queue[id].tx.Some?
            && s.runner == Waiting(s.queue[id].tx.value)
            && (UpdatesOnly(cfg.yrs, s.queue) ==> PopAcked(cfg, s').queue == s.queue - {id})
            && (forall again :: !AckMsg(cfg, s', again).1)
  {
    hide AsUpdate;
    var s' := AckMsg(cfg, s, id).0;
    if UpdatesOnly(cfg.yrs, s.queue) {
      TopIsOldest(cfg, s.queue);
      TopIsOldest(cfg, s'.queue);
      assert s'.queue.Keys == s.queue.Keys;
      assert cfg.pop(s'.queue) == id;
    }
  }

  // ---------------------------------------------------------------- the losing runs

  lemma AfterTwoPushes(cfg: Config, u1: Bytes, u2: Bytes)
    requires ValidConfig(cfg) && |u1| < U32 && |u2| < U32
    ensures var events := [QueueUpdate(u1), QueueUpdate(u2)];
            var s := After(cfg, events);
            && Feasible(cfg, events)
            && s.queue == map[0 := PendingMessage(ClientUpdateSync(0, UpdatePayload(u1)), Pending, None),
                              1 := PendingMessage(ClientUpdateSync(1, UpdatePayload(u2)), Pending, None)]
            && s.socket == [] && s.runner == Idle && !s.paused
            && Ever(cfg.yrs, events) == cfg.yrs.meaning(u1) + cfg.yrs.meaning(u2)
  {
    hide UpdatePayload;
    var e1, e2 := [QueueUpdate(u1)], [QueueUpdate(u1), QueueUpdate(u2)];
    assert Init(e1) == [] && Init(e2) == e1;
    assert After(cfg, []) == NewSink;
    assert After(cfg, e1) == Push(NewSink, ClientUpdateSync(0, UpdatePayload(u1)));
    assert Ever(cfg.yrs, []) == {};
    assert Ever(cfg.yrs, e1) == {} + cfg.yrs.meaning(u1);
    assert Last(e1) == QueueUpdate(u1) && Last(e2) == QueueUpdate(u2);
    assert Feasible(cfg, []) && Feasible(cfg, e1);
  }

  /** The smallest losing run: an update larger than the limit, another one queued behind it, one
      send. The second update is in neither the queue nor the socket. */
  lemma OversizedUpdateLosesTheNext(cfg: Config, u1: Bytes, u2: Bytes)
    requires ValidConfig(cfg) && |u1| < U32 && |u2| < U32
    requires |UpdatePayload(u1)| > cfg.maximumPayloadSize
    ensures var events := [QueueUpdate(u1), QueueUpdate(u2), Process(false, true)];
            && Feasible(cfg, events)
            && Kept(cfg.yrs, After(cfg, events)) == cfg.yrs.meaning(u1)
            && Ever(cfg.yrs, events) == cfg.yrs.meaning(u1) + cfg.yrs.meaning(u2)
  {
    hide UpdatePayload; hide Ops; hide AsUpdate; hide QueueInv; hide ProcessNext;
    hide Feasible; hide After; hide HeapOps; hide SocketOps;
    var m1 := ClientUpdateSync(0, UpdatePayload(u1));
    var s := After(cfg, [QueueUpdate(u1), QueueUpdate(u2)]);
    AfterTwoPushes(cfg, u1, u2);
    ThenOneSend(cfg, u1, u2);
    TwoQueued(cfg, s, m1, ClientUpdateSync(1, UpdatePayload(u2)));
    PushedOps(cfg, 0, u1);
    var p := PendingMessage(m1, Processing, Some(s.nextToken));
    HeapWith(cfg.yrs, map[], 0, p);
    SocketAppend(cfg.yrs, [], m1);
    NothingHeld(cfg.yrs);
    assert map[][0 := p] == map[0 := p] && [] + [m1] == [m1];
  }

  lemma NothingHeld(yrs: Yrs)
    ensures HeapOps(yrs, map[]) == {} && SocketOps(yrs, []) == {}
  {
  }

  lemma ThenOneSend(cfg: Config, u1: Bytes, u2: Bytes)
    requires ValidConfig(cfg) && |u1| < U32 && |u2| < U32
    ensures var e2, e3 := [QueueUpdate(u1), QueueUpdate(u2)], [QueueUpdate(u1), QueueUpdate(u2), Process(false, true)];
            && Feasible(cfg, e3)
            && QueueInv(cfg, After(cfg, e2))
            && After(cfg, e3) == ProcessNext(cfg, After(cfg, e2), false, true)
            && Ever(cfg.yrs, e3) == Ever(cfg.yrs, e2)
  {
    hide UpdatePayload; hide ProcessNext; hide QueueInv;
    var e2, e3 := [QueueUpdate(u1), QueueUpdate(u2)], [QueueUpdate(u1), QueueUpdate(u2), Process(false, true)];
    AfterTwoPushes(cfg, u1, u2);
    RunKeeps(cfg, e2);
    assert Init(e3) == e2;
  }

  lemma TwoQueued(cfg: Config, s: Sink, m1: CollabMessage, m2: CollabMessage)
    requires ValidConfig(cfg) && QueueInv(cfg, s) && !s.paused && s.runner == Idle && s.socket == []
    requires s.queue == map[0 := PendingMessage(m1, Pending, None), 1 := PendingMessage(m2, Pending, None)]
    requires |m1.payload| > cfg.maximumPayloadSize
    ensures var s' := ProcessNext(cfg, s, false, true);
            && s'.queue == map[0 := PendingMessage(m1, Processing, Some(s.nextToken))]
            && s'.socket == [m1]
  {
    hide AsUpdate;
    assert 0 in s.queue && 1 in s.queue;
    TopIsOldest(cfg, s.queue);
    assert cfg.pop(s.queue) == 0;
    var rest := s.queue - {0};
    assert rest == map[1 := PendingMessage(m2, Pending, None)];
    assert 1 in rest;
    TopIsOldest(cfg, rest);
    assert cfg.pop(rest) == 1;
    assert rest - {1} == map[];
    assert MergeLoop(cfg, m1, rest) == Outcome(m1, map[], [], Some(1));
  }

  /** A send that fails marks the head all the same, and the next step pops it: the message, with all
      that was merged into it, is in neither the queue nor the socket. */
  lemma FailedSendLosesTheHead(cfg: Config, s: Sink, sendOk: bool)
    requires ValidConfig(cfg) && QueueInv(cfg, s) && s.runner == Idle && !s.paused && s.queue != map[]
    requires s.queue[cfg.pop(s.queue)].state == Pending
    ensures var id, s' := cfg.pop(s.queue), ProcessNext(cfg, ProcessNext(cfg, s, false, false), false, sendOk);
            && id in s.queue && s'.socket == s.socket
            && id !in s'.queue && s'.queue.Keys < s.queue.Keys
            && forall m <- s'.socket :: m.msgId != id
  {
    hide Ops; hide AsUpdate; hide HeapOps; hide SocketOps; hide MergeLoop; hide Kept;
    var id := cfg.pop(s.queue);
    TopIsOldest(cfg, s.queue);
    SendKeeps(cfg, s, false);
    MergeLoopConserves(cfg, s.queue[id].msg, s.queue - {id});
    var s1 := ProcessNext(cfg, s, false, false);
    assert id in s1.queue && s1.queue[id].state == Processing;
    TopIsOldest(cfg, s1.queue);
    assert cfg.pop(s1.queue) == id;
  }

  /** The smallest such run: an update is queued, its send fails, and it is gone. */
  lemma FailedSendRun(cfg: Config, u: Bytes)
    requires ValidConfig(cfg) && |u| < U32
    ensures var events := [QueueUpdate(u), Process(false, false), Process(false, true)];
            && Feasible(cfg, events)
            && After(cfg, events).queue == map[] && After(cfg, events).socket == []
            && Kept(cfg.yrs, After(cfg, events)) == {} && Ever(cfg.yrs, events) == cfg.yrs.meaning(u)
  {
    hide UpdatePayload; hide Ops; hide AsUpdate;
    var e0, e1, e2 := [], [QueueUpdate(u)], [QueueUpdate(u), Process(false, false)];
    var e3 := [QueueUpdate(u), Process(false, false), Process(false, true)];
    assert Init(e1) == e0 && Init(e2) == e1 && Init(e3) == e2;
    assert Last(e1) == QueueUpdate(u) && Last(e2) == Process(false, false) && Last(e3) == Process(false, true);
    assert Feasible(cfg, e0) && After(cfg, e0) == NewSink && Ever(cfg.yrs, e0) == {};
    var m := ClientUpdateSync(0, UpdatePayload(u));
    assert After(cfg, e1) == Push(NewSink, m);
    assert Feasible(cfg, e1) && Ever(cfg.yrs, e1) == {} + cfg.yrs.meaning(u);
    OneQueued(cfg, Push(NewSink, m), m);
    assert Feasible(cfg, e2) && Ever(cfg.yrs, e2) == Ever(cfg.yrs, e1) + {};
    NothingHeld(cfg.yrs);
  }

  lemma OneQueued(cfg: Config, s: Sink, m: CollabMessage)
    requires ValidConfig(cfg) && !s.paused && s.runner == Idle && s.socket == []
    requires s.queue == map[0 := PendingMessage(m, Pending, None)]
    ensures var s1 := ProcessNext(cfg, s, false, false);
            && s1.runner == Idle
            && ProcessNext(cfg, s1, false, true).queue == map[] && ProcessNext(cfg, s1, false, true).socket == []
  {
    assert 0 in s.queue;
    assert IsTop(s.queue, cfg.pop(s.queue));
    assert cfg.pop(s.queue) == 0;
    assert s.queue - {0} == map[];
    var out := Absorb(cfg, s.queue, 0);
    assert out == Outcome(m, map[], [], None);
    var s1 := ProcessNext(cfg, s, false, false);
    assert s1.queue == map[0 := PendingMessage(m, Processing, Some(s.nextToken))];
    assert 0 in s1.queue;
    assert IsTop(s1.queue, cfg.pop(s1.queue));
    assert cfg.pop(s1.queue) == 0;
    assert s1.queue - {0} == map[];
  }

  // ---------------------------------------------------------------- a send that takes everything in

  /** The waiting payloads merge into the first one after another: the library merges each, and what has
      accumulated is not over the limit when the next one is taken. */
  ghost predicate AllMerge(yrs: Yrs, max: nat, payload: Bytes, waiting: seq<Bytes>)
    decreases |waiting|
  {
    waiting == [] ||
    (&& |payload| <= max
     && match (AsUpdate(yrs, payload), AsUpdate(yrs, waiting[0]))
        case (Some(l), Some(r)) =>
          (match yrs.merge(l, r)
           case Some(u) => AllMerge(yrs, max, Encode(Sync(Update(u))), waiting[1..])
           case None => false)
        case _ => false)
  }

  /** The queue's ids, oldest first. */
  ghost predicate Listed(queue: Queue, ids: seq<MsgId>) {
    (forall i, j | 0 <= i < j < |ids| :: ids[i] < ids[j]) && (forall id :: id in queue <==> id in ids)
  }

  ghost function Payloads(queue: Queue, ids: seq<MsgId>): seq<Bytes>
    requires Listed(queue, ids)
  {
    seq(|ids|, i requires 0 <= i < |ids| => assert ids[i] in ids; queue[ids[i]].msg.payload)
  }

  lemma OldestFirst(cfg: Config, queue: Queue, ids: seq<MsgId>)
    requires ValidConfig(cfg) && UpdatesOnly(cfg.yrs, queue) && Listed(queue, ids) && queue != map[]
    ensures ids != [] && cfg.pop(queue) == ids[0] && ids[0] in queue && Listed(queue - {ids[0]}, ids[1..])
    ensures Payloads(queue, ids)[0] == queue[ids[0]].msg.payload
    ensures Payloads(queue, ids)[1..] == Payloads(queue - {ids[0]}, ids[1..])
  {
    TopIsOldest(cfg, queue);
    assert cfg.pop(queue) in ids && ids[0] in ids && ids[0] in queue;
    hide *;
    RestListed(queue, ids);
  }

  lemma RestListed(queue: Queue, ids: seq<MsgId>)
    requires Listed(queue, ids) && ids != []
    ensures ids[0] in queue && Listed(queue - {ids[0]}, ids[1..])
    ensures Payloads(queue, ids)[0] == queue[ids[0]].msg.payload
    ensures Payloads(queue, ids)[1..] == Payloads(queue - {ids[0]}, ids[1..])
  {
    assert ids[0] in ids;
    TailListed(queue, ids);
    hide Listed;
  }

  lemma TailListed(queue: Queue, ids: seq<MsgId>)
    requires Listed(queue, ids) && ids != []
    ensures Listed(queue - {ids[0]}, ids[1..])
  {
    var rest := queue - {ids[0]};
    assert ids == [ids[0]] + ids[1..];
    forall id ensures id in rest <==> id in ids[1..] {
      assert id in ids <==> id == ids[0] || id in ids[1..];
    }
  }

  lemma AllMergeStep(yrs: Yrs, max: nat, a: CollabMessage, b: CollabMessage, waiting: seq<Bytes>)
    requires IsUpdate(yrs, a) && IsUpdate(yrs, b) && waiting != [] && waiting[0] == b.payload
    ensures var r := Merge(yrs, max, a, b);
            AllMerge(yrs, max, a.payload, waiting) <==>
            r.Continue? && AllMerge(yrs, max, r.merged.payload, waiting[1..])
  {
    MergeIff(yrs, max, a, b);
    hide AsUpdate; hide Encode; hide Merge;
  }

  ghost predicate TakesAll(out: Outcome) {
    out.queue == map[] && out.dropped == None
  }

  lemma LoopStep(cfg: Config, head: CollabMessage, queue: Queue)
    requires ValidConfig(cfg) && queue != map[]
    ensures var id := cfg.pop(queue);
            && id in queue
            && var r := Merge(cfg.yrs, cfg.maximumPayloadSize, head, queue[id].msg);
               var out := MergeLoop(cfg, head, queue);
               && (!r.Continue? ==> !TakesAll(out))
               && (r.Continue? ==>
                     var after := MergeLoop(cfg, r.merged, queue - {id});
                     && (TakesAll(out) <==> TakesAll(after))
                     && out.head == after.head && out.absorbed == [id] + after.absorbed)
  {
    assert IsTop(queue, cfg.pop(queue));
    hide Merge;
  }

  lemma FirstWaits(cfg: Config, queue: Queue, ids: seq<MsgId>)
    requires ValidConfig(cfg) && UpdatesOnly(cfg.yrs, queue) && Listed(queue, ids) && queue != map[]
    ensures ids != [] && cfg.pop(queue) == ids[0] && ids[0] in queue
    ensures var first, rest, waiting := queue[ids[0]].msg, queue - {ids[0]}, Payloads(queue, ids);
            && IsUpdate(cfg.yrs, first) && UpdatesOnly(cfg.yrs, rest) && Listed(rest, ids[1..]) && |rest| < |queue|
            && waiting != [] && waiting[0] == first.payload && waiting[1..] == Payloads(rest, ids[1..])
            && HeapOps(cfg.yrs, queue) == HeapOps(cfg.yrs, rest) + Ops(cfg.yrs, first)
  {
    OldestFirst(cfg, queue, ids);
    PayloadCount(queue, ids);
    HeapWithout(cfg.yrs, queue, ids[0]);
    hide AsUpdate; hide Ops; hide HeapOps; hide ValidConfig; hide Listed; hide Payloads;
    var rest := queue - {ids[0]};
    assert rest.Keys == queue.Keys - {ids[0]} && |rest.Keys| < |queue.Keys|;
  }

  /** Exactly when the merge loop empties a queue of updates without dropping one: the payloads all merge,
      oldest first. The message then holds every queued operation and keeps the head's id. */
  lemma {:induction false} MergesAllIff(cfg: Config, head: CollabMessage, queue: Queue, ids: seq<MsgId>)
    requires ValidConfig(cfg) && IsUpdate(cfg.yrs, head) && UpdatesOnly(cfg.yrs, queue) && Listed(queue, ids)
    ensures var out := MergeLoop(cfg, head, queue);
            && (TakesAll(out) <==> AllMerge(cfg.yrs, cfg.maximumPayloadSize, head.payload, Payloads(queue, ids)))
            && (TakesAll(out) ==>
                  && IsUpdate(cfg.yrs, out.head) && out.head.msgId == head.msgId && out.absorbed == ids
                  && Ops(cfg.yrs, out.head) == Ops(cfg.yrs, head) + HeapOps(cfg.yrs, queue))
    decreases |queue|
  {
    hide AsUpdate; hide Ops; hide HeapOps; hide ValidConfig; hide Encode; hide Listed; hide Payloads; hide Merge;
    hide MergeLoop; hide AllMerge; hide TakesAll; hide UpdatesOnly;
    if queue == map[] {
      NothingListed(queue, ids);
      NothingHeld(cfg.yrs);
      NothingToMerge(cfg, head);
    } else {
      FirstWaits(cfg, queue, ids);
      LoopStep(cfg, head, queue);
      var first, rest := queue[ids[0]].msg, queue - {ids[0]};
      AllMergeStep(cfg.yrs, cfg.maximumPayloadSize, head, first, Payloads(queue, ids));
      var r := Merge(cfg.yrs, cfg.maximumPayloadSize, head, first);
      if r.Continue? {
        MergedIsUpdate(cfg, head, first);
        MergesAllIff(cfg, r.merged, rest, ids[1..]);
        assert ids == [ids[0]] + ids[1..];
      }
    }
  }

  lemma MergedIsUpdate(cfg: Config, a: CollabMessage, b: CollabMessage)
    requires ValidConfig(cfg) && IsUpdate(cfg.yrs, a)
    ensures var r := Merge(cfg.yrs, cfg.maximumPayloadSize, a, b);
            r.Continue? ==>
              && IsUpdate(cfg.yrs, r.merged) && r.merged.msgId == a.msgId
              && Ops(cfg.yrs, r.merged) == Ops(cfg.yrs, a) + Ops(cfg.yrs, b)
  {
    MergeMeaning(cfg.yrs, cfg.maximumPayloadSize, a, b);
    hide AsUpdate; hide Ops; hide Merge;
  }

  lemma PayloadCount(queue: Queue, ids: seq<MsgId>)
    requires Listed(queue, ids)
    ensures |Payloads(queue, ids)| == |ids|
  {
  }

  lemma NothingToMerge(cfg: Config, head: CollabMessage)
    requires ValidConfig(cfg)
    ensures MergeLoop(cfg, head, map[]) == Outcome(head, map[], [], None) && TakesAll(MergeLoop(cfg, head, map[]))
    ensures AllMerge(cfg.yrs, cfg.maximumPayloadSize, head.payload, [])
  {
  }

  lemma NothingListed(queue: Queue, ids: seq<MsgId>)
    requires Listed(queue, ids) && queue == map[]
    ensures ids == [] && Payloads(queue, ids) == []
  {
    if ids != [] { ListedNonempty(queue, ids); }
  }

  lemma ListedNonempty(queue: Queue, ids: seq<MsgId>)
    requires Listed(queue, ids) && ids != []
    ensures queue != map[]
  {
    assert ids[0] in ids && ids[0] in queue;
  }

  /** A send of the head over updates that all merge empties the queue into one message, which is handed to
      the socket under the head's id with every queued operation in it. */
  lemma SendMergesAll(cfg: Config, s: Sink, ids: seq<MsgId>)
    requires ValidConfig(cfg) && QueueInv(cfg, s) && s.runner == Idle && !s.paused && s.queue != map[]
    requires Listed(s.queue, ids)
    requires var p := s.queue[cfg.pop(s.queue)]; p.state == Pending || p.state == Timeout
    requires var all := Payloads(s.queue, ids);
             all != [] && AllMerge(cfg.yrs, cfg.maximumPayloadSize, all[0], all[1..])
    ensures var s', id := ProcessNext(cfg, s, false, true), ids[0];
            && s'.queue.Keys == {id} && s'.queue[id].msg.ClientUpdateSync? && s'.queue[id].msg.msgId == id
            && Ops(cfg.yrs, s'.queue[id].msg) == HeapOps(cfg.yrs, s.queue)
            && s'.socket == s.socket + [s'.queue[id].msg]
  {
    OldestFirst(cfg, s.queue, ids);
    var id := ids[0];
    var head, rest := s.queue[id].msg, s.queue - {id};
    assert IsUpdate(cfg.yrs, head) && UpdatesOnly(cfg.yrs, rest) by { hide AsUpdate; }
    MergesAllIff(cfg, head, rest, ids[1..]);
    HeapWithout(cfg.yrs, s.queue, id);
    TrySendIs(cfg, s, true);
    hide AsUpdate; hide Ops; hide HeapOps; hide MergeLoop; hide ValidConfig; hide QueueInv; hide AllMerge;
  }
}
