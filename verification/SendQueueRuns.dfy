/** Whole runs of the send queue while only updates are queued: what is conserved, in which order
    updates leave, and exactly when an edit is lost. */
module SendQueueRuns {
  import opened Common
  import opened MessageCodec
  import opened SendQueue

  datatype Event =
    | QueueUpdate(update: Bytes)
    | AckArrives(id: MsgId)
    | Process(tooEarly: bool, sendOk: bool)
    | RunnerAcked
    | RunnerTimeout
    | SetPaused(on: bool)

  /** Acks arrive, late or repeated, only for messages that were handed to the socket. */
  ghost predicate Enabled(s: Sink, e: Event) {
    match e
    case QueueUpdate(u) => |u| < U32
    case AckArrives(id) => exists m <- s.socket :: IdOf(m) == Some(id)
    case Process(_, _) => s.runner == Idle
    case RunnerAcked => s.runner == Acked
    case RunnerTimeout => s.runner.Waiting?
    case SetPaused(_) => true
  }

  ghost function Apply(cfg: Config, s: Sink, e: Event): Sink
    requires ValidConfig(cfg)
  {
    match e
    case QueueUpdate(u) => Push(s, ClientUpdateSync(s.counter, UpdatePayload(u)))
    case AckArrives(id) => AckMsg(cfg, s, id).0
    case Process(tooEarly, sendOk) => ProcessNext(cfg, s, tooEarly, sendOk)
    case RunnerAcked => PopAcked(cfg, s)
    case RunnerTimeout => TimedOut(cfg, s)
    case SetPaused(on) => s.(paused := on)
  }

  function Init(events: seq<Event>): seq<Event>
    requires events != []
  {
    events[..|events| - 1]
  }

  function Last(events: seq<Event>): Event
    requires events != []
  {
    events[|events| - 1]
  }

  ghost function After(cfg: Config, events: seq<Event>): Sink
    requires ValidConfig(cfg)
  {
    if events == [] then NewSink else Apply(cfg, After(cfg, Init(events)), Last(events))
  }

  ghost predicate Feasible(cfg: Config, events: seq<Event>)
    requires ValidConfig(cfg)
  {
    events == [] || (Feasible(cfg, Init(events)) && Enabled(After(cfg, Init(events)), Last(events)))
  }

  /** Every operation of every update that was ever queued. */
  function Ever(yrs: Yrs, events: seq<Event>): set<Op> {
    if events == [] then {}
    else Ever(yrs, Init(events)) + if Last(events).QueueUpdate? then yrs.meaning(Last(events).update) else {}
  }

  function HeapOps(yrs: Yrs, queue: Queue): set<Op> {
    set id, op | id in queue && op in Ops(yrs, queue[id].msg) :: op
  }

  function SocketOps(yrs: Yrs, socket: seq<CollabMessage>): set<Op> {
    set m, op | m in socket && op in Ops(yrs, m) :: op
  }

  /** The operations still queued or handed to the socket. */
  function Kept(yrs: Yrs, s: Sink): set<Op> {
    HeapOps(yrs, s.queue) + SocketOps(yrs, s.socket)
  }

  /** Will process_next_msg reach the point where it sends the head? */
  ghost predicate Sends(cfg: Config, s: Sink, tooEarly: bool)
    requires ValidConfig(cfg)
  {
    && !s.paused && s.queue != map[]
    && var head := s.queue[cfg.pop(s.queue)];
       && (head.state == Pending || head.state == Timeout)
       && (!tooEarly || head.msg.ClientInitSync?)
  }

  /** The message that a step pops, fails to merge and does not put back. */
  ghost function DroppedBy(cfg: Config, s: Sink, e: Event): Option<MsgId>
    requires ValidConfig(cfg)
  {
    if e.Process? && Sends(cfg, s, e.tooEarly) then Absorb(cfg, s.queue, cfg.pop(s.queue)).dropped else None
  }

  /** The payload accumulated so far exceeds the limit while a message is still queued. */
  ghost predicate Overflows(cfg: Config, head: CollabMessage, queue: Queue)
    requires ValidConfig(cfg)
    decreases |queue|
  {
    queue != map[] &&
    (|head.payload| > cfg.maximumPayloadSize ||
     (var id := cfg.pop(queue);
      var r := Merge(cfg.yrs, cfg.maximumPayloadSize, head, queue[id].msg);
      var rest := queue - {id};
      assert rest.Keys == queue.Keys - {id};
      assert |rest.Keys| < |queue.Keys|;
      r.Continue? && Overflows(cfg, r.merged, rest)))
  }

  /** The guard of the merge that drops a message: a send whose head grows past the limit while
      messages wait. */
  ghost predicate Overflowing(cfg: Config, s: Sink, e: Event)
    requires ValidConfig(cfg)
  {
    && e.Process? && Sends(cfg, s, e.tooEarly)
    && var id := cfg.pop(s.queue);
       id in s.queue && s.queue[id].msg.ClientUpdateSync? && Overflows(cfg, s.queue[id].msg, s.queue - {id})
  }

  /** A step that pops the head without sending it: the runner was told of its ack, or finds it done
      or still processing. */
  ghost predicate PopsHead(cfg: Config, s: Sink, e: Event)
    requires ValidConfig(cfg)
  {
    && s.queue != map[]
    && var head := s.queue[cfg.pop(s.queue)];
       || e.RunnerAcked?
       || (&& e.Process? && !s.paused
           && (head.state == Done || (head.state == Processing && (!e.tooEarly || head.msg.ClientInitSync?))))
  }

  /** The popped head was marked for a send that failed: as it stands it was never handed over. */
  ghost predicate Abandons(cfg: Config, s: Sink, e: Event)
    requires ValidConfig(cfg)
  {
    PopsHead(cfg, s, e) && s.queue[cfg.pop(s.queue)].msg !in s.socket
  }

  /** No step of the run meets either guard. */
  ghost predicate Lossless(cfg: Config, events: seq<Event>)
    requires ValidConfig(cfg)
  {
    events == [] ||
    (&& Lossless(cfg, Init(events))
     && !Overflowing(cfg, After(cfg, Init(events)), Last(events))
     && !Abandons(cfg, After(cfg, Init(events)), Last(events)))
  }

  // ---------------------------------------------------------------- the invariant

  predicate IsUpdate(yrs: Yrs, m: CollabMessage) {
    m.ClientUpdateSync? && AsUpdate(yrs, m.payload).Some?
  }

  predicate UpdatesOnly(yrs: Yrs, queue: Queue) {
    forall id <- queue :: IsUpdate(yrs, queue[id].msg) && queue[id].msg.msgId == id
  }

  /** Only the oldest message was ever given to a send; a message waiting for its re-send, or for its
      ack, was handed to the socket as it stands. */
  ghost predicate QueueInv(cfg: Config, s: Sink) {
    && UpdatesOnly(cfg.yrs, s.queue)
    && (forall id <- s.queue :: id < s.counter)
    && (forall id, j | id in s.queue && j in s.queue && s.queue[id].state != Pending :: id <= j)
    && (forall id <- s.queue :: s.queue[id].state == Timeout ==> s.queue[id].msg in s.socket)
    && (forall m <- s.socket :: m.ClientUpdateSync? && m.msgId < s.counter)
    && (forall m, id | m in s.socket && id in s.queue :: m.msgId <= id)
    && (forall m <- s.socket :: m.msgId in s.queue ==> s.queue[m.msgId].state != Pending)
    && (s.runner.Waiting? ==> exists id <- s.queue :: s.queue[id].state != Pending && s.queue[id].msg in s.socket)
    && (s.runner.Acked? ==> exists id <- s.queue :: s.queue[id].state == Done && s.queue[id].msg in s.socket)
  }

  // ---------------------------------------------------------------- facts about the heap

  lemma TopIsOldest(cfg: Config, queue: Queue)
    requires ValidConfig(cfg) && UpdatesOnly(cfg.yrs, queue) && queue != map[]
    ensures cfg.pop(queue) in queue && forall j <- queue :: cfg.pop(queue) <= j
  {
    assert IsTop(queue, cfg.pop(queue));
  }

  lemma HeapWithout(yrs: Yrs, queue: Queue, id: MsgId)
    requires id in queue
    ensures HeapOps(yrs, queue) == HeapOps(yrs, queue - {id}) + Ops(yrs, queue[id].msg)
  {
    hide Ops;
    hide AsUpdate;
    forall op | op in HeapOps(yrs, queue)
      ensures op in HeapOps(yrs, queue - {id}) + Ops(yrs, queue[id].msg)
    {
      var i :| i in queue && op in Ops(yrs, queue[i].msg);
      if i != id {
        var rest := queue - {id};
        assert i in rest && rest[i] == queue[i];
      }
    }
  }

  lemma HeapWith(yrs: Yrs, queue: Queue, id: MsgId, p: PendingMessage)
    requires id !in queue
    ensures HeapOps(yrs, queue[id := p]) == HeapOps(yrs, queue) + Ops(yrs, p.msg)
  {
    hide Ops;
    hide AsUpdate;
    HeapWithout(yrs, queue[id := p], id);
    assert queue[id := p] - {id} == queue;
  }

  /** Changing the state or the completion of a message changes neither the order nor the contents. */
  lemma StateChangeKeepsOps(yrs: Yrs, queue: Queue, id: MsgId, state: MessageState, tx: Option<Token>)
    requires id in queue
    ensures HeapOps(yrs, queue[id := PendingMessage(queue[id].msg, state, tx)]) == HeapOps(yrs, queue)
  {
    hide Ops;
    hide AsUpdate;
    var queue' := queue[id := PendingMessage(queue[id].msg, state, tx)];
    HeapWithout(yrs, queue, id);
    HeapWithout(yrs, queue', id);
    assert queue' - {id} == queue - {id};
  }

  lemma SocketAppend(yrs: Yrs, socket: seq<CollabMessage>, m: CollabMessage)
    ensures SocketOps(yrs, socket + [m]) == SocketOps(yrs, socket) + Ops(yrs, m)
  {
    hide Ops;
    hide AsUpdate;
    assert forall x :: x in socket + [m] <==> x in socket || x == m;
  }

  function OpsAt(yrs: Yrs, queue: Queue, id: Option<MsgId>): set<Op>
    requires id.Some? ==> id.value in queue
  {
    if id.Some? then Ops(yrs, queue[id.value].msg) else {}
  }

  /** The merge loop moves operations from the heap into the head, and loses at most one message. */
  lemma {:induction false} MergeLoopConserves(cfg: Config, head: CollabMessage, queue: Queue)
    requires ValidConfig(cfg) && IsUpdate(cfg.yrs, head) && UpdatesOnly(cfg.yrs, queue)
    ensures var out := MergeLoop(cfg, head, queue);
            && IsUpdate(cfg.yrs, out.head) && out.head.msgId == head.msgId
            && (forall id <- out.queue :: id in queue && out.queue[id] == queue[id])
            && (out.dropped.Some? ==> out.dropped.value in queue && out.dropped.value !in out.queue)
            && Ops(cfg.yrs, head) + HeapOps(cfg.yrs, queue)
               == Ops(cfg.yrs, out.head) + HeapOps(cfg.yrs, out.queue) + OpsAt(cfg.yrs, queue, out.dropped)
    decreases |queue|
  {
    hide Ops;
    hide AsUpdate;
    if queue == map[] {
    } else {
      TopIsOldest(cfg, queue);
      var id := cfg.pop(queue);
      var rest := queue - {id};
      HeapWithout(cfg.yrs, queue, id);
      MergeMeaning(cfg.yrs, cfg.maximumPayloadSize, head, queue[id].msg);
      var r := Merge(cfg.yrs, cfg.maximumPayloadSize, head, queue[id].msg);
      if r.Continue? {
        assert rest.Keys == queue.Keys - {id} && |rest.Keys| < |queue.Keys|;
        MergeLoopConserves(cfg, r.merged, rest);
      }
    }
  }

  /** The guard of the losing branch: a message is dropped exactly when merging runs over the limit. */
  lemma {:induction false} DroppedIffOverflows(cfg: Config, head: CollabMessage, queue: Queue)
    requires ValidConfig(cfg) && IsUpdate(cfg.yrs, head) && UpdatesOnly(cfg.yrs, queue)
    ensures MergeLoop(cfg, head, queue).dropped.Some? <==> Overflows(cfg, head, queue)
    decreases |queue|
  {
    hide AsUpdate;
    if queue == map[] {
    } else {
      TopIsOldest(cfg, queue);
      var id := cfg.pop(queue);
      var rest := queue - {id};
      MergeMeaning(cfg.yrs, cfg.maximumPayloadSize, head, queue[id].msg);
      MergeHalts(cfg, head, queue[id].msg);
      var r := Merge(cfg.yrs, cfg.maximumPayloadSize, head, queue[id].msg);
      if r.Continue? {
        assert rest.Keys == queue.Keys - {id} && |rest.Keys| < |queue.Keys|;
        DroppedIffOverflows(cfg, r.merged, rest);
      }
    }
  }

  lemma MergeHalts(cfg: Config, a: CollabMessage, b: CollabMessage)
    requires IsUpdate(cfg.yrs, a) && IsUpdate(cfg.yrs, b)
    ensures Merge(cfg.yrs, cfg.maximumPayloadSize, a, b).Halt? <==> |a.payload| > cfg.maximumPayloadSize
  {
    hide AsUpdate;
  }

  // ---------------------------------------------------------------- the invariant holds in every run

  lemma PushKeepsInv(cfg: Config, s: Sink, m: CollabMessage)
    requires QueueInv(cfg, s) && IsUpdate(cfg.yrs, m) && m.msgId == s.counter
    ensures QueueInv(cfg, Push(s, m))
  {
    hide IsUpdate;
    var s' := Push(s, m);
    assert s'.queue[s.counter] == PendingMessage(m, Pending, None);
    assert forall id <- s'.queue :: id == s.counter || (id in s.queue && s'.queue[id] == s.queue[id]);
    assert forall id <- s.queue :: id in s'.queue && s'.queue[id] == s.queue[id];
    assert UpdatesOnly(cfg.yrs, s'.queue);
    hide UpdatesOnly;
  }

  lemma PushMessageKeeps(cfg: Config, s: Sink, m: CollabMessage)
    requires ValidConfig(cfg) && QueueInv(cfg, s) && IsUpdate(cfg.yrs, m) && m.msgId == s.counter
    ensures QueueInv(cfg, Push(s, m))
    ensures Kept(cfg.yrs, Push(s, m)) == Kept(cfg.yrs, s) + Ops(cfg.yrs, m)
  {
    PushKeepsInv(cfg, s, m);
    assert s.counter !in s.queue;
    hide QueueInv; hide Ops; hide ValidConfig; hide HeapOps; hide SocketOps;
    HeapWith(cfg.yrs, s.queue, s.counter, PendingMessage(m, Pending, None));
  }

  lemma PushKeeps(cfg: Config, s: Sink, u: Bytes)
    requires ValidConfig(cfg) && QueueInv(cfg, s) && |u| < U32
    ensures var s' := Push(s, ClientUpdateSync(s.counter, UpdatePayload(u)));
            && QueueInv(cfg, s')
            && Kept(cfg.yrs, s') == Kept(cfg.yrs, s) + cfg.yrs.meaning(u)
  {
    hide Kept;
    hide QueueInv;
    hide UpdatePayload;
    UpdatePayloadReadsBack(cfg.yrs, u);
    PushMessageKeeps(cfg, s, ClientUpdateSync(s.counter, UpdatePayload(u)));
  }

  /** What a step loses for good. */
  ghost function LostBy(cfg: Config, s: Sink, e: Event): set<Op>
    requires ValidConfig(cfg)
  {
    var d := DroppedBy(cfg, s, e);
    (if d.Some? && d.value in s.queue then Ops(cfg.yrs, s.queue[d.value].msg) else {})
    + if Abandons(cfg, s, e) then Ops(cfg.yrs, s.queue[cfg.pop(s.queue)].msg) else {}
  }

  /** The head is popped after it was given to a send. */
  lemma PopKeeps(cfg: Config, s: Sink)
    requires ValidConfig(cfg) && QueueInv(cfg, s) && s.queue != map[]
    requires s.queue[cfg.pop(s.queue)].state != Pending
    ensures var head := s.queue[cfg.pop(s.queue)];
            var s' := s.(queue := s.queue - {cfg.pop(s.queue)}, runner := Idle);
            && QueueInv(cfg, s')
            && Kept(cfg.yrs, s) == Kept(cfg.yrs, s') + (if head.msg in s.socket then {} else Ops(cfg.yrs, head.msg))
  {
    hide Ops;
    hide AsUpdate;
    HeapWithout(cfg.yrs, s.queue, cfg.pop(s.queue));
  }

  /** The head, once given to a send, changes state. */
  lemma MarkKeeps(cfg: Config, s: Sink, state: MessageState, tx: Option<Token>, runner: Runner)
    requires ValidConfig(cfg) && QueueInv(cfg, s) && s.queue != map[]
    requires s.queue[cfg.pop(s.queue)].state != Pending && state != Pending
    requires state == Timeout ==> s.queue[cfg.pop(s.queue)].msg in s.socket
    requires runner == s.runner || runner == Idle || (runner == Acked && state == Done && s.runner.Waiting?)
    requires s.runner == Acked ==> runner == Idle || state == Done
    ensures var id := cfg.pop(s.queue);
            var s' := s.(queue := s.queue[id := PendingMessage(s.queue[id].msg, state, tx)], runner := runner);
            QueueInv(cfg, s') && Kept(cfg.yrs, s') == Kept(cfg.yrs, s)
  {
    hide Ops;
    hide AsUpdate;
    var id := cfg.pop(s.queue);
    TopIsOldest(cfg, s.queue);
    StateChangeKeepsOps(cfg.yrs, s.queue, id, state, tx);
    SentHeadIsTop(cfg, s);
    var queue' := s.queue[id := PendingMessage(s.queue[id].msg, state, tx)];
    assert queue'[id].state == state && queue'[id].msg == s.queue[id].msg;
  }

  /** The state after the head was given to a send that worked, or failed. */
  function AfterSend(s: Sink, id: MsgId, out: Outcome, sendOk: bool): Sink {
    var s' := s.(queue := out.queue[id := PendingMessage(out.head, Processing, Some(s.nextToken))],
                 nextToken := s.nextToken + 1);
    if sendOk then s'.(runner := Waiting(s.nextToken), socket := s.socket + [out.head]) else s'
  }

  /** The send itself: what is left in the heap was there and was never given to a send. */
  lemma SendKeepsInv(cfg: Config, s: Sink, out: Outcome, sendOk: bool)
    requires ValidConfig(cfg) && QueueInv(cfg, s) && s.queue != map[] && s.runner == Idle
    requires IsUpdate(cfg.yrs, out.head) && out.head.msgId == cfg.pop(s.queue)
    requires forall id <- out.queue :: id != cfg.pop(s.queue) && id in s.queue && out.queue[id] == s.queue[id]
    ensures QueueInv(cfg, AfterSend(s, cfg.pop(s.queue), out, sendOk))
  {
    hide Ops;
    hide AsUpdate;
    var id := cfg.pop(s.queue);
    TopIsOldest(cfg, s.queue);
    hide IsTop; hide Lawful;
    FailedSendKeepsInv(cfg, s, out, id);
    if sendOk { HandedOver(cfg, AfterSend(s, id, out, false), id, s.nextToken); }
  }

  lemma FailedSendKeepsInv(cfg: Config, s: Sink, out: Outcome, id: MsgId)
    requires QueueInv(cfg, s) && id in s.queue && s.runner == Idle && forall j <- s.queue :: id <= j
    requires IsUpdate(cfg.yrs, out.head) && out.head.msgId == id
    requires forall j <- out.queue :: j != id && j in s.queue && out.queue[j] == s.queue[j]
    ensures QueueInv(cfg, AfterSend(s, id, out, false))
    ensures forall j <- AfterSend(s, id, out, false).queue :: id <= j
  {
    hide Ops;
    hide AsUpdate;
    assert forall j <- out.queue :: out.queue[j].state == Pending;
  }

  /** Handing the marked head to the socket. */
  lemma HandedOver(cfg: Config, s: Sink, id: MsgId, token: Token)
    requires QueueInv(cfg, s) && id in s.queue && s.queue[id].state == Processing && s.runner == Idle
    requires forall j <- s.queue :: id <= j
    ensures QueueInv(cfg, s.(runner := Waiting(token), socket := s.socket + [s.queue[id].msg]))
  {
    hide Ops;
    hide AsUpdate;
    var socket := s.socket + [s.queue[id].msg];
    assert forall m :: m in socket <==> m in s.socket || m == s.queue[id].msg;
  }

  lemma SendKeepsOps(cfg: Config, s: Sink, out: Outcome, lost: set<Op>, sendOk: bool)
    requires s.queue != map[] && cfg.pop(s.queue) in s.queue && cfg.pop(s.queue) !in out.queue
    requires Ops(cfg.yrs, s.queue[cfg.pop(s.queue)].msg) + HeapOps(cfg.yrs, s.queue - {cfg.pop(s.queue)})
          == Ops(cfg.yrs, out.head) + HeapOps(cfg.yrs, out.queue) + lost
    ensures Kept(cfg.yrs, s) == Kept(cfg.yrs, AfterSend(s, cfg.pop(s.queue), out, sendOk)) + lost
  {
    hide Ops;
    var id := cfg.pop(s.queue);
    HeapWithout(cfg.yrs, s.queue, id);
    HeapWith(cfg.yrs, out.queue, id, PendingMessage(out.head, Processing, Some(s.nextToken)));
    SocketAppend(cfg.yrs, s.socket, out.head);
  }

  lemma TrySendIs(cfg: Config, s: Sink, sendOk: bool)
    requires ValidConfig(cfg) && s.queue != map[] && cfg.pop(s.queue) in s.queue
    requires var p := s.queue[cfg.pop(s.queue)]; p.state == Pending || p.state == Timeout
    ensures TrySend(cfg, s, sendOk) ==
            AfterSend(s, cfg.pop(s.queue), Absorb(cfg, s.queue, cfg.pop(s.queue)), sendOk)
  {
  }

  lemma SendKeeps(cfg: Config, s: Sink, sendOk: bool)
    requires ValidConfig(cfg) && QueueInv(cfg, s) && s.queue != map[] && s.runner == Idle
    requires var p := s.queue[cfg.pop(s.queue)]; p.state == Pending || p.state == Timeout
    ensures var s' := TrySend(cfg, s, sendOk);
            var out := Absorb(cfg, s.queue, cfg.pop(s.queue));
            && cfg.pop(s.queue) in s.queue && s' == AfterSend(s, cfg.pop(s.queue), out, sendOk)
            && QueueInv(cfg, s')
            && (out.dropped.Some? ==> out.dropped.value in s.queue && out.dropped.value != cfg.pop(s.queue))
            && Kept(cfg.yrs, s) == Kept(cfg.yrs, s') + OpsAt(cfg.yrs, s.queue, out.dropped)
  {
    hide Ops;
    hide AsUpdate;
    hide HeapOps;
    hide SocketOps;
    hide MergeLoop;
    var id := cfg.pop(s.queue);
    var rest := s.queue - {id};
    var out := Absorb(cfg, s.queue, id);
    assert id in s.queue && IsUpdate(cfg.yrs, s.queue[id].msg);
    MergeLoopConserves(cfg, s.queue[id].msg, rest);
    TrySendIs(cfg, s, sendOk);
    hide TrySend; hide Kept;
    SendKeepsInv(cfg, s, out, sendOk);
    SendKeepsOps(cfg, s, out, OpsAt(cfg.yrs, rest, out.dropped), sendOk);
  }

  lemma SentHeadIsTop(cfg: Config, s: Sink)
    requires ValidConfig(cfg) && QueueInv(cfg, s)
    ensures s.runner.Waiting? ==>
              && s.queue != map[] && s.queue[cfg.pop(s.queue)].state != Pending
              && s.queue[cfg.pop(s.queue)].msg in s.socket
    ensures s.runner.Acked? ==>
              s.queue != map[] && s.queue[cfg.pop(s.queue)].state == Done && s.queue[cfg.pop(s.queue)].msg in s.socket
  {
    hide Ops;
    hide AsUpdate;
    if s.queue != map[] {
      TopIsOldest(cfg, s.queue);
    }
  }

  lemma ProcessKeeps(cfg: Config, s: Sink, e: Event)
    requires ValidConfig(cfg) && QueueInv(cfg, s) && s.runner == Idle && e.Process?
    ensures QueueInv(cfg, Apply(cfg, s, e))
    ensures Kept(cfg.yrs, s) == Kept(cfg.yrs, Apply(cfg, s, e)) + LostBy(cfg, s, e)
  {
    hide Ops;
    hide AsUpdate;
    hide Kept;
    hide Absorb;
    if Sends(cfg, s, e.tooEarly) {
      SendKeeps(cfg, s, e.sendOk);
      hide TrySend; hide QueueInv;
    } else if s.queue != map[] && s.queue[cfg.pop(s.queue)].state != Pending {
      PopKeeps(cfg, s);
      hide QueueInv;
    }
  }

  lemma AckKeeps(cfg: Config, s: Sink, id: MsgId)
    requires ValidConfig(cfg) && QueueInv(cfg, s) && Enabled(s, AckArrives(id))
    ensures var s' := AckMsg(cfg, s, id).0;
            QueueInv(cfg, s') && Kept(cfg.yrs, s') == Kept(cfg.yrs, s)
  {
    hide Ops;
    hide AsUpdate;
    hide Kept;
    if s.queue != map[] && cfg.pop(s.queue) == id {
      var m :| m in s.socket && IdOf(m) == Some(id);
      TopIsOldest(cfg, s.queue);
      MarkKeeps(cfg, s, Done, None, AckMsg(cfg, s, id).0.runner);
    }
  }

  lemma RunnerKeeps(cfg: Config, s: Sink, e: Event)
    requires ValidConfig(cfg) && QueueInv(cfg, s) && Enabled(s, e) && (e.RunnerAcked? || e.RunnerTimeout?)
    ensures QueueInv(cfg, Apply(cfg, s, e)) && Kept(cfg.yrs, s) == Kept(cfg.yrs, Apply(cfg, s, e))
    ensures !Abandons(cfg, s, e)
  {
    hide Ops;
    hide AsUpdate;
    hide Kept;
    SentHeadIsTop(cfg, s);
    if e.RunnerAcked? {
      PopKeeps(cfg, s);
    } else {
      MarkKeeps(cfg, s, Timeout, s.queue[cfg.pop(s.queue)].tx, Idle);
    }
  }

  /** One step keeps the invariant, and what it adds and loses accounts for what is kept. */
  lemma StepKeeps(cfg: Config, s: Sink, e: Event)
    requires ValidConfig(cfg) && QueueInv(cfg, s) && Enabled(s, e)
    ensures QueueInv(cfg, Apply(cfg, s, e))
    ensures Kept(cfg.yrs, s) + (if e.QueueUpdate? then cfg.yrs.meaning(e.update) else {})
         == Kept(cfg.yrs, Apply(cfg, s, e)) + LostBy(cfg, s, e)
  {
    hide Ops;
    hide AsUpdate;
    hide Kept;
    hide UpdatePayload;
    hide ProcessNext;
    hide QueueInv;
    match e
    case QueueUpdate(u) =>
      PushKeeps(cfg, s, u);
    case AckArrives(id) =>
      AckKeeps(cfg, s, id);
    case Process(_, _) =>
      ProcessKeeps(cfg, s, e);
    case RunnerAcked =>
      RunnerKeeps(cfg, s, e);
    case RunnerTimeout =>
      RunnerKeeps(cfg, s, e);
    case SetPaused(on) =>
      PauseKeeps(cfg, s, on);
  }

  lemma PauseKeeps(cfg: Config, s: Sink, on: bool)
    requires QueueInv(cfg, s)
    ensures QueueInv(cfg, s.(paused := on)) && Kept(cfg.yrs, s.(paused := on)) == Kept(cfg.yrs, s)
  {
  }

  /** A message is dropped exactly under the merge's guard. */
  lemma DroppedIffOverflowing(cfg: Config, s: Sink, e: Event)
    requires ValidConfig(cfg) && QueueInv(cfg, s)
    ensures DroppedBy(cfg, s, e).Some? <==> Overflowing(cfg, s, e)
  {
    hide Ops;
    hide AsUpdate;
    hide MergeLoop;
    hide Overflows;
    if e.Process? && Sends(cfg, s, e.tooEarly) {
      TopIsOldest(cfg, s.queue);
      var id := cfg.pop(s.queue);
      assert UpdatesOnly(cfg.yrs, s.queue - {id});
      DroppedIffOverflows(cfg, s.queue[id].msg, s.queue - {id});
    }
  }

  lemma LosesNothing(cfg: Config, s: Sink, e: Event)
    requires ValidConfig(cfg) && QueueInv(cfg, s) && !Overflowing(cfg, s, e) && !Abandons(cfg, s, e)
    ensures LostBy(cfg, s, e) == {}
  {
    hide QueueInv; hide Overflowing; hide Abandons; hide DroppedBy;
    DroppedIffOverflowing(cfg, s, e);
  }

  lemma {:induction false} RunKeeps(cfg: Config, events: seq<Event>)
    requires ValidConfig(cfg) && Feasible(cfg, events)
    ensures QueueInv(cfg, After(cfg, events))
    ensures Kept(cfg.yrs, After(cfg, events)) <= Ever(cfg.yrs, events)
    ensures Lossless(cfg, events) ==> Kept(cfg.yrs, After(cfg, events)) == Ever(cfg.yrs, events)
  {
    hide Kept; hide QueueInv; hide Apply; hide LostBy; hide Overflowing; hide Abandons; hide Enabled;
    if events == [] {
      NothingAtFirst(cfg);
    } else {
      RunKeeps(cfg, Init(events));
      var s, e := After(cfg, Init(events)), Last(events);
      StepKeeps(cfg, s, e);
      if Lossless(cfg, events) { LosesNothing(cfg, s, e); }
    }
  }

  lemma NothingAtFirst(cfg: Config)
    ensures QueueInv(cfg, NewSink) && Kept(cfg.yrs, NewSink) == {}
  {
  }

  /** No queued edit is lost by a run that meets neither guard: through merging, failed sends,
      timeouts, re-sends and late or repeated acks, everything ever queued is still queued or was
      handed to the socket. */
  lemma NoEditLost(cfg: Config, events: seq<Event>)
    requires ValidConfig(cfg) && Feasible(cfg, events) && Lossless(cfg, events)
    ensures Kept(cfg.yrs, After(cfg, events)) == Ever(cfg.yrs, events)
  {
    RunKeeps(cfg, events);
  }

  // ---------------------------------------------------------------- exactly when an edit is lost

  /** Edits are new: every queued update holds operations, none of them queued before. */
  ghost predicate Fresh(yrs: Yrs, events: seq<Event>) {
    events == [] ||
    (Fresh(yrs, Init(events)) &&
     (Last(events).QueueUpdate? ==>
        yrs.meaning(Last(events).update) != {} && yrs.meaning(Last(events).update) !! Ever(yrs, Init(events))))
  }

  /** Queued messages share no operations; one that was never given to a send shares none with the
      socket; one that was not handed over as it stands has operations the socket lacks. */
  ghost predicate Disjoint(yrs: Yrs, queue: Queue, socket: seq<CollabMessage>) {
    && (forall id <- queue :: Ops(yrs, queue[id].msg) != {})
    && (forall id, j | id in queue && j in queue && id != j :: Ops(yrs, queue[id].msg) !! Ops(yrs, queue[j].msg))
    && (forall id <- queue :: queue[id].state == Pending ==> Ops(yrs, queue[id].msg) !! SocketOps(yrs, socket))
    && (forall id <- queue :: queue[id].msg in socket || !(Ops(yrs, queue[id].msg) <= SocketOps(yrs, socket)))
  }

  /** What the merge loop leaves, and what it drops, stays apart from the head it makes; a head that
      changed has absorbed operations of a waiting message. */
  lemma {:induction false} MergeLoopKeepsApart(cfg: Config, head: CollabMessage, queue: Queue)
    requires ValidConfig(cfg) && IsUpdate(cfg.yrs, head) && UpdatesOnly(cfg.yrs, queue)
    requires forall id, j | id in queue && j in queue && id != j ::
               Ops(cfg.yrs, queue[id].msg) !! Ops(cfg.yrs, queue[j].msg)
    requires forall id <- queue :: Ops(cfg.yrs, queue[id].msg) !! Ops(cfg.yrs, head)
    ensures var out := MergeLoop(cfg, head, queue);
            && Ops(cfg.yrs, head) <= Ops(cfg.yrs, out.head)
            && (forall id <- queue :: id in out.queue || out.dropped == Some(id) ==>
                  Ops(cfg.yrs, queue[id].msg) !! Ops(cfg.yrs, out.head))
            && (out.head == head || exists id <- queue :: Ops(cfg.yrs, queue[id].msg) <= Ops(cfg.yrs, out.head))
    decreases |queue|
  {
    hide Ops;
    hide AsUpdate;
    if queue == map[] {
    } else {
      TopIsOldest(cfg, queue);
      var id := cfg.pop(queue);
      var rest := queue - {id};
      MergeMeaning(cfg.yrs, cfg.maximumPayloadSize, head, queue[id].msg);
      var r := Merge(cfg.yrs, cfg.maximumPayloadSize, head, queue[id].msg);
      if r.Continue? {
        assert rest.Keys == queue.Keys - {id} && |rest.Keys| < |queue.Keys|;
        hide Merge;
        MergeLoopKeepsApart(cfg, r.merged, rest);
        MergeLoopConserves(cfg, r.merged, rest);
        assert Ops(cfg.yrs, queue[id].msg) <= Ops(cfg.yrs, MergeLoop(cfg, r.merged, rest).head);
      }
    }
  }

  /** The heap after a send, and the dropped message, given what the merge loop did. */
  lemma ApartAfterSend(yrs: Yrs, queue: Queue, socket: seq<CollabMessage>, id: MsgId, out: Outcome,
                       p: PendingMessage, sendOk: bool)
    requires Disjoint(yrs, queue, socket) && id in queue && id !in out.queue
    requires forall j <- queue :: j != id ==> queue[j].state == Pending
    requires forall j <- out.queue :: j in queue && out.queue[j] == queue[j]
    requires out.dropped.Some? ==>
               out.dropped.value in queue && out.dropped.value != id && out.dropped.value !in out.queue
    requires Ops(yrs, queue[id].msg) <= Ops(yrs, out.head)
    requires forall j <- queue :: j != id && (j in out.queue || out.dropped == Some(j)) ==>
               Ops(yrs, queue[j].msg) !! Ops(yrs, out.head)
    requires out.head == queue[id].msg || exists j <- queue :: j != id && Ops(yrs, queue[j].msg) <= Ops(yrs, out.head)
    requires p.msg == out.head && p.state != Pending
    ensures var socket' := if sendOk then socket + [out.head] else socket;
            && Disjoint(yrs, out.queue[id := p], socket')
            && (out.dropped.Some? ==>
                  Ops(yrs, queue[out.dropped.value].msg)
                  !! HeapOps(yrs, out.queue) + Ops(yrs, out.head) + SocketOps(yrs, socket'))
  {
    hide Ops;
    hide SocketOps;
    SocketAppend(yrs, socket, out.head);
    var queue', socket' := out.queue[id := p], if sendOk then socket + [out.head] else socket;
    assert out.head in socket + [out.head];
    forall j | j in queue'
      ensures queue'[j].msg in socket' || !(Ops(yrs, queue'[j].msg) <= SocketOps(yrs, socket'))
    {
      if j != id {
        assert Ops(yrs, queue[j].msg) !! SocketOps(yrs, socket');
      }
    }
    if out.dropped.Some? {
      var d := out.dropped.value;
      forall j | j in out.queue ensures Ops(yrs, out.queue[j].msg) !! Ops(yrs, queue[d].msg) {
        assert j != d && j in queue;
      }
    }
  }

  lemma OthersPending(cfg: Config, s: Sink)
    requires ValidConfig(cfg) && QueueInv(cfg, s) && s.queue != map[]
    ensures forall j <- s.queue :: j != cfg.pop(s.queue) ==> s.queue[j].state == Pending
    ensures cfg.pop(s.queue) in s.queue
    ensures UpdatesOnly(cfg.yrs, s.queue - {cfg.pop(s.queue)}) && IsUpdate(cfg.yrs, s.queue[cfg.pop(s.queue)].msg)
  {
    hide Ops;
    hide AsUpdate;
    TopIsOldest(cfg, s.queue);
  }

  lemma SendKeepsApart(cfg: Config, s: Sink, sendOk: bool)
    requires ValidConfig(cfg) && QueueInv(cfg, s) && s.queue != map[] && s.runner == Idle
    requires Disjoint(cfg.yrs, s.queue, s.socket)
    requires var p := s.queue[cfg.pop(s.queue)]; p.state == Pending || p.state == Timeout
    ensures var s', d := TrySend(cfg, s, sendOk), Absorb(cfg, s.queue, cfg.pop(s.queue)).dropped;
            && Disjoint(cfg.yrs, s'.queue, s'.socket)
            && (d.Some? ==> d.value in s.queue && Ops(cfg.yrs, s.queue[d.value].msg) !! Kept(cfg.yrs, s'))
  {
    hide QueueInv;
    hide Ops;
    hide AsUpdate;
    hide HeapOps;
    hide SocketOps;
    hide MergeLoop;
    hide TrySend;
    OthersPending(cfg, s);
    var id := cfg.pop(s.queue);
    var head, rest := s.queue[id].msg, s.queue - {id};
    var out := Absorb(cfg, s.queue, id);
    var p := PendingMessage(out.head, Processing, Some(s.nextToken));
    TrySendIs(cfg, s, sendOk);
    MergeLoopConserves(cfg, head, rest);
    MergeLoopKeepsApart(cfg, head, rest);
    ApartAfterSend(cfg.yrs, s.queue, s.socket, id, out, p, sendOk);
    HeapWith(cfg.yrs, out.queue, id, p);
  }

  lemma PopKeepsApart(yrs: Yrs, queue: Queue, socket: seq<CollabMessage>, id: MsgId)
    requires Disjoint(yrs, queue, socket)
    ensures Disjoint(yrs, queue - {id}, socket)
  {
    hide Ops;
    hide SocketOps;
  }

  /** A popped message that was not handed over leaves a gap. */
  lemma PopLoses(yrs: Yrs, queue: Queue, socket: seq<CollabMessage>, id: MsgId)
    requires Disjoint(yrs, queue, socket) && id in queue && queue[id].msg !in socket
    ensures !(Ops(yrs, queue[id].msg) <= HeapOps(yrs, queue - {id}) + SocketOps(yrs, socket))
  {
    hide Ops;
    hide SocketOps;
    var op :| op in Ops(yrs, queue[id].msg) && op !in SocketOps(yrs, socket);
    var rest := queue - {id};
    forall j | j in rest ensures op !in Ops(yrs, rest[j].msg) {
      assert Ops(yrs, queue[j].msg) !! Ops(yrs, queue[id].msg);
    }
  }

  lemma MarkKeepsApart(yrs: Yrs, queue: Queue, socket: seq<CollabMessage>, id: MsgId, state: MessageState,
                       tx: Option<Token>)
    requires Disjoint(yrs, queue, socket) && id in queue && state != Pending
    ensures Disjoint(yrs, queue[id := PendingMessage(queue[id].msg, state, tx)], socket)
  {
    hide Ops;
    hide SocketOps;
  }

  lemma PushMessageKeepsApart(yrs: Yrs, queue: Queue, socket: seq<CollabMessage>, id: MsgId, m: CollabMessage)
    requires Disjoint(yrs, queue, socket) && id !in queue
    requires Ops(yrs, m) != {} && Ops(yrs, m) !! HeapOps(yrs, queue) + SocketOps(yrs, socket)
    ensures Disjoint(yrs, queue[id := PendingMessage(m, Pending, None)], socket)
  {
    hide Ops;
    hide HeapOps;
    hide SocketOps;
    forall j | j in queue ensures Ops(yrs, queue[j].msg) <= HeapOps(yrs, queue) {
      HeapWithout(yrs, queue, j);
    }
  }

  /** A step keeps messages apart, and what it loses leaves a gap. */
  lemma StepKeepsApart(cfg: Config, s: Sink, e: Event, ever: set<Op>)
    requires ValidConfig(cfg) && QueueInv(cfg, s) && Enabled(s, e)
    requires Disjoint(cfg.yrs, s.queue, s.socket) && Kept(cfg.yrs, s) <= ever
    requires e.QueueUpdate? ==> cfg.yrs.meaning(e.update) != {} && cfg.yrs.meaning(e.update) !! ever
    ensures var s' := Apply(cfg, s, e);
            && Disjoint(cfg.yrs, s'.queue, s'.socket)
            && (Overflowing(cfg, s, e) || Abandons(cfg, s, e) ==> !(LostBy(cfg, s, e) <= Kept(cfg.yrs, s')))
  {
    SentHeadIsTop(cfg, s);
    assert s.counter !in s.queue;
    DroppedIffOverflowing(cfg, s, e);
    hide QueueInv;
    hide Disjoint;
    hide Ops;
    hide AsUpdate;
    hide UpdatePayload;
    hide HeapOps;
    hide SocketOps;
    hide MergeLoop;
    hide ProcessNext;
    hide Overflowing;
    match e
    case QueueUpdate(u) =>
      var m := ClientUpdateSync(s.counter, UpdatePayload(u));
      assert Ops(cfg.yrs, m) == cfg.yrs.meaning(u) by {
        PushedOps(cfg, s.counter, u);
      }
      PushMessageKeepsApart(cfg.yrs, s.queue, s.socket, s.counter, m);
    case AckArrives(id) =>
      if s.queue != map[] && cfg.pop(s.queue) == id {
        MarkKeepsApart(cfg.yrs, s.queue, s.socket, id, Done, None);
      }
    case Process(_, _) =>
      ProcessKeepsApart(cfg, s, e);
    case RunnerAcked =>
      PopKeepsApart(cfg.yrs, s.queue, s.socket, cfg.pop(s.queue));
    case RunnerTimeout =>
      var id := cfg.pop(s.queue);
      MarkKeepsApart(cfg.yrs, s.queue, s.socket, id, Timeout, s.queue[id].tx);
    case SetPaused(_) =>
  }

  lemma ProcessKeepsApart(cfg: Config, s: Sink, e: Event)
    requires ValidConfig(cfg) && QueueInv(cfg, s) && s.runner == Idle && e.Process?
    requires Disjoint(cfg.yrs, s.queue, s.socket)
    ensures var s' := Apply(cfg, s, e);
            && Disjoint(cfg.yrs, s'.queue, s'.socket)
            && (DroppedBy(cfg, s, e).Some? || Abandons(cfg, s, e) ==> !(LostBy(cfg, s, e) <= Kept(cfg.yrs, s')))
  {
    if s.queue != map[] { OthersPending(cfg, s); }
    NotEmpty(cfg.yrs, s.queue, s.socket);
    if Sends(cfg, s, e.tooEarly) {
      SendKeepsApart(cfg, s, e.sendOk);
      hide TrySend; hide Absorb; hide Disjoint; hide Ops; hide Kept; hide QueueInv;
    } else if s.queue != map[] {
      var id := cfg.pop(s.queue);
      PopKeepsApart(cfg.yrs, s.queue, s.socket, id);
      hide QueueInv; hide Ops; hide HeapOps; hide SocketOps;
      if s.queue[id].msg !in s.socket { PopLoses(cfg.yrs, s.queue, s.socket, id); }
      hide Disjoint;
    }
  }

  lemma NotEmpty(yrs: Yrs, queue: Queue, socket: seq<CollabMessage>)
    requires Disjoint(yrs, queue, socket)
    ensures forall id <- queue :: Ops(yrs, queue[id].msg) != {}
  {
  }

  lemma PushedOps(cfg: Config, id: MsgId, u: Bytes)
    requires |u| < U32
    ensures Ops(cfg.yrs, ClientUpdateSync(id, UpdatePayload(u))) == cfg.yrs.meaning(u)
  {
    UpdatePayloadReadsBack(cfg.yrs, u);
  }

  lemma {:induction false} RunKeepsApart(cfg: Config, events: seq<Event>)
    requires ValidConfig(cfg) && Feasible(cfg, events) && Fresh(cfg.yrs, events)
    ensures Disjoint(cfg.yrs, After(cfg, events).queue, After(cfg, events).socket)
    ensures !Lossless(cfg, events) ==> Kept(cfg.yrs, After(cfg, events)) < Ever(cfg.yrs, events)
  {
    hide Ops; hide Kept; hide Apply; hide LostBy; hide Overflowing; hide Abandons; hide QueueInv; hide Enabled;
    RunKeeps(cfg, events);
    if events == [] {
    } else {
      var s, e := After(cfg, Init(events)), Last(events);
      RunKeeps(cfg, Init(events));
      RunKeepsApart(cfg, Init(events));
      StepKeeps(cfg, s, e);
      StepKeepsApart(cfg, s, e, Ever(cfg.yrs, Init(events)));
    }
  }

  /** For new edits the two guards are exact, over every run: an edit is lost if and only if some merge
      ran over the limit, or some head was popped that was not handed over as it stood. */
  lemma EditLostIff(cfg: Config, events: seq<Event>)
    requires ValidConfig(cfg) && Feasible(cfg, events) && Fresh(cfg.yrs, events)
    ensures Kept(cfg.yrs, After(cfg, events)) == Ever(cfg.yrs, events) <==> Lossless(cfg, events)
  {
    hide *;
    RunKeeps(cfg, events);
    RunKeepsApart(cfg, events);
  }
}
