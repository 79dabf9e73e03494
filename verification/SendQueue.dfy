/** The client's send queue: a priority heap of pending messages, sent one at a time. The head may
    absorb later updates by merging, is handed to the socket, and is popped when its ack arrives or
    sent again when it times out. */
module SendQueue {
  import opened Common
  import opened MessageCodec
  import CrdtDocument

  type Op = CrdtDocument.Op
  type MsgId = nat
  type Token = nat

  // ---------------------------------------------------------------- messages and their order

  datatype CollabMessage =
    | ClientInitSync(msgId: MsgId, payload: Bytes)
    | ClientUpdateSync(msgId: MsgId, payload: Bytes)
    | ClientAck(source: MsgId, payload: Bytes)
    | ServerInitSync(msgId: MsgId, payload: Bytes)
    | AwarenessSync(payload: Bytes)
    | ServerBroadcast(payload: Bytes)

  function IdOf(m: CollabMessage): Option<MsgId> {
    match m
    case ClientInitSync(id, _) => Some(id)
    case ClientUpdateSync(id, _) => Some(id)
    case ClientAck(id, _) => Some(id)
    case ServerInitSync(id, _) => Some(id)
    case AwarenessSync(_) => None
    case ServerBroadcast(_) => None
  }

  function CmpId(a: Option<MsgId>, b: Option<MsgId>): int {
    match (a, b)
    case (None, None) => 0
    case (None, Some(_)) => -1
    case (Some(_), None) => 1
    case (Some(x), Some(y)) => if x < y then -1 else if x > y then 1 else 0
  }

  /** Ord for CollabMessage: positive when `a` leaves the heap before `b`. */
  function Cmp(a: CollabMessage, b: CollabMessage): int {
    if a.ClientInitSync? && b.ClientInitSync? then 0
    else if a.ClientInitSync? then 1
    else if b.ClientInitSync? then -1
    else if a.ServerInitSync? && b.ServerInitSync? then 0
    else if a.ServerInitSync? then 1
    else if b.ServerInitSync? then -1
    else -CmpId(IdOf(a), IdOf(b))
  }

  /** Where a message stands in the heap: inits of the client, those of the server, messages without an id,
      then updates and acks by their id. */
  function Rank(m: CollabMessage): (nat, MsgId) {
    match m
    case ClientInitSync(_, _) => (0, 0)
    case ServerInitSync(_, _) => (1, 0)
    case AwarenessSync(_) => (2, 0)
    case ServerBroadcast(_) => (2, 0)
    case ClientUpdateSync(id, _) => (3, id)
    case ClientAck(id, _) => (3, id)
  }

  lemma OrderIsByRank(a: CollabMessage, b: CollabMessage)
    ensures Cmp(a, b) > 0 <==> Rank(a).0 < Rank(b).0 || (Rank(a).0 == Rank(b).0 && Rank(a).1 < Rank(b).1)
    ensures Cmp(a, b) == 0 <==> Rank(a) == Rank(b)
  {
  }

  /** The order is a total preorder; the earlier of two updates is the greater one; and two messages
      can tie without being equal (equality compares ids) only if both are inits of one side. */
  lemma OrderIsTotalPreorder(a: CollabMessage, b: CollabMessage, c: CollabMessage)
    ensures Cmp(a, a) == 0 && Cmp(a, b) == -Cmp(b, a)
    ensures Cmp(a, b) >= 0 && Cmp(b, c) >= 0 ==> Cmp(a, c) >= 0
    ensures a.ClientUpdateSync? && b.ClientUpdateSync? ==> (Cmp(a, b) > 0 <==> a.msgId < b.msgId)
    ensures a.ClientInitSync? && !b.ClientInitSync? ==> Cmp(a, b) > 0
    ensures a.ServerInitSync? && b.ClientUpdateSync? ==> Cmp(a, b) > 0
    ensures Cmp(a, b) == 0 && IdOf(a) != IdOf(b) ==>
              (a.ClientInitSync? && b.ClientInitSync?) || (a.ServerInitSync? && b.ServerInitSync?)
  {
  }

  // ---------------------------------------------------------------- merging

  /** The yrs library: merge_updates_v1 on encoded updates, and the operations an update holds. */
  datatype Yrs = Yrs(codec: Library, merge: (Bytes, Bytes) -> Option<Bytes>, meaning: Bytes -> set<Op>)

  /** A merged update holds what its parts held, and still fits a length-prefixed buffer. */
  ghost predicate Lawful(yrs: Yrs) {
    forall l, r :: yrs.merge(l, r).Some? ==>
      && |yrs.merge(l, r).value| < U32
      && yrs.meaning(yrs.merge(l, r).value) == yrs.meaning(l) + yrs.meaning(r)
  }

  function UpdatePayload(update: Bytes): Bytes {
    Encode(Sync(Update(update)))
  }

  /** as_update: the first message of a payload, if it is an update. */
  function AsUpdate(yrs: Yrs, payload: Bytes): Option<Bytes> {
    match Decode(yrs.codec, payload)
    case Got(Sync(Update(u)), _) => Some(u)
    case _ => None
  }

  datatype MergeResult = Continue(merged: CollabMessage) | Halt | Error

  /** merge: Ok(true), Ok(false) or Err. */
  function Merge(yrs: Yrs, max: nat, a: CollabMessage, b: CollabMessage): MergeResult {
    if !a.ClientUpdateSync? || !b.ClientUpdateSync? || |a.payload| > max then Halt
    else
      match (AsUpdate(yrs, a.payload), AsUpdate(yrs, b.payload))
      case (Some(l), Some(r)) =>
        (match yrs.merge(l, r)
         case Some(u) => Continue(ClientUpdateSync(a.msgId, UpdatePayload(u)))
         case None => Error)
      case _ => Halt
  }

  /** The operations a message carries as an update. */
  function Ops(yrs: Yrs, m: CollabMessage): set<Op> {
    match AsUpdate(yrs, m.payload)
    case Some(u) => yrs.meaning(u)
    case None => {}
  }

  lemma UpdatePayloadReadsBack(yrs: Yrs, u: Bytes)
    requires |u| < U32
    ensures AsUpdate(yrs, UpdatePayload(u)) == Some(u)
  {
    MessageRoundTrip(yrs.codec, Sync(Update(u)), []);
    assert UpdatePayload(u) + [] == UpdatePayload(u);
  }

  lemma MergeMeaning(yrs: Yrs, max: nat, a: CollabMessage, b: CollabMessage)
    requires Lawful(yrs)
    ensures var r := Merge(yrs, max, a, b);
            r.Continue? ==>
              && r.merged.ClientUpdateSync? && r.merged.msgId == a.msgId
              && AsUpdate(yrs, r.merged.payload).Some?
              && Ops(yrs, r.merged) == Ops(yrs, a) + Ops(yrs, b)
  {
    var r := Merge(yrs, max, a, b);
    if r.Continue? {
      var u := yrs.merge(AsUpdate(yrs, a.payload).value, AsUpdate(yrs, b.payload).value).value;
      UpdatePayloadReadsBack(yrs, u);
    }
  }

  /** A payload is an update exactly if the first message in it decodes and is one. */
  lemma AsUpdateMeaning(yrs: Yrs, payload: Bytes, u: Bytes)
    ensures AsUpdate(yrs, payload) == Some(u) <==>
            exists rest: Bytes :: Decode(yrs.codec, payload) == Got(Sync(Update(u)), rest)
  {
  }

  /** When a merge succeeds: two updates merge exactly when the first is not over the limit and the library
      merges what they hold, whatever their ids; an error of the library is an error, and anything else,
      an update over the limit included, says stop. */
  lemma MergeIff(yrs: Yrs, max: nat, a: CollabMessage, b: CollabMessage)
    ensures var l, r := AsUpdate(yrs, a.payload), AsUpdate(yrs, b.payload);
            var out, mergeable := Merge(yrs, max, a, b),
                a.ClientUpdateSync? && b.ClientUpdateSync? && |a.payload| <= max && l.Some? && r.Some?;
            && (out.Halt? <==> !mergeable)
            && (out.Error? <==> mergeable && yrs.merge(l.value, r.value).None?)
            && (forall u :: mergeable && yrs.merge(l.value, r.value) == Some(u) ==>
                  out == Continue(ClientUpdateSync(a.msgId, Encode(Sync(Update(u))))))
  {
    hide AsUpdate; hide Encode;
  }

  // ---------------------------------------------------------------- the queue

  datatype MessageState = Pending | Processing | Done | Timeout

  /** A queued message; `tx` names the send whose completion it holds. */
  datatype PendingMessage = PendingMessage(msg: CollabMessage, state: MessageState, tx: Option<Token>)

  /** The heap's contents, by message id. Ids come from one counter, so they are distinct. */
  type Queue = map<MsgId, PendingMessage>

  predicate IsTop(queue: Queue, id: MsgId) {
    id in queue && forall j <- queue :: Cmp(queue[id].msg, queue[j].msg) >= 0
  }

  /** `pop` says which of the greatest messages the heap returns. */
  datatype Config = Config(yrs: Yrs, maximumPayloadSize: nat, pop: Queue -> MsgId)

  ghost predicate ValidConfig(cfg: Config) {
    && Lawful(cfg.yrs)
    && forall q: Queue :: q != map[] ==> IsTop(q, cfg.pop(q))
  }

  /** The runner is one task: idle, waiting for the ack of a send, or told that it arrived. */
  datatype Runner = Idle | Waiting(token: Token) | Acked

  datatype Sink = Sink(
    queue: Queue,
    counter: MsgId,
    runner: Runner,
    nextToken: Token,
    paused: bool,
    socket: seq<CollabMessage>)   // what was handed to the socket, in order

  const NewSink := Sink(map[], 0, Idle, 0, false, [])

  datatype Outcome = Outcome(head: CollabMessage, queue: Queue, absorbed: seq<MsgId>, dropped: Option<MsgId>)

  /** The merge loop of try_send_msg_immediately: pop and merge until the heap is empty, a merge
      fails (the popped message goes back) or a merge says stop (the popped message is gone). */
  ghost function MergeLoop(cfg: Config, head: CollabMessage, queue: Queue): (out: Outcome)
    requires ValidConfig(cfg)
    decreases |queue|
  {
    if queue == map[] then Outcome(head, queue, [], None)
    else
      var id := cfg.pop(queue);
      var rest := queue - {id};
      assert rest.Keys == queue.Keys - {id};
      match Merge(cfg.yrs, cfg.maximumPayloadSize, head, queue[id].msg)
      case Error => Outcome(head, queue, [], None)
      case Halt => Outcome(head, rest, [], Some(id))
      case Continue(merged) =>
        assert |rest.Keys| < |queue.Keys|;
        var out := MergeLoop(cfg, merged, rest);
        out.(absorbed := [id] + out.absorbed)
  }

  /** What sending the head does to the queue, once the head is known to need sending. */
  ghost function Absorb(cfg: Config, queue: Queue, id: MsgId): Outcome
    requires ValidConfig(cfg) && id in queue
  {
    if queue[id].msg.ClientUpdateSync? then MergeLoop(cfg, queue[id].msg, queue - {id})
    else Outcome(queue[id].msg, queue - {id}, [], None)
  }

  ghost function TrySend(cfg: Config, s: Sink, sendOk: bool): Sink
    requires ValidConfig(cfg)
  {
    if s.queue == map[] then s
    else
      var id := cfg.pop(s.queue);
      if s.queue[id].state == Done || s.queue[id].state == Processing then
        // popped and not pushed back
        s.(queue := s.queue - {id})
      else
        var out := Absorb(cfg, s.queue, id);
        var s' := s.(queue := out.queue[id := PendingMessage(out.head, Processing, Some(s.nextToken))],
                     nextToken := s.nextToken + 1);
        if sendOk then s'.(runner := Waiting(s.nextToken), socket := s.socket + [out.head]) else s'
  }

  /** What is not held back by the fixed interval: an init, and a finished head. */
  predicate Urgent(p: PendingMessage) {
    p.msg.ClientInitSync? || p.state == Done
  }

  /** process_next_msg: an init at the head is sent at once, a finished head is cleared at once,
      anything else waits for the fixed interval if there is one. */
  ghost function ProcessNext(cfg: Config, s: Sink, tooEarly: bool, sendOk: bool): Sink
    requires ValidConfig(cfg)
  {
    if s.paused then s
    else
      var urgent := s.queue != map[] && Urgent(s.queue[cfg.pop(s.queue)]);
      if !urgent && tooEarly then s else TrySend(cfg, s, sendOk)
  }

  function Push(s: Sink, msg: CollabMessage): Sink {
    s.(queue := s.queue[s.counter := PendingMessage(msg, Pending, None)], counter := s.counter + 1)
  }

  /** ack_msg: only the head can be acked, and the ack counts only if the runner still waits for it. */
  ghost function AckMsg(cfg: Config, s: Sink, id: MsgId): (Sink, bool)
    requires ValidConfig(cfg)
  {
    if s.queue == map[] || cfg.pop(s.queue) != id then (s, false)
    else
      var p := s.queue[id];
      var s' := s.(queue := s.queue[id := p.(state := Done, tx := None)]);
      if p.tx.Some? && s.runner == Waiting(p.tx.value) then (s'.(runner := Acked), true) else (s', false)
  }

  ghost function PopAcked(cfg: Config, s: Sink): Sink
    requires ValidConfig(cfg)
  {
    (if s.queue == map[] then s else s.(queue := s.queue - {cfg.pop(s.queue)})).(runner := Idle)
  }

  ghost function TimedOut(cfg: Config, s: Sink): Sink
    requires ValidConfig(cfg)
  {
    (if s.queue == map[] then s
     else
       var id := cfg.pop(s.queue);
       s.(queue := s.queue[id := s.queue[id].(state := Timeout)])).(runner := Idle)
  }

  // ---------------------------------------------------------------- the imperative sink

  class CollabSink {
    const cfg: Config
    var queue: Queue
    var counter: MsgId
    var runner: Runner
    var nextToken: Token
    var paused: bool
    var socket: seq<CollabMessage>

    function View(): Sink
      reads this
    {
      Sink(queue, counter, runner, nextToken, paused, socket)
    }

    constructor (cfg: Config)
      ensures this.cfg == cfg && View() == NewSink
    {
      this.cfg := cfg;
      queue, counter, runner, nextToken, paused, socket := map[], 0, Idle, 0, false, [];
    }

    method QueueMsg(f: MsgId -> CollabMessage)
      modifies this
      ensures View() == Push(old(View()), f(old(counter)))
      ensures View() == old(View()).(queue := queue, counter := old(counter) + 1)
      ensures queue == old(queue)[old(counter) := PendingMessage(f(old(counter)), Pending, None)]
    {
      var msgId := counter;
      counter := counter + 1;
      queue := queue[msgId := PendingMessage(f(msgId), Pending, None)];
    }

    method QueueInitSync(f: MsgId -> CollabMessage)
      modifies this
      ensures View() == Push(old(View()).(queue := map[]), f(old(counter)))
      ensures View() == old(View()).(queue := queue, counter := old(counter) + 1)
      ensures queue == map[old(counter) := PendingMessage(f(old(counter)), Pending, None)]
    {
      queue := map[];
      QueueMsg(f);
    }

    method Clear()
      modifies this
      ensures View() == old(View()).(queue := map[])
    {
      queue := map[];
    }

    method Ack(id: MsgId) returns (isDone: bool)
      requires ValidConfig(cfg)
      modifies this
      ensures (View(), isDone) == AckMsg(cfg, old(View()), id)
      ensures isDone <==>
              && old(queue) != map[] && cfg.pop(old(queue)) == id
              && old(queue)[id].tx.Some? && old(runner) == Waiting(old(queue)[id].tx.value)
      ensures queue == if old(queue) == map[] || cfg.pop(old(queue)) != id then old(queue)
                       else old(queue)[id := PendingMessage(old(queue)[id].msg, Done, None)]
      ensures runner == if isDone then Acked else old(runner)
      ensures View() == old(View()).(queue := queue, runner := runner)
    {
      if queue == map[] {
        return false;
      }
      var top := cfg.pop(queue);
      if top != id {
        return false;
      }
      isDone := SetState(top, Done);
    }

    /** set_state on the message with this id. */
    method SetState(id: MsgId, state: MessageState) returns (notified: bool)
      requires id in queue
      modifies this
      ensures state != Done ==>
                !notified && View() == old(View()).(queue := old(queue)[id := old(queue)[id].(state := state)])
      ensures state == Done ==>
                var p := old(queue)[id];
                && notified == (p.tx.Some? && old(runner) == Waiting(p.tx.value))
                && View() == old(View()).(
                     queue := old(queue)[id := p.(state := Done, tx := None)],
                     runner := if notified then Acked else old(runner))
    {
      var p := queue[id];
      if p.state != state {
        p := p.(state := state);
      }
      notified := false;
      if p.state == Done {
        if p.tx.Some? {
          notified := runner == Waiting(p.tx.value);
          if notified {
            runner := Acked;
          }
          p := p.(tx := None);
        }
      }
      queue := queue[id := p];
    }

    method ProcessNextMsg(tooEarly: bool, sendOk: bool)
      requires ValidConfig(cfg) && runner == Idle
      modifies this
      ensures View() == ProcessNext(cfg, old(View()), tooEarly, sendOk)
      ensures old(paused) || (tooEarly && (old(queue) == map[] || !Urgent(old(queue)[cfg.pop(old(queue))]))) ==>
                View() == old(View())
      ensures !old(paused) && (!tooEarly || (old(queue) != map[] && Urgent(old(queue)[cfg.pop(old(queue))]))) ==>
                View() == TrySend(cfg, old(View()), sendOk)
    {
      if paused {
        return;
      }
      var deferrable := queue == map[] || !queue[cfg.pop(queue)].msg.ClientInitSync?;
      if !deferrable {
        TrySendMsgImmediately(sendOk);
        return;
      }
      var isPrevMsgDone := queue != map[] && queue[cfg.pop(queue)].state == Done;
      if isPrevMsgDone {
        TrySendMsgImmediately(sendOk);
        return;
      }
      if tooEarly {
        return;
      }
      TrySendMsgImmediately(sendOk);
    }

    method TrySendMsgImmediately(sendOk: bool)
      requires ValidConfig(cfg) && runner == Idle
      modifies this
      ensures View() == TrySend(cfg, old(View()), sendOk)
      ensures old(queue) == map[] ==> View() == old(View())
      ensures old(queue) != map[] ==>
                var id := cfg.pop(old(queue));
                var p := old(queue)[id];
                if p.state == Done || p.state == Processing then View() == old(View()).(queue := old(queue) - {id})
                else
                  && (!p.msg.ClientUpdateSync? ==>
                        queue == old(queue)[id := PendingMessage(p.msg, Processing, Some(old(nextToken)))])
                  && (p.msg.ClientUpdateSync? ==>
                        var out := MergeLoop(cfg, p.msg, old(queue) - {id});
                        queue == out.queue[id := PendingMessage(out.head, Processing, Some(old(nextToken)))])
                  && nextToken == old(nextToken) + 1 && counter == old(counter) && paused == old(paused)
                  && id in queue
                  && socket == (if sendOk then old(socket) + [queue[id].msg] else old(socket))
                  && runner == if sendOk then Waiting(old(nextToken)) else old(runner)
    {
      if queue == map[] {
        return;
      }
      var id := cfg.pop(queue);
      var sending := queue[id];
      queue := queue - {id};
      if sending.state == Done {
        return;
      }
      if sending.state == Processing {
        return;
      }
      if sending.msg.ClientUpdateSync? {
        var head := MergePending(sending.msg);
        sending := sending.(msg := head);
      }
      sending := sending.(tx := Some(nextToken));
      sending := sending.(state := Processing);
      queue := queue[id := sending];
      if sendOk {
        socket := socket + [sending.msg];
        runner := Waiting(nextToken);
      }
      nextToken := nextToken + 1;
    }

    /** The loop that merges pending messages into the one being sent. */
    method MergePending(first: CollabMessage) returns (head: CollabMessage)
      requires ValidConfig(cfg)
      modifies this`queue
      ensures var out := MergeLoop(cfg, first, old(queue));
              head == out.head && queue == out.queue
    {
      hide Merge;
      head := first;
      while queue != map[]
        invariant var whole, rest := MergeLoop(cfg, first, old(queue)), MergeLoop(cfg, head, queue);
                  whole.head == rest.head && whole.queue == rest.queue
        decreases |queue|
      {
        var id := cfg.pop(queue);
        var pending := queue[id];
        ghost var before := queue;
        queue := queue - {id};
        assert queue.Keys == before.Keys - {id} && |queue.Keys| < |before.Keys|;
        var r := Merge(cfg.yrs, cfg.maximumPayloadSize, head, pending.msg);
        match r {
          case Continue(merged) =>
            head := merged;
          case Halt =>
            break;
          case Error =>
            queue := queue[id := pending];
            assert queue == before;
            break;
        }
      }
    }

    /** The runner learns that its send was acked, and pops the head. */
    method OnAcked()
      requires ValidConfig(cfg) && runner == Acked
      modifies this
      ensures View() == PopAcked(cfg, old(View()))
      ensures View() == old(View()).(
                queue := if old(queue) == map[] then map[] else old(queue) - {cfg.pop(old(queue))}, runner := Idle)
    {
      if queue != map[] {
        queue := queue - {cfg.pop(queue)};
      }
      runner := Idle;
    }

    /** The runner gives up waiting; the head will be sent again. */
    method OnTimeout()
      requires ValidConfig(cfg) && runner.Waiting?
      modifies this
      ensures View() == TimedOut(cfg, old(View()))
      ensures View() == old(View()).(queue := queue, runner := Idle)
      ensures old(queue) == map[] ==> queue == map[]
      ensures old(queue) != map[] ==>
                var id := cfg.pop(old(queue));
                queue == old(queue)[id := old(queue)[id].(state := Timeout)]
    {
      if queue != map[] {
        var _ := SetState(cfg.pop(queue), Timeout);
      }
      runner := Idle;
    }
  }
}
